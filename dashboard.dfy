/** The dashboard's one computation: from the selected cities and the
  analysis variable, the five grouped tables its charts draw
  (`render_graphs`), and the initial state of its two controls.
 */
module Dashboard {
  import opened Ordering
  import opened Reduction
  import opened GroupBy
  import opened Sales

  /** The two choices the analysis-variable radio offers. */
  const GrossIncomeName: string := "gross income"
  const RatingName: string := "Rating"

  datatype Option<T> = None | Some(value: T)

  /** The numeric columns of a row that can be analysed. */
  datatype Column = GrossIncome | Rating

  /** What the two controls hold: the checked cities and the analysis variable. */
  datatype FilterState = FilterState(cities: seq<string>, variable: string)

  /** The five tables, named by how each is grouped. */
  datatype Aggregates = Aggregates(
    byCity: seq<(string, real)>,
    byPayment: seq<(string, real)>,
    byGenderCity: seq<((string, string), real)>,
    byProductCity: seq<((string, string), real)>,
    byDate: seq<(Date, real)>)

  /** An analysis variable that names neither modelled column. It stands for
      pandas's `KeyError` on a name that is not a column of the frame, and also
      for the frame's other numeric columns, which are not modelled. */
  datatype Error = UnknownColumn(name: string)

  datatype Result<T> = Success(value: T) | Failure(error: Error)

  /** The reduction: a sum for exactly "gross income", a mean for any other
      variable, the radio's "Rating" among them. */
  function OperationFor(variable: string): (op: Op)
    ensures op == Sum <==> variable == GrossIncomeName
  {
    if variable == GrossIncomeName then Sum else Mean
  }

  /** The frame's name for a column. */
  function ColumnName(c: Column): (name: string)
  {
    match c
    case GrossIncome => GrossIncomeName
    case Rating => RatingName
  }

  /** The column a name selects, if the rows have one of that name. */
  function ColumnNamed(name: string): (c: Option<Column>)
    ensures c.Some? ==> ColumnName(c.value) == name
    ensures c.None? ==> forall col :: ColumnName(col) != name
  {
    if name == GrossIncomeName then Some(GrossIncome)
    else if name == RatingName then Some(Rating)
    else None
  }

  /** Selecting a column by its own name finds that column. */
  lemma ColumnNamedRoundTrip(c: Column)
    ensures ColumnNamed(ColumnName(c)) == Some(c)
  {
  }

  /** The column's value in a row. */
  function ValueOf(c: Column): (v: Record -> real)
  {
    match c
    case GrossIncome => GrossIncomeOf
    case Rating => RatingOf
  }

  /** `rows[rows['City'].isin(cities)]`: the rows whose city is selected,
      each as often as in the dataset. */
  function FilterCities(rows: seq<Record>, cities: seq<string>): (kept: seq<Record>)
    ensures forall r :: multiset(kept)[r] == if r.city in cities then multiset(rows)[r] else 0
    ensures forall r :: r in kept <==> r in rows && r.city in cities
  {
    if rows == [] then []
    else
      assert rows == [rows[0]] + rows[1..];
      (if rows[0].city in cities then [rows[0]] else []) + FilterCities(rows[1..], cities)
  }

  /** The aggregation of `render_graphs`: choose the reduction, keep the
      selected cities' rows, and group them five ways. */
  function ComputeAggregates(rows: seq<Record>, state: FilterState): (res: Result<Aggregates>)
    ensures res.Success? <==> state.variable == GrossIncomeName || state.variable == RatingName
    ensures res.Failure? ==> res.error == UnknownColumn(state.variable)
  {
    var op := OperationFor(state.variable);
    var kept := FilterCities(rows, state.cities);
    match ColumnNamed(state.variable)
    case None => Failure(UnknownColumn(state.variable))
    case Some(c) =>
      var v := ValueOf(c);
      Success(Aggregates(
        GroupReduce(kept, CityOf, v, op, StrLess),
        GroupReduce(kept, PaymentOf, v, op, StrLess),
        GroupReduce(kept, GenderCityOf, v, op, PairLess),
        GroupReduce(kept, ProductCityOf, v, op, PairLess),
        GroupReduce(kept, DateOf, v, op, DateLess)))
  }

  /** The five tables of a variable that names column `c`. */
  lemma AggregatesFor(rows: seq<Record>, state: FilterState, c: Column)
    requires ColumnNamed(state.variable) == Some(c)
    ensures var res := ComputeAggregates(rows, state);
            var kept := FilterCities(rows, state.cities);
            var v := ValueOf(c);
            var op := OperationFor(state.variable);
            && res.Success?
            && res.value.byCity == GroupReduce(kept, CityOf, v, op, StrLess)
            && res.value.byPayment == GroupReduce(kept, PaymentOf, v, op, StrLess)
            && res.value.byGenderCity == GroupReduce(kept, GenderCityOf, v, op, PairLess)
            && res.value.byProductCity == GroupReduce(kept, ProductCityOf, v, op, PairLess)
            && res.value.byDate == GroupReduce(kept, DateOf, v, op, DateLess)
  {
  }

  // Filtering.

  lemma {:induction false} FilterKeepsAllSelected(rows: seq<Record>, cities: seq<string>)
    requires forall r :: r in rows ==> r.city in cities
    ensures FilterCities(rows, cities) == rows
    decreases |rows|
  {
    if rows != [] {
      assert rows[0] in rows;
      assert forall r :: r in rows[1..] ==> r in rows;
      FilterKeepsAllSelected(rows[1..], cities);
      assert rows == [rows[0]] + rows[1..];
    }
  }

  /** Filtering twice by the same cities is filtering once. */
  lemma FilterIdempotent(rows: seq<Record>, cities: seq<string>)
    ensures FilterCities(FilterCities(rows, cities), cities) == FilterCities(rows, cities)
  {
    FilterKeepsAllSelected(FilterCities(rows, cities), cities);
  }

  /** With no city selected, nothing is kept. */
  lemma FilterNoCities(rows: seq<Record>)
    ensures FilterCities(rows, []) == []
  {
  }

  /** Rows of cities that are not selected have no effect on any table. */
  lemma OnlySelectedRowsMatter(rows: seq<Record>, state: FilterState)
    ensures ComputeAggregates(FilterCities(rows, state.cities), state) == ComputeAggregates(rows, state)
  {
    FilterIdempotent(rows, state.cities);
  }

  // The five tables.

  /** Every table has one entry per key (or key pair) that occurs among the
      kept rows, in ascending order, and none for a key without rows. */
  lemma TablesKeyedByOccurrence(rows: seq<Record>, state: FilterState)
    requires ComputeAggregates(rows, state).Success?
    ensures var a := ComputeAggregates(rows, state).value;
            var kept := FilterCities(rows, state.cities);
            && KeyedByOccurrence(a.byCity, kept, CityOf, StrLess)
            && KeyedByOccurrence(a.byPayment, kept, PaymentOf, StrLess)
            && KeyedByOccurrence(a.byGenderCity, kept, GenderCityOf, PairLess)
            && KeyedByOccurrence(a.byProductCity, kept, ProductCityOf, PairLess)
            && KeyedByOccurrence(a.byDate, kept, DateOf, DateLess)
  {
    var kept := FilterCities(rows, state.cities);
    var op := OperationFor(state.variable);
    var v := ValueOf(ColumnNamed(state.variable).value);
    StrLessIsStrictTotalOrder();
    PairLessIsStrictTotalOrder();
    DateLessIsStrictTotalOrder();
    GroupReduceKeyed(kept, CityOf, v, op, StrLess);
    GroupReduceKeyed(kept, PaymentOf, v, op, StrLess);
    GroupReduceKeyed(kept, GenderCityOf, v, op, PairLess);
    GroupReduceKeyed(kept, ProductCityOf, v, op, PairLess);
    GroupReduceKeyed(kept, DateOf, v, op, DateLess);
  }

  /** Every city in the City, (Gender, City) and (Product line, City) tables
      is a selected city. */
  lemma TablesShowSelectedCitiesOnly(rows: seq<Record>, state: FilterState)
    requires ComputeAggregates(rows, state).Success?
    ensures var a := ComputeAggregates(rows, state).value;
            && (forall i :: 0 <= i < |a.byCity| ==> a.byCity[i].0 in state.cities)
            && (forall i :: 0 <= i < |a.byGenderCity| ==> a.byGenderCity[i].0.1 in state.cities)
            && (forall i :: 0 <= i < |a.byProductCity| ==> a.byProductCity[i].0.1 in state.cities)
  {
    var a := ComputeAggregates(rows, state).value;
    var kept := FilterCities(rows, state.cities);
    AggregatesFor(rows, state, ColumnNamed(state.variable).value);
    forall i | 0 <= i < |a.byCity| ensures a.byCity[i].0 in state.cities {
      assert a.byCity[i].0 in Keys(a.byCity);
      var r :| r in kept && CityOf(r) == a.byCity[i].0;
    }
    forall i | 0 <= i < |a.byGenderCity| ensures a.byGenderCity[i].0.1 in state.cities {
      assert a.byGenderCity[i].0 in Keys(a.byGenderCity);
      var r :| r in kept && GenderCityOf(r) == a.byGenderCity[i].0;
    }
    forall i | 0 <= i < |a.byProductCity| ensures a.byProductCity[i].0.1 in state.cities {
      assert a.byProductCity[i].0 in Keys(a.byProductCity);
      var r :| r in kept && ProductCityOf(r) == a.byProductCity[i].0;
    }
  }

  /** With no city selected, all five tables are empty. */
  lemma NoCitiesNoGroups(rows: seq<Record>, variable: string)
    requires ComputeAggregates(rows, FilterState([], variable)).Success?
    ensures ComputeAggregates(rows, FilterState([], variable)).value == Aggregates([], [], [], [], [])
  {
  }

  /** Under "gross income" every entry of every table is the sum of its
      group's gross income, and each table adds up to the gross income of
      all kept rows. */
  lemma GrossIncomeIsSummed(rows: seq<Record>, cities: seq<string>)
    ensures var res := ComputeAggregates(rows, FilterState(cities, GrossIncomeName));
            var kept := FilterCities(rows, cities);
            && res.Success?
            && SumsOfGroups(res.value.byCity, kept, CityOf, GrossIncomeOf)
            && SumsOfGroups(res.value.byPayment, kept, PaymentOf, GrossIncomeOf)
            && SumsOfGroups(res.value.byGenderCity, kept, GenderCityOf, GrossIncomeOf)
            && SumsOfGroups(res.value.byProductCity, kept, ProductCityOf, GrossIncomeOf)
            && SumsOfGroups(res.value.byDate, kept, DateOf, GrossIncomeOf)
  {
    var kept := FilterCities(rows, cities);
    StrLessIsStrictTotalOrder();
    PairLessIsStrictTotalOrder();
    DateLessIsStrictTotalOrder();
    GroupReduceSums(kept, CityOf, GrossIncomeOf, StrLess);
    GroupReduceSums(kept, PaymentOf, GrossIncomeOf, StrLess);
    GroupReduceSums(kept, GenderCityOf, GrossIncomeOf, PairLess);
    GroupReduceSums(kept, ProductCityOf, GrossIncomeOf, PairLess);
    GroupReduceSums(kept, DateOf, GrossIncomeOf, DateLess);
  }

  /** Under "Rating" every entry of every table is the mean rating of its
      group, between the group's lowest and highest rating. */
  lemma RatingIsAveraged(rows: seq<Record>, cities: seq<string>)
    ensures var res := ComputeAggregates(rows, FilterState(cities, RatingName));
            var kept := FilterCities(rows, cities);
            && res.Success?
            && MeansOfGroups(res.value.byCity, kept, CityOf, RatingOf)
            && MeansOfGroups(res.value.byPayment, kept, PaymentOf, RatingOf)
            && MeansOfGroups(res.value.byGenderCity, kept, GenderCityOf, RatingOf)
            && MeansOfGroups(res.value.byProductCity, kept, ProductCityOf, RatingOf)
            && MeansOfGroups(res.value.byDate, kept, DateOf, RatingOf)
  {
    var kept := FilterCities(rows, cities);
    assert |RatingName| != |GrossIncomeName|;
    assert ColumnNamed(RatingName) == Some(Rating) && OperationFor(RatingName) == Mean;
    AggregatesFor(rows, FilterState(cities, RatingName), Rating);
    GroupReduceMeans(kept, CityOf, RatingOf, StrLess);
    GroupReduceMeans(kept, PaymentOf, RatingOf, StrLess);
    GroupReduceMeans(kept, GenderCityOf, RatingOf, PairLess);
    GroupReduceMeans(kept, ProductCityOf, RatingOf, PairLess);
    GroupReduceMeans(kept, DateOf, RatingOf, DateLess);
  }

  // The initial state of the controls.

  /** `np.unique(df_data['City'])`: the checklist's options, which are
      also its initial value. */
  function CityOptions(rows: seq<Record>): (cs: seq<string>)
    ensures StrictlyAscending(cs, StrLess)
    ensures forall c :: c in cs <==> exists r :: r in rows && r.city == c
  {
    StrLessIsStrictTotalOrder();
    SortedKeysAscending(rows, CityOf, StrLess);
    SortedKeys(rows, CityOf, StrLess)
  }

  /** Every city checked, "gross income" chosen. */
  function InitialState(rows: seq<Record>): (s: FilterState)
    ensures StrictlyAscending(s.cities, StrLess)
    ensures forall c :: c in s.cities <==> exists r :: r in rows && r.city == c
    ensures ColumnNamed(s.variable) == Some(GrossIncome)
    ensures OperationFor(s.variable) == Sum
  {
    FilterState(CityOptions(rows), GrossIncomeName)
  }

  /** The initial state keeps every row, and its City table adds up to the
      gross income of the whole dataset. */
  lemma InitialStateShowsAllRows(rows: seq<Record>)
    ensures FilterCities(rows, InitialState(rows).cities) == rows
    ensures var res := ComputeAggregates(rows, InitialState(rows));
            res.Success? && Total(Amounts(res.value.byCity)) == Total(Values(rows, GrossIncomeOf))
  {
    var cs := CityOptions(rows);
    forall r | r in rows ensures r.city in cs {
      assert exists r' :: r' in rows && r'.city == r.city;
    }
    FilterKeepsAllSelected(rows, cs);
    GrossIncomeIsSummed(rows, cs);
  }
}

module DashboardScenario {
  import opened Ordering
  import opened Reduction
  import opened GroupBy
  import opened Sales
  import opened Dashboard

  const Male := Record("Yangon", "Male", "Cash", "Health", Date(2019, 1, 5), 10.5, 7.0)
  const Female := Record("Yangon", "Female", "Cash", "Health", Date(2019, 1, 5), 5.0, 9.0)

  /** Two Yangon sales of one day: a Male one of gross income 10.5 and
      rating 7.0, and a Female one of gross income 5.0 and rating 9.0. */
  function TwoSales(): (rows: seq<Record>)
  {
    [Male, Female]
  }

  /** Both sales are kept, and they form a single City group. */
  lemma TwoSalesOneCity(v: Record -> real)
    ensures FilterCities(TwoSales(), ["Yangon"]) == TwoSales()
    ensures SortedKeys(TwoSales(), CityOf, StrLess) == ["Yangon"]
    ensures GroupValues(TwoSales(), CityOf, v, "Yangon") == [v(Male), v(Female)]
  {
    var rows := TwoSales();
    assert rows[1..] == [Female] && rows[1..][1..] == [];
    FilterKeepsAllSelected(rows, ["Yangon"]);
    assert SortedKeys(rows[1..], CityOf, StrLess) == ["Yangon"];
  }

  /** The City table of the two sales, under either reduction of either column. */
  lemma TwoSalesCityTable(v: Record -> real, op: Op)
    ensures GroupReduce(TwoSales(), CityOf, v, op, StrLess) == [("Yangon", Reduce(op, [v(Male), v(Female)]))]
  {
    TwoSalesOneCity(v);
    var t := GroupReduce(TwoSales(), CityOf, v, op, StrLess);
    assert |t| == 1 && t[0].0 == "Yangon";
  }

  /** The (Gender, City) keys of the two sales: Female sorts before Male. */
  lemma TwoSalesGenderCityKeys()
    ensures SortedKeys(TwoSales(), GenderCityOf, PairLess) == [("Female", "Yangon"), ("Male", "Yangon")]
  {
    var rows := TwoSales();
    assert rows[1..] == [Female] && rows[1..][1..] == [];
    assert StrLess("Female", "Male");
    assert !PairLess(("Male", "Yangon"), ("Female", "Yangon"));
    assert SortedKeys(rows[1..], GenderCityOf, PairLess) == [("Female", "Yangon")];
    assert InsertKey([("Female", "Yangon")], ("Male", "Yangon"), PairLess) == [("Female", "Yangon"), ("Male", "Yangon")];
  }

  /** Each (Gender, City) group of the two sales holds one sale. */
  lemma TwoSalesGenderCityGroups(v: Record -> real)
    ensures GroupValues(TwoSales(), GenderCityOf, v, ("Female", "Yangon")) == [v(Female)]
    ensures GroupValues(TwoSales(), GenderCityOf, v, ("Male", "Yangon")) == [v(Male)]
  {
  }

  /** The (Gender, City) table of the two sales. */
  lemma TwoSalesGenderCityTable(v: Record -> real, op: Op)
    ensures GroupReduce(TwoSales(), GenderCityOf, v, op, PairLess)
         == [(("Female", "Yangon"), Reduce(op, [v(Female)])), (("Male", "Yangon"), Reduce(op, [v(Male)]))]
  {
    TwoSalesGenderCityKeys();
    TwoSalesGenderCityGroups(v);
    var t := GroupReduce(TwoSales(), GenderCityOf, v, op, PairLess);
    assert Keys(t) == [("Female", "Yangon"), ("Male", "Yangon")];
    assert |t| == 2 && t[0].0 == ("Female", "Yangon") && t[1].0 == ("Male", "Yangon");
  }

  /** The City and (Gender, City) tables of the two sales, for a variable
      that names a column. */
  lemma TwoSalesTables(variable: string, c: Column)
    requires ColumnNamed(variable) == Some(c)
    ensures var a := ComputeAggregates(TwoSales(), FilterState(["Yangon"], variable)).value;
            && a.byCity == GroupReduce(TwoSales(), CityOf, ValueOf(c), OperationFor(variable), StrLess)
            && a.byGenderCity == GroupReduce(TwoSales(), GenderCityOf, ValueOf(c), OperationFor(variable), PairLess)
  {
    AggregatesFor(TwoSales(), FilterState(["Yangon"], variable), c);
    TwoSalesOneCity(ValueOf(c));
  }

  lemma TwoSalesSums()
    ensures Reduce(Sum, [GrossIncomeOf(Male), GrossIncomeOf(Female)]) == 15.5
    ensures Reduce(Sum, [GrossIncomeOf(Female)]) == 5.0
    ensures Reduce(Sum, [GrossIncomeOf(Male)]) == 10.5
  {
    assert [10.5, 5.0][1..] == [5.0] && [5.0][1..] == [] && [10.5][1..] == [];
  }

  lemma TwoSalesMean()
    ensures Reduce(Mean, [RatingOf(Male), RatingOf(Female)]) == 8.0
  {
    assert [7.0, 9.0][1..] == [9.0] && [9.0][1..] == [];
    assert Total([7.0, 9.0]) == 16.0;
  }

  /** Summing gross income; the (Gender, City) keys come out ascending. */
  lemma TwoSalesGrossIncome()
    ensures var res := ComputeAggregates(TwoSales(), FilterState(["Yangon"], GrossIncomeName));
            && res.Success?
            && res.value.byCity == [("Yangon", 15.5)]
            && res.value.byGenderCity == [(("Female", "Yangon"), 5.0), (("Male", "Yangon"), 10.5)]
  {
    TwoSalesTables(GrossIncomeName, GrossIncome);
    TwoSalesCityTable(GrossIncomeOf, Sum);
    TwoSalesGenderCityTable(GrossIncomeOf, Sum);
    TwoSalesSums();
  }

  /** Averaging ratings: the mean of 7.0 and 9.0. */
  lemma TwoSalesRating()
    ensures var res := ComputeAggregates(TwoSales(), FilterState(["Yangon"], RatingName));
            && res.Success?
            && res.value.byCity == [("Yangon", 8.0)]
  {
    assert |RatingName| != |GrossIncomeName|;
    assert OperationFor(RatingName) == Mean && ValueOf(Rating) == RatingOf;
    TwoSalesTables(RatingName, Rating);
    TwoSalesCityTable(RatingOf, Mean);
    TwoSalesMean();
  }
}
