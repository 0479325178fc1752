# Supermarket sales dashboard: the aggregation model

The dashboard loads a fixed table of supermarket sales once. The user then
picks a set of cities in a checklist and an analysis variable in a radio
("gross income" or "Rating"). On every change the callback `render_graphs`
recomputes five grouped tables from those two inputs. This project models
that computation as pure Dafny functions and proves what the tables
promise. It also models how the two controls start out.

What `render_graphs` does, step by step:

1. It picks the reduction: `np.sum` when the variable is exactly
   `"gross income"`, `np.mean` for any other value.
2. It keeps the rows whose City is in the selected list (`isin`).
3. It groups the kept rows five ways and reduces the chosen column in each
   group: by City, by Payment, by (Gender, City), by (Product line, City)
   and by Date.

Modules:

- `Ordering` (ordering.dfy): strict total orders. `StrLess` is Python's
  code-point order on `str`; `PairLess` is the order on pairs of strings.
  pandas uses them to sort group keys, and `np.unique` to sort cities.
- `Reduction` (reduction.dfy): `np.sum` and `np.mean` over exact `real`s
  (`Total`, `Average`), plus `Min` and `Max`.
- `GroupBy` (groupby.dfy): a generic `groupby(key)[column].apply(op)`
  (`GroupReduce`). It emits one entry per key that occurs, in ascending key
  order, each holding the reduction of its group's values.
- `Sales` (sales.dfy): the sale record, the chronological order on dates,
  and the key and column accessors.
- `Dashboard` (dashboard.dfy): the city filter, the five tables
  (`ComputeAggregates`) and the initial control state.
- `DashboardScenario` (dashboard.dfy): a worked two-sale example.

Each table is named by how it is grouped (`byCity`, `byPayment`,
`byGenderCity`, `byProductCity`, `byDate`), not by the chart that shows it.
The callback returns the product chart in the slot declared for the date
chart, and the other way round (app.py:61-62 against app.py:92).

Behaviour of the code that the model keeps:

- Group order. pandas `groupby` sorts its keys, so every table lists its
  keys in ascending order: in the worked example (Female, Yangon) comes
  before (Male, Yangon) (`DashboardScenario.TwoSalesGrossIncome`).
- Selected cities. `cities` arrives as a list and is tested with `isin`, so
  the model takes a `seq<string>`; repeats and order in it do not matter.
- Analysis variable. The variable is a string that both picks the reduction
  (a sum exactly for `"gross income"`, a mean otherwise) and selects the
  column. The model keeps it a string. A name that is neither modelled
  column gives `Failure(UnknownColumn(name))`. That result stands for
  pandas's `KeyError` on a name that is not a column, and also for the
  frame's other numeric columns, which are listed under "Left out".

Not modelled (external inputs): the dataset is a parameter, an already
typed `seq<Record>`. The checklist and radio values are parameters too.

## Model

| member | source | states |
|---|---|---|
| `Dashboard.OperationFor` | app.py:70 | the reduction is a sum exactly when the variable is "gross income", and a mean for every other value; `Dashboard.GrossIncomeIsSummed` and `Dashboard.RatingIsAveraged` show what that means for the five tables |
| `Dashboard.ColumnNamed` | app.py:74-78 | a name selects a column only if it is that column's name, and selects nothing when no modelled column has that name |
| `Dashboard.ColumnNamedRoundTrip` | app.py:74-78 | selecting a column by its own name finds that column: "gross income" and "Rating" are both analysable |
| `Dashboard.FilterCities` | app.py:72 | a row is kept exactly when its City is in the selected list, and each kept row appears as often as in the dataset |
| `Dashboard.FilterKeepsAllSelected` | app.py:72 | when every row's City is selected, the filter returns the dataset unchanged |
| `Dashboard.FilterIdempotent` | app.py:72 | filtering twice by the same cities is the same as filtering once |
| `Dashboard.FilterNoCities` | app.py:72 | an empty selection keeps no row |
| `Dashboard.ComputeAggregates` | app.py:70-78 | the five tables exist exactly when the variable names one of the two analysed columns; any other name fails with an unknown-column error naming it |
| `Dashboard.OnlySelectedRowsMatter` | app.py:72-78 | rows of unselected cities do not affect any table: computing from the filtered rows gives the same result |
| `Dashboard.TablesKeyedByOccurrence` | app.py:74-78 | in each of the five tables the keys (or key pairs) are strictly ascending, hence distinct, and a key appears exactly when some kept row has it; so there is no Gender×City or Product×City cross-product |
| `Dashboard.TablesShowSelectedCitiesOnly` | app.py:72-77 | every city in the City, (Gender, City) and (Product line, City) tables is a selected city |
| `Dashboard.NoCitiesNoGroups` | app.py:72-78 | with no city selected, all five tables are empty |
| `Dashboard.GrossIncomeIsSummed` | app.py:70-78 | under "gross income" every entry of all five tables is the sum of its group's gross income, and each table adds up to the total gross income of the kept rows |
| `Dashboard.RatingIsAveraged` | app.py:70-78 | under "Rating" every entry of all five tables is the mean rating of its group, between the group's lowest and highest rating |
| `Dashboard.CityOptions` | app.py:35-36 | the checklist options (`np.unique` of the City column) are strictly ascending and are exactly the cities of the dataset |
| `Dashboard.InitialState` | app.py:35-38 | the initial checklist value is strictly ascending and holds exactly the dataset's cities; the initial variable selects the gross income column and the sum |
| `Dashboard.InitialStateShowsAllRows` | app.py:35-38 | the initial state, with every city checked and "gross income" chosen, keeps every row; its City table adds up to the dataset's total gross income |
| `DashboardScenario.TwoSalesGrossIncome` | app.py:70-76 | two Yangon sales of gross income 10.5 (Male) and 5.0 (Female) give City table [Yangon: 15.5] and (Gender, City) table [(Female, Yangon): 5.0, (Male, Yangon): 10.5] |
| `DashboardScenario.TwoSalesRating` | app.py:70-74 | the same sales with ratings 7.0 and 9.0 give City table [Yangon: 8.0] under "Rating" |
| `GroupBy.GroupReduce` | app.py:74 | a key appears in the table exactly when some row has it, and each entry holds the reduction of the values of that key's rows |
| `GroupBy.Values` | app.py:74 | the selected column holds one value per row, the i-th row's value at position i |
| `GroupBy.GroupValues` | app.py:74 | a group's values are non-empty exactly when its key occurs; each value comes from a row with that key, and every such row contributes its value |
| `GroupBy.GroupCounts` | app.py:74 | a group holds each value exactly as often as the rows with its key carry that value (counted in the column of (key, value) pairs), so a group's values are its rows' values with their repeats |
| `GroupBy.GroupSize` | app.py:74 | a group holds exactly one value per row with its key: its size is the number of times the key occurs in the key column (`Values` of the key) |
| `GroupBy.SortedKeys` | app.py:74 | the group keys are exactly the keys that occur among the rows |
| `GroupBy.InsertKey` | app.py:74 | adding a key to the key list yields the old keys plus that key |
| `GroupBy.InsertKeyAscending` | app.py:74 | adding a key keeps the key list strictly ascending |
| `GroupBy.SortedKeysAscending` | app.py:74 | the group keys come out strictly ascending |
| `GroupBy.GroupReduceKeyed` | app.py:74-78 | every grouped table has strictly ascending, distinct keys, one for each key that occurs |
| `GroupBy.GroupReduceSums` | app.py:70 | with `np.sum`, each entry is its group's total and the entries add up to the column's total |
| `GroupBy.GroupReduceMeans` | app.py:70 | with `np.mean`, each entry is its group's mean and lies between the group's minimum and maximum |
| `GroupBy.GroupReduceSingleRow` | app.py:70-78 | a key held by a single row has that row's value as its entry, under either reduction |
| `Reduction.Min` | app.py:70 | the minimum is one of the values and below or equal to all of them |
| `Reduction.Max` | app.py:70 | the maximum is one of the values and above or equal to all of them |
| `Reduction.TotalAppend` | app.py:70 | `np.sum` (`Total`): the sum of two concatenated lists is the sum of their sums |
| `Reduction.Average` | app.py:70 | `np.mean`: the mean times the number of values is their sum, and the mean lies between the minimum and the maximum of the values |
| `Reduction.Reduce` | app.py:70 | the chosen reduction is the sum for `np.sum` and the mean (`Average`) for `np.mean`, which lies between the minimum and the maximum; a single value reduces to itself under either |
| `Ordering.StrLessIsStrictTotalOrder` | app.py:35 | Python's string order, used to sort cities and string keys, is a strict total order |
| `Ordering.PairLessIsStrictTotalOrder` | app.py:76-77 | the order on (Gender, City) and (Product line, City) keys is a strict total order |
| `Sales.DateLessIsStrictTotalOrder` | app.py:78 | chronological order on dates is a strict total order |

## Left out

- Loading the CSV and parsing dates with `pd.to_datetime` (app.py:21-22): file I/O and library parsing. The dataset is an already typed input sequence, and a date is a (year, month, day) triple without validity checks.
- The other numeric columns of the CSV (such as Total or Quantity): pandas would aggregate them if their name were passed. The radio offers only "gross income" and "Rating", so only those two columns are modelled; any other name gives an unknown-column error.
- Building and styling the plotly figures (app.py:80-90), including which chart slot each figure is returned into (app.py:92), and the page layout (app.py:15-18, 25-54): presentation only.
- The Dash callback wiring and the reactive event loop (app.py:57-67), and the server start (app.py:95-96): framework and I/O plumbing.
- IEEE floating point and NaN handling in numpy and pandas: values are exact `real`s, and no value is missing.
- Dashboard.FilterCities: the contract states which rows are kept and how often, not that they stay in dataset order. The definition keeps that order, and no table depends on it.
- GroupBy.GroupValues: the contract and `GroupBy.GroupCounts` state which values make up a group and how often each occurs, but not their order. The definition keeps row order, and neither reduction depends on it.
