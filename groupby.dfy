/** `frame.groupby(key)[column].apply(op)` over a sequence of rows.

  pandas emits one entry per key that occurs among the rows (no entry for a
  key without rows), with the keys in ascending order, and reduces the column
  values of each group's rows with `op`.
 */
module GroupBy {
  import opened Ordering
  import opened Reduction

  /** Some row has key `k`. */
  ghost predicate Occurs<R, K(!new)>(rows: seq<R>, keyOf: R -> K, k: K) {
    exists r :: r in rows && keyOf(r) == k
  }

  /** A column: one value per row, in row order. */
  function Values<R, T>(rows: seq<R>, valueOf: R -> T): (vs: seq<T>)
    ensures |vs| == |rows|
    ensures forall i :: 0 <= i < |rows| ==> vs[i] == valueOf(rows[i])
  {
    if rows == [] then [] else [valueOf(rows[0])] + Values(rows[1..], valueOf)
  }

  /** How often `k` occurs in the key column: once more for a first row
      with that key than among the remaining rows. */
  lemma KeyCount<R, K>(rows: seq<R>, keyOf: R -> K, k: K)
    requires rows != []
    ensures multiset(Values(rows, keyOf))[k]
         == (if keyOf(rows[0]) == k then 1 else 0) + multiset(Values(rows[1..], keyOf))[k]
  {
    assert Values(rows, keyOf) == [keyOf(rows[0])] + Values(rows[1..], keyOf);
  }

  /** The column values of the rows whose key is `k`, in row order, one per
      such row (`GroupSize`). */
  function GroupValues<R, K(==,!new)>(rows: seq<R>, keyOf: R -> K, valueOf: R -> real, k: K): (vs: seq<real>)
    ensures |vs| <= |rows|
    ensures vs != [] <==> Occurs(rows, keyOf, k)
    ensures forall v :: v in vs ==> exists r :: r in rows && keyOf(r) == k && valueOf(r) == v
    ensures forall r :: r in rows && keyOf(r) == k ==> valueOf(r) in vs
    decreases |rows|
  {
    if rows == [] then []
    else
      assert rows == [rows[0]] + rows[1..];
      (if keyOf(rows[0]) == k then [valueOf(rows[0])] else []) + GroupValues(rows[1..], keyOf, valueOf, k)
  }

  /** A group has one value per row with its key. */
  lemma {:induction false} GroupSize<R, K(!new)>(rows: seq<R>, keyOf: R -> K, valueOf: R -> real, k: K)
    ensures |GroupValues(rows, keyOf, valueOf, k)| == multiset(Values(rows, keyOf))[k]
    decreases |rows|
  {
    if rows != [] {
      KeyCount(rows, keyOf, k);
      GroupSize(rows[1..], keyOf, valueOf, k);
    }
  }

  /** A row's key paired with its value. */
  function KeyValueOf<R, K>(keyOf: R -> K, valueOf: R -> real): (f: R -> (K, real))
  {
    r => (keyOf(r), valueOf(r))
  }

  /** A group holds each value as often as rows with its key carry that
      value. */
  lemma {:induction false} GroupCounts<R, K(!new)>(rows: seq<R>, keyOf: R -> K, valueOf: R -> real, k: K, v: real)
    ensures multiset(GroupValues(rows, keyOf, valueOf, k))[v]
         == multiset(Values(rows, KeyValueOf(keyOf, valueOf)))[(k, v)]
    decreases |rows|
  {
    if rows != [] {
      var f := KeyValueOf(keyOf, valueOf);
      assert Values(rows, f) == [f(rows[0])] + Values(rows[1..], f);
      GroupCounts(rows[1..], keyOf, valueOf, k, v);
    }
  }

  /** Adds `k` to a key list kept in ascending order, unless it is there. */
  function InsertKey<K(==,!new)>(ks: seq<K>, k: K, lt: (K, K) -> bool): (r: seq<K>)
    ensures forall x :: x in r <==> x in ks || x == k
    decreases |ks|
  {
    if ks == [] then [k]
    else if k == ks[0] then ks
    else if lt(k, ks[0]) then [k] + ks
    else [ks[0]] + InsertKey(ks[1..], k, lt)
  }

  /** The distinct keys of the rows, ascending. */
  function SortedKeys<R, K(==,!new)>(rows: seq<R>, keyOf: R -> K, lt: (K, K) -> bool): (ks: seq<K>)
    ensures forall k :: k in ks <==> Occurs(rows, keyOf, k)
    decreases |rows|
  {
    if rows == [] then []
    else
      assert rows == [rows[0]] + rows[1..];
      InsertKey(SortedKeys(rows[1..], keyOf, lt), keyOf(rows[0]), lt)
  }

  /** The first components of a table. */
  function Keys<K(!new)>(t: seq<(K, real)>): (ks: seq<K>)
    ensures |ks| == |t|
    ensures forall i :: 0 <= i < |t| ==> ks[i] == t[i].0
  {
    if t == [] then [] else [t[0].0] + Keys(t[1..])
  }

  /** The second components of a table. */
  function Amounts<K>(t: seq<(K, real)>): (vs: seq<real>)
    ensures |vs| == |t|
    ensures forall i :: 0 <= i < |t| ==> vs[i] == t[i].1
  {
    if t == [] then [] else [t[0].1] + Amounts(t[1..])
  }

  /** One entry per key of `ks`, holding the reduction of that key's group. */
  function Tabulate<R, K(==,!new)>(ks: seq<K>, rows: seq<R>, keyOf: R -> K, valueOf: R -> real, op: Op): (t: seq<(K, real)>)
    requires forall k :: k in ks ==> Occurs(rows, keyOf, k)
    ensures Keys(t) == ks
    ensures forall i :: 0 <= i < |t| ==> t[i].1 == Reduce(op, GroupValues(rows, keyOf, valueOf, ks[i]))
  {
    if ks == [] then []
    else [(ks[0], Reduce(op, GroupValues(rows, keyOf, valueOf, ks[0])))] + Tabulate(ks[1..], rows, keyOf, valueOf, op)
  }

  /** `rows.groupby(keyOf)[valueOf].apply(op)`. */
  function GroupReduce<R, K(==,!new)>(rows: seq<R>, keyOf: R -> K, valueOf: R -> real, op: Op, lt: (K, K) -> bool)
    : (t: seq<(K, real)>)
    ensures forall k :: k in Keys(t) <==> Occurs(rows, keyOf, k)
    ensures forall i :: 0 <= i < |t| ==> t[i].1 == Reduce(op, GroupValues(rows, keyOf, valueOf, t[i].0))
  {
    Tabulate(SortedKeys(rows, keyOf, lt), rows, keyOf, valueOf, op)
  }

  /** What every grouped table promises about its keys: ascending, hence
      pairwise distinct, and exactly the keys that occur among the rows. */
  ghost predicate KeyedByOccurrence<R, K(!new)>(t: seq<(K, real)>, rows: seq<R>, keyOf: R -> K, lt: (K, K) -> bool) {
    && StrictlyAscending(Keys(t), lt)
    && (forall i, j :: 0 <= i < j < |t| ==> t[i].0 != t[j].0)
    && (forall k :: k in Keys(t) <==> Occurs(rows, keyOf, k))
  }

  /** Every entry is the mean of its group, and lies between the group's
      smallest and largest value. */
  ghost predicate MeansOfGroups<R, K(!new)>(t: seq<(K, real)>, rows: seq<R>, keyOf: R -> K, valueOf: R -> real) {
    forall i :: 0 <= i < |t| ==>
      var g := GroupValues(rows, keyOf, valueOf, t[i].0);
      g != [] && t[i].1 == Average(g) && Min(g) <= t[i].1 <= Max(g)
  }

  /** Every entry is the sum of its group, and the entries add up to the
      total of the whole column. */
  ghost predicate SumsOfGroups<R, K(!new)>(t: seq<(K, real)>, rows: seq<R>, keyOf: R -> K, valueOf: R -> real) {
    && (forall i :: 0 <= i < |t| ==> t[i].1 == Total(GroupValues(rows, keyOf, valueOf, t[i].0)))
    && Total(Amounts(t)) == Total(Values(rows, valueOf))
  }

  // Keys come out ascending and distinct.

  lemma AscendingCons<K(!new)>(a: K, s: seq<K>, lt: (K, K) -> bool)
    requires StrictlyAscending(s, lt)
    requires forall x :: x in s ==> lt(a, x)
    ensures StrictlyAscending([a] + s, lt)
  {
  }

  lemma {:induction false} InsertKeyAscending<K(!new)>(ks: seq<K>, k: K, lt: (K, K) -> bool)
    requires StrictTotalOrder(lt) && StrictlyAscending(ks, lt)
    ensures StrictlyAscending(InsertKey(ks, k, lt), lt)
    decreases |ks|
  {
    if ks != [] && k != ks[0] {
      assert forall x :: x in ks[1..] ==> lt(ks[0], x) by {
        forall x | x in ks[1..] ensures lt(ks[0], x) {
          var j :| 0 <= j < |ks[1..]| && ks[1..][j] == x;
          assert ks[j + 1] == x;
        }
      }
      if lt(k, ks[0]) {
        AscendingCons(k, ks, lt);
      } else {
        assert StrictlyAscending(ks[1..], lt) by {
          forall i, j | 0 <= i < j < |ks[1..]| ensures lt(ks[1..][i], ks[1..][j]) {
            assert ks[1..][i] == ks[i + 1] && ks[1..][j] == ks[j + 1];
          }
        }
        InsertKeyAscending(ks[1..], k, lt);
        AscendingCons(ks[0], InsertKey(ks[1..], k, lt), lt);
      }
    }
  }

  lemma {:induction false} SortedKeysAscending<R, K(!new)>(rows: seq<R>, keyOf: R -> K, lt: (K, K) -> bool)
    requires StrictTotalOrder(lt)
    ensures StrictlyAscending(SortedKeys(rows, keyOf, lt), lt)
    decreases |rows|
  {
    if rows != [] {
      SortedKeysAscending(rows[1..], keyOf, lt);
      InsertKeyAscending(SortedKeys(rows[1..], keyOf, lt), keyOf(rows[0]), lt);
    }
  }

  lemma AscendingDistinct<K(!new)>(ks: seq<K>, lt: (K, K) -> bool)
    requires StrictTotalOrder(lt) && StrictlyAscending(ks, lt)
    ensures forall i, j :: 0 <= i < j < |ks| ==> ks[i] != ks[j]
  {
  }

  lemma GroupReduceKeyed<R, K(!new)>(rows: seq<R>, keyOf: R -> K, valueOf: R -> real, op: Op, lt: (K, K) -> bool)
    requires StrictTotalOrder(lt)
    ensures KeyedByOccurrence(GroupReduce(rows, keyOf, valueOf, op, lt), rows, keyOf, lt)
  {
    var t := GroupReduce(rows, keyOf, valueOf, op, lt);
    SortedKeysAscending(rows, keyOf, lt);
    AscendingDistinct(Keys(t), lt);
  }

  // The entries of a table of sums add up to the column total.

  /** The group totals of the keys in `ks`, added up. */
  ghost function KeyedTotal<R, K(!new)>(ks: seq<K>, rows: seq<R>, keyOf: R -> K, valueOf: R -> real): (t: real)
  {
    if ks == [] then 0.0
    else Total(GroupValues(rows, keyOf, valueOf, ks[0])) + KeyedTotal(ks[1..], rows, keyOf, valueOf)
  }

  /** `v` counted once for every element of `ks` equal to `k`. */
  ghost function Hits<K(!new)>(ks: seq<K>, k: K, v: real): (h: real)
  {
    if ks == [] then 0.0 else (if ks[0] == k then v else 0.0) + Hits(ks[1..], k, v)
  }

  lemma {:induction false} TabulateTotal<R, K(!new)>(ks: seq<K>, rows: seq<R>, keyOf: R -> K, valueOf: R -> real)
    requires forall k :: k in ks ==> Occurs(rows, keyOf, k)
    ensures Total(Amounts(Tabulate(ks, rows, keyOf, valueOf, Sum))) == KeyedTotal(ks, rows, keyOf, valueOf)
    decreases |ks|
  {
    if ks != [] {
      var t := Tabulate(ks, rows, keyOf, valueOf, Sum);
      assert Amounts(t)[1..] == Amounts(Tabulate(ks[1..], rows, keyOf, valueOf, Sum));
      TabulateTotal(ks[1..], rows, keyOf, valueOf);
    }
  }

  lemma {:induction false} KeyedTotalOfNoRows<R, K(!new)>(ks: seq<K>, rows: seq<R>, keyOf: R -> K, valueOf: R -> real)
    requires rows == []
    ensures KeyedTotal(ks, rows, keyOf, valueOf) == 0.0
    decreases |ks|
  {
    if ks != [] {
      KeyedTotalOfNoRows(ks[1..], rows, keyOf, valueOf);
    }
  }

  lemma {:induction false} KeyedTotalPeel<R, K(!new)>(ks: seq<K>, rows: seq<R>, keyOf: R -> K, valueOf: R -> real)
    requires rows != []
    ensures KeyedTotal(ks, rows, keyOf, valueOf)
         == Hits(ks, keyOf(rows[0]), valueOf(rows[0])) + KeyedTotal(ks, rows[1..], keyOf, valueOf)
    decreases |ks|
  {
    if ks != [] {
      KeyedTotalPeel(ks[1..], rows, keyOf, valueOf);
      var head := if keyOf(rows[0]) == ks[0] then [valueOf(rows[0])] else [];
      TotalAppend(head, GroupValues(rows[1..], keyOf, valueOf, ks[0]));
      assert Total(head) == if ks[0] == keyOf(rows[0]) then valueOf(rows[0]) else 0.0;
    }
  }

  lemma {:induction false} HitsAbsent<K(!new)>(ks: seq<K>, k: K, v: real)
    requires k !in ks
    ensures Hits(ks, k, v) == 0.0
    decreases |ks|
  {
    if ks != [] {
      HitsAbsent(ks[1..], k, v);
    }
  }

  lemma {:induction false} HitsOnce<K(!new)>(ks: seq<K>, k: K, v: real)
    requires k in ks
    requires forall i, j :: 0 <= i < j < |ks| ==> ks[i] != ks[j]
    ensures Hits(ks, k, v) == v
    decreases |ks|
  {
    if ks[0] == k {
      forall j | 0 <= j < |ks[1..]| ensures ks[1..][j] != k {
        assert ks[1..][j] == ks[j + 1];
      }
      HitsAbsent(ks[1..], k, v);
    } else {
      HitsOnce(ks[1..], k, v);
    }
  }

  lemma {:induction false} KeyedTotalIsTotal<R, K(!new)>(ks: seq<K>, rows: seq<R>, keyOf: R -> K, valueOf: R -> real)
    requires forall i, j :: 0 <= i < j < |ks| ==> ks[i] != ks[j]
    requires forall r :: r in rows ==> keyOf(r) in ks
    ensures KeyedTotal(ks, rows, keyOf, valueOf) == Total(Values(rows, valueOf))
    decreases |rows|
  {
    if rows == [] {
      KeyedTotalOfNoRows(ks, rows, keyOf, valueOf);
    } else {
      KeyedTotalPeel(ks, rows, keyOf, valueOf);
      HitsOnce(ks, keyOf(rows[0]), valueOf(rows[0]));
      KeyedTotalIsTotal(ks, rows[1..], keyOf, valueOf);
    }
  }

  lemma GroupReduceSums<R, K(!new)>(rows: seq<R>, keyOf: R -> K, valueOf: R -> real, lt: (K, K) -> bool)
    requires StrictTotalOrder(lt)
    ensures SumsOfGroups(GroupReduce(rows, keyOf, valueOf, Sum, lt), rows, keyOf, valueOf)
  {
    var ks := SortedKeys(rows, keyOf, lt);
    SortedKeysAscending(rows, keyOf, lt);
    AscendingDistinct(ks, lt);
    TabulateTotal(ks, rows, keyOf, valueOf);
    KeyedTotalIsTotal(ks, rows, keyOf, valueOf);
  }

  // A table of means stays within each group's range.

  lemma GroupReduceMeans<R, K(!new)>(rows: seq<R>, keyOf: R -> K, valueOf: R -> real, lt: (K, K) -> bool)
    ensures MeansOfGroups(GroupReduce(rows, keyOf, valueOf, Mean, lt), rows, keyOf, valueOf)
  {
    var t := GroupReduce(rows, keyOf, valueOf, Mean, lt);
    forall i | 0 <= i < |t|
      ensures var g := GroupValues(rows, keyOf, valueOf, t[i].0);
              g != [] && t[i].1 == Average(g) && Min(g) <= t[i].1 <= Max(g)
    {
      assert t[i].0 in Keys(t);
    }
  }

  // A group of one row holds that row's value, under either reduction.

  lemma {:induction false} GroupOfOne<R, K(!new)>(rows: seq<R>, keyOf: R -> K, valueOf: R -> real, n: nat)
    requires n < |rows|
    requires forall m :: 0 <= m < |rows| && m != n ==> keyOf(rows[m]) != keyOf(rows[n])
    ensures GroupValues(rows, keyOf, valueOf, keyOf(rows[n])) == [valueOf(rows[n])]
    decreases |rows|
  {
    var k := keyOf(rows[n]);
    if n == 0 {
      forall m | 0 <= m < |rows[1..]| ensures keyOf(rows[1..][m]) != k {
        assert rows[1..][m] == rows[m + 1];
      }
      assert !Occurs(rows[1..], keyOf, k);
    } else {
      forall m | 0 <= m < |rows[1..]| && m != n - 1 ensures keyOf(rows[1..][m]) != keyOf(rows[1..][n - 1]) {
        assert rows[1..][m] == rows[m + 1];
      }
      GroupOfOne(rows[1..], keyOf, valueOf, n - 1);
    }
  }

  lemma GroupReduceSingleRow<R, K(!new)>(rows: seq<R>, keyOf: R -> K, valueOf: R -> real, op: Op, lt: (K, K) -> bool, n: nat)
    requires n < |rows|
    requires forall m :: 0 <= m < |rows| && m != n ==> keyOf(rows[m]) != keyOf(rows[n])
    ensures (keyOf(rows[n]), valueOf(rows[n])) in GroupReduce(rows, keyOf, valueOf, op, lt)
  {
    var t := GroupReduce(rows, keyOf, valueOf, op, lt);
    assert Occurs(rows, keyOf, keyOf(rows[n])) by {
      assert rows[n] in rows;
    }
    var i :| 0 <= i < |t| && Keys(t)[i] == keyOf(rows[n]);
    GroupOfOne(rows, keyOf, valueOf, n);
    assert t[i] == (keyOf(rows[n]), valueOf(rows[n]));
  }
}
