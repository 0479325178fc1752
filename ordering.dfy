/** Orders on group keys.

  pandas sorts group keys in ascending order, and numpy's `unique` returns its
  values sorted. For the key types of the dashboard that order is Python's:
  strings compare by code point, lexicographically, a proper prefix first;
  tuples of keys compare component by component.
 */
module Ordering {

  /** `lt` is irreflexive, transitive and total: a strict total order. */
  ghost predicate StrictTotalOrder<K(!new)>(lt: (K, K) -> bool) {
    && (forall x :: !lt(x, x))
    && (forall x, y, z :: lt(x, y) && lt(y, z) ==> lt(x, z))
    && (forall x, y :: x == y || lt(x, y) || lt(y, x))
  }

  /** Every element of `ks` is below every later one. */
  ghost predicate StrictlyAscending<K>(ks: seq<K>, lt: (K, K) -> bool) {
    forall i, j :: 0 <= i < j < |ks| ==> lt(ks[i], ks[j])
  }

  /** Python's `a < b` on `str`. */
  predicate StrLess(a: string, b: string)
    decreases |a|
  {
    if |a| == 0 then |b| > 0
    else if |b| == 0 then false
    else if a[0] != b[0] then a[0] < b[0]
    else StrLess(a[1..], b[1..])
  }

  lemma {:induction false} StrLessIrreflexive(a: string)
    ensures !StrLess(a, a)
    decreases |a|
  {
    if |a| > 0 {
      StrLessIrreflexive(a[1..]);
    }
  }

  lemma {:induction false} StrLessTransitive(a: string, b: string, c: string)
    requires StrLess(a, b) && StrLess(b, c)
    ensures StrLess(a, c)
    decreases |a|
  {
    if |a| > 0 && a[0] == b[0] && b[0] == c[0] {
      StrLessTransitive(a[1..], b[1..], c[1..]);
    }
  }

  lemma {:induction false} StrLessTotal(a: string, b: string)
    ensures a == b || StrLess(a, b) || StrLess(b, a)
    decreases |a|
  {
    if |a| > 0 && |b| > 0 && a[0] == b[0] {
      StrLessTotal(a[1..], b[1..]);
      assert a == [a[0]] + a[1..];
      assert b == [b[0]] + b[1..];
    }
  }

  lemma StrLessIsStrictTotalOrder()
    ensures StrictTotalOrder(StrLess)
  {
    forall x: string ensures !StrLess(x, x) {
      StrLessIrreflexive(x);
    }
    forall x: string, y: string, z: string | StrLess(x, y) && StrLess(y, z)
      ensures StrLess(x, z)
    {
      StrLessTransitive(x, y, z);
    }
    forall x: string, y: string ensures x == y || StrLess(x, y) || StrLess(y, x) {
      StrLessTotal(x, y);
    }
  }

  /** Python's `<` on a pair of strings: by the first component, then the second. */
  predicate PairLess(a: (string, string), b: (string, string)) {
    StrLess(a.0, b.0) || (a.0 == b.0 && StrLess(a.1, b.1))
  }

  lemma PairLessIsStrictTotalOrder()
    ensures StrictTotalOrder(PairLess)
  {
    StrLessIsStrictTotalOrder();
    forall x: (string, string), y: (string, string)
      ensures x == y || PairLess(x, y) || PairLess(y, x)
    {
      StrLessTotal(x.0, y.0);
      StrLessTotal(x.1, y.1);
    }
  }
}
