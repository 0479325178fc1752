/** The two reductions the dashboard applies to a group, `np.sum` and
  `np.mean`, over exact rationals.
 */
module Reduction {

  datatype Op = Sum | Mean

  /** `np.sum`: the sum of the values, 0 for none. */
  function Total(vs: seq<real>): (t: real)
  {
    if vs == [] then 0.0 else vs[0] + Total(vs[1..])
  }

  /** `np.mean`: the value that, counted once per value, gives the sum; it
      lies between the smallest and the largest value. */
  function Average(vs: seq<real>): (a: real)
    requires vs != []
    ensures a * (|vs| as real) == Total(vs)
    ensures Min(vs) <= a <= Max(vs)
  {
    TotalWithin(vs, Min(vs), Max(vs));
    QuotientWithin(Total(vs), |vs| as real, Min(vs), Max(vs));
    Total(vs) / (|vs| as real)
  }

  /** The smallest of the values. */
  function Min(vs: seq<real>): (m: real)
    requires vs != []
    ensures m in vs
    ensures forall v :: v in vs ==> m <= v
  {
    if |vs| == 1 then vs[0]
    else
      assert vs == [vs[0]] + vs[1..];
      var rest := Min(vs[1..]);
      if vs[0] <= rest then vs[0] else rest
  }

  /** The largest of the values. */
  function Max(vs: seq<real>): (m: real)
    requires vs != []
    ensures m in vs
    ensures forall v :: v in vs ==> v <= m
  {
    if |vs| == 1 then vs[0]
    else
      assert vs == [vs[0]] + vs[1..];
      var rest := Max(vs[1..]);
      if vs[0] >= rest then vs[0] else rest
  }

  /** Applies the reduction to one group; a mean is never taken of no values.
      Either reduction of a single value is that value. */
  function Reduce(op: Op, vs: seq<real>): (r: real)
    requires op == Sum || vs != []
    ensures op == Sum ==> r == Total(vs)
    ensures op == Mean ==> r == Average(vs) && Min(vs) <= r <= Max(vs)
    ensures |vs| == 1 ==> r == vs[0]
  {
    match op
    case Sum => Total(vs)
    case Mean => Average(vs)
  }

  lemma {:induction false} TotalAppend(a: seq<real>, b: seq<real>)
    ensures Total(a + b) == Total(a) + Total(b)
    decreases |a|
  {
    if a == [] {
      assert a + b == b;
    } else {
      assert (a + b)[1..] == a[1..] + b;
      TotalAppend(a[1..], b);
    }
  }

  /** n values in [lo, hi] add up to something in [n * lo, n * hi]. */
  lemma {:induction false} TotalWithin(vs: seq<real>, lo: real, hi: real)
    requires forall v :: v in vs ==> lo <= v <= hi
    ensures (|vs| as real) * lo <= Total(vs) <= (|vs| as real) * hi
    decreases |vs|
  {
    if vs != [] {
      assert forall v :: v in vs[1..] ==> v in vs;
      TotalWithin(vs[1..], lo, hi);
      var n := |vs| as real;
      assert |vs[1..]| as real == n - 1.0;
      assert vs[0] in vs;
      assert (n - 1.0) * lo + lo == n * lo;
      assert (n - 1.0) * hi + hi == n * hi;
    }
  }

  /** From n * lo <= t <= n * hi with n > 0 follows lo <= t / n <= hi. */
  lemma QuotientWithin(t: real, n: real, lo: real, hi: real)
    requires n > 0.0 && n * lo <= t <= n * hi
    ensures lo <= t / n <= hi
  {
  }
}
