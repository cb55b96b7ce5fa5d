/** Real vectors and matrices (lists of rows) with elementwise sums, as the MoE reference uses them. */
module Vectors {
  type Vec = seq<real>
  type Mat = seq<Vec>

  /** The sum of the entries. */
  function Sum(v: Vec): real
  {
    if v == [] then 0.0 else Sum(v[..|v| - 1]) + v[|v| - 1]
  }

  function Zero(d: nat): (z: Vec)
    ensures |z| == d && forall k :: 0 <= k < d ==> z[k] == 0.0
  {
    seq(d, _ => 0.0)
  }

  function Add(a: Vec, b: Vec): (c: Vec)
    requires |a| == |b|
    ensures |c| == |a| && forall k :: 0 <= k < |a| ==> c[k] == a[k] + b[k]
  {
    seq(|a|, k requires 0 <= k < |a| => a[k] + b[k])
  }

  function Scale(v: Vec, c: real): (r: Vec)
    ensures |r| == |v| && forall k :: 0 <= k < |v| ==> r[k] == v[k] * c
  {
    seq(|v|, k requires 0 <= k < |v| => v[k] * c)
  }

  lemma AddZero(a: Vec)
    ensures Add(Zero(|a|), a) == a && Add(a, Zero(|a|)) == a
  {}

  lemma AddAssoc(a: Vec, b: Vec, c: Vec)
    requires |a| == |b| == |c|
    ensures Add(Add(a, b), c) == Add(a, Add(b, c))
  {}

  /** A list of `n` rows of width `d`. */
  predicate Rect(m: Mat, n: nat, d: nat)
  {
    |m| == n && forall t :: 0 <= t < n ==> |m[t]| == d
  }

  function ZeroM(n: nat, d: nat): (z: Mat)
    ensures Rect(z, n, d) && forall t :: 0 <= t < n ==> z[t] == Zero(d)
  {
    seq(n, _ => Zero(d))
  }

  function AddM(a: Mat, b: Mat): (c: Mat)
    requires |a| == |b| && forall t :: 0 <= t < |a| ==> |a[t]| == |b[t]|
    ensures |c| == |a| && forall t :: 0 <= t < |a| ==> c[t] == Add(a[t], b[t])
  {
    seq(|a|, t requires 0 <= t < |a| => Add(a[t], b[t]))
  }

  /** Dividing every entry by the sum leaves entries that sum to 1. */
  lemma {:induction false} SumScale(v: Vec, c: real)
    ensures Sum(Scale(v, c)) == Sum(v) * c
    decreases |v|
  {
    if v != [] {
      var w := Scale(v, c);
      var u := Scale(v[..|v| - 1], c);
      assert |u| == |w| - 1;
      forall k | 0 <= k < |u|
        ensures w[..|w| - 1][k] == u[k]
      {
        assert v[..|v| - 1][k] == v[k];
      }
      assert w[..|w| - 1] == u;
      SumScale(v[..|v| - 1], c);
    }
  }

  /** A vector with no negative entry sums to at least each of its entries. */
  lemma {:induction false} SumBounds(v: Vec, k: nat)
    requires k < |v| && forall j :: 0 <= j < |v| ==> v[j] >= 0.0
    ensures 0.0 <= v[k] <= Sum(v)
    decreases |v|
  {
    SumNonNegative(v[..|v| - 1]);
    if k < |v| - 1 {
      SumBounds(v[..|v| - 1], k);
    }
  }

  lemma {:induction false} SumNonNegative(v: Vec)
    requires forall j :: 0 <= j < |v| ==> v[j] >= 0.0
    ensures Sum(v) >= 0.0
    decreases |v|
  {
    if v != [] {
      SumNonNegative(v[..|v| - 1]);
    }
  }
}
