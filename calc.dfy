/** Integer helpers of the simulator: ceiling division and the on-chip bandwidth constant. */
module Calc {
  /** Bytes a PMU serves per cycle; load and store cycles divide sizes by it. */
  const PmuBw: nat := 64

  /** Ceiling division as written: exact quotient, or the truncated quotient plus one. */
  function DivCeil(a: nat, b: nat): (q: nat)
    requires b != 0
    ensures q * b >= a
    ensures q == 0 || (q - 1) * b < a
  {
    if a % b == 0 then a / b else a / b + 1
  }

  /** The ceiling of a / b is the only count of b-sized blocks that covers a and would not cover it with one block fewer. */
  lemma DivCeilUnique(a: nat, b: nat, q: nat)
    requires b != 0
    requires q * b >= a && (q == 0 || (q - 1) * b < a)
    ensures q == DivCeil(a, b)
  {
    var r := DivCeil(a, b);
    if r > 0 { MulMono(q, r - 1, b); }
    if q > 0 { MulMono(r, q - 1, b); }
  }

  lemma MulMono(x: nat, y: nat, b: nat)
    ensures x <= y ==> x * b <= y * b
  {}

  lemma AppendEmpty(a: seq<nat>, b: seq<nat>)
    requires b == []
    ensures a + b == a
  {}

  /** Splitting the last element off the right operand of a concatenation. */
  lemma AppendLast(a: seq<nat>, b: seq<nat>)
    requires b != []
    ensures a + b == (a + b[..|b| - 1]) + [b[|b| - 1]]
  {
    assert b == b[..|b| - 1] + [b[|b| - 1]];
  }

  /** A prefix one longer is the shorter prefix and the next element. */
  lemma TakeSnoc<T>(s: seq<T>, m: nat)
    requires 0 < m <= |s|
    ensures s[..m] == s[..m - 1] + [s[m - 1]]
  {}

  lemma MulNatural(a: nat, b: nat)
    ensures a * b >= 0
  {}

  /** Product of a shape; the empty shape has product 1. */
  function Product(s: seq<nat>): nat
  {
    if s == [] then 1 else Times(Product(s[..|s| - 1]), s[|s| - 1])
  }

  /** The product of a non-empty shape is the product of all but its last dimension times the last. */
  lemma ProductUnfold(s: seq<nat>)
    requires s != []
    ensures Product(s) == Product(s[..|s| - 1]) * s[|s| - 1]
  {
    TimesIsProduct(Product(s[..|s| - 1]), s[|s| - 1]);
  }

  /** `a * b` as repeated addition, so that unfolding a product adds no nonlinear term. */
  function Times(a: nat, b: nat): nat
  {
    if b == 0 then 0 else Times(a, b - 1) + a
  }

  lemma {:induction false} TimesIsProduct(a: nat, b: nat)
    ensures Times(a, b) == a * b
  {
    if b > 0 {
      TimesIsProduct(a, b - 1);
    }
  }

  function Max(a: nat, b: nat): nat { if a >= b then a else b }

  function Max3(a: nat, b: nat, c: nat): nat { Max(Max(a, b), c) }
}
