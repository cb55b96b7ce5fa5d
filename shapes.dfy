/**
 * The stop-token encoding of a dense tensor. A tensor travels in row-major order and each entry is
 * followed by the number of innermost dimensions it closes. Every operator that turns a tensor into a
 * stream (buffer streaming, the loaders, the metadata generator, the multi-hot reader) uses this rule.
 */
module Shapes {
  import opened Calc

  /** A run of plain values. */
  function Zeros(n: nat): (r: seq<nat>)
    ensures |r| == n && forall k :: 0 <= k < n ==> r[k] == 0
  {
    seq(n, _ => 0)
  }

  /** Stop levels of one innermost row of `d` entries whose last entry also closes `outer` enclosing levels. */
  function Row(outer: nat, d: nat): (r: seq<nat>)
    ensures |r| == d
  {
    if d == 0 then [] else seq(d - 1, _ => 0) + [outer + 1]
  }

  /** Each entry of the stream of the outer dimensions becomes one row of `d` entries. */
  function ExpandRows(outer: seq<nat>, d: nat): (r: seq<nat>)
    ensures |r| == |outer| * d
  {
    if outer == [] then []
    else
      var rest := ExpandRows(outer[1..], d);
      assert |outer| * d == d + (|outer| - 1) * d;
      Row(outer[0], d) + rest
  }

  /** The level after each entry of a tensor of `shape` (innermost dimension last). A scalar is one entry at level 0. */
  function ShapeLevels(shape: seq<nat>): (r: seq<nat>)
    ensures |r| == Product(shape)
    decreases |shape|
  {
    if shape == [] then [0]
    else
      var init, d := shape[..|shape| - 1], shape[|shape| - 1];
      ProductSnoc(init, d);
      assert init + [d] == shape;
      ExpandRows(ShapeLevels(init), d)
  }

  /** Row-major decomposition of a flat index: repeated remainder and quotient, innermost dimension first. */
  function MultiIndex(shape: seq<nat>, i: nat): (idx: seq<nat>)
    requires Positive(shape)
    ensures |idx| == |shape|
    decreases |shape|
  {
    if shape == [] then []
    else
      var d := shape[|shape| - 1];
      MultiIndex(shape[..|shape| - 1], i / d) + [i % d]
  }

  predicate Positive(shape: seq<nat>) { forall k :: 0 <= k < |shape| ==> shape[k] > 0 }

  /** How many trailing positions of `idx` sit at the last index of their dimension. */
  function TrailingAtEnd(shape: seq<nat>, idx: seq<nat>): (n: nat)
    requires |idx| == |shape|
    ensures n <= |shape|
  {
    if shape == [] then 0
    else if idx[|idx| - 1] + 1 == shape[|shape| - 1] then 1 + TrailingAtEnd(shape[..|shape| - 1], idx[..|idx| - 1])
    else 0
  }

  /** `outermost_diff_index`: the first position at which two index tuples differ. */
  function OutermostDiff(a: seq<nat>, b: seq<nat>): (k: nat)
    requires |a| == |b| && a != b
    ensures k < |a| && a[k] != b[k] && a[..k] == b[..k]
  {
    if a[0] != b[0] then 0
    else
      assert a == [a[0]] + a[1..] && b == [b[0]] + b[1..];
      var k := OutermostDiff(a[1..], b[1..]);
      assert a[..k + 1] == [a[0]] + a[1..][..k];
      assert b[..k + 1] == [b[0]] + b[1..][..k];
      k + 1
  }

  lemma OutermostDiffUnique(a: seq<nat>, b: seq<nat>, k: nat)
    requires |a| == |b| && k < |a| && a[..k] == b[..k] && a[k] != b[k]
    ensures a != b && OutermostDiff(a, b) == k
  {
    var j := OutermostDiff(a, b);
    assert forall m :: 0 <= m < k ==> a[m] == a[..k][m];
    assert forall m :: 0 <= m < j ==> b[m] == b[..j][m];
  }

  // ---- arithmetic helpers ----

  lemma ProductSnoc(s: seq<nat>, d: nat)
    ensures Product(s + [d]) == Product(s) * d
  {
    assert (s + [d])[..|s|] == s;
    TimesIsProduct(Product(s), d);
  }

  lemma ProductPositive(s: seq<nat>)
    requires Positive(s)
    ensures Product(s) > 0
  {
    if s != [] {
      ProductPositive(s[..|s| - 1]);
      MulPos(Product(s[..|s| - 1]), s[|s| - 1]);
      TimesIsProduct(Product(s[..|s| - 1]), s[|s| - 1]);
    }
  }

  /** A shape with a positive product has no empty dimension. */
  lemma ProductPositiveInverse(s: seq<nat>)
    requires Product(s) > 0
    ensures Positive(s)
  {
    if s != [] {
      var init := s[..|s| - 1];
      ProductUnfold(s);
      ProductPositiveInverse(init);
      assert s == init + [s[|s| - 1]];
    }
  }

  lemma DivModUnique(x: nat, d: nat, q: nat, r: nat)
    requires d > 0 && r < d && x == q * d + r
    ensures x / d == q && x % d == r
  {
    var q', r' := x / d, x % d;
    DivMod(x, d);
    MulMono(q' + 1, q, d);
    MulMono(q + 1, q', d);
    assert (q' + 1) * d == q' * d + d;
    assert (q + 1) * d == q * d + d;
  }

  lemma MulPos(a: nat, b: nat)
    ensures a > 0 && b > 0 ==> a * b > 0
  {}

  lemma DivMod(x: nat, d: nat)
    requires d > 0
    ensures x == (x / d) * d + x % d && x % d < d
  {}

  /** Row-major split of a flat position into a row `q` and a column `r`. */
  lemma Split(i: nat, d: nat) returns (q: nat, r: nat)
    requires d > 0
    ensures q == i / d && r == i % d && i == q * d + r && r < d
  {
    DivMod(i, d);
    q, r := i / d, i % d;
  }

  lemma DivBound(i: nat, d: nat, p: nat)
    requires d > 0 && i < p * d
    ensures i / d < p
  {
    var q := i / d;
    if q >= p {
      MulMono(p, q, d);
    }
  }

  lemma RowInRange(q: nat, r: nat, n: nat, d: nat)
    requires q < n && r < d
    ensures 0 <= q * d && q * d + r < n * d
  {
    MulMono(q + 1, n, d);
  }

  lemma RowStart(q: nat, d: nat)
    ensures 0 <= q * d && (q + 1) * d == q * d + d
  {}

  /** One more innermost dimension turns every entry into a row. */
  lemma ShapeLevelsSnoc(init: seq<nat>, d: nat)
    ensures ShapeLevels(init + [d]) == ExpandRows(ShapeLevels(init), d)
  {
    var shape := init + [d];
    assert shape[..|shape| - 1] == init && shape[|shape| - 1] == d;
  }

  /** Expanding a concatenation expands each part. */
  lemma {:induction false} ExpandRowsAppend(a: seq<nat>, b: seq<nat>, d: nat)
    ensures ExpandRows(a + b, d) == ExpandRows(a, d) + ExpandRows(b, d)
    decreases |a|
  {
    if a != [] {
      assert (a + b)[0] == a[0] && (a + b)[1..] == a[1..] + b;
      assert ExpandRows(a + b, d) == Row(a[0], d) + ExpandRows(a[1..] + b, d);
      assert ExpandRows(a, d) == Row(a[0], d) + ExpandRows(a[1..], d);
      ExpandRowsAppend(a[1..], b, d);
    } else {
      assert a + b == b;
    }
  }

  /** One entry spread over `c` entries: `c - 1` plain values, then the entry's own level. */
  function Spread(level: nat, c: nat): (r: seq<nat>)
    ensures |r| == c
  {
    if c == 0 then [] else Zeros(c - 1) + [level]
  }

  /** Every entry spread over `c` entries: the innermost dimension grows `c`-fold, the outer ones stay. */
  function Widen(levels: seq<nat>, c: nat): seq<nat>
  {
    if levels == [] then [] else Spread(levels[0], c) + Widen(levels[1..], c)
  }

  /** Widening a concatenation widens each part. */
  lemma {:induction false} WidenAppend(a: seq<nat>, b: seq<nat>, c: nat)
    ensures Widen(a + b, c) == Widen(a, c) + Widen(b, c)
    decreases |a|
  {
    if a != [] {
      assert (a + b)[0] == a[0] && (a + b)[1..] == a[1..] + b;
      WidenAppend(a[1..], b, c);
    } else {
      assert a + b == b;
    }
  }

  /** Spreading over no entries leaves nothing. */
  lemma {:induction false} WidenNone(levels: seq<nat>)
    ensures Widen(levels, 0) == []
    decreases |levels|
  {
    if levels != [] {
      WidenNone(levels[1..]);
    }
  }

  lemma ZerosAppend(a: nat, b: nat)
    ensures Zeros(a) + Zeros(b) == Zeros(a + b)
  {
    assert forall k :: 0 <= k < a + b ==> (Zeros(a) + Zeros(b))[k] == 0;
  }

  /** Plain values spread `c`-fold are `c` times as many plain values. */
  lemma {:induction false} WidenZeros(n: nat, c: nat)
    ensures Widen(Zeros(n), c) == Zeros(n * c)
    decreases n
  {
    if n > 0 {
      var z := Zeros(n);
      assert z[0] == 0 && z[1..] == Zeros(n - 1);
      WidenZeros(n - 1, c);
      if c > 0 {
        ZerosAppend(c - 1, 1);
        assert Spread(0, c) == Zeros(c);
      }
      ZerosAppend(c, (n - 1) * c);
      assert c + (n - 1) * c == n * c;
    }
  }

  /** A row of `d` entries spread `c`-fold is a row of `d * c` entries closing the same levels. */
  lemma WidenRow(outer: nat, d: nat, c: nat)
    ensures Widen(Row(outer, d), c) == Row(outer, d * c)
  {
    if c == 0 {
      WidenNone(Row(outer, d));
    } else if d > 0 {
      var m := (d - 1) * c;
      var z := Zeros(d - 1);
      RowZeros(outer, d, d - 1);
      WidenAppend(z, [outer + 1], c);
      assert Widen(z, c) == Zeros(m) by { WidenZeros(d - 1, c); }
      WidenClosing(outer + 1, c);
      assert m + (c - 1) + 1 == d * c by { MulPred(d, c); }
      ZerosThenRow(outer, m, c - 1, d * c);
    }
  }

  /** A closing entry spread over `c > 0` entries: `c - 1` plain values, then the entry. */
  lemma WidenClosing(level: nat, c: nat)
    requires c > 0
    ensures Widen([level], c) == Zeros(c - 1) + [level]
  {
    assert [level][1..] == [];
  }

  /** `m` zeros followed by a row of `k + 1` entries is a row of `n == m + k + 1` entries. */
  lemma ZerosThenRow(outer: nat, m: nat, k: nat, n: nat)
    requires n == m + k + 1
    ensures Zeros(m) + (Zeros(k) + [outer + 1]) == Row(outer, n)
  {
    ZerosAppend(m, k);
    RowZeros(outer, n, m + k);
  }

  /** A row of `n == k + 1` entries is `k` zeros and its closing entry. */
  lemma RowZeros(outer: nat, n: nat, k: nat)
    requires n == k + 1
    ensures Row(outer, n) == Zeros(k) + [outer + 1]
  {
    assert Row(outer, n)[..k] == Zeros(k);
  }

  lemma MulPred(d: nat, c: nat)
    requires d > 0
    ensures (d - 1) * c + c == d * c
  {}

  /**
   * A stream of tensors of shape `[.., d]` whose entries are each spread over `c` entries is a stream
   * of shape `[.., d * c]`: splitting tiles into their rows merges the rows into the innermost dimension.
   */
  lemma {:induction false} WidenRows(outer: seq<nat>, d: nat, c: nat)
    ensures Widen(ExpandRows(outer, d), c) == ExpandRows(outer, d * c)
    decreases |outer|
  {
    if outer != [] {
      var rest := ExpandRows(outer[1..], d);
      assert ExpandRows(outer, d) == Row(outer[0], d) + rest;
      WidenAppend(Row(outer[0], d), rest, c);
      WidenRow(outer[0], d, c);
      WidenRows(outer[1..], d, c);
    }
  }

  /** Entry `q * d + r` of the expanded stream is the end of row `q` exactly when `r` is the last column. */
  lemma {:induction false} ExpandRowsAt(outer: seq<nat>, d: nat, q: nat, r: nat)
    requires q < |outer| && r < d
    ensures q * d + r < |ExpandRows(outer, d)|
    ensures ExpandRows(outer, d)[q * d + r] == if r == d - 1 then outer[q] + 1 else 0
  {
    RowInRange(q, r, |outer|, d);
    var rest := ExpandRows(outer[1..], d);
    assert ExpandRows(outer, d) == Row(outer[0], d) + rest;
    if q > 0 {
      ExpandRowsAt(outer[1..], d, q - 1, r);
      RowStart(q - 1, d);
    }
  }

  /** `ExpandRowsAt` for a flat position: entry `i` belongs to row `i / d`, column `i % d`. */
  lemma ExpandRowsIndex(outer: seq<nat>, d: nat, i: nat)
    requires d > 0 && i < |outer| * d
    ensures i / d < |outer|
    ensures ExpandRows(outer, d)[i] == if i % d == d - 1 then outer[i / d] + 1 else 0
  {
    var q, r := Split(i, d);
    DivBound(i, d, |outer|);
    ExpandRowsAt(outer, d, q, r);
  }

  /**
   * The encoding agrees with the loaders' rule: the level after flat entry `i` is the number of trailing
   * dimensions whose index is at its last value.
   */
  lemma {:induction false} LevelAt(shape: seq<nat>, i: nat)
    requires Positive(shape) && i < Product(shape)
    ensures ShapeLevels(shape)[i] == TrailingAtEnd(shape, MultiIndex(shape, i))
    decreases |shape|
  {
    if shape != [] {
      var init, d := shape[..|shape| - 1], shape[|shape| - 1];
      assert init + [d] == shape;
      ProductSnoc(init, d);
      ShapeLevelsSnoc(init, d);
      ExpandRowsIndex(ShapeLevels(init), d, i);
      var q, r := Split(i, d);
      LevelAt(init, q);
      var idx := MultiIndex(shape, i);
      assert idx[..|idx| - 1] == MultiIndex(init, q);
    }
  }

  /** The last entry of a non-empty tensor closes every dimension. */
  lemma {:induction false} LastLevel(shape: seq<nat>)
    requires Positive(shape)
    ensures Product(shape) > 0 && ShapeLevels(shape)[Product(shape) - 1] == |shape|
    decreases |shape|
  {
    ProductPositive(shape);
    if shape != [] {
      var init, d := shape[..|shape| - 1], shape[|shape| - 1];
      ProductUnfold(shape);
      LastLevel(init);
      ShapeLevelsLast(shape);
      ExpandRowsLast(ShapeLevels(init), d);
    }
  }

  /** The definition of `ShapeLevels` for a non-empty shape. */
  lemma ShapeLevelsLast(shape: seq<nat>)
    requires shape != []
    ensures ShapeLevels(shape) == ExpandRows(ShapeLevels(shape[..|shape| - 1]), shape[|shape| - 1])
  {}

  /** The last entry of the expanded stream ends the last row. */
  lemma ExpandRowsLast(outer: seq<nat>, d: nat)
    requires outer != [] && d > 0
    ensures |outer| * d > 0 && ExpandRows(outer, d)[|outer| * d - 1] == outer[|outer| - 1] + 1
  {
    ExpandRowsAt(outer, d, |outer| - 1, d - 1);
    RowStart(|outer| - 1, d);
  }

  /** Every entry but the last closes fewer than all the dimensions. */
  lemma {:induction false} InnerLevel(shape: seq<nat>, i: nat)
    requires Positive(shape) && i + 1 < Product(shape)
    ensures ShapeLevels(shape)[i] < |shape|
    decreases |shape|
  {
    var init, d := shape[..|shape| - 1], shape[|shape| - 1];
    assert init + [d] == shape;
    ProductSnoc(init, d);
    var p := Product(init);
    ShapeLevelsSnoc(init, d);
    ExpandRowsIndex(ShapeLevels(init), d, i);
    var q, r := Split(i, d);
    if r == d - 1 {
      if q + 1 >= p {
        MulMono(p, q + 1, d);
        RowStart(q, d);
      }
      InnerLevel(init, q);
    }
  }

  lemma DiffAfterAppend(a: seq<nat>, b: seq<nat>, x: nat, y: nat)
    requires |a| == |b| && a != b
    ensures a + [x] != b + [y] && OutermostDiff(a + [x], b + [y]) == OutermostDiff(a, b)
  {
    var k := OutermostDiff(a, b);
    assert (a + [x])[..k] == a[..k];
    assert (b + [y])[..k] == b[..k];
    OutermostDiffUnique(a + [x], b + [y], k);
  }

  /** Within a row only the innermost position advances. */
  lemma StepWithinRow(shape: seq<nat>, i: nat)
    requires Positive(shape) && shape != [] && i % shape[|shape| - 1] + 1 < shape[|shape| - 1]
    ensures var n := |shape|; var a, b := MultiIndex(shape, i + 1), MultiIndex(shape, i);
      a[..n - 1] == b[..n - 1] && a[n - 1] == b[n - 1] + 1
  {
    var d := shape[|shape| - 1];
    DivMod(i, d);
    DivModUnique(i + 1, d, i / d, i % d + 1);
  }

  /** At the end of a row the innermost position wraps to 0 and the outer index advances. */
  lemma StepRollOver(shape: seq<nat>, i: nat) returns (q: nat)
    requires Positive(shape) && shape != [] && i + 1 < Product(shape)
    requires i % shape[|shape| - 1] + 1 == shape[|shape| - 1]
    ensures q + 1 < Product(shape[..|shape| - 1])
    ensures MultiIndex(shape, i + 1) == MultiIndex(shape[..|shape| - 1], q + 1) + [0]
    ensures MultiIndex(shape, i) == MultiIndex(shape[..|shape| - 1], q) + [shape[|shape| - 1] - 1]
  {
    var init, d := shape[..|shape| - 1], shape[|shape| - 1];
    var r;
    q, r := Split(i, d);
    RowStart(q, d);
    DivModUnique(i + 1, d, q + 1, 0);
    ProductUnfold(shape);
    DivBound(i + 1, d, Product(init));
    MultiIndexLast(shape, i, q, r);
    MultiIndexLast(shape, i + 1, q + 1, 0);
  }

  /** The definition of `MultiIndex` for a non-empty shape, with the quotient and remainder named. */
  lemma MultiIndexLast(shape: seq<nat>, i: nat, q: nat, r: nat)
    requires Positive(shape) && shape != [] && q == i / shape[|shape| - 1] && r == i % shape[|shape| - 1]
    ensures Positive(shape[..|shape| - 1])
    ensures MultiIndex(shape, i) == MultiIndex(shape[..|shape| - 1], q) + [r]
  {}

  /**
   * Consecutive multi-indices first differ where the increment lands, just outside the trailing
   * positions that roll over; this makes `ndim - outermost_diff_index - 1` the stop level.
   */
  lemma {:induction false} NextIndexDiff(shape: seq<nat>, i: nat)
    requires Positive(shape) && i + 1 < Product(shape)
    ensures TrailingAtEnd(shape, MultiIndex(shape, i)) < |shape|
    ensures MultiIndex(shape, i + 1) != MultiIndex(shape, i)
    ensures OutermostDiff(MultiIndex(shape, i + 1), MultiIndex(shape, i))
         == |shape| - 1 - TrailingAtEnd(shape, MultiIndex(shape, i))
    decreases |shape|
  {
    var init, d := shape[..|shape| - 1], shape[|shape| - 1];
    if i % d + 1 < d {
      DiffWithinRow(shape, i);
    } else {
      PositiveInit(shape);
      var q := StepRollOver(shape, i);
      NextIndexDiff(init, q);
      DiffRollOver(shape, i, q);
    }
  }

  /** The stop level after entry `j` is read off where the next multi-index first differs from it. */
  lemma LevelFromDiff(shape: seq<nat>, j: nat)
    requires Positive(shape) && j + 1 < Product(shape)
    ensures |MultiIndex(shape, j + 1)| == |MultiIndex(shape, j)| == |shape|
    ensures MultiIndex(shape, j + 1) != MultiIndex(shape, j)
    ensures ShapeLevels(shape)[j] == |shape| - OutermostDiff(MultiIndex(shape, j + 1), MultiIndex(shape, j)) - 1
  {
    NextIndexDiff(shape, j);
    LevelAt(shape, j);
  }

  lemma PositiveInit(shape: seq<nat>)
    requires Positive(shape) && shape != []
    ensures Positive(shape[..|shape| - 1])
  {}

  lemma DiffWithinRow(shape: seq<nat>, i: nat)
    requires Positive(shape) && shape != [] && i % shape[|shape| - 1] + 1 < shape[|shape| - 1]
    ensures TrailingAtEnd(shape, MultiIndex(shape, i)) == 0
    ensures MultiIndex(shape, i + 1) != MultiIndex(shape, i)
    ensures OutermostDiff(MultiIndex(shape, i + 1), MultiIndex(shape, i)) == |shape| - 1
  {
    var a, b := MultiIndex(shape, i + 1), MultiIndex(shape, i);
    StepWithinRow(shape, i);
    OutermostDiffUnique(a, b, |shape| - 1);
  }

  lemma DiffRollOver(shape: seq<nat>, i: nat, q: nat)
    requires Positive(shape) && shape != [] && i + 1 < Product(shape)
    requires var init, d := shape[..|shape| - 1], shape[|shape| - 1];
      Positive(init) && q + 1 < Product(init)
      && MultiIndex(shape, i + 1) == MultiIndex(init, q + 1) + [0]
      && MultiIndex(shape, i) == MultiIndex(init, q) + [d - 1]
      && TrailingAtEnd(init, MultiIndex(init, q)) < |init|
      && MultiIndex(init, q + 1) != MultiIndex(init, q)
      && OutermostDiff(MultiIndex(init, q + 1), MultiIndex(init, q)) == |init| - 1 - TrailingAtEnd(init, MultiIndex(init, q))
    ensures TrailingAtEnd(shape, MultiIndex(shape, i)) < |shape|
    ensures MultiIndex(shape, i + 1) != MultiIndex(shape, i)
    ensures OutermostDiff(MultiIndex(shape, i + 1), MultiIndex(shape, i))
         == |shape| - 1 - TrailingAtEnd(shape, MultiIndex(shape, i))
  {
    var n, init, d := |shape|, shape[..|shape| - 1], shape[|shape| - 1];
    var ai, bi := MultiIndex(init, q + 1), MultiIndex(init, q);
    var b := MultiIndex(shape, i);
    assert b[..n - 1] == bi;
    assert TrailingAtEnd(shape, b) == 1 + TrailingAtEnd(init, bi);
    DiffAfterAppend(ai, bi, 0, d - 1);
  }
}
