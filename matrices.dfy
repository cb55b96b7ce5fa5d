/**
 * The arithmetic on the 2-D arrays inside tiles. An array is read through `At`, which gives 0 outside
 * its cells, so every construction here is total; within a rectangular array's bounds `At` reads its
 * cells. Arrays are built by `Grid` from a rule giving each entry.
 */
module Matrices {
  import opened Calc
  import opened Tiles

  /** The entry at row `i`, column `j`, or 0 outside the array. */
  function At(m: Matrix, i: int, j: int): int
  {
    if 0 <= i < |m.cells| && 0 <= j < |m.cells[i]| then m.cells[i][j] else 0
  }

  /** The `rows` x `cols` array whose entry at `(i, j)` is `f(i, j)`. */
  function Grid(rows: nat, cols: nat, f: (int, int) -> int): (m: Matrix)
    ensures Rectangular(m) && m.rows == rows && m.cols == cols
  {
    Matrix(rows, cols, seq(rows, i => seq(cols, j => f(i, j))))
  }

  /** Within its dimensions, a grid holds its rule's entries. */
  lemma GridAt(rows: nat, cols: nat, f: (int, int) -> int, i: int, j: int)
    requires 0 <= i < rows && 0 <= j < cols
    ensures At(Grid(rows, cols, f), i, j) == f(i, j)
  {
  }

  /** Two rectangular arrays of the same dimensions that agree entry by entry are equal. */
  lemma SameEntries(m1: Matrix, m2: Matrix)
    requires Rectangular(m1) && Rectangular(m2) && m1.rows == m2.rows && m1.cols == m2.cols
    requires forall i, j :: 0 <= i < m1.rows && 0 <= j < m1.cols ==> At(m1, i, j) == At(m2, i, j)
    ensures m1 == m2
  {
    forall i | 0 <= i < m1.rows
      ensures m1.cells[i] == m2.cells[i]
    {
      forall j | 0 <= j < m1.cols
        ensures m1.cells[i][j] == m2.cells[i][j]
      {
        assert At(m1, i, j) == At(m2, i, j);
      }
    }
  }

  /** `i.min(n - 1)`: the index that a dimension of size `n` is read at for output index `i`. */
  function Edge(i: int, n: int): int
  {
    if i <= n - 1 then i else n - 1
  }

  /**
   * The element-wise combination of `a` (`r1` x `c1`) and `b` (`r2` x `c2`) into a `rows` x `cols`
   * array, every index clamped to the last row or column of each operand.
   */
  function Broadcast(a: Matrix, r1: nat, c1: nat, b: Matrix, r2: nat, c2: nat, rows: nat, cols: nat,
                     op: (int, int) -> int): Matrix
  {
    Grid(rows, cols, (i, j) => op(At(a, Edge(i, r1), Edge(j, c1)), At(b, Edge(i, r2), Edge(j, c2))))
  }

  /** Entry `(i, j)` of `a b` (of `a` times the transpose of `b` when `transposed`), summed over the first `k` terms. */
  function Dot(a: Matrix, b: Matrix, i: int, j: int, k: nat, transposed: bool): int
  {
    if k == 0 then 0 else Dot(a, b, i, j, k - 1, transposed) + Term(a, b, i, j, k - 1, transposed)
  }

  /** The `t`-th term of `Dot`. */
  function Term(a: Matrix, b: Matrix, i: int, j: int, t: int, transposed: bool): int
  {
    At(a, i, t) * (if transposed then At(b, j, t) else At(b, t, j))
  }

  /** The `m` x `n` product of `a` (`m` x `k`) and `b` (`k` x `n`, or `n` x `k` when `transposed`). */
  function MatrixProduct(a: Matrix, b: Matrix, m: nat, k: nat, n: nat, transposed: bool): Matrix
  {
    Grid(m, n, (i, j) => Dot(a, b, i, j, k, transposed))
  }

  /** The transpose of the `rows` x `cols` array `a`. */
  function Transpose(a: Matrix, rows: nat, cols: nat): Matrix
  {
    Grid(cols, rows, (i, j) => At(a, j, i))
  }

  /** The `rows` x `cols` array of `f` applied to every entry of `a`. */
  function Pointwise(a: Matrix, rows: nat, cols: nat, f: int -> int): Matrix
  {
    Grid(rows, cols, (i, j) => f(At(a, i, j)))
  }

  /** The sum of the first `cols` entries of row `i`. */
  function RowSum(a: Matrix, i: int, cols: nat): int
  {
    if cols == 0 then 0 else RowSum(a, i, cols - 1) + At(a, i, cols - 1)
  }

  /** The `rows` x 1 column of the row sums of `a`. */
  function RowSums(a: Matrix, rows: nat, cols: nat): Matrix
  {
    Grid(rows, 1, (i, j) => RowSum(a, i, cols))
  }

  /** The entry-by-entry sum of two `rows` x `cols` arrays. */
  function Plus(a: Matrix, b: Matrix, rows: nat, cols: nat): Matrix
  {
    Grid(rows, cols, (i, j) => At(a, i, j) + At(b, i, j))
  }

  /** `a` (`rows` x `c1`) with `b` (`rows` x `c2`) placed on its right. */
  function Beside(a: Matrix, b: Matrix, rows: nat, c1: nat, c2: nat): Matrix
  {
    Grid(rows, c1 + c2, (i, j) => if j < c1 then At(a, i, j) else At(b, i, j - c1))
  }

  /** `a` (`r1` x `cols`) with `b` (`r2` x `cols`) placed below it. */
  function Above(a: Matrix, b: Matrix, r1: nat, r2: nat, cols: nat): Matrix
  {
    Grid(r1 + r2, cols, (i, j) => if i < r1 then At(a, i, j) else At(b, i - r1, j))
  }

  lemma BesideAt(a: Matrix, b: Matrix, rows: nat, c1: nat, c2: nat, i: int, j: int)
    requires 0 <= i < rows && 0 <= j < c1 + c2
    ensures At(Beside(a, b, rows, c1, c2), i, j) == if j < c1 then At(a, i, j) else At(b, i, j - c1)
  {
    GridAt(rows, c1 + c2, (i, j) => if j < c1 then At(a, i, j) else At(b, i, j - c1), i, j);
  }

  lemma AboveAt(a: Matrix, b: Matrix, r1: nat, r2: nat, cols: nat, i: int, j: int)
    requires 0 <= i < r1 + r2 && 0 <= j < cols
    ensures At(Above(a, b, r1, r2, cols), i, j) == if i < r1 then At(a, i, j) else At(b, i - r1, j)
  {
    GridAt(r1 + r2, cols, (i, j) => if i < r1 then At(a, i, j) else At(b, i - r1, j), i, j);
  }

  /** `b` written over rows `off` to `off + n` of `a`, both `cols` wide; the other rows are `a`'s. */
  function Overwrite(a: Matrix, b: Matrix, rows: nat, cols: nat, off: nat, n: nat): Matrix
  {
    Grid(rows, cols, (i, j) => if off <= i < off + n then At(b, i - off, j) else At(a, i, j))
  }

  /** The `n` x `n` identity. */
  function Identity(n: nat): Matrix
  {
    Grid(n, n, (i, j) => if i == j then 1 else 0)
  }

  /** Multiplying by the transpose of `b` is multiplying by `b` transposed. */
  lemma DotTransposed(a: Matrix, b: Matrix, i: int, j: int, k: nat, n: nat)
    requires 0 <= j < n
    ensures Dot(a, b, i, j, k, true) == Dot(a, Transpose(b, n, k), i, j, k, false)
  {
    forall t | 0 <= t < k
      ensures At(Transpose(b, n, k), t, j) == At(b, j, t)
    {
      TransposeAt(b, n, k, t, j);
    }
    DotSwapped(a, b, Transpose(b, n, k), i, j, k);
  }

  /** `Dot` against the transpose reads the same entries as `Dot` against an array holding them swapped. */
  lemma {:induction false} DotSwapped(a: Matrix, b: Matrix, bt: Matrix, i: int, j: int, k: nat)
    requires forall t :: 0 <= t < k ==> At(bt, t, j) == At(b, j, t)
    ensures Dot(a, b, i, j, k, true) == Dot(a, bt, i, j, k, false)
  {
    if k > 0 {
      DotSwapped(a, b, bt, i, j, k - 1);
    }
  }

  /**
   * The product of two arrays split along the reduction dimension is the sum of the products of the
   * parts: `[a1 a2] [b1; b2] == a1 b1 + a2 b2`.
   */
  // ---- a product tiled along its reduction dimension ----

  /** The sum over the slices of entry `(i, j)` of their products; slice `s` has reduction depth `ks[s]`. */
  function DotSum(xs: seq<Matrix>, ys: seq<Matrix>, ks: seq<nat>, i: int, j: int): int
    requires |xs| == |ys| == |ks|
  {
    if xs == [] then 0 else Dot(xs[0], ys[0], i, j, ks[0], false) + DotSum(xs[1..], ys[1..], ks[1..], i, j)
  }

  function Total(ks: seq<nat>): nat
  {
    if ks == [] then 0 else ks[0] + Total(ks[1..])
  }

  /** From column `off` on, the rows `0 .. m` of `a` hold the slices side by side. */
  predicate ColumnBlocks(a: Matrix, xs: seq<Matrix>, ks: seq<nat>, m: nat, off: nat)
    requires |xs| == |ks|
    decreases |xs|
  {
    xs == []
    || ((forall i, t :: 0 <= i < m && 0 <= t < ks[0] ==> At(a, i, off + t) == At(xs[0], i, t))
        && ColumnBlocks(a, xs[1..], ks[1..], m, off + ks[0]))
  }

  /** From row `off` on, the columns `0 .. n` of `b` hold the slices one below another. */
  predicate RowBlocks(b: Matrix, ys: seq<Matrix>, ks: seq<nat>, n: nat, off: nat)
    requires |ys| == |ks|
    decreases |ys|
  {
    ys == []
    || ((forall t, j :: 0 <= t < ks[0] && 0 <= j < n ==> At(b, off + t, j) == At(ys[0], t, j))
        && RowBlocks(b, ys[1..], ks[1..], n, off + ks[0]))
  }

  /**
   * Summing the slices' products computes the product: over the reduction range the slices cover,
   * the product of `a` and `b` gains exactly the sum of the slices' products.
   */
  lemma {:induction false} TiledDot(a: Matrix, b: Matrix, xs: seq<Matrix>, ys: seq<Matrix>, ks: seq<nat>, m: nat, n: nat, off: nat, i: int, j: int)
    requires |xs| == |ys| == |ks| && 0 <= i < m && 0 <= j < n
    requires ColumnBlocks(a, xs, ks, m, off) && RowBlocks(b, ys, ks, n, off)
    ensures Dot(a, b, i, j, off + Total(ks), false) == Dot(a, b, i, j, off, false) + DotSum(xs, ys, ks, i, j)
    decreases |xs|
  {
    if xs == [] {
      assert Total(ks) == 0;
    } else {
      var next := off + ks[0];
      DotShift(a, b, xs[0], ys[0], i, j, off, ks[0]);
      TiledDot(a, b, xs[1..], ys[1..], ks[1..], m, n, next, i, j);
      DotSameDepth(a, b, i, j, off + Total(ks), next + Total(ks[1..]));
    }
  }

  /** The product depends on the depth only through its value. */
  lemma DotSameDepth(a: Matrix, b: Matrix, i: int, j: int, k1: nat, k2: nat)
    requires k1 == k2
    ensures Dot(a, b, i, j, k1, false) == Dot(a, b, i, j, k2, false)
  {
  }

  lemma DotSplit(a1: Matrix, a2: Matrix, b1: Matrix, b2: Matrix, m: nat, n: nat, k1: nat, k2: nat, i: int, j: int)
    requires 0 <= i < m && 0 <= j < n
    ensures Dot(Beside(a1, a2, m, k1, k2), Above(b1, b2, k1, k2, n), i, j, k1 + k2, false)
            == Dot(a1, b1, i, j, k1, false) + Dot(a2, b2, i, j, k2, false)
  {
    var a := Beside(a1, a2, m, k1, k2);
    var b := Above(b1, b2, k1, k2, n);
    DotLeft(a1, a2, b1, b2, m, n, k1, k2, i, j, k1);
    forall s | 0 <= s < k2
      ensures At(a, i, k1 + s) == At(a2, i, s) && At(b, k1 + s, j) == At(b2, s, j)
    {
      BesideAt(a1, a2, m, k1, k2, i, k1 + s);
      AboveAt(b1, b2, k1, k2, n, k1 + s, j);
    }
    DotShift(a, b, a2, b2, i, j, k1, k2);
  }

  /** The terms of `Dot` past `k1` are those of another pair of operands, shifted by `k1`. */
  lemma {:induction false} DotShift(a: Matrix, b: Matrix, a2: Matrix, b2: Matrix, i: int, j: int, k1: nat, k2: nat)
    requires forall s :: 0 <= s < k2 ==> At(a, i, k1 + s) == At(a2, i, s)
    requires forall s :: 0 <= s < k2 ==> At(b, k1 + s, j) == At(b2, s, j)
    ensures Dot(a, b, i, j, k1 + k2, false) == Dot(a, b, i, j, k1, false) + Dot(a2, b2, i, j, k2, false)
  {
    if k2 > 0 {
      DotShift(a, b, a2, b2, i, j, k1, k2 - 1);
      assert Term(a, b, i, j, k1 + (k2 - 1), false) == Term(a2, b2, i, j, k2 - 1, false);
    }
  }

  /** Over the first `k1` terms, the split product reads only the left parts. */
  lemma DotLeft(a1: Matrix, a2: Matrix, b1: Matrix, b2: Matrix, m: nat, n: nat, k1: nat, k2: nat, i: int, j: int, t: nat)
    requires 0 <= i < m && 0 <= j < n && t <= k1
    ensures Dot(Beside(a1, a2, m, k1, k2), Above(b1, b2, k1, k2, n), i, j, t, false) == Dot(a1, b1, i, j, t, false)
  {
    var a := Beside(a1, a2, m, k1, k2);
    var b := Above(b1, b2, k1, k2, n);
    forall s | 0 <= s < t
      ensures At(a, i, s) == At(a1, i, s) && At(b, s, j) == At(b1, s, j)
    {
      BesideAt(a1, a2, m, k1, k2, i, s);
      AboveAt(b1, b2, k1, k2, n, s, j);
    }
    DotAgree(a, b, a1, b1, i, j, t);
  }

  /** Two pairs of operands that agree on the entries read give the same `Dot`. */
  lemma {:induction false} DotAgree(a: Matrix, b: Matrix, a': Matrix, b': Matrix, i: int, j: int, k: nat)
    requires forall t :: 0 <= t < k ==> At(a, i, t) == At(a', i, t)
    requires forall t :: 0 <= t < k ==> At(b, t, j) == At(b', t, j)
    ensures Dot(a, b, i, j, k, false) == Dot(a', b', i, j, k, false)
  {
    if k > 0 {
      DotAgree(a, b, a', b', i, j, k - 1);
    }
  }

  /** Multiplying by the identity reads back column `j` of row `i`. */
  lemma {:induction false} DotIdentity(a: Matrix, i: int, j: int, k: nat, n: nat)
    requires 0 <= j < n && k <= n
    ensures Dot(a, Identity(n), i, j, k, false) == if j < k then At(a, i, j) else 0
  {
    if k > 0 {
      DotIdentity(a, i, j, k - 1, n);
      GridAt(n, n, (i, j) => if i == j then 1 else 0, k - 1, j);
    }
  }

  /** Row sums are additive: a row that is the sum of two rows sums to the sum of their sums. */
  lemma {:induction false} RowSumAdditive(a: Matrix, b: Matrix, c: Matrix, i: int, n: nat)
    requires forall s :: 0 <= s < n ==> At(c, i, s) == At(a, i, s) + At(b, i, s)
    ensures RowSum(c, i, n) == RowSum(a, i, n) + RowSum(b, i, n)
  {
    if n > 0 {
      RowSumAdditive(a, b, c, i, n - 1);
    }
  }

  /** Two sizes broadcast together: they are equal, or one of them is 1. */
  predicate Broadcasts(a: nat, b: nat)
  {
    a == b || a == 1 || b == 1
  }

  /** The index a dimension of size `n` is read at for output index `i`: its only one when `n` is 1. */
  function Repeated(i: int, n: nat): int
  {
    if n == 1 then 0 else i
  }

  /**
   * Broadcasting reads a dimension of size 1 at its only index for every output index, and any other
   * dimension at the output index itself.
   */
  lemma BroadcastAt(a: Matrix, r1: nat, c1: nat, b: Matrix, r2: nat, c2: nat, op: (int, int) -> int, i: int, j: int)
    requires Broadcasts(r1, r2) && Broadcasts(c1, c2) && r1 > 0 && c1 > 0 && r2 > 0 && c2 > 0
    requires 0 <= i < Max(r1, r2) && 0 <= j < Max(c1, c2)
    ensures At(Broadcast(a, r1, c1, b, r2, c2, Max(r1, r2), Max(c1, c2), op), i, j)
            == op(At(a, Repeated(i, r1), Repeated(j, c1)), At(b, Repeated(i, r2), Repeated(j, c2)))
  {
    GridAt(Max(r1, r2), Max(c1, c2), (i, j) => op(At(a, Edge(i, r1), Edge(j, c1)), At(b, Edge(i, r2), Edge(j, c2))), i, j);
    assert Edge(i, r1) == Repeated(i, r1) && Edge(i, r2) == Repeated(i, r2);
    assert Edge(j, c1) == Repeated(j, c1) && Edge(j, c2) == Repeated(j, c2);
  }

  lemma MatrixProductAt(a: Matrix, b: Matrix, m: nat, k: nat, n: nat, transposed: bool)
    ensures forall i, j :: 0 <= i < m && 0 <= j < n ==> At(MatrixProduct(a, b, m, k, n, transposed), i, j) == Dot(a, b, i, j, k, transposed)
  {
    forall i, j | 0 <= i < m && 0 <= j < n
      ensures At(MatrixProduct(a, b, m, k, n, transposed), i, j) == Dot(a, b, i, j, k, transposed)
    {
      GridAt(m, n, (i, j) => Dot(a, b, i, j, k, transposed), i, j);
    }
  }

  lemma PointwiseAt(a: Matrix, rows: nat, cols: nat, f: int -> int)
    ensures forall i, j :: 0 <= i < rows && 0 <= j < cols ==> At(Pointwise(a, rows, cols, f), i, j) == f(At(a, i, j))
  {
    forall i, j | 0 <= i < rows && 0 <= j < cols
      ensures At(Pointwise(a, rows, cols, f), i, j) == f(At(a, i, j))
    {
      GridAt(rows, cols, (i, j) => f(At(a, i, j)), i, j);
    }
  }

  lemma RowSumsAt(a: Matrix, rows: nat, cols: nat)
    ensures forall i :: 0 <= i < rows ==> At(RowSums(a, rows, cols), i, 0) == RowSum(a, i, cols)
  {
    forall i | 0 <= i < rows
      ensures At(RowSums(a, rows, cols), i, 0) == RowSum(a, i, cols)
    {
      GridAt(rows, 1, (i, j) => RowSum(a, i, cols), i, 0);
    }
  }

  lemma PlusAt(a: Matrix, b: Matrix, rows: nat, cols: nat)
    ensures forall i, j :: 0 <= i < rows && 0 <= j < cols ==> At(Plus(a, b, rows, cols), i, j) == At(a, i, j) + At(b, i, j)
  {
    forall i, j | 0 <= i < rows && 0 <= j < cols
      ensures At(Plus(a, b, rows, cols), i, j) == At(a, i, j) + At(b, i, j)
    {
      GridAt(rows, cols, (i, j) => At(a, i, j) + At(b, i, j), i, j);
    }
  }

  lemma OverwriteAt(a: Matrix, b: Matrix, rows: nat, cols: nat, off: nat, n: nat)
    ensures forall i, j :: 0 <= i < rows && 0 <= j < cols ==>
              At(Overwrite(a, b, rows, cols, off, n), i, j) == if off <= i < off + n then At(b, i - off, j) else At(a, i, j)
  {
    forall i, j | 0 <= i < rows && 0 <= j < cols
      ensures At(Overwrite(a, b, rows, cols, off, n), i, j) == if off <= i < off + n then At(b, i - off, j) else At(a, i, j)
    {
      GridAt(rows, cols, (i, j) => if off <= i < off + n then At(b, i - off, j) else At(a, i, j), i, j);
    }
  }

  lemma TransposeAt(a: Matrix, rows: nat, cols: nat, i: int, j: int)
    requires 0 <= i < cols && 0 <= j < rows
    ensures At(Transpose(a, rows, cols), i, j) == At(a, j, i)
  {
    GridAt(cols, rows, (i, j) => At(a, j, i), i, j);
  }
}
