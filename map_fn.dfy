/**
 * The tile functions that map operators apply: the matrix product, broadcast element-wise arithmetic,
 * point-wise activations, row sums, and the bookkeeping functions that set a tile's offset, append
 * rows and compute a cache address. Each gives its compute cycles and its result tile, or the message
 * of the assertion that stops the simulation. Entries are integers; the arithmetic of the activations
 * is a parameter.
 */
module MapFns {
  import opened Wrappers
  import opened Calc
  import opened Elems
  import opened Tiles
  import opened Matrices
  import opened Roofline
  import opened Map

  const AssertEqFailed := "assertion `left == right` failed"
  const RowsDontBroadcast := "assertion failed: (in1_shape_0 == in2_shape_0) || (in1_shape_0 == 1) || (in2_shape_0 == 1)"
  const ColsDontBroadcast := "assertion failed: (in1_shape_1 == in2_shape_1) || (in1_shape_1 == 1) || (in2_shape_1 == 1)"
  const EmptyOperand := "attempt to subtract with overflow"
  const DivisionByZero := "Division by zero"
  const NoSpace := "should have enough space to append new rows"
  const NoData := "called `Option::unwrap()` on a `None` value"
  const NoEntry := "ndarray: index out of bounds"

  predicate IsMatrix(t: Tile) { |t.shape| == 2 }

  function Rows(t: Tile): nat
    requires IsMatrix(t)
  {
    t.shape[0]
  }

  function Cols(t: Tile): nat
    requires IsMatrix(t)
  {
    t.shape[1]
  }

  predicate HasData(t: Tile) { t.underlying.Some? }

  function Data(t: Tile): Matrix
    requires HasData(t)
  {
    t.underlying.value
  }

  /** A tile of unsigned integers: its entries, when it has data, are not negative. */
  predicate Unsigned(t: Tile)
  {
    t.underlying.Some? ==> forall i, j :: 0 <= i < |t.underlying.value.cells| && 0 <= j < |t.underlying.value.cells[i]| ==>
                             t.underlying.value.cells[i][j] >= 0
  }

  /** The tile holds an entry at `[0, 0]`. */
  predicate HasFirst(t: Tile)
  {
    t.underlying.Some? && |t.underlying.value.cells| > 0 && |t.underlying.value.cells[0]| > 0
  }

  /** The entry at `[0, 0]`: the number a 1 x 1 tile carries. */
  function First(t: Tile): int
    requires HasFirst(t)
  {
    t.underlying.value.cells[0][0]
  }

  /** Why `unwrap()[[0, 0]]` on the tile stops, if it does. */
  function FirstFailure(t: Tile): Option<string>
  {
    if t.underlying.None? then Some(NoData) else if !HasFirst(t) then Some(NoEntry) else None
  }

  // ---- matmul ----

  /** The product's width: the second dimension of `in2`, or its first when it holds the weight transposed. */
  function OutCols(in2: Tile, transposed: bool): nat
    requires IsMatrix(in2)
  {
    if transposed then Rows(in2) else Cols(in2)
  }

  /** The reduction dimension of `in2`. */
  function Inner(in2: Tile, transposed: bool): nat
    requires IsMatrix(in2)
  {
    if transposed then Cols(in2) else Rows(in2)
  }

  /** Two floating-point operations, a multiply and an add, per term of an `m` x `k` by `k` x `n` product. */
  function MatmulFlops(m: nat, k: nat, n: nat): nat
  {
    2 * m * k * n
  }

  /**
   * Why `matmul` stops: an operand that is not 2-D, reduction dimensions that differ, entry widths that
   * differ, or no compute bandwidth to divide by.
   */
  function MatmulFailure(in1: Tile, in2: Tile, flop: nat, transposed: bool): Option<string>
  {
    if !IsMatrix(in1) || !IsMatrix(in2) then Some(AssertEqFailed)
    else if Cols(in1) != Inner(in2, transposed) then Some(AssertEqFailed)
    else if in1.bytesPerElem != in2.bytesPerElem then Some(AssertEqFailed)
    else if flop == 0 then Some(DivisionByZero)
    else None
  }

  /**
   * `matmul`: the `m` x `n` product of `in1` (`m` x `k`) and `in2` (`k` x `n`, or `n` x `k` when
   * transposed), with `in1`'s offset and entry width, costing `2 m k n` operations at `flop` per cycle;
   * without data on both sides only the shape is computed.
   */
  function Matmul(in1: Tile, in2: Tile, flop: nat, writeBackMu: bool, transposed: bool): (r: Result<(nat, Tile)>)
    ensures r.Err? <==> MatmulFailure(in1, in2, flop, transposed).Some?
    ensures r.Err? ==> r.msg == MatmulFailure(in1, in2, flop, transposed).value
    ensures r.Ok? ==> r.value.0 == DivCeil(MatmulFlops(Rows(in1), Cols(in1), OutCols(in2, transposed)), flop)
    ensures r.Ok? ==> Valid(r.value.1) && r.value.1.shape == [Rows(in1), OutCols(in2, transposed)]
                      && r.value.1.offset == in1.offset && r.value.1.bytesPerElem == in1.bytesPerElem
                      && r.value.1.readFromMu == writeBackMu
                      && (HasData(r.value.1) <==> HasData(in1) && HasData(in2))
    ensures r.Ok? && HasData(r.value.1) ==>
              forall i, j :: 0 <= i < Rows(in1) && 0 <= j < OutCols(in2, transposed) ==>
                At(Data(r.value.1), i, j) == Dot(Data(in1), Data(in2), i, j, Cols(in1), transposed)
  {
    if MatmulFailure(in1, in2, flop, transposed).Some? then Err(MatmulFailure(in1, in2, flop, transposed).value)
    else
      var m, k, n := Rows(in1), Cols(in1), OutCols(in2, transposed);
      var cycles := DivCeil(MatmulFlops(m, k, n), flop);
      if HasData(in1) && HasData(in2) then
        MatrixProductAt(Data(in1), Data(in2), m, k, n, transposed);
        Ok((cycles, NewPadded(MatrixProduct(Data(in1), Data(in2), m, k, n, transposed), in1.bytesPerElem, writeBackMu, in1.offset)))
      else
        Ok((cycles, NewBlankPadded([m, n], in1.bytesPerElem, writeBackMu, in1.offset)))
  }

  /** The tile holding the transpose of a 2-D tile, with its other fields kept. */
  function TransposeTile(t: Tile): (r: Tile)
    requires IsMatrix(t)
    ensures IsMatrix(r) && Rows(r) == Cols(t) && Cols(r) == Rows(t)
  {
    t.(shape := [Cols(t), Rows(t)],
       underlying := if HasData(t) then Some(Transpose(Data(t), Rows(t), Cols(t))) else None)
  }

  /** A weight stored transposed gives the product with the transpose of what is stored. */
  lemma TransposedWeight(in1: Tile, in2: Tile, flop: nat, writeBackMu: bool)
    requires IsMatrix(in2)
    ensures Matmul(in1, in2, flop, writeBackMu, true) == Matmul(in1, TransposeTile(in2), flop, writeBackMu, false)
  {
    var in2' := TransposeTile(in2);
    var r1 := Matmul(in1, in2, flop, writeBackMu, true);
    var r2 := Matmul(in1, in2', flop, writeBackMu, false);
    if r1.Ok? && HasData(in1) && HasData(in2) {
      var m, k, n := Rows(in1), Cols(in1), Rows(in2);
      var a, b := Data(in1), Data(in2);
      forall i, j | 0 <= i < m && 0 <= j < n
        ensures At(Data(r1.value.1), i, j) == At(Data(r2.value.1), i, j)
      {
        DotTransposed(a, b, i, j, k, n);
      }
      SameEntries(Data(r1.value.1), Data(r2.value.1));
    }
  }

  /** The `n` x `n` identity as a tile of the given entry width. */
  function IdentityTile(n: nat, bytesPerElem: nat): (t: Tile)
    ensures IsMatrix(t) && Rows(t) == n && Cols(t) == n && HasData(t) && t.bytesPerElem == bytesPerElem
  {
    New(Identity(n), bytesPerElem, false)
  }

  /** Multiplying by the identity gives back the entries of a 2-D tile, with its offset. */
  lemma MatmulIdentity(in1: Tile, flop: nat, writeBackMu: bool)
    requires IsMatrix(in1) && HasData(in1) && flop > 0
    ensures var r := Matmul(in1, IdentityTile(Cols(in1), in1.bytesPerElem), flop, writeBackMu, false);
            r.Ok? && r.value.1.shape == in1.shape && r.value.1.offset == in1.offset
            && forall i, j :: 0 <= i < Rows(in1) && 0 <= j < Cols(in1) ==> At(Data(r.value.1), i, j) == At(Data(in1), i, j)
  {
    var k := Cols(in1);
    var r := Matmul(in1, IdentityTile(k, in1.bytesPerElem), flop, writeBackMu, false);
    forall i, j | 0 <= i < Rows(in1) && 0 <= j < k
      ensures At(Data(r.value.1), i, j) == At(Data(in1), i, j)
    {
      DotIdentity(Data(in1), i, j, k, k);
    }
  }

  // ---- broadcast element-wise arithmetic ----

  /** The shape of a broadcast result: the larger size in each dimension. */
  function BroadcastShape(in1: Tile, in2: Tile): seq<nat>
    requires IsMatrix(in1) && IsMatrix(in2)
  {
    [Max(Rows(in1), Rows(in2)), Max(Cols(in1), Cols(in2))]
  }

  /**
   * The offset of a broadcast result in a map: the larger one when the row counts agree, otherwise
   * that of the operand that is not repeated along the rows.
   */
  function BroadcastOffset(in1: Tile, in2: Tile): nat
    requires IsMatrix(in1) && IsMatrix(in2)
  {
    if Rows(in1) == Rows(in2) then Max(in1.offset, in2.offset)
    else if Rows(in1) == 1 then in2.offset
    else in1.offset
  }

  /**
   * Why a broadcast element-wise function stops: an operand that is not 2-D, sizes that do not
   * broadcast, an operand with no entry to repeat into a non-empty result, or no compute bandwidth.
   */
  function BroadcastFailure(in1: Tile, in2: Tile, flop: nat): Option<string>
  {
    if !IsMatrix(in1) || !IsMatrix(in2) then Some(AssertEqFailed)
    else if !Broadcasts(Rows(in1), Rows(in2)) then Some(RowsDontBroadcast)
    else if !Broadcasts(Cols(in1), Cols(in2)) then Some(ColsDontBroadcast)
    else if HasData(in1) && HasData(in2) && Max(Rows(in1), Rows(in2)) > 0 && Max(Cols(in1), Cols(in2)) > 0
            && (Rows(in1) == 0 || Cols(in1) == 0 || Rows(in2) == 0 || Cols(in2) == 0) then Some(EmptyOperand)
    else if flop == 0 then Some(DivisionByZero)
    else None
  }

  /** The entries of a broadcast result. */
  function BroadcastData(in1: Tile, in2: Tile, op: (int, int) -> int): Matrix
    requires IsMatrix(in1) && IsMatrix(in2) && HasData(in1) && HasData(in2)
  {
    Broadcast(Data(in1), Rows(in1), Cols(in1), Data(in2), Rows(in2), Cols(in2),
              Max(Rows(in1), Rows(in2)), Max(Cols(in1), Cols(in2)), op)
  }

  /**
   * The element-wise functions `div`, `mul` and `add` of a map: `op` on the operands broadcast to the
   * larger shape, one operation per result entry, with the offset of `BroadcastOffset`.
   */
  function ElementWise(in1: Tile, in2: Tile, op: (int, int) -> int, flop: nat, writeBackMu: bool): (r: Result<(nat, Tile)>)
    ensures r.Err? <==> BroadcastFailure(in1, in2, flop).Some?
    ensures r.Err? ==> r.msg == BroadcastFailure(in1, in2, flop).value
    ensures r.Ok? ==> r.value.0 == DivCeil(Product(BroadcastShape(in1, in2)), flop)
    ensures r.Ok? ==> Valid(r.value.1) && r.value.1.shape == BroadcastShape(in1, in2)
                      && r.value.1.offset == BroadcastOffset(in1, in2)
                      && r.value.1.bytesPerElem == in1.bytesPerElem && r.value.1.readFromMu == writeBackMu
                      && (HasData(r.value.1) <==> HasData(in1) && HasData(in2))
    ensures r.Ok? && HasData(r.value.1) ==> Data(r.value.1) == BroadcastData(in1, in2, op)
  {
    if BroadcastFailure(in1, in2, flop).Some? then Err(BroadcastFailure(in1, in2, flop).value)
    else
      var shape := BroadcastShape(in1, in2);
      var cycles := DivCeil(Product(shape), flop);
      if HasData(in1) && HasData(in2) then
        Ok((cycles, NewPadded(BroadcastData(in1, in2, op), in1.bytesPerElem, writeBackMu, BroadcastOffset(in1, in2))))
      else
        Ok((cycles, NewBlankPadded(shape, in1.bytesPerElem, writeBackMu, BroadcastOffset(in1, in2))))
  }

  /** `div`: the quotient of the entries, whose arithmetic is a parameter. */
  function Div(in1: Tile, in2: Tile, quotient: (int, int) -> int, flop: nat, writeBackMu: bool): Result<(nat, Tile)>
  {
    ElementWise(in1, in2, quotient, flop, writeBackMu)
  }

  /** `mul`. */
  function Mul(in1: Tile, in2: Tile, flop: nat, writeBackMu: bool): Result<(nat, Tile)>
  {
    ElementWise(in1, in2, (x, y) => x * y, flop, writeBackMu)
  }

  /** `add`. */
  function Add(in1: Tile, in2: Tile, flop: nat, writeBackMu: bool): Result<(nat, Tile)>
  {
    ElementWise(in1, in2, (x, y) => x + y, flop, writeBackMu)
  }

  /**
   * What broadcasting means: every result entry combines, from each operand, the entry at the same
   * position, where an operand with a single row (column) is read at that row (column) throughout.
   */
  lemma BroadcastEntries(in1: Tile, in2: Tile, op: (int, int) -> int, flop: nat, writeBackMu: bool)
    requires ElementWise(in1, in2, op, flop, writeBackMu).Ok? && HasData(in1) && HasData(in2)
    ensures var out := ElementWise(in1, in2, op, flop, writeBackMu).value.1;
            forall i, j :: 0 <= i < Rows(out) && 0 <= j < Cols(out) ==>
              At(Data(out), i, j) == op(At(Data(in1), Repeated(i, Rows(in1)), Repeated(j, Cols(in1))),
                                        At(Data(in2), Repeated(i, Rows(in2)), Repeated(j, Cols(in2))))
  {
    var out := ElementWise(in1, in2, op, flop, writeBackMu).value.1;
    forall i, j | 0 <= i < Rows(out) && 0 <= j < Cols(out)
      ensures At(Data(out), i, j) == op(At(Data(in1), Repeated(i, Rows(in1)), Repeated(j, Cols(in1))),
                                        At(Data(in2), Repeated(i, Rows(in2)), Repeated(j, Cols(in2))))
    {
      BroadcastAt(Data(in1), Rows(in1), Cols(in1), Data(in2), Rows(in2), Cols(in2), op, i, j);
    }
  }

  /** With a commutative operation and equal entry widths, the operands can be swapped. */
  lemma ElementWiseSwap(in1: Tile, in2: Tile, op: (int, int) -> int, flop: nat, writeBackMu: bool)
    requires forall x, y :: op(x, y) == op(y, x)
    requires in1.bytesPerElem == in2.bytesPerElem
    ensures ElementWise(in1, in2, op, flop, writeBackMu) == ElementWise(in2, in1, op, flop, writeBackMu)
  {
    var r1 := ElementWise(in1, in2, op, flop, writeBackMu);
    var r2 := ElementWise(in2, in1, op, flop, writeBackMu);
    if r1.Ok? {
      assert BroadcastOffset(in1, in2) == BroadcastOffset(in2, in1);
      if HasData(in1) && HasData(in2) {
        var rows, cols := Max(Rows(in1), Rows(in2)), Max(Cols(in1), Cols(in2));
        var m1, m2 := BroadcastData(in1, in2, op), BroadcastData(in2, in1, op);
        forall i, j | 0 <= i < rows && 0 <= j < cols
          ensures At(m1, i, j) == At(m2, i, j)
        {
          BroadcastAt(Data(in1), Rows(in1), Cols(in1), Data(in2), Rows(in2), Cols(in2), op, i, j);
          BroadcastAt(Data(in2), Rows(in2), Cols(in2), Data(in1), Rows(in1), Cols(in1), op, i, j);
        }
        SameEntries(m1, m2);
      }
    }
  }

  /** `add` is commutative on operands of one entry width. */
  lemma AddCommutes(in1: Tile, in2: Tile, flop: nat, writeBackMu: bool)
    requires in1.bytesPerElem == in2.bytesPerElem
    ensures Add(in1, in2, flop, writeBackMu) == Add(in2, in1, flop, writeBackMu)
  {
    ElementWiseSwap(in1, in2, (x, y) => x + y, flop, writeBackMu);
  }

  /** On operands of one shape, `add` adds entry by entry. */
  lemma AddSameShape(in1: Tile, in2: Tile, flop: nat, writeBackMu: bool)
    requires IsMatrix(in1) && in2.shape == in1.shape && HasData(in1) && HasData(in2) && flop > 0
    ensures Add(in1, in2, flop, writeBackMu).Ok?
    ensures Data(Add(in1, in2, flop, writeBackMu).value.1) == Plus(Data(in1), Data(in2), Rows(in1), Cols(in1))
  {
    var rows, cols := Rows(in1), Cols(in1);
    var out := Add(in1, in2, flop, writeBackMu).value.1;
    var sum := Plus(Data(in1), Data(in2), rows, cols);
    PlusAt(Data(in1), Data(in2), rows, cols);
    if rows > 0 && cols > 0 {
      BroadcastEntries(in1, in2, (x, y) => x + y, flop, writeBackMu);
      forall i, j | 0 <= i < rows && 0 <= j < cols
        ensures At(Data(out), i, j) == At(sum, i, j)
      {
        assert Repeated(i, rows) == i && Repeated(j, cols) == j;
      }
    }
    SameEntries(Data(out), sum);
  }

  // ---- point-wise functions ----

  /** Why a point-wise function stops: an operand that is not 2-D, or no compute bandwidth. */
  function UnaryFailure(t: Tile, flop: nat): Option<string>
  {
    if !IsMatrix(t) then Some(AssertEqFailed) else if flop == 0 then Some(DivisionByZero) else None
  }

  /** The operations of a point-wise function: `perEntry` for each of the `rows * cols` entries. */
  function PointwiseFlops(rows: nat, cols: nat, perEntry: nat): nat
  {
    rows * cols * perEntry
  }

  /** A point-wise function: `f` on every entry, `perEntry` operations each, shape and offset kept. */
  function Unary(t: Tile, f: int -> int, perEntry: nat, flop: nat, writeBackMu: bool): (r: Result<(nat, Tile)>)
    ensures r.Err? <==> UnaryFailure(t, flop).Some?
    ensures r.Err? ==> r.msg == UnaryFailure(t, flop).value
    ensures r.Ok? ==> r.value.0 == DivCeil(PointwiseFlops(Rows(t), Cols(t), perEntry), flop)
    ensures r.Ok? ==> Valid(r.value.1) && r.value.1.shape == t.shape && r.value.1.offset == t.offset
                      && r.value.1.bytesPerElem == t.bytesPerElem && r.value.1.readFromMu == writeBackMu
                      && (HasData(r.value.1) <==> HasData(t))
    ensures r.Ok? && HasData(t) ==>
              forall i, j :: 0 <= i < Rows(t) && 0 <= j < Cols(t) ==> At(Data(r.value.1), i, j) == f(At(Data(t), i, j))
  {
    if UnaryFailure(t, flop).Some? then Err(UnaryFailure(t, flop).value)
    else
      var cycles := DivCeil(PointwiseFlops(Rows(t), Cols(t), perEntry), flop);
      if HasData(t) then
        PointwiseAt(Data(t), Rows(t), Cols(t), f);
        Ok((cycles, NewPadded(Pointwise(Data(t), Rows(t), Cols(t), f), t.bytesPerElem, writeBackMu, t.offset)))
      else
        Ok((cycles, NewBlankPadded([Rows(t), Cols(t)], t.bytesPerElem, writeBackMu, t.offset)))
  }

  /** `silu`: `x / (1 + e^-x)` on every entry, counted as 8 operations. */
  function Silu(t: Tile, silu: int -> int, flop: nat, writeBackMu: bool): Result<(nat, Tile)>
  {
    Unary(t, silu, 8, flop, writeBackMu)
  }

  /** `exp`: `e^x` on every entry, counted as 4 operations. */
  function Exp(t: Tile, exp: int -> int, flop: nat, writeBackMu: bool): Result<(nat, Tile)>
  {
    Unary(t, exp, 4, flop, writeBackMu)
  }

  /** Two point-wise functions in a row have the entries of their composition, and keep shape and offset. */
  lemma UnaryCompose(t: Tile, f: int -> int, g: int -> int, perF: nat, perG: nat, flop: nat, writeBackMu: bool)
    requires Unary(t, f, perF, flop, writeBackMu).Ok?
    ensures var once := Unary(t, f, perF, flop, writeBackMu).value.1;
            var twice := Unary(once, g, perG, flop, writeBackMu);
            var composed := Unary(t, x => g(f(x)), perF + perG, flop, writeBackMu);
            twice.Ok? && composed.Ok? && twice.value.1 == composed.value.1
  {
    var once := Unary(t, f, perF, flop, writeBackMu).value.1;
    var twice := Unary(once, g, perG, flop, writeBackMu);
    var composed := Unary(t, x => g(f(x)), perF + perG, flop, writeBackMu);
    if HasData(t) {
      SameEntries(Data(twice.value.1), Data(composed.value.1));
    }
  }

  // ---- row_wise_sum ----

  /** `row_wise_sum`: the `rows` x 1 column of row sums, one operation per entry summed, offset kept. */
  function RowWiseSum(t: Tile, flop: nat, writeBackMu: bool): (r: Result<(nat, Tile)>)
    ensures r.Err? <==> UnaryFailure(t, flop).Some?
    ensures r.Err? ==> r.msg == UnaryFailure(t, flop).value
    ensures r.Ok? ==> r.value.0 == DivCeil(PointwiseFlops(Rows(t), Cols(t), 1), flop)
    ensures r.Ok? ==> Valid(r.value.1) && r.value.1.shape == [Rows(t), 1] && r.value.1.offset == t.offset
                      && r.value.1.bytesPerElem == t.bytesPerElem && r.value.1.readFromMu == writeBackMu
                      && (HasData(r.value.1) <==> HasData(t))
    ensures r.Ok? && HasData(t) ==> forall i :: 0 <= i < Rows(t) ==> At(Data(r.value.1), i, 0) == RowSum(Data(t), i, Cols(t))
  {
    if UnaryFailure(t, flop).Some? then Err(UnaryFailure(t, flop).value)
    else
      var cycles := DivCeil(PointwiseFlops(Rows(t), Cols(t), 1), flop);
      if HasData(t) then
        RowSumsAt(Data(t), Rows(t), Cols(t));
        Ok((cycles, NewPadded(RowSums(Data(t), Rows(t), Cols(t)), t.bytesPerElem, writeBackMu, t.offset)))
      else
        Ok((cycles, NewBlankPadded([Rows(t), 1], t.bytesPerElem, writeBackMu, t.offset)))
  }

  /** The row sums of a sum of two tiles of one shape are the sums of their row sums. */
  lemma RowWiseSumOfAdd(in1: Tile, in2: Tile, flop: nat, writeBackMu: bool)
    requires IsMatrix(in1) && in2.shape == in1.shape && HasData(in1) && HasData(in2) && flop > 0
    ensures var s := Add(in1, in2, flop, writeBackMu).value.1;
            var s1, s2 := RowWiseSum(in1, flop, writeBackMu).value.1, RowWiseSum(in2, flop, writeBackMu).value.1;
            RowWiseSum(s, flop, writeBackMu).Ok?
            && forall i :: 0 <= i < Rows(in1) ==>
                 At(Data(RowWiseSum(s, flop, writeBackMu).value.1), i, 0) == At(Data(s1), i, 0) + At(Data(s2), i, 0)
  {
    AddSameShape(in1, in2, flop, writeBackMu);
    var rows, cols := Rows(in1), Cols(in1);
    var s := Add(in1, in2, flop, writeBackMu).value.1;
    PlusAt(Data(in1), Data(in2), rows, cols);
    forall i | 0 <= i < rows
      ensures RowSum(Data(s), i, cols) == RowSum(Data(in1), i, cols) + RowSum(Data(in2), i, cols)
    {
      RowSumAdditive(Data(in1), Data(in2), Data(s), i, cols);
    }
  }

  // ---- set_offset ----

  /**
   * `set_offset`: the tile with its data and shape, and the offset read from the 1 x 1 tile
   * `offset`; one cycle. The offset tile must have an entry.
   */
  function SetOffset(t: Tile, offset: Tile, writeBackMu: bool): (r: Result<(nat, Tile)>)
    requires Unsigned(offset)
    ensures r.Err? <==> !IsMatrix(t) || FirstFailure(offset).Some?
    ensures r.Err? ==> r.msg == if !IsMatrix(t) then AssertEqFailed else FirstFailure(offset).value
    ensures r.Ok? ==> r.value.0 == 1 && r.value.1.offset == First(offset)
                      && r.value.1 == t.(readFromMu := writeBackMu, offset := r.value.1.offset)
                      && (Valid(t) ==> Valid(r.value.1))
  {
    if !IsMatrix(t) then Err(AssertEqFailed)
    else if FirstFailure(offset).Some? then Err(FirstFailure(offset).value)
    else
      assert offset.underlying.value.cells[0][0] >= 0;
      Ok((1, Tile([Rows(t), Cols(t)], t.bytesPerElem, writeBackMu, t.underlying, First(offset))))
  }

  /** Setting the offset twice leaves the second offset and nothing else of the first call. */
  lemma SetOffsetTwice(t: Tile, o1: Tile, o2: Tile, writeBackMu: bool)
    requires Unsigned(o1) && Unsigned(o2) && SetOffset(t, o1, writeBackMu).Ok?
    ensures SetOffset(SetOffset(t, o1, writeBackMu).value.1, o2, writeBackMu) == SetOffset(t, o2, writeBackMu)
  {
  }

  // ---- row_wise_append ----

  /**
   * Why `row_wise_append` stops: an operand that is not 2-D, widths that differ, or fewer free rows
   * after the offset than rows to append.
   */
  function AppendFailure(t: Tile, rows: Tile): Option<string>
  {
    if !IsMatrix(t) || !IsMatrix(rows) || Cols(t) != Cols(rows) then Some(AssertEqFailed)
    else if t.offset + Rows(rows) > Rows(t) then Some(NoSpace)
    else None
  }

  /**
   * `row_wise_append`: the rows of `rows` written into `t` from its offset on, and the offset moved past
   * them; one cycle. The tile keeps its shape; without data on both sides only the offset moves.
   */
  function RowWiseAppend(t: Tile, rows: Tile, writeBackMu: bool): (r: Result<(nat, Tile)>)
    ensures r.Err? <==> AppendFailure(t, rows).Some?
    ensures r.Err? ==> r.msg == AppendFailure(t, rows).value
    ensures r.Ok? ==> r.value.0 == 1 && Valid(r.value.1) && r.value.1.shape == [Rows(t), Cols(t)]
                      && r.value.1.offset == t.offset + Rows(rows)
                      && r.value.1.bytesPerElem == t.bytesPerElem && r.value.1.readFromMu == writeBackMu
                      && (HasData(r.value.1) <==> HasData(t) && HasData(rows))
    ensures r.Ok? && HasData(r.value.1) ==>
              forall i, j :: 0 <= i < Rows(t) && 0 <= j < Cols(t) ==>
                At(Data(r.value.1), i, j) == if t.offset <= i < t.offset + Rows(rows) then At(Data(rows), i - t.offset, j)
                                             else At(Data(t), i, j)
  {
    if AppendFailure(t, rows).Some? then Err(AppendFailure(t, rows).value)
    else
      var off := t.offset + Rows(rows);
      if HasData(t) && HasData(rows) then
        OverwriteAt(Data(t), Data(rows), Rows(t), Cols(t), t.offset, Rows(rows));
        Ok((1, NewPadded(Overwrite(Data(t), Data(rows), Rows(t), Cols(t), t.offset, Rows(rows)), t.bytesPerElem, writeBackMu, off)))
      else
        Ok((1, NewBlankPadded([Rows(t), Cols(t)], t.bytesPerElem, writeBackMu, off)))
  }

  // ---- cache_write_addr_gen ----

  /** The address of slot `len` of cache line `idx`, each line `perIdx` slots long. */
  function CacheAddr(idx: nat, len: nat, perIdx: nat): nat
  {
    idx * perIdx + len
  }

  /** `cache_write_addr_gen`: the 1 x 1 tile of the address where the next entry of a line goes; one cycle. */
  function CacheWriteAddrGen(idx: Tile, len: Tile, perIdx: nat, computeBw: nat, writeBackMu: bool): (r: Result<(nat, Tile)>)
    requires Unsigned(idx) && Unsigned(len)
    ensures r.Err? <==> FirstFailure(idx).Some? || FirstFailure(len).Some?
    ensures r.Err? ==> r.msg == if FirstFailure(idx).Some? then FirstFailure(idx).value else FirstFailure(len).value
    ensures r.Ok? ==> r.value.0 == 1 && r.value.1 == Scalar(CacheAddr(First(idx), First(len), perIdx), writeBackMu)
  {
    if FirstFailure(idx).Some? then Err(FirstFailure(idx).value)
    else if FirstFailure(len).Some? then Err(FirstFailure(len).value)
    else
      assert idx.underlying.value.cells[0][0] >= 0 && len.underlying.value.cells[0][0] >= 0;
      Ok((1, Scalar(CacheAddr(First(idx), First(len), perIdx), writeBackMu)))
  }

  /** Distinct slots of lines no longer than `perIdx` get distinct addresses. */
  lemma CacheAddrInjective(idx1: nat, len1: nat, idx2: nat, len2: nat, perIdx: nat)
    requires len1 < perIdx && len2 < perIdx
    requires CacheAddr(idx1, len1, perIdx) == CacheAddr(idx2, len2, perIdx)
    ensures idx1 == idx2 && len1 == len2
  {
    if idx1 < idx2 {
      MulMono(idx1 + 1, idx2, perIdx);
      assert false;
    } else if idx2 < idx1 {
      MulMono(idx2 + 1, idx1, perIdx);
      assert false;
    }
  }

  // ---- as the map operators call them ----

  /**
   * A tile function as a map operator calls it. Where the function rejects its operands the
   * simulation stops, so the pair given there stands for no result and is never sent.
   */
  function Binary(f: (Tile, Tile, nat, bool) -> Result<(nat, Tile)>): BinaryFunc
  {
    (a: Tile, b: Tile, bw: nat, wb: bool) => var r := f(a, b, bw, wb); if r.Ok? then r.value else (0, a)
  }

  /**
   * A map of `add` over two streams of tiles of one shape with data sends their entry-by-entry sums,
   * each step costing at least the `add`'s own cycles.
   */
  lemma MapAdd(in1: seq<Elem<Tile>>, in2: seq<Elem<Tile>>, flop: nat, writeBackMu: bool)
    requires Aligned(in1, in2) && flop > 0
    requires forall k :: 0 <= k < |in1| ==> IsMatrix(in1[k].v) && in2[k].v.shape == in1[k].v.shape
                                            && HasData(in1[k].v) && HasData(in2[k].v)
    ensures forall k :: 0 <= k < |in1| ==>
              var out := Binary(Add)(in1[k].v, in2[k].v, flop, writeBackMu);
              HasData(out.1) && Data(out.1) == Plus(Data(in1[k].v), Data(in2[k].v), Rows(in1[k].v), Cols(in1[k].v))
              && BinaryStepCycles(in1[k].v, in2[k].v, Binary(Add), flop, writeBackMu) >= out.0
  {
    forall k | 0 <= k < |in1|
      ensures var out := Binary(Add)(in1[k].v, in2[k].v, flop, writeBackMu);
              HasData(out.1) && Data(out.1) == Plus(Data(in1[k].v), Data(in2[k].v), Rows(in1[k].v), Cols(in1[k].v))
              && BinaryStepCycles(in1[k].v, in2[k].v, Binary(Add), flop, writeBackMu) >= out.0
    {
      AddSameShape(in1[k].v, in2[k].v, flop, writeBackMu);
    }
  }
}
