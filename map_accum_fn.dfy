/**
 * The tile functions that map-accumulate operators apply: a matrix product added into the
 * accumulator, and its dynamic variant that takes an empty accumulator as "nothing yet". Folded over
 * the slices of a reduction dimension, they compute the product of the whole operands.
 */
module MapAccumFns {
  import opened Wrappers
  import opened Calc
  import opened Elems
  import opened Tiles
  import opened Matrices
  import opened MapFns
  import Accum
  import MapAccum

  const NoAccumulator := "Accumulator tile must have an underlying array for matmul operation"
  const NoDimension := "index out of bounds"

  /** Why the accumulator's shape check stops: a dimension it lacks, or a size other than `m` x `n`. */
  function AccShapeFailure(acc: Tile, m: nat, n: nat): Option<string>
  {
    if |acc.shape| == 0 then Some(NoDimension)
    else if acc.shape[0] != m then Some(AssertEqFailed)
    else if |acc.shape| == 1 then Some(NoDimension)
    else if acc.shape[1] != n then Some(AssertEqFailed)
    else None
  }

  /**
   * Why `matmul` stops: the checks of the map `matmul`, with the accumulator's shape checked after the
   * reduction dimension, and an accumulator without data when the operands have data.
   */
  function MatmulFailure(in1: Tile, in2: Tile, acc: Tile, flop: nat, transposed: bool): Option<string>
  {
    if !IsMatrix(in1) || !IsMatrix(in2) || Cols(in1) != Inner(in2, transposed) then Some(AssertEqFailed)
    else if AccShapeFailure(acc, Rows(in1), OutCols(in2, transposed)).Some? then AccShapeFailure(acc, Rows(in1), OutCols(in2, transposed))
    else if in1.bytesPerElem != in2.bytesPerElem then Some(AssertEqFailed)
    else if HasData(in1) && HasData(in2) && !HasData(acc) then Some(NoAccumulator)
    else if flop == 0 then Some(DivisionByZero)
    else None
  }

  /**
   * `matmul`: the product of `in1` and `in2` added to the accumulator. It is the map `matmul` with the
   * accumulator's entries added, at the same cost and with the same shape and offset.
   */
  function Matmul(in1: Tile, in2: Tile, acc: Tile, flop: nat, writeBackMu: bool, transposed: bool): (r: Result<(nat, Tile)>)
    ensures r.Err? <==> MatmulFailure(in1, in2, acc, flop, transposed).Some?
    ensures r.Err? ==> r.msg == MatmulFailure(in1, in2, acc, flop, transposed).value
    ensures r.Ok? ==> var mapped := MapFns.Matmul(in1, in2, flop, writeBackMu, transposed);
                      mapped.Ok? && r.value.0 == mapped.value.0
                      && r.value.1 == mapped.value.1.(underlying := if HasData(mapped.value.1)
                                                                   then Some(Plus(Data(acc), Data(mapped.value.1), Rows(in1), OutCols(in2, transposed)))
                                                                   else None)
  {
    if MatmulFailure(in1, in2, acc, flop, transposed).Some? then Err(MatmulFailure(in1, in2, acc, flop, transposed).value)
    else
      var m, k, n := Rows(in1), Cols(in1), OutCols(in2, transposed);
      var cycles := DivCeil(MatmulFlops(m, k, n), flop);
      if HasData(in1) && HasData(in2) then
        var product := MatrixProduct(Data(in1), Data(in2), m, k, n, transposed);
        Ok((cycles, NewPadded(Plus(Data(acc), product, m, n), in1.bytesPerElem, writeBackMu, in1.offset)))
      else
        Ok((cycles, NewBlankPadded([m, n], in1.bytesPerElem, writeBackMu, in1.offset)))
  }

  /** An accumulator with a dimension of size 0: the dynamic product starts from nothing. */
  predicate EmptyAcc(acc: Tile)
  {
    |acc.shape| >= 1 && (acc.shape[0] == 0 || (|acc.shape| >= 2 && acc.shape[1] == 0))
  }

  /** Why `dyn_matmul` stops: as `matmul`, except that an empty accumulator's shape is not checked. */
  function DynMatmulFailure(in1: Tile, in2: Tile, acc: Tile, flop: nat, transposed: bool): Option<string>
  {
    if !IsMatrix(in1) || !IsMatrix(in2) || Cols(in1) != Inner(in2, transposed) then Some(AssertEqFailed)
    else if |acc.shape| == 0 || (acc.shape[0] != 0 && |acc.shape| == 1) then Some(NoDimension)
    else if !EmptyAcc(acc) && AccShapeFailure(acc, Rows(in1), OutCols(in2, transposed)).Some? then
      AccShapeFailure(acc, Rows(in1), OutCols(in2, transposed))
    else if in1.bytesPerElem != in2.bytesPerElem then Some(AssertEqFailed)
    else if HasData(in1) && HasData(in2) && !HasData(acc) then Some(NoAccumulator)
    else if flop == 0 then Some(DivisionByZero)
    else None
  }

  /**
   * `dyn_matmul`: with an empty accumulator (of data), exactly the map `matmul`; otherwise the
   * product added to the accumulator as in `matmul`.
   */
  function DynMatmul(in1: Tile, in2: Tile, acc: Tile, flop: nat, writeBackMu: bool, transposed: bool): (r: Result<(nat, Tile)>)
    ensures r.Err? <==> DynMatmulFailure(in1, in2, acc, flop, transposed).Some?
    ensures r.Err? ==> r.msg == DynMatmulFailure(in1, in2, acc, flop, transposed).value
    ensures EmptyAcc(acc) && HasData(acc) ==> r == MapFns.Matmul(in1, in2, flop, writeBackMu, transposed)
    ensures !EmptyAcc(acc) ==> (r.Ok? <==> Matmul(in1, in2, acc, flop, writeBackMu, transposed).Ok?)
    ensures !EmptyAcc(acc) && r.Ok? ==> r == Matmul(in1, in2, acc, flop, writeBackMu, transposed)
  {
    if DynMatmulFailure(in1, in2, acc, flop, transposed).Some? then Err(DynMatmulFailure(in1, in2, acc, flop, transposed).value)
    else
      var m, k, n := Rows(in1), Cols(in1), OutCols(in2, transposed);
      var cycles := DivCeil(MatmulFlops(m, k, n), flop);
      if HasData(in1) && HasData(in2) then
        var product := MatrixProduct(Data(in1), Data(in2), m, k, n, transposed);
        if EmptyAcc(acc) then
          Ok((cycles, NewPadded(product, in1.bytesPerElem, writeBackMu, in1.offset)))
        else
          Ok((cycles, NewPadded(Plus(Data(acc), product, m, n), in1.bytesPerElem, writeBackMu, in1.offset)))
      else
        Ok((cycles, NewBlankPadded([m, n], in1.bytesPerElem, writeBackMu, in1.offset)))
  }

  // ---- as the map-accumulate operators call them ----

  /**
   * `matmul` as a map-accumulate operator calls it, with the weight layout fixed. Where it rejects its
   * operands the simulation stops, so the pair given there stands for no result.
   */
  function MatmulFunc(transposed: bool): MapAccum.MapAccumFunc
  {
    (a: Tile, b: Tile, acc: Tile, bw: nat, wb: bool) =>
      var r := Matmul(a, b, acc, bw, wb, transposed); if r.Ok? then r.value else (0, acc)
  }

  /** The operand pairs multiply `m` x `k_i` slices by `k_i` x `n` slices of one entry width, all with data. */
  predicate Slices(pairs: seq<(Tile, Tile)>, m: nat, n: nat)
  {
    forall p :: p in pairs ==>
      IsMatrix(p.0) && IsMatrix(p.1) && Rows(p.0) == m && Cols(p.0) == Rows(p.1) && Cols(p.1) == n
      && p.0.bytesPerElem == p.1.bytesPerElem && HasData(p.0) && HasData(p.1)
  }

  /** The sum over the pairs of entry `(i, j)` of their products. */
  function ProductSum(pairs: seq<(Tile, Tile)>, i: int, j: int): int
    requires forall p :: p in pairs ==> IsMatrix(p.0) && HasData(p.0) && HasData(p.1)
  {
    if pairs == [] then 0
    else Dot(Data(pairs[0].0), Data(pairs[0].1), i, j, Cols(pairs[0].0), false) + ProductSum(pairs[1..], i, j)
  }

  /** Folding `matmul` over slices adds each slice's product into the accumulator. */
  lemma {:induction false} FoldMatmul(pairs: seq<(Tile, Tile)>, acc: Tile, op: Accum.Op<(Tile, Tile)>, m: nat, n: nat)
    requires op.func == MapAccum.PairOp(MatmulFunc(false), op.init, op.rank, op.computeBw, op.writeBackMu).func
    requires op.computeBw > 0 && Slices(pairs, m, n)
    requires acc.shape == [m, n] && HasData(acc)
    ensures var r := Accum.Folded(pairs, acc, op);
            r.shape == [m, n] && HasData(r)
            && forall i, j :: 0 <= i < m && 0 <= j < n ==> At(Data(r), i, j) == At(Data(acc), i, j) + ProductSum(pairs, i, j)
    decreases |pairs|
  {
    if pairs != [] {
      var p := pairs[0];
      assert p in pairs;
      var next := op.func(p, acc, op.computeBw, op.writeBackMu).1;
      MatmulStep(p.0, p.1, acc, op.computeBw, op.writeBackMu, m, n);
      assert next == Matmul(p.0, p.1, acc, op.computeBw, op.writeBackMu, false).value.1;
      assert Slices(pairs[1..], m, n) by {
        forall q | q in pairs[1..] ensures q in pairs { }
      }
      FoldMatmul(pairs[1..], next, op, m, n);
    }
  }

  /** One slice: the accumulator gains the slice's product. */
  lemma MatmulStep(a: Tile, b: Tile, acc: Tile, flop: nat, writeBackMu: bool, m: nat, n: nat)
    requires IsMatrix(a) && IsMatrix(b) && Rows(a) == m && Cols(a) == Rows(b) && Cols(b) == n
    requires a.bytesPerElem == b.bytesPerElem && HasData(a) && HasData(b)
    requires acc.shape == [m, n] && HasData(acc) && flop > 0
    ensures var r := Matmul(a, b, acc, flop, writeBackMu, false);
            r.Ok? && r.value.1.shape == [m, n] && HasData(r.value.1)
            && forall i, j :: 0 <= i < m && 0 <= j < n ==>
                 At(Data(r.value.1), i, j) == At(Data(acc), i, j) + Dot(Data(a), Data(b), i, j, Cols(a), false)
  {
    var mapped := MapFns.Matmul(a, b, flop, writeBackMu, false).value.1;
    PlusAt(Data(acc), Data(mapped), m, n);
  }

  /**
   * A map-accumulate `matmul` started from zeros sends, for each group of slices, the sum of the
   * slices' products: the tiled product of the operands.
   */
  lemma AccumulateMatmul(group: seq<Elem<(Tile, Tile)>>, rest: seq<Elem<(Tile, Tile)>>, op: Accum.Op<(Tile, Tile)>, m: nat, n: nat)
    requires op.func == MapAccum.PairOp(MatmulFunc(false), op.init, op.rank, op.computeBw, op.writeBackMu).func
    requires op.init == NewZero(m, n, op.init.bytesPerElem, op.init.readFromMu) && op.computeBw > 0
    requires |group| > 0 && Accum.Emits(group[|group| - 1], op.rank)
    requires forall k :: 0 <= k < |group| - 1 ==> !Accum.Emits(group[k], op.rank)
    requires Slices(Values(group), m, n)
    ensures var out := Accum.AccumFrom(group + rest, op.init, op).out;
            |out| > 0 && Level(out[0]) == group[|group| - 1].level - op.rank
            && out[0].v.shape == [m, n] && HasData(out[0].v)
            && forall i, j :: 0 <= i < m && 0 <= j < n ==> At(Data(out[0].v), i, j) == ProductSum(Values(group), i, j)
  {
    Accum.AccumGroup(group, rest, op.init, op);
    FoldMatmul(Values(group), op.init, op, m, n);
  }

  /** The left operands' data. */
  function Lefts(pairs: seq<(Tile, Tile)>): (r: seq<Matrix>)
    requires forall p :: p in pairs ==> HasData(p.0)
    ensures |r| == |pairs| && forall s :: 0 <= s < |pairs| ==> r[s] == Data(pairs[s].0)
  {
    if pairs == [] then [] else [Data(pairs[0].0)] + Lefts(pairs[1..])
  }

  /** The right operands' data. */
  function Rights(pairs: seq<(Tile, Tile)>): (r: seq<Matrix>)
    requires forall p :: p in pairs ==> HasData(p.1)
    ensures |r| == |pairs| && forall s :: 0 <= s < |pairs| ==> r[s] == Data(pairs[s].1)
  {
    if pairs == [] then [] else [Data(pairs[0].1)] + Rights(pairs[1..])
  }

  /** Each slice's reduction depth. */
  function Depths(pairs: seq<(Tile, Tile)>): (r: seq<nat>)
    requires forall p :: p in pairs ==> IsMatrix(p.0)
    ensures |r| == |pairs| && forall s :: 0 <= s < |pairs| ==> r[s] == Cols(pairs[s].0)
  {
    if pairs == [] then [] else [Cols(pairs[0].0)] + Depths(pairs[1..])
  }

  /**
   * Tiling the reduction dimension computes the product: when the left slices are the column blocks
   * of `a` and the right slices the row blocks of `b`, the sum of the slices' products is the product
   * of `a` and `b` over the whole reduction dimension.
   */
  lemma TiledProduct(pairs: seq<(Tile, Tile)>, a: Matrix, b: Matrix, m: nat, n: nat, i: int, j: int)
    requires Slices(pairs, m, n) && 0 <= i < m && 0 <= j < n
    requires ColumnBlocks(a, Lefts(pairs), Depths(pairs), m, 0) && RowBlocks(b, Rights(pairs), Depths(pairs), n, 0)
    ensures ProductSum(pairs, i, j) == Dot(a, b, i, j, Total(Depths(pairs)), false)
  {
    SumOfSlices(pairs, m, n, i, j);
    TiledDot(a, b, Lefts(pairs), Rights(pairs), Depths(pairs), m, n, 0, i, j);
  }

  lemma {:induction false} SumOfSlices(pairs: seq<(Tile, Tile)>, m: nat, n: nat, i: int, j: int)
    requires Slices(pairs, m, n)
    ensures ProductSum(pairs, i, j) == DotSum(Lefts(pairs), Rights(pairs), Depths(pairs), i, j)
    decreases |pairs|
  {
    if pairs != [] {
      assert pairs[0] in pairs;
      assert Slices(pairs[1..], m, n) by {
        forall q | q in pairs[1..] ensures q in pairs { }
      }
      SumOfSlices(pairs[1..], m, n, i, j);
      assert Lefts(pairs)[1..] == Lefts(pairs[1..]);
      assert Rights(pairs)[1..] == Rights(pairs[1..]);
      assert Depths(pairs)[1..] == Depths(pairs[1..]);
    }
  }
}
