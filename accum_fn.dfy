/**
 * The tile functions that accumulators apply, each taking the incoming tile and the accumulator:
 * broadcast multiply and add with an unpadded result, regrouping of small tiles into a larger one
 * along the columns or the rows, and the flag that a request has been read completely.
 */
module AccumFns {
  import opened Wrappers
  import opened Calc
  import opened Elems
  import opened Tiles
  import opened Matrices
  import opened MapFns
  import Accum

  const ConcatFailed := "Failed to concatenate input data and accumulator data"
  const InvalidOffset := "Invalid offset for input data"

  /**
   * The element-wise functions `mul` and `add` of an accumulator: what the map function of the same
   * name gives, but with no padding, the offset being the row count of the result.
   */
  function ElementWise(in1: Tile, in2: Tile, op: (int, int) -> int, flop: nat, writeBackMu: bool): (r: Result<(nat, Tile)>)
    ensures r.Err? <==> MapFns.ElementWise(in1, in2, op, flop, writeBackMu).Err?
    ensures r.Err? ==> r.msg == MapFns.ElementWise(in1, in2, op, flop, writeBackMu).msg
    ensures r.Ok? ==> var mapped := MapFns.ElementWise(in1, in2, op, flop, writeBackMu).value;
                      r.value.0 == mapped.0 && r.value.1 == mapped.1.(offset := BroadcastShape(in1, in2)[0])
  {
    if BroadcastFailure(in1, in2, flop).Some? then Err(BroadcastFailure(in1, in2, flop).value)
    else
      var shape := BroadcastShape(in1, in2);
      var cycles := DivCeil(Product(shape), flop);
      if HasData(in1) && HasData(in2) then
        Ok((cycles, New(BroadcastData(in1, in2, op), in1.bytesPerElem, writeBackMu)))
      else
        Ok((cycles, NewBlank(shape, in1.bytesPerElem, writeBackMu)))
  }

  /** `mul`. */
  function Mul(in1: Tile, in2: Tile, flop: nat, writeBackMu: bool): Result<(nat, Tile)>
  {
    ElementWise(in1, in2, (x, y) => x * y, flop, writeBackMu)
  }

  /** `add`. */
  function Add(in1: Tile, in2: Tile, flop: nat, writeBackMu: bool): Result<(nat, Tile)>
  {
    ElementWise(in1, in2, (x, y) => x + y, flop, writeBackMu)
  }

  /** On a tile and an accumulator of one shape, `add` adds entry by entry and leaves no padding. */
  lemma AddSameShape(t: Tile, acc: Tile, flop: nat, writeBackMu: bool)
    requires IsMatrix(t) && acc.shape == t.shape && HasData(t) && HasData(acc) && flop > 0
    ensures var r := Add(t, acc, flop, writeBackMu);
            r.Ok? && r.value.1.shape == t.shape && r.value.1.offset == Rows(t) && HasData(r.value.1)
            && Data(r.value.1) == Plus(Data(t), Data(acc), Rows(t), Cols(t))
  {
    MapFns.AddSameShape(t, acc, flop, writeBackMu);
  }

  // ---- retile_col ----

  /**
   * Why `retile_col` stops: an operand that is not 2-D, a tile or an accumulator without data, or
   * row counts that differ, so that the two cannot be put side by side.
   */
  function RetileColFailure(t: Tile, acc: Tile): Option<string>
  {
    if !IsMatrix(t) || !IsMatrix(acc) then Some(AssertEqFailed)
    else if !HasData(t) || !HasData(acc) then Some(NoData)
    else if Rows(acc) != Rows(t) then Some(ConcatFailed)
    else None
  }

  /**
   * `retile_col`: the accumulator with the tile placed on its right, as a new unpadded tile with the
   * tile's entry width and flag; no cycles are counted.
   */
  function RetileCol(t: Tile, acc: Tile, flop: nat, writeBackMu: bool): (r: Result<(nat, Tile)>)
    ensures r.Err? <==> RetileColFailure(t, acc).Some?
    ensures r.Err? ==> r.msg == RetileColFailure(t, acc).value
    ensures r.Ok? ==> r.value.0 == 0 && Valid(r.value.1) && HasData(r.value.1)
                      && r.value.1.shape == [Rows(t), Cols(acc) + Cols(t)] && r.value.1.offset == Rows(t)
                      && r.value.1.bytesPerElem == t.bytesPerElem && r.value.1.readFromMu == t.readFromMu
    ensures r.Ok? ==> forall i, j :: 0 <= i < Rows(t) && 0 <= j < Cols(acc) + Cols(t) ==>
                        At(Data(r.value.1), i, j) == if j < Cols(acc) then At(Data(acc), i, j) else At(Data(t), i, j - Cols(acc))
  {
    if RetileColFailure(t, acc).Some? then Err(RetileColFailure(t, acc).value)
    else
      BesideAll(Data(acc), Data(t), Rows(t), Cols(acc), Cols(t));
      Ok((0, New(Beside(Data(acc), Data(t), Rows(t), Cols(acc), Cols(t)), t.bytesPerElem, t.readFromMu)))
  }

  lemma BesideAll(a: Matrix, b: Matrix, rows: nat, c1: nat, c2: nat)
    ensures forall i, j :: 0 <= i < rows && 0 <= j < c1 + c2 ==>
              At(Beside(a, b, rows, c1, c2), i, j) == if j < c1 then At(a, i, j) else At(b, i, j - c1)
  {
    forall i, j | 0 <= i < rows && 0 <= j < c1 + c2
      ensures At(Beside(a, b, rows, c1, c2), i, j) == if j < c1 then At(a, i, j) else At(b, i, j - c1)
    {
      BesideAt(a, b, rows, c1, c2, i, j);
    }
  }

  /** On valid tiles, every row of the result is the accumulator's row followed by the tile's. */
  lemma RetileColRows(t: Tile, acc: Tile, flop: nat, writeBackMu: bool)
    requires Valid(t) && Valid(acc) && RetileCol(t, acc, flop, writeBackMu).Ok?
    ensures var out := Data(RetileCol(t, acc, flop, writeBackMu).value.1);
            forall i :: 0 <= i < Rows(t) ==> out.cells[i] == Data(acc).cells[i] + Data(t).cells[i]
  {
    var out := Data(RetileCol(t, acc, flop, writeBackMu).value.1);
    forall i | 0 <= i < Rows(t)
      ensures out.cells[i] == Data(acc).cells[i] + Data(t).cells[i]
    {
      var row := Data(acc).cells[i] + Data(t).cells[i];
      forall j | 0 <= j < |row|
        ensures out.cells[i][j] == row[j]
      {
        assert At(out, i, j) == out.cells[i][j];
      }
    }
  }

  // ---- retile_row ----

  /**
   * Why `retile_row` stops. A tile with data needs an accumulator with data of the same width. A tile
   * without data needs the same width, and an offset that counts all of its rows or none of them.
   */
  function RetileRowFailure(t: Tile, acc: Tile): Option<string>
  {
    if !IsMatrix(t) || !IsMatrix(acc) then Some(AssertEqFailed)
    else if HasData(t) then
      if !HasData(acc) then Some(NoData)
      else if Cols(acc) != Cols(t) then Some(ConcatFailed)
      else None
    else if Cols(t) != Cols(acc) then Some(AssertEqFailed)
    else if !(t.offset == Rows(t) || t.offset == 0) then Some(InvalidOffset)
    else None
  }

  /**
   * `retile_row`: the tile placed below the accumulator, the real rows of both counted in the offset,
   * with the tile's entry width and flag; no cycles are counted. Without data on the tile only the
   * shape and offset are computed.
   */
  function RetileRow(t: Tile, acc: Tile, flop: nat, writeBackMu: bool): (r: Result<(nat, Tile)>)
    ensures r.Err? <==> RetileRowFailure(t, acc).Some?
    ensures r.Err? ==> r.msg == RetileRowFailure(t, acc).value
    ensures r.Ok? ==> r.value.0 == 0 && Valid(r.value.1) && (HasData(r.value.1) <==> HasData(t))
                      && r.value.1.shape == [Rows(acc) + Rows(t), Cols(t)] && r.value.1.offset == acc.offset + t.offset
                      && r.value.1.bytesPerElem == t.bytesPerElem && r.value.1.readFromMu == t.readFromMu
    ensures r.Ok? && HasData(t) ==>
              forall i, j :: 0 <= i < Rows(acc) + Rows(t) && 0 <= j < Cols(t) ==>
                At(Data(r.value.1), i, j) == if i < Rows(acc) then At(Data(acc), i, j) else At(Data(t), i - Rows(acc), j)
  {
    if RetileRowFailure(t, acc).Some? then Err(RetileRowFailure(t, acc).value)
    else if HasData(t) then
      AboveAll(Data(acc), Data(t), Rows(acc), Rows(t), Cols(t));
      Ok((0, NewPadded(Above(Data(acc), Data(t), Rows(acc), Rows(t), Cols(t)), t.bytesPerElem, t.readFromMu, acc.offset + t.offset)))
    else
      Ok((0, NewBlankPadded([Rows(t) + Rows(acc), Cols(acc)], t.bytesPerElem, t.readFromMu, acc.offset + t.offset)))
  }

  lemma AboveAll(a: Matrix, b: Matrix, r1: nat, r2: nat, cols: nat)
    ensures forall i, j :: 0 <= i < r1 + r2 && 0 <= j < cols ==>
              At(Above(a, b, r1, r2, cols), i, j) == if i < r1 then At(a, i, j) else At(b, i - r1, j)
  {
    forall i, j | 0 <= i < r1 + r2 && 0 <= j < cols
      ensures At(Above(a, b, r1, r2, cols), i, j) == if i < r1 then At(a, i, j) else At(b, i - r1, j)
    {
      AboveAt(a, b, r1, r2, cols, i, j);
    }
  }

  /** On valid tiles with data, the rows of the result are the accumulator's followed by the tile's. */
  lemma RetileRowCells(t: Tile, acc: Tile, flop: nat, writeBackMu: bool)
    requires Valid(t) && Valid(acc) && HasData(t) && RetileRow(t, acc, flop, writeBackMu).Ok?
    ensures Data(RetileRow(t, acc, flop, writeBackMu).value.1).cells == Data(acc).cells + Data(t).cells
  {
    var out := Data(RetileRow(t, acc, flop, writeBackMu).value.1);
    var cells := Data(acc).cells + Data(t).cells;
    forall i | 0 <= i < |cells|
      ensures out.cells[i] == cells[i]
    {
      forall j | 0 <= j < Cols(t)
        ensures out.cells[i][j] == cells[i][j]
      {
        assert At(out, i, j) == out.cells[i][j];
      }
    }
  }

  // ---- signal_req_all_read ----

  /** `signal_req_all_read`: the 1 x 1 flag 1, or a blank 1 x 1 tile when the tile has no data; one cycle. */
  function SignalReqAllRead(t: Tile, other: Tile, writeBackMu: bool): (r: (nat, Tile))
    ensures r.0 == 1 && Valid(r.1) && r.1.shape == [1, 1] && r.1.bytesPerElem == 8 && r.1.readFromMu == writeBackMu
    ensures HasData(r.1) <==> HasData(t)
    ensures HasData(t) ==> HasFirst(r.1) && First(r.1) == 1
  {
    if HasData(t) then (1, Scalar(1, writeBackMu)) else (1, NewBlank([1, 1], 8, writeBackMu))
  }

  // ---- as the accumulators call them ----

  /** The sum of entry `(i, j)` over the tiles `xs`. */
  function EntrySum(xs: seq<Tile>, i: int, j: int): int
  {
    if xs == [] then 0 else (if HasData(xs[0]) then At(Data(xs[0]), i, j) else 0) + EntrySum(xs[1..], i, j)
  }

  /** Folding `add` over tiles of the accumulator's shape sums them into it, entry by entry. */
  lemma {:induction false} FoldAdd(xs: seq<Tile>, acc: Tile, op: Accum.Op<Tile>)
    requires op.func == Binary(Add) && op.computeBw > 0
    requires IsMatrix(acc) && HasData(acc)
    requires forall k :: 0 <= k < |xs| ==> xs[k].shape == acc.shape && HasData(xs[k])
    ensures var r := Accum.Folded(xs, acc, op);
            r.shape == acc.shape && HasData(r)
            && forall i, j :: 0 <= i < Rows(acc) && 0 <= j < Cols(acc) ==> At(Data(r), i, j) == At(Data(acc), i, j) + EntrySum(xs, i, j)
    decreases |xs|
  {
    if xs != [] {
      var x := xs[0];
      AddSameShape(x, acc, op.computeBw, op.writeBackMu);
      var next := op.func(x, acc, op.computeBw, op.writeBackMu).1;
      assert next == Add(x, acc, op.computeBw, op.writeBackMu).value.1;
      PlusAt(Data(x), Data(acc), Rows(acc), Cols(acc));
      FoldAdd(xs[1..], next, op);
    }
  }

  /**
   * An accumulator of `add` started from zeros sends, for each group of tiles of one shape, the
   * entry-by-entry sum of the group, closing `rank` fewer dimensions than the group's last element.
   */
  lemma AccumulateAdd(group: seq<Elem<Tile>>, rest: seq<Elem<Tile>>, op: Accum.Op<Tile>, rows: nat, cols: nat)
    requires op.func == Binary(Add) && op.computeBw > 0
    requires op.init == NewZero(rows, cols, op.init.bytesPerElem, op.init.readFromMu)
    requires |group| > 0 && Accum.Emits(group[|group| - 1], op.rank)
    requires forall k :: 0 <= k < |group| - 1 ==> !Accum.Emits(group[k], op.rank)
    requires forall k :: 0 <= k < |group| ==> group[k].v.shape == [rows, cols] && HasData(group[k].v)
    ensures var out := Accum.AccumFrom(group + rest, op.init, op).out;
            |out| > 0 && Level(out[0]) == group[|group| - 1].level - op.rank
            && out[0].v.shape == [rows, cols] && HasData(out[0].v)
            && forall i, j :: 0 <= i < rows && 0 <= j < cols ==> At(Data(out[0].v), i, j) == EntrySum(Values(group), i, j)
  {
    Accum.AccumGroup(group, rest, op.init, op);
    FoldAdd(Values(group), op.init, op);
  }

  /** The rows of the tiles `xs`, in order. */
  function StackedCells(xs: seq<Tile>): seq<seq<int>>
  {
    if xs == [] then [] else (if HasData(xs[0]) then Data(xs[0]).cells else []) + StackedCells(xs[1..])
  }

  /** The real rows of the tiles `xs` together. */
  function OffsetSum(xs: seq<Tile>): nat
  {
    if xs == [] then 0 else xs[0].offset + OffsetSum(xs[1..])
  }

  /** All rows of the tiles `xs` together. */
  function RowCount(xs: seq<Tile>): nat
    requires forall k :: 0 <= k < |xs| ==> IsMatrix(xs[k])
  {
    if xs == [] then 0 else Rows(xs[0]) + RowCount(xs[1..])
  }

  /**
   * Folding `retile_row` over valid tiles with data of the accumulator's width stacks their rows
   * below the accumulator's, and their real rows after its own.
   */
  lemma {:induction false} FoldRetileRow(xs: seq<Tile>, acc: Tile, op: Accum.Op<Tile>)
    requires op.func == Binary(RetileRow)
    requires IsMatrix(acc) && HasData(acc) && Valid(acc)
    requires forall k :: 0 <= k < |xs| ==> IsMatrix(xs[k]) && Cols(xs[k]) == Cols(acc) && HasData(xs[k]) && Valid(xs[k])
    ensures var r := Accum.Folded(xs, acc, op);
            Valid(r) && HasData(r) && r.shape == [Rows(acc) + RowCount(xs), Cols(acc)]
            && r.offset == acc.offset + OffsetSum(xs) && Data(r).cells == Data(acc).cells + StackedCells(xs)
    decreases |xs|
  {
    if xs != [] {
      var x := xs[0];
      RetileRowNext(x, acc, op);
      var next := op.func(x, acc, op.computeBw, op.writeBackMu).1;
      FoldRetileRow(xs[1..], next, op);
      var a, b, c := Data(acc).cells, Data(x).cells, StackedCells(xs[1..]);
      assert StackedCells(xs) == b + c;
      assert (a + b) + c == a + (b + c);
    }
  }

  /** One step of the row-retiling fold on valid tiles with data of one width. */
  lemma RetileRowNext(x: Tile, acc: Tile, op: Accum.Op<Tile>)
    requires op.func == Binary(RetileRow)
    requires IsMatrix(acc) && HasData(acc) && Valid(acc)
    requires IsMatrix(x) && Cols(x) == Cols(acc) && HasData(x) && Valid(x)
    ensures var next := op.func(x, acc, op.computeBw, op.writeBackMu).1;
            Valid(next) && HasData(next) && next.shape == [Rows(acc) + Rows(x), Cols(acc)]
            && next.offset == acc.offset + x.offset && Data(next).cells == Data(acc).cells + Data(x).cells
  {
    var r := RetileRow(x, acc, op.computeBw, op.writeBackMu);
    assert r.Ok?;
    RetileRowCells(x, acc, op.computeBw, op.writeBackMu);
  }

  /**
   * A row-retiling accumulator started from an empty tile of width `cols` sends, for each group, one
   * tile holding the rows of all the group's tiles, with their real rows added up.
   */
  lemma AccumulateRetileRow(group: seq<Elem<Tile>>, rest: seq<Elem<Tile>>, op: Accum.Op<Tile>, cols: nat)
    requires op.func == Binary(RetileRow)
    requires NewEmpty(0, cols, op.init.bytesPerElem, op.init.readFromMu) == Ok(op.init)
    requires |group| > 0 && Accum.Emits(group[|group| - 1], op.rank)
    requires forall k :: 0 <= k < |group| - 1 ==> !Accum.Emits(group[k], op.rank)
    requires forall k :: 0 <= k < |group| ==> IsMatrix(group[k].v) && Cols(group[k].v) == cols && HasData(group[k].v) && Valid(group[k].v)
    ensures var out := Accum.AccumFrom(group + rest, op.init, op).out;
            |out| > 0 && Level(out[0]) == group[|group| - 1].level - op.rank
            && out[0].v.shape == [RowCount(Values(group)), cols] && out[0].v.offset == OffsetSum(Values(group))
            && HasData(out[0].v) && Data(out[0].v).cells == StackedCells(Values(group))
  {
    Accum.AccumGroup(group, rest, op.init, op);
    assert Data(op.init).cells == [];
    FoldRetileRow(Values(group), op.init, op);
  }
}
