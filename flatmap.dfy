/**
 * The flat-map operators: each input element becomes a run of output elements. `RetileStreamify`
 * splits a tile into its rows or columns; `ExpertAddrGen` turns a selected expert into the addresses
 * of its weight tiles; `CacheReadAddrGen` turns a cache line index and its length into the addresses
 * of the line's entries; `FilterLastTile` marks the last entry of each line.
 */
module FlatMap {
  import opened Wrappers
  import opened Calc
  import opened Elems
  import opened Tiles
  import opened Shapes
  import opened Select
  import Matrices
  import MapFns
  import AccumFns
  import Accum
  import Map

  const NoDimension := "index out of bounds"

  // ---- RetileStreamify ----

  /** How many vectors a tile splits into: counted on the array when there is one, else on the shape. */
  function VectorCount(t: Tile, splitRow: bool): nat
    requires MapFns.HasData(t) || |t.shape| >= 2
  {
    if MapFns.HasData(t) then (if splitRow then MapFns.Data(t).rows else MapFns.Data(t).cols)
    else if splitRow then t.shape[0] else t.shape[1]
  }

  /** The length of each vector: the other dimension. */
  function VectorLength(t: Tile, splitRow: bool): nat
    requires MapFns.HasData(t) || |t.shape| >= 2
  {
    if MapFns.HasData(t) then (if splitRow then MapFns.Data(t).cols else MapFns.Data(t).rows)
    else if splitRow then t.shape[1] else t.shape[0]
  }

  /** Row `k` (or column `k`) of an array, as a 1 x N array. */
  function Vector(a: Matrix, k: nat, splitRow: bool): Matrix
  {
    if splitRow then Matrix(1, a.cols, [seq(a.cols, c => Matrices.At(a, k, c))])
    else Matrix(1, a.rows, [seq(a.rows, r => Matrices.At(a, r, k))])
  }

  /** Vector `k` is real (offset 1) when it lies within the tile's real rows, else padding (offset 0). */
  function Pad(k: nat, offset: nat): nat
  {
    if k + 1 <= offset then 1 else 0
  }

  /** The tile sent for vector `k`. */
  function VectorTile(t: Tile, k: nat, splitRow: bool): Tile
    requires MapFns.HasData(t) || |t.shape| >= 2
  {
    if MapFns.HasData(t) then NewPadded(Vector(MapFns.Data(t), k, splitRow), t.bytesPerElem, t.readFromMu, Pad(k, t.offset))
    else NewBlankPadded([1, VectorLength(t, splitRow)], t.bytesPerElem, t.readFromMu, Pad(k, t.offset))
  }

  /** How many vectors are sent: with the filter, only the real ones when the offset falls inside the tile. */
  function Emitted(n: nat, offset: nat, filterMask: bool): nat
  {
    if filterMask && 1 <= offset <= n then offset else n
  }

  /** The element sent for vector `k`: the input's stop, if any, goes on the last vector sent. */
  function RetiledAt(t: Tile, k: nat, stop: Option<nat>, splitRow: bool, filterMask: bool): Elem<Tile>
    requires MapFns.HasData(t) || |t.shape| >= 2
  {
    var x := VectorTile(t, k, splitRow);
    if stop.Some? && ((filterMask && k + 1 == t.offset) || k + 1 == VectorCount(t, splitRow)) then ValStop(x, stop.value)
    else Val(x)
  }

  /** The elements `retile` sends for one input tile; a blank tile without two dimensions stops the simulation. */
  function Retiled(t: Tile, stop: Option<nat>, splitRow: bool, filterMask: bool): (r: Result<seq<Elem<Tile>>>)
    ensures r.Err? <==> !MapFns.HasData(t) && |t.shape| < 2
    ensures r.Ok? ==> |r.value| == Emitted(VectorCount(t, splitRow), t.offset, filterMask)
  {
    if !MapFns.HasData(t) && |t.shape| < 2 then Err(NoDimension)
    else
      var e := Emitted(VectorCount(t, splitRow), t.offset, filterMask);
      Ok(seq(e, k requires 0 <= k < e => RetiledAt(t, k, stop, splitRow, filterMask)))
  }

  /** `RetileStreamify::retile`: one element per vector, in order, stopping early on the filter's offset. */
  method Retile(t: Tile, stop: Option<nat>, splitRow: bool, filterMask: bool) returns (r: Result<seq<Elem<Tile>>>)
    ensures r == Retiled(t, stop, splitRow, filterMask)
  {
    if !MapFns.HasData(t) && |t.shape| < 2 {
      return Err(NoDimension);
    }
    var n := VectorCount(t, splitRow);
    ghost var e := Emitted(n, t.offset, filterMask);
    var out: seq<Elem<Tile>> := [];
    var idx: nat := 0;
    while idx < n
      invariant idx <= n
      invariant filterMask && 1 <= t.offset <= n ==> idx < t.offset
      invariant |out| == idx && forall k :: 0 <= k < idx ==> out[k] == RetiledAt(t, k, stop, splitRow, filterMask)
    {
      var x := VectorTile(t, idx, splitRow);
      var elem := if stop.Some? && ((filterMask && idx + 1 == t.offset) || idx + 1 == n) then ValStop(x, stop.value) else Val(x);
      out := out + [elem];
      if filterMask && idx + 1 == t.offset {
        idx := idx + 1;
        break;
      }
      idx := idx + 1;
    }
    assert idx == e;
    r := Ok(out);
    var spec := Retiled(t, stop, splitRow, filterMask);
    assert |spec.value| == |out| && forall k :: 0 <= k < |out| ==> spec.value[k] == out[k];
    assert spec.value == out;
  }

  /**
   * Only the last vector sent carries a stop, and it carries the input's: the vectors of one tile
   * join the innermost dimension of the stream.
   */
  lemma RetiledStops(t: Tile, stop: Option<nat>, splitRow: bool, filterMask: bool)
    requires Retiled(t, stop, splitRow, filterMask).Ok?
    ensures var out := Retiled(t, stop, splitRow, filterMask).value;
            (forall k :: 0 <= k < |out| - 1 ==> out[k].Val?)
            && (|out| > 0 ==> (out[|out| - 1].ValStop? <==> stop.Some?) && (stop.Some? ==> out[|out| - 1].level == stop.value))
  {
    var out := Retiled(t, stop, splitRow, filterMask).value;
    var n := VectorCount(t, splitRow);
    forall k | 0 <= k < |out| - 1 ensures out[k].Val? {
      assert out[k] == RetiledAt(t, k, stop, splitRow, filterMask);
    }
    if |out| > 0 {
      assert out[|out| - 1] == RetiledAt(t, |out| - 1, stop, splitRow, filterMask);
    }
  }

  /** Each vector sent is a 1 x N tile holding row (or column) `k` of the array, real when within the offset. */
  lemma RetiledVectors(t: Tile, stop: Option<nat>, splitRow: bool, filterMask: bool, k: nat)
    requires Retiled(t, stop, splitRow, filterMask).Ok? && k < |Retiled(t, stop, splitRow, filterMask).value|
    ensures var x := Retiled(t, stop, splitRow, filterMask).value[k].v;
            x.shape == [1, VectorLength(t, splitRow)] && x.offset == Pad(k, t.offset)
            && x.bytesPerElem == t.bytesPerElem && x.readFromMu == t.readFromMu && Valid(x)
            && (MapFns.HasData(x) <==> MapFns.HasData(t))
            && (MapFns.HasData(t) ==> forall c :: 0 <= c < VectorLength(t, splitRow) ==>
                  Matrices.At(MapFns.Data(x), 0, c)
                  == if splitRow then Matrices.At(MapFns.Data(t), k, c) else Matrices.At(MapFns.Data(t), c, k))
  {
    assert Retiled(t, stop, splitRow, filterMask).value[k] == RetiledAt(t, k, stop, splitRow, filterMask);
  }

  // ---- restacking the rows ----

  /** The rows of a tile sent by vectors `0 .. m`. */
  lemma {:induction false} StackedRows(t: Tile, xs: seq<Tile>, m: nat)
    requires MapFns.HasData(t) && Rectangular(MapFns.Data(t))
    requires m <= |xs| && m <= MapFns.Data(t).rows
    requires forall k :: 0 <= k < |xs| ==> xs[k] == VectorTile(t, k, true)
    ensures forall k :: 0 <= k < |xs| ==> MapFns.IsMatrix(xs[k]) && MapFns.Rows(xs[k]) == 1
    ensures AccumFns.StackedCells(xs[..m]) == MapFns.Data(t).cells[..m]
    ensures AccumFns.OffsetSum(xs[..m]) == if t.offset <= m then t.offset else m
    ensures AccumFns.RowCount(xs[..m]) == m
    decreases m
  {
    var a := MapFns.Data(t);
    if m > 0 {
      StackedRows(t, xs, m - 1);
      var init, x := xs[..m - 1], xs[m - 1];
      TakeSnoc(xs, m);
      RowVector(a, m - 1);
      StackedSnoc(init, x);
      TakeSnoc(a.cells, m);
    } else {
      assert xs[..m] == [];
    }
  }

  /** Within a rectangular array, row vector `k` is the array's row `k`. */
  lemma RowVector(a: Matrix, k: nat)
    requires Rectangular(a) && k < a.rows
    ensures Vector(a, k, true).cells == [a.cells[k]]
  {
    var v := seq(a.cols, c => Matrices.At(a, k, c));
    assert |a.cells[k]| == a.cols;
    forall c | 0 <= c < a.cols ensures v[c] == a.cells[k][c] { }
    assert v == a.cells[k];
  }

  /** The stacked rows, offsets and row counts of `xs` followed by `x`. */
  lemma {:induction false} StackedSnoc(xs: seq<Tile>, x: Tile)
    requires forall k :: 0 <= k < |xs| ==> MapFns.IsMatrix(xs[k])
    requires MapFns.IsMatrix(x)
    ensures AccumFns.StackedCells(xs + [x]) == AccumFns.StackedCells(xs) + (if MapFns.HasData(x) then MapFns.Data(x).cells else [])
    ensures AccumFns.OffsetSum(xs + [x]) == AccumFns.OffsetSum(xs) + x.offset
    ensures AccumFns.RowCount(xs + [x]) == AccumFns.RowCount(xs) + MapFns.Rows(x)
    decreases |xs|
  {
    if xs != [] {
      assert (xs + [x])[1..] == xs[1..] + [x];
      StackedSnoc(xs[1..], x);
    } else {
      assert xs + [x] == [x];
    }
  }

  /**
   * Splitting a tile into rows and stacking them again with `retile_row` gives back the tile: an
   * accumulator of rank 1 over the retiled stream sends one tile with the original rows, shape and
   * real-row count (as far as the offset lies within the tile).
   */
  lemma RowsRestack(t: Tile, s: nat, rest: seq<Elem<Tile>>, op: Accum.Op<Tile>)
    requires MapFns.HasData(t) && Valid(t) && MapFns.Data(t).rows > 0 && s >= 1
    requires op.func == MapFns.Binary(AccumFns.RetileRow) && op.rank == 1
    requires NewEmpty(0, MapFns.Data(t).cols, op.init.bytesPerElem, op.init.readFromMu) == Ok(op.init)
    ensures var out := Accum.AccumFrom(Retiled(t, Some(s), true, false).value + rest, op.init, op).out;
            |out| > 0 && Level(out[0]) == s - 1
            && out[0].v.shape == t.shape && MapFns.HasData(out[0].v) && MapFns.Data(out[0].v).cells == MapFns.Data(t).cells
            && out[0].v.offset == (if t.offset <= t.shape[0] then t.offset else t.shape[0])
  {
    var a := MapFns.Data(t);
    var group := Retiled(t, Some(s), true, false).value;
    var n := |group|;
    assert n == a.rows;
    forall k | 0 <= k < n ensures group[k].v == VectorTile(t, k, true) && MapFns.IsMatrix(group[k].v) && MapFns.Cols(group[k].v) == a.cols
                                  && MapFns.HasData(group[k].v) && Valid(group[k].v) {
      assert group[k] == RetiledAt(t, k, Some(s), true, false);
    }
    RetiledStops(t, Some(s), true, false);
    StackedRows(t, Values(group), n);
    assert Values(group)[..n] == Values(group);
    assert a.cells[..n] == a.cells;
    AccumFns.AccumulateRetileRow(group, rest, op, a.cols);
  }

  // ---- RetileStreamify::run ----

  /** The elements `run` sends for the first `k` input tiles; the first failing tile stops the simulation. */
  function RetileFrom(input: seq<Elem<Tile>>, k: nat, splitRow: bool, filterMask: bool): (r: Result<seq<Elem<Tile>>>)
    requires k <= |input|
    ensures r.Err? <==> exists j :: 0 <= j < k && !MapFns.HasData(input[j].v) && |input[j].v.shape| < 2
    decreases k
  {
    if k == 0 then Ok([])
    else
      var e := input[k - 1];
      match RetileFrom(input, k - 1, splitRow, filterMask)
      case Err(msg) => Err(msg)
      case Ok(prev) =>
        match Retiled(e.v, StopOf(e), splitRow, filterMask)
        case Err(msg) => Err(msg)
        case Ok(vectors) => Ok(prev + vectors)
  }

  /** The stop a stream element carries, if any. */
  function StopOf(e: Elem<Tile>): (stop: Option<nat>)
    ensures stop.Some? <==> e.ValStop?
    ensures stop.Some? ==> stop.value == e.level
  {
    if e.ValStop? then Some(e.level) else None
  }

  /** Once a tile has failed, the simulation has stopped: later tiles change nothing. */
  lemma {:induction false} RetileFailureStays(input: seq<Elem<Tile>>, k: nat, m: nat, splitRow: bool, filterMask: bool)
    requires k <= m <= |input| && RetileFrom(input, k, splitRow, filterMask).Err?
    ensures RetileFrom(input, m, splitRow, filterMask) == RetileFrom(input, k, splitRow, filterMask)
    decreases m
  {
    if m > k {
      RetileFailureStays(input, k, m - 1, splitRow, filterMask);
    }
  }

  /** `RetileStreamify::run`: every input tile retiled in turn, with the input's stop on its last vector. */
  method RetileStreamify(input: seq<Elem<Tile>>, splitRow: bool, filterMask: bool) returns (r: Result<seq<Elem<Tile>>>)
    ensures r == RetileFrom(input, |input|, splitRow, filterMask)
  {
    var out: seq<Elem<Tile>> := [];
    var k: nat := 0;
    while k < |input|
      invariant k <= |input| && RetileFrom(input, k, splitRow, filterMask) == Ok(out)
    {
      var vectors := Retile(input[k].v, StopOf(input[k]), splitRow, filterMask);
      if vectors.Err? {
        RetileFailureStays(input, k + 1, |input|, splitRow, filterMask);
        return Err(vectors.msg);
      }
      out := out + vectors.value;
      k := k + 1;
    }
    return Ok(out);
  }

  /**
   * Splitting into rows keeps the stream's stops and spreads each over the tile's rows: when every
   * tile holds `c` rows, each input entry becomes `c` entries, the last with the input's level. With
   * `Shapes.WidenRows`, a stream of shape `[.., d]` becomes a stream of shape `[.., d * c]`.
   */
  lemma {:induction false} RetileLevels(input: seq<Elem<Tile>>, k: nat, c: nat)
    requires k <= |input| && RetileFrom(input, k, true, false).Ok?
    requires forall j :: 0 <= j < |input| ==> MapFns.HasData(input[j].v) && MapFns.Data(input[j].v).rows == c
    ensures StopLevels(RetileFrom(input, k, true, false).value) == Widen(StopLevels(input[..k]), c)
    decreases k
  {
    if k == 0 {
      assert input[..k] == [];
    } else {
      var e := input[k - 1];
      RetileLevels(input, k - 1, c);
      RetiledRow(e, c);
      RetileLevelsStep(input[..k - 1], e, RetileFrom(input, k - 1, true, false).value,
                       Retiled(e.v, StopOf(e), true, false).value, c);
      TakeSnoc(input, k);
    }
  }

  /** The step of `RetileLevels`: the vectors of one more tile. */
  lemma RetileLevelsStep(init: seq<Elem<Tile>>, e: Elem<Tile>, prev: seq<Elem<Tile>>, vectors: seq<Elem<Tile>>, c: nat)
    requires StopLevels(prev) == Widen(StopLevels(init), c) && StopLevels(vectors) == Spread(Level(e), c)
    ensures StopLevels(prev + vectors) == Widen(StopLevels(init + [e]), c)
  {
    StopLevelsAppend(prev, vectors);
    StopLevelsAppend(init, [e]);
    assert StopLevels([e]) == [Level(e)];
    WidenAppend(StopLevels(init), [Level(e)], c);
    assert Widen([Level(e)], c) == Spread(Level(e), c);
  }

  /** The stops of one tile of `c` rows split into rows: `c` entries, the last with the tile's level. */
  lemma RetiledRow(e: Elem<Tile>, c: nat)
    requires MapFns.HasData(e.v) && MapFns.Data(e.v).rows == c
    ensures StopLevels(Retiled(e.v, StopOf(e), true, false).value) == Spread(Level(e), c)
  {
    var out := Retiled(e.v, StopOf(e), true, false).value;
    RetiledStops(e.v, StopOf(e), true, false);
    var l := StopLevels(out);
    forall j | 0 <= j < c ensures l[j] == Spread(Level(e), c)[j] {
      assert l[j] == Level(out[j]);
    }
  }

  /** The stops of two streams one after the other. */
  lemma StopLevelsAppend<T>(a: seq<Elem<T>>, b: seq<Elem<T>>)
    ensures StopLevels(a + b) == StopLevels(a) + StopLevels(b)
  {
    var l := StopLevels(a + b);
    forall j | 0 <= j < |l| ensures l[j] == (StopLevels(a) + StopLevels(b))[j] {
      if j >= |a| {
        assert (a + b)[j] == b[j - |a|];
      }
    }
  }

  // ---- ExpertAddrGen ----

  const ZeroDimOnly := "This function is designed to only be used for 0d input streams"

  /** The experts a selector picks, in ascending order. */
  function Picked(m: MultiHot): seq<nat>
  {
    TrueIndices(m.underlying, |m.underlying|)
  }

  /** The address of weight tile `i` of expert `e`: the experts' `n` tiles lie one after another from `base`. */
  function ExpertAddr(base: nat, e: nat, i: nat, n: nat): nat
  {
    base + e * n + i
  }

  /** The addresses of expert `e`'s weight tiles, as 1 x 1 tiles: each closes one level, the last two. */
  function ExpertBlock(e: nat, n: nat, base: nat): (r: seq<Elem<Tile>>)
    ensures |r| == n
  {
    seq(n, i requires 0 <= i < n => ValStop(Scalar(ExpertAddr(base, e, i, n), false), if i < n - 1 then 1 else 2))
  }

  /** What one selector turns into: a plain value picking exactly one expert, else a stop of the simulation. */
  function ExpertTiles(x: Elem<MultiHot>, n: nat, base: nat): (r: Result<seq<Elem<Tile>>>)
    ensures r.Err? <==> x.ValStop? || |Picked(x.v)| != 1
    ensures r.Ok? ==> |r.value| == n
  {
    if x.ValStop? then Err(ZeroDimOnly)
    else if |Picked(x.v)| != 1 then Err(MapFns.AssertEqFailed)
    else Ok(ExpertBlock(Picked(x.v)[0], n, base))
  }

  /** The addresses sent for the first `k` selectors; the first failing one stops the simulation. */
  function ExpertsFrom(input: seq<Elem<MultiHot>>, k: nat, n: nat, base: nat): (r: Result<seq<Elem<Tile>>>)
    requires k <= |input|
    decreases k
  {
    if k == 0 then Ok([])
    else
      match ExpertsFrom(input, k - 1, n, base)
      case Err(msg) => Err(msg)
      case Ok(prev) =>
        match ExpertTiles(input[k - 1], n, base)
        case Err(msg) => Err(msg)
        case Ok(block) => Ok(prev + block)
  }

  /** Once a selector has failed, the simulation has stopped: later selectors change nothing. */
  lemma {:induction false} ExpertFailureStays(input: seq<Elem<MultiHot>>, k: nat, m: nat, n: nat, base: nat)
    requires k <= m <= |input| && ExpertsFrom(input, k, n, base).Err?
    ensures ExpertsFrom(input, m, n, base) == ExpertsFrom(input, k, n, base)
    decreases m
  {
    if m > k {
      ExpertFailureStays(input, k, m - 1, n, base);
    }
  }

  /** The inner loop of `ExpertAddrGen::run`: the `n` addresses of one expert. */
  method ExpertAddrs(e: nat, n: nat, base: nat) returns (block: seq<Elem<Tile>>)
    ensures block == ExpertBlock(e, n, base)
  {
    var addr := base + e * n;
    block := [];
    var i: nat := 0;
    while i < n
      invariant i <= n && |block| == i
      invariant forall j :: 0 <= j < i ==> block[j] == ExpertBlock(e, n, base)[j]
    {
      block := block + [ValStop(Scalar(addr + i, false), if i < n - 1 then 1 else 2)];
      i := i + 1;
    }
  }

  /** `ExpertAddrGen::run`: the weight-tile addresses of every selected expert, in order. */
  method ExpertAddrGen(input: seq<Elem<MultiHot>>, n: nat, base: nat) returns (r: Result<seq<Elem<Tile>>>)
    ensures r == ExpertsFrom(input, |input|, n, base)
  {
    var out: seq<Elem<Tile>> := [];
    var k: nat := 0;
    while k < |input|
      invariant k <= |input| && ExpertsFrom(input, k, n, base) == Ok(out)
    {
      var x := input[k];
      if x.ValStop? {
        ExpertFailureStays(input, k + 1, |input|, n, base);
        return Err(ZeroDimOnly);
      }
      var picked := MultiHotToSelVec(x.v);
      if |picked| != 1 {
        ExpertFailureStays(input, k + 1, |input|, n, base);
        return Err(MapFns.AssertEqFailed);
      }
      var block := ExpertAddrs(picked[0], n, base);
      out := out + block;
      k := k + 1;
    }
    return Ok(out);
  }

  /** The simulation stops exactly when some selector is a stop or does not pick exactly one expert. */
  lemma {:induction false} ExpertsFail(input: seq<Elem<MultiHot>>, k: nat, n: nat, base: nat)
    requires k <= |input|
    ensures ExpertsFrom(input, k, n, base).Err? <==> exists j :: 0 <= j < k && (input[j].ValStop? || |Picked(input[j].v)| != 1)
    decreases k
  {
    if k > 0 {
      ExpertsFail(input, k - 1, n, base);
    }
  }

  /**
   * Each selector, an entry of a stream of single values, becomes an `n` x 1 tensor of addresses: the
   * output has two more innermost dimensions than the input.
   */
  lemma {:induction false} ExpertLevels(input: seq<Elem<MultiHot>>, k: nat, n: nat, base: nat)
    requires k <= |input| && ExpertsFrom(input, k, n, base).Ok?
    ensures StopLevels(ExpertsFrom(input, k, n, base).value) == ExpandRows(ExpandRows(StopLevels(input[..k]), n), 1)
    decreases k
  {
    if k == 0 {
      assert input[..k] == [];
    } else {
      var x := input[k - 1];
      var prev := ExpertsFrom(input, k - 1, n, base).value;
      var block := ExpertTiles(x, n, base).value;
      ExpertLevels(input, k - 1, n, base);
      ExpertBlockLevels(Picked(x.v)[0], n, base);
      StopLevelsAppend(prev, block);
      TakeSnoc(input, k);
      ExpertLevelsStep(StopLevels(input[..k - 1]), n);
      StopLevelsAppend(input[..k - 1], [x]);
      assert StopLevels([x]) == [0];
    }
  }

  /** The stops of one expert's addresses: `n` entries of level 1, the last of level 2. */
  lemma ExpertBlockLevels(e: nat, n: nat, base: nat)
    ensures StopLevels(ExpertBlock(e, n, base)) == ExpandRows(Row(0, n), 1)
  {
    var l := StopLevels(ExpertBlock(e, n, base));
    var want := ExpandRows(Row(0, n), 1);
    forall i | 0 <= i < n ensures l[i] == want[i] {
      ExpandRowsIndex(Row(0, n), 1, i);
    }
  }

  /** The step of `ExpertLevels`: one more plain entry in the input. */
  lemma ExpertLevelsStep(init: seq<nat>, n: nat)
    ensures ExpandRows(ExpandRows(init + [0], n), 1) == ExpandRows(ExpandRows(init, n), 1) + ExpandRows(Row(0, n), 1)
  {
    ExpandRowsAppend(init, [0], n);
    assert ExpandRows([0], n) == Row(0, n);
    ExpandRowsAppend(ExpandRows(init, n), Row(0, n), 1);
  }

  /** Two different experts' weight tiles never share an address. */
  lemma ExpertBlocksDisjoint(base: nat, e1: nat, i1: nat, e2: nat, i2: nat, n: nat)
    requires i1 < n && i2 < n
    requires ExpertAddr(base, e1, i1, n) == ExpertAddr(base, e2, i2, n)
    ensures e1 == e2 && i1 == i2
  {
    MapFns.CacheAddrInjective(e1, i1, e2, i2, n);
  }

  // ---- CacheReadAddrGen ----

  const SameShape := "idx_stream and seq_len_stream must have the same shape"

  /** Every tile of the stream holds unsigned numbers. */
  predicate AllUnsigned(s: seq<Elem<Tile>>)
  {
    forall k :: 0 <= k < |s| ==> MapFns.Unsigned(s[k].v)
  }

  /** The number a 1 x 1 unsigned tile carries. */
  function Count(t: Tile): nat
    requires MapFns.Unsigned(t) && MapFns.HasFirst(t)
  {
    assert t.underlying.value.cells[0][0] >= 0;
    MapFns.First(t)
  }

  /** The reads of one cache line: its first `len - 1` slots as plain values, the last closing `level`. */
  function CacheReads(idx: nat, len: nat, perIdx: nat, level: nat): (r: seq<Elem<Tile>>)
    ensures |r| == len
  {
    seq(len, i requires 0 <= i < len =>
      var x := Scalar(MapFns.CacheAddr(idx, i, perIdx), false);
      if i < len - 1 then Val(x) else ValStop(x, level))
  }

  /**
   * One (line, length) pair: both plain or both stops of one level, each holding a number, and the
   * length at least one; the last read closes one more level than the pair.
   */
  function CacheReadPair(a: Elem<Tile>, b: Elem<Tile>, perIdx: nat): (r: Result<seq<Elem<Tile>>>)
    requires MapFns.Unsigned(a.v) && MapFns.Unsigned(b.v)
  {
    if a.Val? != b.Val? then Err(SameShape)
    else if a.ValStop? && a.level != b.level then Err(MapFns.AssertEqFailed)
    else if MapFns.FirstFailure(a.v).Some? then Err(MapFns.FirstFailure(a.v).value)
    else if MapFns.FirstFailure(b.v).Some? then Err(MapFns.FirstFailure(b.v).value)
    else if Count(b.v) == 0 then Err(MapFns.EmptyOperand)
    else Ok(CacheReads(Count(a.v), Count(b.v), perIdx, Level(a) + 1))
  }

  /** The reads sent for the first `k` pairs; the first failing pair stops the simulation. */
  function CacheReadsFrom(idx: seq<Elem<Tile>>, lens: seq<Elem<Tile>>, k: nat, perIdx: nat): (r: Result<seq<Elem<Tile>>>)
    requires AllUnsigned(idx) && AllUnsigned(lens) && k <= |idx| && k <= |lens|
    decreases k
  {
    if k == 0 then Ok([])
    else
      match CacheReadsFrom(idx, lens, k - 1, perIdx)
      case Err(msg) => Err(msg)
      case Ok(prev) =>
        match CacheReadPair(idx[k - 1], lens[k - 1], perIdx)
        case Err(msg) => Err(msg)
        case Ok(got) => Ok(prev + got)
  }

  /** `CacheReadAddrGen::run` as a whole: every pair in turn, then both streams must end together. */
  function CacheReadStream(idx: seq<Elem<Tile>>, lens: seq<Elem<Tile>>, perIdx: nat): (r: Result<seq<Elem<Tile>>>)
    requires AllUnsigned(idx) && AllUnsigned(lens)
  {
    var m := if |idx| <= |lens| then |idx| else |lens|;
    match CacheReadsFrom(idx, lens, m, perIdx)
    case Err(msg) => Err(msg)
    case Ok(out) => if |idx| != |lens| then Err(SameShape) else Ok(out)
  }

  /** Once a pair has failed, the simulation has stopped: later pairs change nothing. */
  lemma {:induction false} CacheReadFailureStays(idx: seq<Elem<Tile>>, lens: seq<Elem<Tile>>, k: nat, m: nat, perIdx: nat)
    requires AllUnsigned(idx) && AllUnsigned(lens) && k <= m <= |idx| && m <= |lens|
    requires CacheReadsFrom(idx, lens, k, perIdx).Err?
    ensures CacheReadsFrom(idx, lens, m, perIdx) == CacheReadsFrom(idx, lens, k, perIdx)
    decreases m
  {
    if m > k {
      CacheReadFailureStays(idx, lens, k, m - 1, perIdx);
    }
  }

  /** The inner loop of `CacheReadAddrGen::run`: the reads of one line. */
  method ReadLine(idx: nat, len: nat, perIdx: nat, level: nat) returns (got: seq<Elem<Tile>>)
    requires len > 0
    ensures got == CacheReads(idx, len, perIdx, level)
  {
    got := [];
    var i: nat := 0;
    while i < len - 1
      invariant i <= len - 1 && |got| == i
      invariant forall j :: 0 <= j < i ==> got[j] == CacheReads(idx, len, perIdx, level)[j]
    {
      got := got + [Val(Scalar(idx * perIdx + i, false))];
      i := i + 1;
    }
    got := got + [ValStop(Scalar(idx * perIdx + (len - 1), false), level)];
  }

  /** One step of `CacheReadAddrGen::run`: the pair's checks, then the line's reads. */
  method CacheReadStep(a: Elem<Tile>, b: Elem<Tile>, perIdx: nat) returns (r: Result<seq<Elem<Tile>>>)
    requires MapFns.Unsigned(a.v) && MapFns.Unsigned(b.v)
    ensures r == CacheReadPair(a, b, perIdx)
  {
    if a.Val? != b.Val? {
      return Err(SameShape);
    }
    if a.ValStop? && a.level != b.level {
      return Err(MapFns.AssertEqFailed);
    }
    if MapFns.FirstFailure(a.v).Some? {
      return Err(MapFns.FirstFailure(a.v).value);
    }
    if MapFns.FirstFailure(b.v).Some? {
      return Err(MapFns.FirstFailure(b.v).value);
    }
    var line, len := Count(a.v), Count(b.v);
    if len == 0 {
      return Err(MapFns.EmptyOperand);
    }
    var got := ReadLine(line, len, perIdx, if a.ValStop? then a.level + 1 else 1);
    return Ok(got);
  }

  /** `CacheReadAddrGen::run`: a pair at a time while both streams have one, then both must be done. */
  method CacheReadAddrGen(idx: seq<Elem<Tile>>, lens: seq<Elem<Tile>>, perIdx: nat) returns (r: Result<seq<Elem<Tile>>>)
    requires AllUnsigned(idx) && AllUnsigned(lens)
    ensures r == CacheReadStream(idx, lens, perIdx)
  {
    var m := if |idx| <= |lens| then |idx| else |lens|;
    var out: seq<Elem<Tile>> := [];
    var k: nat := 0;
    while k < m
      invariant k <= m && CacheReadsFrom(idx, lens, k, perIdx) == Ok(out)
    {
      var got := CacheReadStep(idx[k], lens[k], perIdx);
      if got.Err? {
        CacheReadFailureStays(idx, lens, k + 1, m, perIdx);
        return Err(got.msg);
      }
      out := out + got.value;
      k := k + 1;
    }
    if |idx| != |lens| {
      return Err(SameShape);
    }
    return Ok(out);
  }

  /** Read `i` of a line goes to the address where `cache_write_addr_gen` put the line's entry `i`. */
  lemma ReadsFollowWrites(idx: Tile, len: nat, perIdx: nat, level: nat, i: nat, computeBw: nat)
    requires MapFns.Unsigned(idx) && MapFns.HasFirst(idx) && i < len
    ensures MapFns.Unsigned(Scalar(i, false))
    ensures var w := MapFns.CacheWriteAddrGen(idx, Scalar(i, false), perIdx, computeBw, false);
            w.Ok? && CacheReads(Count(idx), len, perIdx, level)[i].v == w.value.1
  {
  }

  /**
   * The reads of one line are a row of `len` entries closing the pair's level: when every length is
   * `d`, the output adds an innermost dimension of size `d` to the index stream.
   */
  lemma {:induction false} CacheReadLevels(idx: seq<Elem<Tile>>, lens: seq<Elem<Tile>>, k: nat, perIdx: nat, d: nat)
    requires AllUnsigned(idx) && AllUnsigned(lens) && k <= |idx| && k <= |lens|
    requires CacheReadsFrom(idx, lens, k, perIdx).Ok?
    requires forall j :: 0 <= j < |lens| ==> MapFns.HasFirst(lens[j].v) && MapFns.First(lens[j].v) == d
    ensures StopLevels(CacheReadsFrom(idx, lens, k, perIdx).value) == ExpandRows(StopLevels(idx[..k]), d)
    decreases k
  {
    if k == 0 {
      assert idx[..k] == [];
    } else {
      var a := idx[k - 1];
      var prev := CacheReadsFrom(idx, lens, k - 1, perIdx).value;
      var got := CacheReadPair(a, lens[k - 1], perIdx).value;
      CacheReadLevels(idx, lens, k - 1, perIdx, d);
      CacheLineLevels(Count(a.v), d, perIdx, Level(a));
      StopLevelsAppend(prev, got);
      TakeSnoc(idx, k);
      StopLevelsAppend(idx[..k - 1], [a]);
      assert StopLevels([a]) == [Level(a)];
      ExpandRowsAppend(StopLevels(idx[..k - 1]), [Level(a)], d);
      assert ExpandRows([Level(a)], d) == Row(Level(a), d);
    }
  }

  /** The stops of one line's reads. */
  lemma CacheLineLevels(idx: nat, len: nat, perIdx: nat, outer: nat)
    ensures StopLevels(CacheReads(idx, len, perIdx, outer + 1)) == Row(outer, len)
  {
    var l := StopLevels(CacheReads(idx, len, perIdx, outer + 1));
    forall i | 0 <= i < len ensures l[i] == Row(outer, len)[i] { }
  }

  // ---- FilterLastTile ----

  /** The flags of one line: every slot but the last goes to branch 1, the last to branch 0 and closes `level`. */
  function LastFlags(len: nat, level: nat): (r: seq<Elem<MultiHot>>)
    ensures |r| == len
  {
    seq(len, i requires 0 <= i < len =>
      if i < len - 1 then Val(MultiHot([false, true], false)) else ValStop(MultiHot([true, false], false), level))
  }

  /** One length: it must hold a number of at least one; the last flag closes one more level than it. */
  function FilterLine(e: Elem<Tile>): (r: Result<seq<Elem<MultiHot>>>)
    requires MapFns.Unsigned(e.v)
  {
    if MapFns.FirstFailure(e.v).Some? then Err(MapFns.FirstFailure(e.v).value)
    else if Count(e.v) == 0 then Err(MapFns.EmptyOperand)
    else Ok(LastFlags(Count(e.v), Level(e) + 1))
  }

  /** The flags sent for the first `k` lengths; the first failing one stops the simulation. */
  function FiltersFrom(lens: seq<Elem<Tile>>, k: nat): (r: Result<seq<Elem<MultiHot>>>)
    requires AllUnsigned(lens) && k <= |lens|
    decreases k
  {
    if k == 0 then Ok([])
    else
      match FiltersFrom(lens, k - 1)
      case Err(msg) => Err(msg)
      case Ok(prev) =>
        match FilterLine(lens[k - 1])
        case Err(msg) => Err(msg)
        case Ok(flags) => Ok(prev + flags)
  }

  /** Once a length has failed, the simulation has stopped: later lengths change nothing. */
  lemma {:induction false} FilterFailureStays(lens: seq<Elem<Tile>>, k: nat, m: nat)
    requires AllUnsigned(lens) && k <= m <= |lens| && FiltersFrom(lens, k).Err?
    ensures FiltersFrom(lens, m) == FiltersFrom(lens, k)
    decreases m
  {
    if m > k {
      FilterFailureStays(lens, k, m - 1);
    }
  }

  /** The inner loop of `FilterLastTile::run`: the flags of one line. */
  method FlagLine(len: nat, level: nat) returns (flags: seq<Elem<MultiHot>>)
    requires len > 0
    ensures flags == LastFlags(len, level)
  {
    flags := [];
    var i: nat := 0;
    while i < len - 1
      invariant i <= len - 1 && |flags| == i
      invariant forall j :: 0 <= j < i ==> flags[j] == Val(MultiHot([false, true], false))
    {
      flags := flags + [Val(MultiHot([false, true], false))];
      i := i + 1;
    }
    flags := flags + [ValStop(MultiHot([true, false], false), level)];
  }

  /** `FilterLastTile::run`: the flags of every line in turn. */
  method FilterLastTile(lens: seq<Elem<Tile>>) returns (r: Result<seq<Elem<MultiHot>>>)
    requires AllUnsigned(lens)
    ensures r == FiltersFrom(lens, |lens|)
  {
    var out: seq<Elem<MultiHot>> := [];
    var k: nat := 0;
    while k < |lens|
      invariant k <= |lens| && FiltersFrom(lens, k) == Ok(out)
    {
      var e := lens[k];
      if MapFns.FirstFailure(e.v).Some? {
        FilterFailureStays(lens, k + 1, |lens|);
        return Err(MapFns.FirstFailure(e.v).value);
      }
      var len := Count(e.v);
      if len == 0 {
        FilterFailureStays(lens, k + 1, |lens|);
        return Err(MapFns.EmptyOperand);
      }
      var flags := FlagLine(len, if e.ValStop? then e.level + 1 else 1);
      out := out + flags;
      k := k + 1;
    }
    return Ok(out);
  }

  /** Every slot but the last of a line is routed to branch 1, the last to branch 0. */
  lemma LastFlagsRoute(len: nat, level: nat, i: nat)
    requires i < len
    ensures Picked(LastFlags(len, level)[i].v) == if i == len - 1 then [0] else [1]
  {
    var u := LastFlags(len, level)[i].v.underlying;
    assert TrueIndices(u, 1) == if i == len - 1 then [0] else [];
  }

  /**
   * Wherever the reads of a cache can be generated, the flags can too, and the two streams pair up
   * element by element: each line's last read carries the flag that routes it to branch 0.
   */
  lemma {:induction false} FiltersAlignWithReads(idx: seq<Elem<Tile>>, lens: seq<Elem<Tile>>, k: nat, perIdx: nat)
    requires AllUnsigned(idx) && AllUnsigned(lens) && k <= |idx| && k <= |lens|
    requires CacheReadsFrom(idx, lens, k, perIdx).Ok?
    ensures FiltersFrom(lens, k).Ok?
    ensures Map.Aligned(CacheReadsFrom(idx, lens, k, perIdx).value, FiltersFrom(lens, k).value)
    decreases k
  {
    if k > 0 {
      FiltersAlignWithReads(idx, lens, k - 1, perIdx);
      var a, b := idx[k - 1], lens[k - 1];
      var got := CacheReadPair(a, b, perIdx).value;
      var flags := FilterLine(b).value;
      LineAligned(Count(a.v), Count(b.v), perIdx, Level(b) + 1);
      AlignedAppend(CacheReadsFrom(idx, lens, k - 1, perIdx).value, got, FiltersFrom(lens, k - 1).value, flags);
    }
  }

  /** The reads and the flags of one line pair up. */
  lemma LineAligned(idx: nat, len: nat, perIdx: nat, level: nat)
    ensures Map.Aligned(CacheReads(idx, len, perIdx, level), LastFlags(len, level))
  {
    var got, flags := CacheReads(idx, len, perIdx, level), LastFlags(len, level);
    forall i | 0 <= i < len ensures Map.Matches(got[i], flags[i]) { }
  }

  /** Streams that pair up, one after another, pair up. */
  lemma AlignedAppend<A, B>(a1: seq<Elem<A>>, a2: seq<Elem<A>>, b1: seq<Elem<B>>, b2: seq<Elem<B>>)
    requires Map.Aligned(a1, b1) && Map.Aligned(a2, b2)
    ensures Map.Aligned(a1 + a2, b1 + b2)
  {
    forall i | 0 <= i < |a1 + a2| ensures Map.Matches((a1 + a2)[i], (b1 + b2)[i]) {
      if i >= |a1| {
        assert (a1 + a2)[i] == a2[i - |a1|] && (b1 + b2)[i] == b2[i - |a1|];
      } else {
        assert (a1 + a2)[i] == a1[i] && (b1 + b2)[i] == b1[i];
      }
    }
  }
}
