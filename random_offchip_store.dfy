/**
 * `RandomOffChipStore`: writes tiles to a 2-D tiled tensor held off chip at the tile positions a stream
 * of write addresses names. For each pair of a write address and a data tile it lists the tile's byte
 * addresses and sends them to memory in groups of `par_dispatch`, overwrites that tile's region of the
 * stored tensor when one is kept, and acknowledges on chip with the stop level of either stream.
 */
module RandomOffChipStore {
  import opened Wrappers
  import opened Calc
  import opened Elems
  import opened Tiles
  import opened Matrices
  import OffChipLoad
  import RandomOffChipLoad

  const NoData := "assertion failed: wdata.underlying.is_some()"
  const DivZero := "attempt to divide by zero"
  const OutOfBounds := "assertion failed: end <= axis_len"
  const NoBroadcast := "ndarray: could not broadcast array"
  const Unpaired := "Invalid write address or data"

  /**
   * The store's configuration; `tensorShapeTiled` counts tiles. `ackOnWaddr` says whether
   * acknowledgements take the stop levels of the address stream rather than of the data stream.
   */
  datatype Config = Config(tensorShapeTiled: seq<nat>, tileRow: nat, tileCol: nat, baseAddr: nat, addrOffset: nat,
                           parDispatch: nat, ackOnWaddr: bool)

  /** The constructor's check: only 2-D tiled tensors are stored. */
  predicate TwoDim(c: Config)
  {
    |c.tensorShapeTiled| == 2
  }

  /** Rows of the untiled tensor. */
  function UntiledRows(c: Config): nat
    requires TwoDim(c)
  {
    c.tileRow * c.tensorShapeTiled[0]
  }

  /** Columns of the untiled tensor. */
  function UntiledCols(c: Config): nat
    requires TwoDim(c)
  {
    c.tileCol * c.tensorShapeTiled[1]
  }

  // ---------------------------------------------------------------------------------------------
  // One write

  /** Where the write of data tile `t` at tile `waddr` starts: tiles are spaced by the tile's own size in bytes. */
  function WriteBase(c: Config, waddr: nat, t: Tile): nat
  {
    c.baseAddr + waddr * SizeInBytes(t)
  }

  /** Bytes between two rows of a tile: a row of the whole tensor. */
  function WriteRowOffset(c: Config, t: Tile): nat
    requires TwoDim(c)
  {
    c.tensorShapeTiled[1] * (c.tileCol * t.bytesPerElem)
  }

  /**
   * The addresses `send_write_request` lists for data tile `t` written at tile `waddr`: the tile's rows,
   * a row of the whole tensor apart, each stepping by `addr_offset` over its bytes.
   */
  function WriteAddrs(c: Config, waddr: nat, t: Tile): (r: Result<seq<nat>>)
    requires TwoDim(c)
    ensures r.Ok? <==> c.tileRow == 0 || c.addrOffset > 0
  {
    if c.tileRow > 0 && c.addrOffset == 0 then Err(OffChipLoad.ZeroStep)
    else Ok(OffChipLoad.TileRows(WriteBase(c, waddr, t), WriteRowOffset(c, t), c.tileRow, c.tileCol * t.bytesPerElem, c.addrOffset))
  }

  /**
   * A write has `tileRow` rows of `RowLength` addresses, and address `k` of row `r` is
   * `base + waddr * size + r * rowOffset + k * addr_offset`.
   */
  lemma WriteAddressAt(c: Config, waddr: nat, t: Tile, r: nat, k: nat, n: nat)
    requires TwoDim(c) && c.addrOffset > 0 && n == OffChipLoad.RowLength(c.tileCol * t.bytesPerElem, c.addrOffset)
    requires r < c.tileRow && k < n
    ensures WriteAddrs(c, waddr, t).Ok? && |WriteAddrs(c, waddr, t).value| == c.tileRow * n
    ensures WriteAddrs(c, waddr, t).value[r * n + k] == WriteBase(c, waddr, t) + r * WriteRowOffset(c, t) + k * c.addrOffset
  {
    var base, off, width := WriteBase(c, waddr, t), WriteRowOffset(c, t), c.tileCol * t.bytesPerElem;
    OffChipLoad.TileRowsAt(base, off, c.tileRow, width, c.addrOffset, r, k);
    OffChipLoad.TileCount(base, off, c.tileRow, width, c.addrOffset);
  }

  /** A data dimension of size `d` fills a region dimension of size `n`: they are equal, or `d` is 1 and repeats. */
  predicate Fits(d: nat, n: nat)
  {
    d == n || d == 1
  }

  /** The top-left entry of the region tile `waddr` covers: row-major over the grid of tiles. */
  datatype Corner = Corner(row: nat, col: nat)

  /**
   * Where `update_underlying` writes data tile `t`: the corner of tile `waddr`, or the failure it runs
   * into: a tile with no data, a tensor with no tile column, a region beyond the tensor, or data that
   * does not broadcast to a tile.
   */
  function Placement(c: Config, waddr: nat, t: Tile): (r: Result<Corner>)
    requires TwoDim(c)
    ensures r.Ok? ==> r.value.row + c.tileRow <= UntiledRows(c) && r.value.col + c.tileCol <= UntiledCols(c)
    ensures r.Ok? ==> t.underlying.Some? && Fits(t.underlying.value.rows, c.tileRow) && Fits(t.underlying.value.cols, c.tileCol)
  {
    var across := c.tensorShapeTiled[1];
    if t.underlying.None? then Err(NoData)
    else if across == 0 then Err(DivZero)
    else
      var row, col := (waddr / across) * c.tileRow, (waddr % across) * c.tileCol;
      if row + c.tileRow > UntiledRows(c) || col + c.tileCol > UntiledCols(c) then Err(OutOfBounds)
      else if !Fits(t.underlying.value.rows, c.tileRow) || !Fits(t.underlying.value.cols, c.tileCol) then Err(NoBroadcast)
      else Ok(Corner(row, col))
  }

  /** Entry `(p, q)` lies in the `rows` x `cols` region at `corner`. */
  predicate InRegion(corner: Corner, rows: nat, cols: nat, p: int, q: int)
  {
    corner.row <= p < corner.row + rows && corner.col <= q < corner.col + cols
  }

  /** The entry data `d` puts at offset `(i, j)` of a region, a size-1 dimension repeating. */
  function Fill(d: Matrix, i: int, j: int): int
  {
    At(d, Repeated(i, d.rows), Repeated(j, d.cols))
  }

  /** The tensor `m` with the `rows` x `cols` region at `corner` overwritten by `d`. */
  function Overwritten(m: seq<seq<int>>, corner: Corner, rows: nat, cols: nat, d: Matrix): (r: seq<seq<int>>)
    ensures |r| == |m| && forall p :: 0 <= p < |m| ==> |r[p]| == |m[p]|
  {
    seq(|m|, p requires 0 <= p < |m| =>
      seq(|m[p]|, q requires 0 <= q < |m[p]| =>
        if InRegion(corner, rows, cols, p, q) then Fill(d, p - corner.row, q - corner.col) else m[p][q]))
  }

  /** What a write leaves of the kept tensor: nothing without one, else the overwritten tensor or the failure. */
  function Written(c: Config, tensor: Option<seq<seq<int>>>, waddr: nat, t: Tile): (r: Result<Option<seq<seq<int>>>>)
    requires TwoDim(c)
    ensures tensor.None? ==> r == Ok(None)
  {
    if tensor.None? then Ok(None)
    else
      var place := Placement(c, waddr, t);
      if place.Err? then Err(place.msg)
      else Ok(Some(Overwritten(tensor.value, place.value, c.tileRow, c.tileCol, t.underlying.value)))
  }

  /** The acknowledgement of a pair: `true`, in the shape of the address or of the data element. */
  function Ack(c: Config, a: Elem<Tile>, d: Elem<Tile>): (e: Elem<bool>)
    ensures e.v && (if c.ackOnWaddr then (e.Val? <==> a.Val?) && Level(e) == Level(a) else (e.Val? <==> d.Val?) && Level(e) == Level(d))
  {
    Rewrap(if c.ackOnWaddr then a else d, true)
  }

  // ---------------------------------------------------------------------------------------------
  // The run

  /** The store's state: the kept tensor, the address groups sent to memory, and the acknowledgements sent. */
  datatype State = State(tensor: Option<seq<seq<int>>>, requested: seq<seq<nat>>, acks: seq<Elem<bool>>)

  /** Address tiles hold `u64` entries, and data tiles are arrays of their own shape. */
  predicate Inputs(waddr: seq<Elem<Tile>>, wdata: seq<Elem<Tile>>)
  {
    (forall k :: 0 <= k < |waddr| ==> RandomOffChipLoad.Unsigned(waddr[k].v))
    && (forall k :: 0 <= k < |wdata| ==> Tiles.Valid(wdata[k].v))
  }

  /** One pair: read the address, send the write, update the tensor, acknowledge. */
  function Step(c: Config, st: State, a: Elem<Tile>, d: Elem<Tile>): (r: Result<State>)
    requires TwoDim(c) && RandomOffChipLoad.Unsigned(a.v)
    ensures r.Ok? ==> r.value.acks == st.acks + [Ack(c, a, d)]
  {
    var w := RandomOffChipLoad.IndexOf(a.v);
    if w.Err? then Err(w.msg)
    else
      var addrs := WriteAddrs(c, w.value, d.v);
      if addrs.Err? then Err(addrs.msg)
      else if c.parDispatch == 0 then Err(OffChipLoad.ZeroChunk)
      else
        var tensor := Written(c, st.tensor, w.value, d.v);
        if tensor.Err? then Err(tensor.msg)
        else Ok(State(tensor.value, st.requested + OffChipLoad.Chunks(addrs.value, c.parDispatch), st.acks + [Ack(c, a, d)]))
  }

  /** The state after the first `n` pairs, or the first failure. */
  function Processed(c: Config, init: State, waddr: seq<Elem<Tile>>, wdata: seq<Elem<Tile>>, n: nat): (r: Result<State>)
    requires TwoDim(c) && Inputs(waddr, wdata) && n <= |waddr| && n <= |wdata|
    ensures r.Ok? ==> |r.value.acks| == |init.acks| + n
    decreases n
  {
    if n == 0 then Ok(init)
    else
      var prev := Processed(c, init, waddr, wdata, n - 1);
      if prev.Err? then prev else Step(c, prev.value, waddr[n - 1], wdata[n - 1])
  }

  /** `run`: every pair is processed; then both streams must close together. */
  function Outcome(c: Config, init: State, waddr: seq<Elem<Tile>>, wdata: seq<Elem<Tile>>): (r: Result<State>)
    requires TwoDim(c) && Inputs(waddr, wdata)
  {
    var n := if |waddr| <= |wdata| then |waddr| else |wdata|;
    var p := Processed(c, init, waddr, wdata, n);
    if p.Err? then p else if |waddr| != |wdata| then Err(Unpaired) else p
  }

  /** The contents of a 2-D array, row by row. */
  ghost function Contents(a: array2<int>): (m: seq<seq<int>>)
    reads a
    ensures |m| == a.Length0 && forall p :: 0 <= p < a.Length0 ==> |m[p]| == a.Length1
  {
    seq(a.Length0, p requires 0 <= p < a.Length0 reads a => seq(a.Length1, q requires 0 <= q < a.Length1 reads a => a[p, q]))
  }

  /** Row `i` of the region at `corner` takes row `i` of the data, column by column; nothing else changes. */
  method FillRow(a: array2<int>, corner: Corner, i: nat, cols: nat, d: Matrix)
    requires corner.row + i < a.Length0 && corner.col + cols <= a.Length1
    modifies a
    ensures forall p, q :: 0 <= p < a.Length0 && 0 <= q < a.Length1 ==>
              a[p, q] == if p == corner.row + i && corner.col <= q < corner.col + cols then Fill(d, i, q - corner.col) else old(a[p, q])
  {
    var j: nat := 0;
    while j < cols
      invariant j <= cols
      invariant forall p, q :: 0 <= p < a.Length0 && 0 <= q < a.Length1 ==>
                  a[p, q] == if p == corner.row + i && corner.col <= q < corner.col + j then Fill(d, i, q - corner.col) else old(a[p, q])
    {
      a[corner.row + i, corner.col + j] := Fill(d, i, j);
      j := j + 1;
    }
  }

  /** An array holding the overwritten entries has the overwritten contents. */
  lemma SameContents(a: array2<int>, before: seq<seq<int>>, corner: Corner, rows: nat, cols: nat, d: Matrix)
    requires |before| == a.Length0 && forall p :: 0 <= p < |before| ==> |before[p]| == a.Length1
    requires forall p, q :: 0 <= p < a.Length0 && 0 <= q < a.Length1 ==>
               a[p, q] == if InRegion(corner, rows, cols, p, q) then Fill(d, p - corner.row, q - corner.col) else before[p][q]
    ensures Contents(a) == Overwritten(before, corner, rows, cols, d)
  {
    var m, o := Contents(a), Overwritten(before, corner, rows, cols, d);
    forall p | 0 <= p < |m| ensures m[p] == o[p]
    {
      forall q | 0 <= q < |m[p]| ensures m[p][q] == o[p][q] {}
    }
  }

  class Store {
    const cfg: Config
    /** The stored tensor, `UntiledRows` x `UntiledCols`, when a store path was given; written in place. */
    const underlying: Option<array2<int>>
    /** The address groups sent to memory so far. */
    var requested: seq<seq<nat>>
    /** The acknowledgements sent on chip so far. */
    var acks: seq<Elem<bool>>

    /** The arrays the store writes. */
    function Arrays(): set<array2<int>>
    {
      if underlying.Some? then {underlying.value} else {}
    }

    ghost predicate Valid()
    {
      TwoDim(cfg) && (underlying.Some? ==> underlying.value.Length0 == UntiledRows(cfg) && underlying.value.Length1 == UntiledCols(cfg))
    }

    /** The kept tensor's contents. */
    ghost function Tensor(): Option<seq<seq<int>>>
      reads Arrays()
    {
      if underlying.Some? then Some(Contents(underlying.value)) else None
    }

    /** The store with nothing sent yet; only 2-D tiled tensors are accepted. */
    constructor (cfg: Config, underlying: Option<array2<int>>)
      requires TwoDim(cfg)
      requires underlying.Some? ==> underlying.value.Length0 == UntiledRows(cfg) && underlying.value.Length1 == UntiledCols(cfg)
      ensures this.cfg == cfg && this.underlying == underlying && requested == [] && acks == [] && Valid()
    {
      this.cfg := cfg;
      this.underlying := underlying;
      requested := [];
      acks := [];
    }

    /** `send_write_request`: the write's addresses go to memory in groups of `par_dispatch`. */
    method SendWriteRequest(waddr: nat, t: Tile) returns (r: Result<seq<nat>>)
      requires Valid()
      modifies this`requested
      ensures var a := WriteAddrs(cfg, waddr, t);
              if a.Err? then r == a && requested == old(requested)
              else if cfg.parDispatch == 0 then r == Err(OffChipLoad.ZeroChunk) && requested == old(requested)
              else r == a && requested == old(requested) + OffChipLoad.Chunks(a.value, cfg.parDispatch)
    {
      if cfg.tileRow > 0 && cfg.addrOffset == 0 {
        return Err(OffChipLoad.ZeroStep);
      }
      var addrs := OffChipLoad.TileAddresses(WriteBase(cfg, waddr, t), WriteRowOffset(cfg, t),
                                             cfg.tileRow, cfg.tileCol * t.bytesPerElem, cfg.addrOffset);
      if cfg.parDispatch == 0 {
        return Err(OffChipLoad.ZeroChunk);
      }
      requested := requested + OffChipLoad.Chunks(addrs, cfg.parDispatch);
      return Ok(addrs);
    }

    /** `update_underlying`: the tile's region of the kept tensor takes the tile's data, entry by entry. */
    method UpdateUnderlying(waddr: nat, t: Tile) returns (r: Result<()>)
      requires Valid()
      modifies Arrays()
      ensures var w := Written(cfg, old(Tensor()), waddr, t);
              (r.Ok? <==> w.Ok?) && (w.Ok? ==> Tensor() == w.value) && (w.Err? ==> r.msg == w.msg && Tensor() == old(Tensor()))
    {
      if underlying.None? {
        return Ok(());
      }
      var a := underlying.value;
      ghost var before := Contents(a);
      var place := Placement(cfg, waddr, t);
      if place.Err? {
        return Err(place.msg);
      }
      var corner, d := place.value, t.underlying.value;
      var i: nat := 0;
      while i < cfg.tileRow
        invariant i <= cfg.tileRow
        invariant forall p, q :: 0 <= p < a.Length0 && 0 <= q < a.Length1 ==>
                    a[p, q] == if InRegion(corner, i, cfg.tileCol, p, q) then Fill(d, p - corner.row, q - corner.col) else before[p][q]
      {
        FillRow(a, corner, i, cfg.tileCol, d);
        i := i + 1;
      }
      SameContents(a, before, corner, cfg.tileRow, cfg.tileCol, d);
      return Ok(());
    }

    /** One turn of `run`'s loop: read the address, send the write, update the tensor, acknowledge. */
    method StorePair(a: Elem<Tile>, d: Elem<Tile>) returns (r: Result<()>)
      requires Valid() && RandomOffChipLoad.Unsigned(a.v) && Tiles.Valid(d.v)
      modifies this`requested, this`acks, Arrays()
      ensures Valid()
      ensures var s := Step(cfg, old(State(Tensor(), requested, acks)), a, d);
              (r.Ok? <==> s.Ok?) && (s.Err? ==> r.msg == s.msg) && (s.Ok? ==> State(Tensor(), requested, acks) == s.value)
    {
      var w := RandomOffChipLoad.IndexOf(a.v);
      if w.Err? {
        return Err(w.msg);
      }
      var addrs := SendWriteRequest(w.value, d.v);
      if addrs.Err? {
        return Err(addrs.msg);
      }
      var tensor := UpdateUnderlying(w.value, d.v);
      if tensor.Err? {
        return Err(tensor.msg);
      }
      acks := acks + [Ack(cfg, a, d)];
      return Ok(());
    }

    /**
     * `run`: pairs of a write address and a data tile are processed in order while both streams have
     * one; a stream closing before the other is a failure.
     */
    method Run(waddr: seq<Elem<Tile>>, wdata: seq<Elem<Tile>>) returns (r: Result<()>)
      requires Valid() && Inputs(waddr, wdata)
      modifies this, Arrays()
      ensures var o := Outcome(cfg, State(old(Tensor()), old(requested), old(acks)), waddr, wdata);
              (r.Ok? <==> o.Ok?) && (o.Err? ==> r.msg == o.msg) && (o.Ok? ==> State(Tensor(), requested, acks) == o.value)
    {
      ghost var init := State(Tensor(), requested, acks);
      var k: nat := 0;
      while k < |waddr| && k < |wdata|
        invariant k <= |waddr| && k <= |wdata| && Valid()
        invariant Processed(cfg, init, waddr, wdata, k) == Ok(State(Tensor(), requested, acks))
      {
        ghost var pre := State(Tensor(), requested, acks);
        var res := StorePair(waddr[k], wdata[k]);
        if res.Err? {
          PairFails(cfg, init, waddr, wdata, k, pre, res.msg);
          return Err(res.msg);
        }
        PairDone(cfg, init, waddr, wdata, k, pre, State(Tensor(), requested, acks));
        k := k + 1;
      }
      if |waddr| != |wdata| {
        return Err(Unpaired);
      }
      return Ok(());
    }
  }

  /** Pair `k` fails with `msg`: so does the run. */
  lemma PairFails(c: Config, init: State, waddr: seq<Elem<Tile>>, wdata: seq<Elem<Tile>>, k: nat, pre: State, msg: string)
    requires TwoDim(c) && Inputs(waddr, wdata) && k < |waddr| && k < |wdata|
    requires Processed(c, init, waddr, wdata, k) == Ok(pre) && Step(c, pre, waddr[k], wdata[k]) == Err(msg)
    ensures Outcome(c, init, waddr, wdata) == Err(msg)
  {
    StaysFailed(c, init, waddr, wdata, k + 1);
  }

  /** Pair `k` succeeds, leaving `post`: the first `k + 1` pairs leave `post`. */
  lemma PairDone(c: Config, init: State, waddr: seq<Elem<Tile>>, wdata: seq<Elem<Tile>>, k: nat, pre: State, post: State)
    requires TwoDim(c) && Inputs(waddr, wdata) && k < |waddr| && k < |wdata|
    requires Processed(c, init, waddr, wdata, k) == Ok(pre) && Step(c, pre, waddr[k], wdata[k]) == Ok(post)
    ensures Processed(c, init, waddr, wdata, k + 1) == Ok(post)
  {}

  /** Once a pair fails, the run fails with that pair's failure. */
  lemma StaysFailed(c: Config, init: State, waddr: seq<Elem<Tile>>, wdata: seq<Elem<Tile>>, n: nat)
    requires TwoDim(c) && Inputs(waddr, wdata) && n <= |waddr| && n <= |wdata|
    requires Processed(c, init, waddr, wdata, n).Err?
    ensures Outcome(c, init, waddr, wdata) == Processed(c, init, waddr, wdata, n)
  {
    var m := if |waddr| <= |wdata| then |waddr| else |wdata|;
    StaysFailedUpTo(c, init, waddr, wdata, n, m);
  }

  lemma {:induction false} StaysFailedUpTo(c: Config, init: State, waddr: seq<Elem<Tile>>, wdata: seq<Elem<Tile>>, n: nat, m: nat)
    requires TwoDim(c) && Inputs(waddr, wdata) && n <= m <= |waddr| && m <= |wdata|
    requires Processed(c, init, waddr, wdata, n).Err?
    ensures Processed(c, init, waddr, wdata, m) == Processed(c, init, waddr, wdata, n)
    decreases m - n
  {
    if n < m {
      StaysFailedUpTo(c, init, waddr, wdata, n + 1, m);
    }
  }

  // ---------------------------------------------------------------------------------------------
  // What a run does

  /**
   * A successful run acknowledges every pair once, in order, in the shape of the address stream or of
   * the data stream as configured; the two streams had the same length.
   */
  lemma {:induction false} Acks(c: Config, init: State, waddr: seq<Elem<Tile>>, wdata: seq<Elem<Tile>>, n: nat, k: nat)
    requires TwoDim(c) && Inputs(waddr, wdata) && k < n <= |waddr| && n <= |wdata|
    requires Processed(c, init, waddr, wdata, n).Ok?
    ensures Processed(c, init, waddr, wdata, n).value.acks[|init.acks| + k] == Ack(c, waddr[k], wdata[k])
    decreases n
  {
    if k < n - 1 {
      Acks(c, init, waddr, wdata, n - 1, k);
    }
  }

  /** Streams of different lengths always fail. */
  lemma Unequal(c: Config, init: State, waddr: seq<Elem<Tile>>, wdata: seq<Elem<Tile>>)
    requires TwoDim(c) && Inputs(waddr, wdata) && |waddr| != |wdata|
    ensures Outcome(c, init, waddr, wdata).Err?
  {}

  /** Without a kept tensor, no run creates one. */
  lemma {:induction false} NoTensorKept(c: Config, init: State, waddr: seq<Elem<Tile>>, wdata: seq<Elem<Tile>>, n: nat)
    requires TwoDim(c) && Inputs(waddr, wdata) && n <= |waddr| && n <= |wdata| && init.tensor.None?
    ensures Processed(c, init, waddr, wdata, n).Ok? ==> Processed(c, init, waddr, wdata, n).value.tensor.None?
    decreases n
  {
    if n > 0 {
      NoTensorKept(c, init, waddr, wdata, n - 1);
    }
  }

  /** The tensor as a matrix of the untiled shape. */
  function AsMatrix(c: Config, m: seq<seq<int>>): Matrix
    requires TwoDim(c)
  {
    Matrix(UntiledRows(c), UntiledCols(c), m)
  }

  /** The tensor has the untiled shape. */
  predicate Untiled(c: Config, m: seq<seq<int>>)
    requires TwoDim(c)
  {
    Rectangular(AsMatrix(c, m))
  }

  /**
   * Storing a full tile at `waddr` and then reading the tile there, as the random loader cuts tiles,
   * gives back the stored tile's data.
   */
  lemma StoreThenLoad(c: Config, m: seq<seq<int>>, waddr: nat, t: Tile, r: nat, col: nat)
    requires TwoDim(c) && Untiled(c, m) && Tiles.Valid(t) && Placement(c, waddr, t).Ok?
    requires t.shape == [c.tileRow, c.tileCol] && r < c.tileRow && col < c.tileCol
    ensures var across := c.tensorShapeTiled[1];
            var w := RandomOffChipLoad.Window(AsMatrix(c, Overwritten(m, Placement(c, waddr, t).value, c.tileRow, c.tileCol, t.underlying.value)),
                                             waddr / across, waddr % across, c.tileRow, c.tileCol);
            At(w, r, col) == At(t.underlying.value, r, col)
  {
    var corner := Placement(c, waddr, t).value;
    var across := c.tensorShapeTiled[1];
    var d := t.underlying.value;
    var o := Overwritten(m, corner, c.tileRow, c.tileCol, d);
    var after := AsMatrix(c, o);
    GridAt(c.tileRow, c.tileCol, (p, q) => At(after, (waddr / across) * c.tileRow + p, (waddr % across) * c.tileCol + q), r, col);
    var p, q := corner.row + r, corner.col + col;
    assert p < |m| && q < |m[p]|;
    assert o[p][q] == Fill(d, r, col);
    assert At(after, p, q) == o[p][q];
    assert Repeated(r, d.rows) == r && Repeated(col, d.cols) == col;
  }

  /** An entry of tile row `i` (offset `r`) lies outside the region of a different tile row `i'`. */
  lemma OtherRow(i: nat, i': nat, r: nat, tileRow: nat)
    requires i != i' && r < tileRow
    ensures !(i' * tileRow <= i * tileRow + r < i' * tileRow + tileRow)
  {
    if i < i' {
      MulMono(i + 1, i', tileRow);
    } else {
      MulMono(i' + 1, i, tileRow);
    }
  }

  /**
   * Writing one tile leaves every other tile of the tensor as it was: entry `(r, col)` of the tile at
   * grid position `(i, j)` is unchanged unless that position is the one `waddr` names.
   */
  lemma OtherTilesUnchanged(c: Config, m: seq<seq<int>>, waddr: nat, t: Tile, i: nat, j: nat, r: nat, col: nat)
    requires TwoDim(c) && Untiled(c, m) && Placement(c, waddr, t).Ok?
    requires i < c.tensorShapeTiled[0] && j < c.tensorShapeTiled[1] && r < c.tileRow && col < c.tileCol
    requires (i, j) != (waddr / c.tensorShapeTiled[1], waddr % c.tensorShapeTiled[1])
    ensures var corner := Placement(c, waddr, t).value;
            At(AsMatrix(c, Overwritten(m, corner, c.tileRow, c.tileCol, t.underlying.value)), i * c.tileRow + r, j * c.tileCol + col)
            == At(AsMatrix(c, m), i * c.tileRow + r, j * c.tileCol + col)
  {
    var across := c.tensorShapeTiled[1];
    if i != waddr / across {
      OtherRow(i, waddr / across, r, c.tileRow);
    } else {
      OtherRow(j, waddr % across, col, c.tileCol);
    }
    RowBelow(i, r, c.tensorShapeTiled[0], c.tileRow);
    RowBelow(j, col, c.tensorShapeTiled[1], c.tileCol);
  }

  /** Entry `r` of tile `i` lies within `n` tiles of `size` entries. */
  lemma RowBelow(i: nat, r: nat, n: nat, size: nat)
    requires i < n && r < size
    ensures i * size + r < size * n
  {
    MulMono(i + 1, n, size);
  }
}
