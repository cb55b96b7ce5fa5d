/**
 * `OffChipStore`: writes a stream of tiles back to off-chip memory. For every tile it lists the byte
 * addresses of the tile's rows, sends them to memory in groups of `par_dispatch`, and waits for one
 * acknowledgement per address. Given a store path, it also joins the tiles' data into the untiled
 * tensor: plain tiles side by side, a stop closing a row of tiles, checked against the expected
 * size when the stream ends.
 */
module OffChipStore {
  import opened Wrappers
  import opened Calc
  import opened Elems
  import opened Tiles
  import opened Shapes
  import MapFns
  import OffChipLoad

  const NotCollected := "assertion failed: tile_data.underlying.is_some()"
  const JoinFailed := "Error concatenating tiles horizontally"
  const NoSuchDim := "index out of bounds"

  /**
   * The store's configuration; `tensorShapeTiled` counts tiles. `keepsData` says whether a store path
   * was given: only then is the tiles' data collected.
   */
  datatype Store = Store(tensorShapeTiled: seq<nat>, tileRow: nat, tileCol: nat, keepsData: bool,
                         baseAddr: nat, addrOffset: nat, parDispatch: nat)

  /**
   * The state of `run`'s loop: the rows of the tensor collected so far, the row of tiles being joined
   * (`tileRow` rows, `hcols` columns), the tiles stored, their common byte width once known, the
   * address groups sent to memory and the acknowledgements received.
   */
  datatype State = State(accum: seq<seq<int>>, horiz: seq<seq<int>>, hcols: nat, tileIdx: nat, nBytes: Option<nat>,
                         requested: seq<seq<nat>>, acks: nat)

  /** What the store leaves behind: the address groups sent, the acknowledgements taken, and the saved tensor if any. */
  datatype Outcome = Outcome(requested: seq<seq<nat>>, acks: nat, saved: Option<Saved>)

  /** The saved tensor: its rows, and the shape written beside them. */
  datatype Saved = Saved(rows: seq<seq<int>>, shape: seq<nat>)

  /** The tiles along the tensor's last dimension. */
  function Last(s: Store): nat
    requires |s.tensorShapeTiled| > 0
  {
    s.tensorShapeTiled[|s.tensorShapeTiled| - 1]
  }

  /** Columns of the untiled tensor. */
  function AccumCols(s: Store): nat
    requires |s.tensorShapeTiled| > 0
  {
    Last(s) * s.tileCol
  }

  /** A row of tiles with no column yet. */
  function Blank(rows: nat): (h: seq<seq<int>>)
    ensures |h| == rows && forall r :: 0 <= r < rows ==> h[r] == []
  {
    seq(rows, _ => [])
  }

  /** The loop's starting state. */
  function Init(s: Store): State
  {
    State([], Blank(s.tileRow), 0, 0, None, [], 0)
  }

  /** Horizontal concatenation: each row of `h` continued by the same row of `cells`. */
  function Join(h: seq<seq<int>>, cells: seq<seq<int>>): (r: seq<seq<int>>)
    requires |h| == |cells|
    ensures |r| == |h| && forall i :: 0 <= i < |h| ==> r[i] == h[i] + cells[i]
  {
    seq(|h|, i requires 0 <= i < |h| => h[i] + cells[i])
  }

  // ---------------------------------------------------------------------------------------------
  // One tile

  /**
   * The data half of one step, taken only with a store path: the tile must hold data with `tileRow`
   * rows; a plain tile is joined to the row being built, a stop also closes that row, which must then
   * be as wide as the tensor, and appends it below the rows collected.
   */
  function Collect(s: Store, st: State, e: Elem<Tile>): (r: Result<State>)
    requires |s.tensorShapeTiled| > 0 && Valid(e.v) && |st.horiz| == s.tileRow
    ensures r.Ok? ==> |r.value.horiz| == s.tileRow
    ensures r.Ok? ==> r.value.tileIdx == st.tileIdx && r.value.nBytes == st.nBytes
                      && r.value.requested == st.requested && r.value.acks == st.acks
    ensures !s.keepsData ==> r == Ok(st)
    ensures s.keepsData && r.Ok? ==> MapFns.HasData(e.v) && MapFns.Data(e.v).rows == s.tileRow
    ensures s.keepsData && r.Ok? && e.ValStop? ==> st.hcols + MapFns.Data(e.v).cols == AccumCols(s)
  {
    var t := e.v;
    if !s.keepsData then Ok(st)
    else if !MapFns.HasData(t) then Err(NotCollected)
    else if MapFns.Data(t).rows != s.tileRow then Err(JoinFailed)
    else
      var h := Join(st.horiz, MapFns.Data(t).cells);
      var hc := st.hcols + MapFns.Data(t).cols;
      if e.Val? then Ok(st.(horiz := h, hcols := hc))
      else if hc != AccumCols(s) then Err(JoinFailed)
      else Ok(st.(accum := st.accum + h, horiz := Blank(s.tileRow), hcols := 0))
  }

  /** Bytes between two rows of a tile: a row of the whole tensor. */
  function RowOffset(s: Store, nBytes: nat): nat
    requires |s.tensorShapeTiled| > 0
  {
    Last(s) * s.tileCol * nBytes
  }

  /** The addresses written for the `k`-th tile: its rows, `tileIdx * size_in_bytes` after the base. */
  function TileAddrs(s: Store, t: Tile, k: nat): seq<nat>
    requires |s.tensorShapeTiled| > 0 && (s.tileRow == 0 || s.addrOffset > 0)
  {
    OffChipLoad.TileRows(s.baseAddr + k * SizeInBytes(t), RowOffset(s, t.bytesPerElem), s.tileRow,
                         s.tileCol * t.bytesPerElem, s.addrOffset)
  }

  /**
   * The memory half of one step: the tile must be `tileRow` x `tileCol` and as wide per entry as the
   * tiles before it; its addresses go to memory in groups of `parDispatch`, and one acknowledgement
   * per address comes back.
   */
  function Send(s: Store, st: State, t: Tile): (r: Result<State>)
    requires |s.tensorShapeTiled| > 0
    ensures r.Ok? ==> |t.shape| >= 2 && t.shape[0] == s.tileRow && t.shape[1] == s.tileCol
    ensures r.Ok? ==> (st.nBytes.Some? ==> st.nBytes.value == t.bytesPerElem) && r.value.nBytes == Some(t.bytesPerElem)
    ensures r.Ok? ==> r.value.accum == st.accum && r.value.horiz == st.horiz && r.value.hcols == st.hcols
    ensures r.Ok? ==> r.value.tileIdx == st.tileIdx + 1
  {
    if |t.shape| == 0 then Err(NoSuchDim)
    else if t.shape[0] != s.tileRow then Err(MapFns.AssertEqFailed)
    else if |t.shape| == 1 then Err(NoSuchDim)
    else if t.shape[1] != s.tileCol then Err(MapFns.AssertEqFailed)
    else if st.nBytes.Some? && st.nBytes.value != t.bytesPerElem then Err(MapFns.AssertEqFailed)
    else if s.tileRow > 0 && s.addrOffset == 0 then Err(OffChipLoad.ZeroStep)
    else if s.parDispatch == 0 then Err(OffChipLoad.ZeroChunk)
    else
      var addrs := TileAddrs(s, t, st.tileIdx);
      Ok(st.(tileIdx := st.tileIdx + 1, nBytes := Some(t.bytesPerElem),
             requested := st.requested + OffChipLoad.Chunks(addrs, s.parDispatch), acks := st.acks + |addrs|))
  }

  /** One turn of `run`'s loop: collect the tile's data, then write it. */
  function Step(s: Store, st: State, e: Elem<Tile>): (r: Result<State>)
    requires |s.tensorShapeTiled| > 0 && Valid(e.v) && |st.horiz| == s.tileRow
    ensures r.Ok? ==> |r.value.horiz| == s.tileRow && r.value.tileIdx == st.tileIdx + 1
  {
    match Collect(s, st, e)
    case Err(msg) => Err(msg)
    case Ok(st') => Send(s, st', e.v)
  }

  // ---------------------------------------------------------------------------------------------
  // The stream

  /** Every tile of the stream is well formed. */
  predicate AllValid(input: seq<Elem<Tile>>)
  {
    forall k :: 0 <= k < |input| ==> Valid(input[k].v)
  }

  /** The state after the first `k` tiles; the first failing tile stops the simulation. */
  function StoreFrom(s: Store, input: seq<Elem<Tile>>, k: nat): (r: Result<State>)
    requires |s.tensorShapeTiled| > 0 && AllValid(input) && k <= |input|
    ensures r.Ok? ==> |r.value.horiz| == s.tileRow && r.value.tileIdx == k
    decreases k
  {
    if k == 0 then Ok(Init(s))
    else
      match StoreFrom(s, input, k - 1)
      case Err(msg) => Err(msg)
      case Ok(st) => Step(s, st, input[k - 1])
  }

  /** The saved tensor's shape: the tiled shape with its last two dimensions counted in entries. */
  function MetaShape(shape: seq<nat>, tileRow: nat, tileCol: nat): (r: seq<nat>)
    requires |shape| >= 2
    ensures |r| == |shape|
  {
    var n := |shape|;
    shape[..n - 2] + [tileRow * shape[n - 2]] + [tileCol * shape[n - 1]]
  }

  /** `stored_elems`: the entries of every tile of the tensor. */
  function StoredElems(s: Store): nat
  {
    Product(s.tensorShapeTiled) * s.tileRow * s.tileCol
  }

  /**
   * The end of the stream: with a store path, the collected tensor must hold exactly the expected
   * number of entries, and is saved with its shape.
   */
  function Finish(s: Store, st: State): (r: Result<Outcome>)
    requires |s.tensorShapeTiled| > 0
    ensures r.Ok? ==> r.value.requested == st.requested && r.value.acks == st.acks
    ensures r.Ok? ==> (r.value.saved.Some? <==> s.keepsData)
  {
    if !s.keepsData then Ok(Outcome(st.requested, st.acks, None))
    else if |st.accum| * AccumCols(s) != StoredElems(s) then Err(MapFns.AssertEqFailed)
    else if |s.tensorShapeTiled| < 2 then Err(MapFns.EmptyOperand)
    else Ok(Outcome(st.requested, st.acks, Some(Saved(st.accum, MetaShape(s.tensorShapeTiled, s.tileRow, s.tileCol)))))
  }

  /** `run` as a whole: the tensor needs a last dimension, then every tile in turn, then the end checks. */
  function Stored(s: Store, input: seq<Elem<Tile>>): (r: Result<Outcome>)
    requires AllValid(input)
  {
    if |s.tensorShapeTiled| == 0 then Err(OffChipLoad.NoLastDim)
    else
      match StoreFrom(s, input, |input|)
      case Err(msg) => Err(msg)
      case Ok(st) => Finish(s, st)
  }

  // ---------------------------------------------------------------------------------------------
  // The loop

  /** Once a tile has failed, the simulation has stopped: later tiles change nothing. */
  lemma {:induction false} FailureStays(s: Store, input: seq<Elem<Tile>>, k: nat, m: nat)
    requires |s.tensorShapeTiled| > 0 && AllValid(input) && k <= m <= |input| && StoreFrom(s, input, k).Err?
    ensures StoreFrom(s, input, m) == StoreFrom(s, input, k)
    decreases m
  {
    if m > k {
      FailureStays(s, input, k, m - 1);
    }
  }

  /** The data half of one turn. */
  method CollectTile(s: Store, st: State, e: Elem<Tile>) returns (r: Result<State>)
    requires |s.tensorShapeTiled| > 0 && Valid(e.v) && |st.horiz| == s.tileRow
    ensures r == Collect(s, st, e)
  {
    if !s.keepsData {
      return Ok(st);
    }
    var t := e.v;
    if t.underlying.None? {
      return Err(NotCollected);
    }
    var data := t.underlying.value;
    if data.rows != s.tileRow {
      return Err(JoinFailed);
    }
    var h := Join(st.horiz, data.cells);
    var hc := st.hcols + data.cols;
    if e.Val? {
      return Ok(st.(horiz := h, hcols := hc));
    }
    if hc != Last(s) * s.tileCol {
      return Err(JoinFailed);
    }
    return Ok(st.(accum := st.accum + h, horiz := Blank(s.tileRow), hcols := 0));
  }

  /** The memory half of one turn: the checks, the address loops, the dispatch and the acknowledgements. */
  method SendTile(s: Store, st: State, t: Tile) returns (r: Result<State>)
    requires |s.tensorShapeTiled| > 0
    ensures r == Send(s, st, t)
  {
    if |t.shape| == 0 {
      return Err(NoSuchDim);
    }
    if t.shape[0] != s.tileRow {
      return Err(MapFns.AssertEqFailed);
    }
    if |t.shape| == 1 {
      return Err(NoSuchDim);
    }
    if t.shape[1] != s.tileCol {
      return Err(MapFns.AssertEqFailed);
    }
    if st.nBytes.Some? && st.nBytes.value != t.bytesPerElem {
      return Err(MapFns.AssertEqFailed);
    }
    var nBytes := t.bytesPerElem;
    if s.tileRow > 0 && s.addrOffset == 0 {
      return Err(OffChipLoad.ZeroStep);
    }
    var base := s.baseAddr + st.tileIdx * SizeInBytes(t);
    var rowOffset := Last(s) * s.tileCol * nBytes;
    var addrs := OffChipLoad.TileAddresses(base, rowOffset, s.tileRow, s.tileCol * nBytes, s.addrOffset);
    if s.parDispatch == 0 {
      return Err(OffChipLoad.ZeroChunk);
    }
    var groups := OffChipLoad.Chunks(addrs, s.parDispatch);
    var acks := st.acks;
    var i: nat := 0;
    while i < |addrs|
      invariant i <= |addrs| && acks == st.acks + i
    {
      acks := acks + 1;
      i := i + 1;
    }
    return Ok(st.(tileIdx := st.tileIdx + 1, nBytes := Some(nBytes), requested := st.requested + groups, acks := acks));
  }

  /** `OffChipStore::run`: every tile collected and written in turn, then the end checks. */
  method Run(s: Store, input: seq<Elem<Tile>>) returns (r: Result<Outcome>)
    requires AllValid(input)
    ensures r == Stored(s, input)
  {
    if |s.tensorShapeTiled| == 0 {
      return Err(OffChipLoad.NoLastDim);
    }
    var st := Init(s);
    var k: nat := 0;
    while k < |input|
      invariant k <= |input| && StoreFrom(s, input, k) == Ok(st)
    {
      var collected := CollectTile(s, st, input[k]);
      if collected.Err? {
        FailureStays(s, input, k + 1, |input|);
        return Err(collected.msg);
      }
      var sent := SendTile(s, collected.value, input[k].v);
      if sent.Err? {
        FailureStays(s, input, k + 1, |input|);
        return Err(sent.msg);
      }
      st := sent.value;
      k := k + 1;
    }
    r := Finish(s, st);
  }

  // ---------------------------------------------------------------------------------------------
  // What the store guarantees

  /**
   * Every tile stored so far was exactly `tileRow` x `tileCol`, and all of them have the byte width
   * the store recorded from the first.
   */
  lemma {:induction false} SameTiles(s: Store, input: seq<Elem<Tile>>, k: nat)
    requires |s.tensorShapeTiled| > 0 && AllValid(input) && k <= |input| && StoreFrom(s, input, k).Ok?
    ensures k > 0 ==> StoreFrom(s, input, k).value.nBytes.Some?
    ensures k == 0 ==> StoreFrom(s, input, k).value.nBytes.None?
    ensures forall j :: 0 <= j < k ==> var t := input[j].v;
              |t.shape| >= 2 && t.shape[0] == s.tileRow && t.shape[1] == s.tileCol
              && t.bytesPerElem == StoreFrom(s, input, k).value.nBytes.value
    decreases k
  {
    if k > 0 {
      SameTiles(s, input, k - 1);
      var st := StoreFrom(s, input, k - 1).value;
      var st' := Collect(s, st, input[k - 1]).value;
      assert StoreFrom(s, input, k) == Send(s, st', input[k - 1].v);
    }
  }

  /** The addresses of the first `k` tiles, each at `k * size_in_bytes` past the base, in stream order. */
  function Written(s: Store, input: seq<Elem<Tile>>, k: nat): seq<nat>
    requires |s.tensorShapeTiled| > 0 && (s.tileRow == 0 || s.addrOffset > 0) && k <= |input|
    decreases k
  {
    if k == 0 then [] else Written(s, input, k - 1) + TileAddrs(s, input[k - 1].v, k - 1)
  }

  /**
   * The groups sent to memory, put back together, are every tile's addresses in stream order, and
   * exactly one acknowledgement was taken per address.
   */
  lemma {:induction false} StoreAddresses(s: Store, input: seq<Elem<Tile>>, k: nat)
    requires |s.tensorShapeTiled| > 0 && AllValid(input) && k <= |input| && StoreFrom(s, input, k).Ok?
    requires s.tileRow == 0 || s.addrOffset > 0
    ensures var st := StoreFrom(s, input, k).value;
            OffChipLoad.Concat(st.requested) == Written(s, input, k) && st.acks == |Written(s, input, k)|
    decreases k
  {
    if k > 0 {
      StoreAddresses(s, input, k - 1);
      var st := StoreFrom(s, input, k - 1).value;
      var addrs := TileAddrs(s, input[k - 1].v, k - 1);
      assert StoreFrom(s, input, k) == Step(s, st, input[k - 1]);
      StepSends(s, st, input[k - 1]);
      OffChipLoad.ChunksConcat(addrs, s.parDispatch);
      SentStep(st.requested, st.acks, OffChipLoad.Chunks(addrs, s.parDispatch), addrs, Written(s, input, k - 1));
    }
  }

  /** What a successful turn sends to memory: the tile's address groups, and one acknowledgement per address. */
  lemma StepSends(s: Store, st: State, e: Elem<Tile>)
    requires |s.tensorShapeTiled| > 0 && Valid(e.v) && |st.horiz| == s.tileRow && Step(s, st, e).Ok?
    ensures s.parDispatch > 0 && (s.tileRow == 0 || s.addrOffset > 0)
    ensures var addrs := TileAddrs(s, e.v, st.tileIdx);
            Step(s, st, e).value.requested == st.requested + OffChipLoad.Chunks(addrs, s.parDispatch)
            && Step(s, st, e).value.acks == st.acks + |addrs|
  {
    var st' := Collect(s, st, e).value;
    assert Step(s, st, e) == Send(s, st', e.v);
  }

  /** The step of `StoreAddresses`: one more tile's groups and acknowledgements. */
  lemma SentStep(requested: seq<seq<nat>>, acks: nat, groups: seq<seq<nat>>, addrs: seq<nat>, written: seq<nat>)
    requires OffChipLoad.Concat(requested) == written && acks == |written|
    requires OffChipLoad.Concat(groups) == addrs
    ensures OffChipLoad.Concat(requested + groups) == written + addrs && acks + |addrs| == |written + addrs|
  {
    OffChipLoad.ConcatAppend(requested, groups);
  }

  /** Bytes of one `tileRow` x `tileCol` tile of `b`-byte entries. */
  function TileBytes(s: Store, b: nat): nat
  {
    s.tileRow * s.tileCol * b
  }

  /** Bytes from a tile's first row to the row after its last. */
  function Span(s: Store, b: nat): nat
    requires |s.tensorShapeTiled| > 0
  {
    s.tileRow * RowOffset(s, b)
  }

  /**
   * A `tileRow` x `tileCol` tile of `b`-byte entries is written at `tileRow` rows of increasing
   * addresses, each row a tensor row apart, starting `k` tiles' bytes past the base.
   */
  lemma TileWrites(s: Store, t: Tile, k: nat, b: nat)
    requires |s.tensorShapeTiled| > 0 && s.addrOffset > 0 && Last(s) > 0
    requires t.shape == [s.tileRow, s.tileCol] && t.bytesPerElem == b
    ensures var base := s.baseAddr + k * TileBytes(s, b);
            var addrs := TileAddrs(s, t, k);
            |addrs| == s.tileRow * OffChipLoad.RowLength(s.tileCol * b, s.addrOffset)
            && OffChipLoad.Increasing(addrs) && OffChipLoad.Within(addrs, base, base + Span(s, b))
  {
    TileSize(t, s.tileRow, s.tileCol);
    var base := s.baseAddr + k * SizeInBytes(t);
    var width, off := s.tileCol * b, RowOffset(s, b);
    assert width <= off by {
      MulMono(1, Last(s), width);
    }
    OffChipLoad.TileCount(base, off, s.tileRow, width, s.addrOffset);
    OffChipLoad.TileOrder(base, off, s.tileRow, width, s.addrOffset);
  }

  /** A two-dimensional tile's size in bytes. */
  lemma TileSize(t: Tile, rows: nat, cols: nat)
    requires t.shape == [rows, cols]
    ensures SizeInBytes(t) == rows * cols * t.bytesPerElem
  {
    assert t.shape == [] + [rows] + [cols];
    ProductSnoc([] + [rows], cols);
    ProductSnoc([], rows);
  }

  /** The saved shape describes exactly the entries the end check demands. */
  lemma MetaShapeElems(shape: seq<nat>, tileRow: nat, tileCol: nat)
    requires |shape| >= 2
    ensures Product(MetaShape(shape, tileRow, tileCol)) == Product(shape) * tileRow * tileCol
  {
    var n := |shape|;
    var init, x, y := shape[..n - 2], shape[n - 2], shape[n - 1];
    LastTwo(shape);
    ProductPair(init, x, y);
    MulNatural(tileRow, x);
    MulNatural(tileCol, y);
    var a: nat, b: nat := tileRow * x, tileCol * y;
    ProductPair(init, a, b);
    MulShuffle(Product(init), x, y, tileRow, tileCol);
  }

  lemma LastTwo<T>(s: seq<T>)
    requires |s| >= 2
    ensures s == s[..|s| - 2] + [s[|s| - 2]] + [s[|s| - 1]]
  {}

  lemma ProductPair(init: seq<nat>, x: nat, y: nat)
    ensures Product(init + [x] + [y]) == Product(init) * x * y
  {
    ProductSnoc(init + [x], y);
    ProductSnoc(init, x);
  }

  lemma MulShuffle(p: nat, x: nat, y: nat, a: nat, b: nat)
    ensures p * (a * x) * (b * y) == p * x * y * a * b
  {}

  // ---------------------------------------------------------------------------------------------
  // The collected tensor

  /** The store can write every tile: a dispatch width, and an address step whenever tiles have rows. */
  predicate Writable(s: Store)
  {
    s.parDispatch > 0 && (s.tileRow == 0 || s.addrOffset > 0)
  }

  /** A tile as the layout expects it: `tileRow` x `tileCol` entries of `b` bytes, with its data. */
  predicate Fits(s: Store, t: Tile, b: nat)
  {
    Valid(t) && MapFns.HasData(t) && MapFns.Data(t).rows == s.tileRow && MapFns.Data(t).cols == s.tileCol
    && t.bytesPerElem == b
  }

  /** One row of tiles as a tensor is streamed: `Last` tiles that fit, plain but for the last, which closes the row. */
  predicate TileRowOf(s: Store, es: seq<Elem<Tile>>, b: nat)
    requires |s.tensorShapeTiled| > 0
  {
    |es| == Last(s) && forall p :: 0 <= p < |es| ==> Fits(s, es[p].v, b) && (es[p].ValStop? <==> p == |es| - 1)
  }

  /** Rows of tiles one after another. */
  function Flatten<T>(gs: seq<seq<T>>): seq<T>
    decreases |gs|
  {
    if gs == [] then [] else Flatten(gs[..|gs| - 1]) + gs[|gs| - 1]
  }

  /** Tiles side by side: row `r` is every tile's row `r`, left to right. */
  function HJoin(s: Store, es: seq<Elem<Tile>>, b: nat): (h: seq<seq<int>>)
    requires forall p :: 0 <= p < |es| ==> Fits(s, es[p].v, b)
    ensures |h| == s.tileRow
    decreases |es|
  {
    if es == [] then Blank(s.tileRow)
    else
      var t := es[|es| - 1].v;
      assert Fits(s, t, b);
      Join(HJoin(s, es[..|es| - 1], b), MapFns.Data(t).cells)
  }

  /** Rows of tiles, each joined side by side, one below the other: the untiled tensor. */
  function VStack(s: Store, gs: seq<seq<Elem<Tile>>>, b: nat): seq<seq<int>>
    requires |s.tensorShapeTiled| > 0 && forall g :: 0 <= g < |gs| ==> TileRowOf(s, gs[g], b)
    decreases |gs|
  {
    if gs == [] then []
    else
      assert TileRowOf(s, gs[|gs| - 1], b);
      VStack(s, gs[..|gs| - 1], b) + HJoin(s, gs[|gs| - 1], b)
  }

  /** A turn on a tile that fits: a plain tile joins the row being built, a stop also appends the row. */
  lemma StepFits(s: Store, st: State, e: Elem<Tile>, b: nat)
    requires |s.tensorShapeTiled| > 0 && s.keepsData && Writable(s) && Fits(s, e.v, b)
    requires |st.horiz| == s.tileRow && (st.nBytes.None? || st.nBytes == Some(b))
    requires e.ValStop? ==> st.hcols + s.tileCol == AccumCols(s)
    ensures Step(s, st, e).Ok?
    ensures var h := Join(st.horiz, MapFns.Data(e.v).cells);
            var st' := Step(s, st, e).value;
            st'.nBytes == Some(b)
            && (e.Val? ==> st'.accum == st.accum && st'.horiz == h && st'.hcols == st.hcols + s.tileCol)
            && (e.ValStop? ==> st'.accum == st.accum + h && st'.horiz == Blank(s.tileRow) && st'.hcols == 0)
  {
    var st' := Collect(s, st, e).value;
    assert Step(s, st, e) == Send(s, st', e.v);
  }

  /** The state after the tiles `es`, fed in turn from `st`; the first failure stops the feed. */
  function Feed(s: Store, st: State, es: seq<Elem<Tile>>): (r: Result<State>)
    requires |s.tensorShapeTiled| > 0 && AllValid(es) && |st.horiz| == s.tileRow
    ensures r.Ok? ==> |r.value.horiz| == s.tileRow
    decreases |es|
  {
    if es == [] then Ok(st)
    else
      match Feed(s, st, es[..|es| - 1])
      case Err(msg) => Err(msg)
      case Ok(x) => Step(s, x, es[|es| - 1])
  }

  /** Every tile of two streams is well formed when every tile of each is. */
  lemma ValidAppend(a: seq<Elem<Tile>>, b: seq<Elem<Tile>>)
    requires AllValid(a) && AllValid(b)
    ensures AllValid(a + b)
  {
    assert forall k :: 0 <= k < |b| ==> (a + b)[|a| + k] == b[k];
  }

  /** A run of a well-formed stream is well formed. */
  lemma SliceValid(input: seq<Elem<Tile>>, i: nat, k: nat)
    requires AllValid(input) && i <= k <= |input|
    ensures AllValid(input[i..k])
  {
    assert forall p :: 0 <= p < k - i ==> input[i..k][p] == input[i + p];
  }

  /** The stream's first `j + m` tiles are its first `j` tiles, then the next `m` fed in turn. */
  lemma {:induction false} FeedFrom(s: Store, input: seq<Elem<Tile>>, j: nat, m: nat)
    requires |s.tensorShapeTiled| > 0 && AllValid(input) && j + m <= |input| && StoreFrom(s, input, j).Ok?
    ensures AllValid(input[j..j + m])
    ensures StoreFrom(s, input, j + m) == Feed(s, StoreFrom(s, input, j).value, input[j..j + m])
    decreases m
  {
    SliceValid(input, j, j + m);
    if m > 0 {
      FeedFrom(s, input, j, m - 1);
      var w := input[j..j + m];
      assert w[..m - 1] == input[j..j + m - 1];
      assert w[m - 1] == input[j + m - 1];
      var st := StoreFrom(s, input, j).value;
      var prev := StoreFrom(s, input, j + m - 1);
      assert Feed(s, st, w[..m - 1]) == prev;
      if prev.Ok? {
        assert StoreFrom(s, input, j + m) == Step(s, prev.value, input[j + m - 1]);
        assert Feed(s, st, w) == Step(s, prev.value, w[m - 1]);
      }
    } else {
      assert input[j..j] == [];
    }
  }

  /** Feeding two runs of tiles is feeding the first, then the second from where the first left off. */
  lemma {:induction false} FeedAppend(s: Store, st: State, a: seq<Elem<Tile>>, b: seq<Elem<Tile>>)
    requires |s.tensorShapeTiled| > 0 && AllValid(a) && AllValid(b) && |st.horiz| == s.tileRow
    requires Feed(s, st, a).Ok?
    ensures AllValid(a + b)
    ensures Feed(s, st, a + b) == Feed(s, Feed(s, st, a).value, b)
    decreases |b|
  {
    ValidAppend(a, b);
    if b == [] {
      assert a + b == a;
    } else {
      var n := |b|;
      FeedAppend(s, st, a, b[..n - 1]);
      assert (a + b)[..|a + b| - 1] == a + b[..n - 1];
    }
  }

  /** The first `m` tiles of a row, all plain, join side by side and leave the collected rows alone. */
  lemma {:induction false} RowPrefix(s: Store, st: State, es: seq<Elem<Tile>>, b: nat, m: nat)
    requires |s.tensorShapeTiled| > 0 && s.keepsData && Writable(s)
    requires TileRowOf(s, es, b) && AllValid(es) && m < |es|
    requires st.horiz == Blank(s.tileRow) && st.hcols == 0 && (st.nBytes.None? || st.nBytes == Some(b))
    ensures AllValid(es[..m]) && Feed(s, st, es[..m]).Ok?
    ensures var st' := Feed(s, st, es[..m]).value;
            st'.accum == st.accum && st'.horiz == HJoin(s, es[..m], b) && st'.hcols == Times(s.tileCol, m)
            && (st'.nBytes.None? || st'.nBytes == Some(b))
    decreases m
  {
    if m > 0 {
      RowPrefix(s, st, es, b, m - 1);
      assert es[..m][..m - 1] == es[..m - 1];
      StepFits(s, Feed(s, st, es[..m - 1]).value, es[m - 1], b);
    } else {
      assert es[..0] == [];
    }
  }

  /** A whole row of tiles appends its joined rows to the collected ones and starts a new row. */
  lemma RowJoined(s: Store, st: State, es: seq<Elem<Tile>>, b: nat)
    requires |s.tensorShapeTiled| > 0 && s.keepsData && Writable(s) && Last(s) > 0
    requires TileRowOf(s, es, b) && AllValid(es)
    requires st.horiz == Blank(s.tileRow) && st.hcols == 0 && (st.nBytes.None? || st.nBytes == Some(b))
    ensures Feed(s, st, es).Ok?
    ensures var st' := Feed(s, st, es).value;
            st'.accum == st.accum + HJoin(s, es, b) && st'.horiz == Blank(s.tileRow) && st'.hcols == 0
            && st'.nBytes == Some(b)
  {
    var n := |es|;
    RowPrefix(s, st, es, b, n - 1);
    assert es[..n][..n - 1] == es[..n - 1];
    assert es[..n] == es;
    TimesIsProduct(s.tileCol, n);
    StepFits(s, Feed(s, st, es[..n - 1]).value, es[n - 1], b);
  }

  /** The rows of tiles up to row `g`, one after another, and the next row. */
  lemma FlattenSnoc<T>(gs: seq<seq<T>>, g: nat)
    requires 0 < g <= |gs|
    ensures Flatten(gs[..g]) == Flatten(gs[..g - 1]) + gs[g - 1]
  {
    assert gs[..g][..g - 1] == gs[..g - 1];
  }

  /** A tile row's tiles are well formed. */
  lemma RowValid(s: Store, es: seq<Elem<Tile>>, b: nat)
    requires |s.tensorShapeTiled| > 0 && TileRowOf(s, es, b)
    ensures AllValid(es)
  {
    assert forall p :: 0 <= p < |es| ==> Fits(s, es[p].v, b);
  }

  /**
   * After the first `g` rows of tiles, all well formed, the store holds those rows untiled, with no
   * row begun.
   */
  lemma {:induction false} RowsCollected(s: Store, gs: seq<seq<Elem<Tile>>>, b: nat, g: nat)
    requires |s.tensorShapeTiled| > 0 && s.keepsData && Writable(s) && Last(s) > 0
    requires forall i :: 0 <= i < |gs| ==> TileRowOf(s, gs[i], b)
    requires g <= |gs|
    ensures AllValid(Flatten(gs[..g])) && Feed(s, Init(s), Flatten(gs[..g])).Ok?
    ensures var st := Feed(s, Init(s), Flatten(gs[..g])).value;
            st.accum == VStack(s, gs[..g], b) && st.horiz == Blank(s.tileRow) && st.hcols == 0
            && (st.nBytes.None? || st.nBytes == Some(b))
    decreases g
  {
    if g == 0 {
      assert gs[..0] == [];
    } else {
      RowsCollected(s, gs, b, g - 1);
      var es := gs[g - 1];
      var prefix := Flatten(gs[..g - 1]);
      var st := Feed(s, Init(s), prefix).value;
      RowValid(s, es, b);
      FlattenSnoc(gs, g);
      FeedAppend(s, Init(s), prefix, es);
      RowJoined(s, st, es, b);
      assert gs[..g][..g - 1] == gs[..g - 1];
    }
  }

  /**
   * A stream that sends a tensor row of tiles by row of tiles, each row closed by a stop, is well
   * formed, stored without failure, and collected as the untiled tensor.
   */
  lemma Untiled(s: Store, gs: seq<seq<Elem<Tile>>>, b: nat)
    requires |s.tensorShapeTiled| > 0 && s.keepsData && Writable(s) && Last(s) > 0
    requires forall i :: 0 <= i < |gs| ==> TileRowOf(s, gs[i], b)
    ensures AllValid(Flatten(gs))
    ensures StoreFrom(s, Flatten(gs), |Flatten(gs)|).Ok?
    ensures StoreFrom(s, Flatten(gs), |Flatten(gs)|).value.accum == VStack(s, gs, b)
  {
    RowsCollected(s, gs, b, |gs|);
    assert gs[..|gs|] == gs;
    var input := Flatten(gs);
    FeedFrom(s, input, 0, |input|);
    assert input[0..|input|] == input;
  }

  /** When the rows make up the whole tensor, the end check passes and the untiled tensor is saved with its shape. */
  lemma SavedWhole(s: Store, gs: seq<seq<Elem<Tile>>>, b: nat)
    requires |s.tensorShapeTiled| >= 2 && s.keepsData && Writable(s) && Last(s) > 0
    requires forall i :: 0 <= i < |gs| ==> TileRowOf(s, gs[i], b)
    requires |gs| * Last(s) == Product(s.tensorShapeTiled)
    ensures AllValid(Flatten(gs)) && Stored(s, Flatten(gs)).Ok?
    ensures Stored(s, Flatten(gs)).value.saved == Some(Saved(VStack(s, gs, b), MetaShape(s.tensorShapeTiled, s.tileRow, s.tileCol)))
  {
    Untiled(s, gs, b);
    VStackSize(s, gs, b);
    WholeCount(|gs|, Last(s), s.tileRow, s.tileCol, Product(s.tensorShapeTiled));
  }

  lemma WholeCount(g: nat, l: nat, tileRow: nat, tileCol: nat, p: nat)
    requires g * l == p
    ensures g * tileRow * (l * tileCol) == p * tileRow * tileCol
  {
    assert g * tileRow * (l * tileCol) == (g * l) * tileRow * tileCol;
  }

  /** Each row of tiles adds `tileRow` rows. */
  lemma {:induction false} VStackSize(s: Store, gs: seq<seq<Elem<Tile>>>, b: nat)
    requires |s.tensorShapeTiled| > 0 && forall g :: 0 <= g < |gs| ==> TileRowOf(s, gs[g], b)
    ensures |VStack(s, gs, b)| == |gs| * s.tileRow
    decreases |gs|
  {
    if gs != [] {
      VStackSize(s, gs[..|gs| - 1], b);
      Shapes.MulPred(|gs|, s.tileRow);
    }
  }

  /** Each tile adds `tileCol` columns to every row. */
  lemma {:induction false} HJoinWidth(s: Store, es: seq<Elem<Tile>>, b: nat, r: nat)
    requires forall p :: 0 <= p < |es| ==> Fits(s, es[p].v, b)
    requires r < s.tileRow
    ensures |HJoin(s, es, b)[r]| == |es| * s.tileCol
    decreases |es|
  {
    if es != [] {
      HJoinWidth(s, es[..|es| - 1], b, r);
      Shapes.MulPred(|es|, s.tileCol);
    }
  }

  /** Entry `(r, p * tileCol + c)` of tiles side by side is entry `(r, c)` of tile `p`. */
  lemma {:induction false} HJoinAt(s: Store, es: seq<Elem<Tile>>, b: nat, p: nat, r: nat, c: nat)
    requires forall q :: 0 <= q < |es| ==> Fits(s, es[q].v, b)
    requires p < |es| && r < s.tileRow && c < s.tileCol
    ensures p * s.tileCol + c < |HJoin(s, es, b)[r]|
    ensures HJoin(s, es, b)[r][p * s.tileCol + c] == MapFns.Data(es[p].v).cells[r][c]
    decreases |es|
  {
    var n := |es|;
    var init := es[..n - 1];
    HJoinWidth(s, init, b, r);
    HJoinWidth(s, es, b, r);
    var row := HJoin(s, init, b)[r];
    var cells := MapFns.Data(es[n - 1].v).cells;
    assert HJoin(s, es, b)[r] == row + cells[r];
    if p < n - 1 {
      HJoinAt(s, init, b, p, r, c);
      MulMono(p + 1, n - 1, s.tileCol);
    } else {
      Shapes.MulPred(n, s.tileCol);
    }
  }

  /**
   * Entry `(g * tileRow + r, p * tileCol + c)` of the untiled tensor is entry `(r, c)` of tile `p`
   * of row of tiles `g`: collecting inverts the tiling.
   */
  lemma {:induction false} VStackAt(s: Store, gs: seq<seq<Elem<Tile>>>, b: nat, g: nat, p: nat, r: nat, c: nat)
    requires |s.tensorShapeTiled| > 0 && forall i :: 0 <= i < |gs| ==> TileRowOf(s, gs[i], b)
    requires g < |gs| && p < Last(s) && r < s.tileRow && c < s.tileCol
    ensures g * s.tileRow + r < |VStack(s, gs, b)|
    ensures p * s.tileCol + c < |VStack(s, gs, b)[g * s.tileRow + r]|
    ensures VStack(s, gs, b)[g * s.tileRow + r][p * s.tileCol + c] == MapFns.Data(gs[g][p].v).cells[r][c]
    decreases |gs|
  {
    var n := |gs|;
    var init := gs[..n - 1];
    VStackSize(s, init, b);
    VStackSize(s, gs, b);
    assert VStack(s, gs, b) == VStack(s, init, b) + HJoin(s, gs[n - 1], b);
    if g < n - 1 {
      VStackAt(s, init, b, g, p, r, c);
      MulMono(g + 1, n - 1, s.tileRow);
    } else {
      Shapes.MulPred(n, s.tileRow);
      HJoinAt(s, gs[n - 1], b, p, r, c);
    }
  }
}
