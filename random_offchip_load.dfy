/**
 * `RandomOffChipLoad`: reads tiles of a tiled tensor held off chip in whatever order a stream of
 * requests names them. Each request is a 1 x 1 tile holding a tile index; the loader lists the byte
 * addresses of that tile, sends them to memory in groups of `par_dispatch`, and answers on chip with
 * the tile, keeping the request's stop level.
 */
module RandomOffChipLoad {
  import opened Wrappers
  import opened Calc
  import opened Elems
  import opened Tiles
  import opened Shapes
  import opened Matrices
  import OffChipLoad

  const NoIndex := "called `Option::unwrap()` on a `None` value"
  const NoEntry := "index out of bounds"
  const ZeroWindow := "Stride cannot have a zero component"

  /**
   * The loader's configuration; `tensorShape` counts tiles. `tiles`, when present, holds the stored
   * tensor cut into `tileRow` x `tileCol` windows in storage order.
   */
  datatype Loader = Loader(tensorShape: seq<nat>, tiles: Option<seq<Tile>>, tileRow: nat, tileCol: nat, nByte: nat,
                           baseAddr: nat, addrOffset: nat, parDispatch: nat)

  // ---------------------------------------------------------------------------------------------
  // The stored tiles

  /**
   * The stored tensor as the file holds it: one `rows` x `cols` array per position of the leading
   * dimensions, where `rows` and `cols` are the last two tiled dimensions times the tile's.
   */
  predicate Untiled(tensorShape: seq<nat>, slices: seq<Matrix>, tileRow: nat, tileCol: nat)
  {
    |tensorShape| >= 2 && |slices| == Product(tensorShape[..|tensorShape| - 2])
    && forall s :: 0 <= s < |slices| ==>
         Rectangular(slices[s]) && slices[s].rows == tileRow * tensorShape[|tensorShape| - 2]
         && slices[s].cols == tileCol * tensorShape[|tensorShape| - 1]
  }

  /** The `tileRow` x `tileCol` window of `m` in window row `i` and window column `j`. */
  function Window(m: Matrix, i: nat, j: nat, tileRow: nat, tileCol: nat): (w: Matrix)
    ensures Rectangular(w) && w.rows == tileRow && w.cols == tileCol
  {
    Grid(tileRow, tileCol, (r, c) => At(m, i * tileRow + r, j * tileCol + c))
  }

  /** The slice at a leading position, or an empty array beyond the last. */
  function SliceAt(slices: seq<Matrix>, s: nat): Matrix
  {
    if s < |slices| then slices[s] else Matrix(0, 0, [])
  }

  /**
   * The tiles the constructor pre-computes: the non-overlapping windows of every slice, window rows
   * outer and window columns inner, each a tile read from memory. A zero window dimension is refused.
   */
  function Precomputed(slices: seq<Matrix>, rowsT: nat, colsT: nat, tileRow: nat, tileCol: nat, nByte: nat): (r: Result<seq<Tile>>)
    ensures r.Ok? <==> tileRow > 0 && tileCol > 0
    ensures r.Ok? ==> |r.value| == |slices| * (rowsT * colsT)
  {
    if tileRow == 0 || tileCol == 0 then Err(ZeroWindow)
    else
      var per := rowsT * colsT;
      Ok(seq(|slices| * per, k requires 0 <= k < |slices| * per =>
               New(Window(SliceAt(slices, k / per), (k % per) / colsT, k % colsT, tileRow, tileCol), nByte, true)))
  }

  /** The tile after `s` whole slices, `i` window rows and `j` windows sits at `(s * rowsT + i) * colsT + j`. */
  lemma WindowPosition(s: nat, i: nat, j: nat, rowsT: nat, colsT: nat) returns (k: nat)
    requires i < rowsT && j < colsT
    ensures k == (s * rowsT + i) * colsT + j
    ensures k / (rowsT * colsT) == s && (k % (rowsT * colsT)) / colsT == i && k % colsT == j
  {
    k := (s * rowsT + i) * colsT + j;
    var per := rowsT * colsT;
    RowInRange(i, j, rowsT, colsT);
    assert k == s * per + (i * colsT + j) by {
      assert (s * rowsT + i) * colsT == s * (rowsT * colsT) + i * colsT;
    }
    DivModUnique(k, per, s, i * colsT + j);
    DivModUnique(i * colsT + j, colsT, i, j);
    DivModUnique(k, colsT, s * rowsT + i, j);
  }

  /** There is one pre-computed tile per tile of the tiled tensor. */
  lemma PrecomputedCount(tensorShape: seq<nat>, slices: seq<Matrix>, tileRow: nat, tileCol: nat, nByte: nat)
    requires Untiled(tensorShape, slices, tileRow, tileCol) && tileRow > 0 && tileCol > 0
    ensures var rowsT, colsT := tensorShape[|tensorShape| - 2], tensorShape[|tensorShape| - 1];
            var p := Precomputed(slices, rowsT, colsT, tileRow, tileCol, nByte);
            p.Ok? && |p.value| == Product(tensorShape)
  {
    var n := |tensorShape|;
    ProductPair(tensorShape[..n - 2], tensorShape[n - 2], tensorShape[n - 1]);
    assert tensorShape[..n - 2] + [tensorShape[n - 2], tensorShape[n - 1]] == tensorShape;
  }

  /**
   * The tile at window `(i, j)` of slice `s` is a full tile read from memory holding that window's
   * entries: entry `(r, c)` is entry `(i * tileRow + r, j * tileCol + c)` of the slice.
   */
  lemma PrecomputedWindow(slices: seq<Matrix>, rowsT: nat, colsT: nat, tileRow: nat, tileCol: nat, nByte: nat,
                          s: nat, i: nat, j: nat, r: nat, c: nat)
    requires tileRow > 0 && tileCol > 0 && s < |slices| && i < rowsT && j < colsT && r < tileRow && c < tileCol
    ensures var p := Precomputed(slices, rowsT, colsT, tileRow, tileCol, nByte);
            (s * rowsT + i) * colsT + j < |p.value|
            && var t := p.value[(s * rowsT + i) * colsT + j];
               t.shape == [tileRow, tileCol] && t.offset == tileRow && t.readFromMu && t.bytesPerElem == nByte
               && t.underlying.Some? && At(t.underlying.value, r, c) == At(slices[s], i * tileRow + r, j * tileCol + c)
  {
    var k := WindowPosition(s, i, j, rowsT, colsT);
    var per := rowsT * colsT;
    assert k < |slices| * per by {
      RowInRange(i, j, rowsT, colsT);
      RowInRange(s, i * colsT + j, |slices|, per);
    }
    GridAt(tileRow, tileCol, (r, c) => At(slices[s], i * tileRow + r, j * tileCol + c), r, c);
  }

  /** Appending two dimensions multiplies the product by both. */
  lemma ProductPair(init: seq<nat>, x: nat, y: nat)
    ensures Product(init + [x, y]) == Product(init) * (x * y)
  {
    var one := init + [x];
    var two := init + [x, y];
    assert two[..|init| + 1] == one;
    assert one[..|init|] == init;
    var a := Product(init);
    var b := Product(one);
    assert b == a * x by { ProductUnfold(one); }
    assert Product(two) == b * y by { ProductUnfold(two); }
    MulAssoc(a, x, y, b);
  }

  /** `(a * x) * y == a * (x * y)`, with `a * x` named `b`. */
  lemma MulAssoc(a: nat, x: nat, y: nat, b: nat)
    requires b == a * x
    ensures b * y == a * (x * y)
  {}

  // ---------------------------------------------------------------------------------------------
  // One request

  /** Request tiles carry `u64` indices: no entry is negative. */
  predicate Unsigned(t: Tile)
  {
    t.underlying.Some? ==> forall r, c :: 0 <= r < |t.underlying.value.cells| && 0 <= c < |t.underlying.value.cells[r]|
                                          ==> t.underlying.value.cells[r][c] >= 0
  }

  /** The tile index a request carries: entry `[0, 0]` of its data. */
  function IndexOf(t: Tile): (r: Result<nat>)
    requires Unsigned(t)
    ensures r.Ok? <==> t.underlying.Some? && |t.underlying.value.cells| > 0 && |t.underlying.value.cells[0]| > 0
    ensures r.Ok? ==> r.value == At(t.underlying.value, 0, 0)
  {
    if t.underlying.None? then Err(NoIndex)
    else
      var cells := t.underlying.value.cells;
      if |cells| == 0 || |cells[0]| == 0 then Err(NoEntry) else Ok(cells[0][0])
  }

  /** Bytes of one row of a tile. */
  function Width(l: Loader): nat { l.tileCol * l.nByte }

  /** Bytes of one tile. */
  function TileBytes(l: Loader): nat { l.tileRow * l.tileCol * l.nByte }

  /**
   * The addresses `generate_tile_addresses` lists for tile `idx`: for each row `r` of the tile, the bytes
   * `c` of a row stepping by `addr_offset`, at `base + idx * TileBytes + r * rowOffset + c`, where a row
   * of the whole tensor is `rowOffset` bytes. Fails on a tensor with no last dimension, or a zero step
   * over a tile with rows.
   */
  function TileAddrs(l: Loader, idx: nat): (r: Result<seq<nat>>)
    ensures r.Ok? <==> |l.tensorShape| > 0 && (l.tileRow == 0 || l.addrOffset > 0)
  {
    if |l.tensorShape| == 0 then Err(OffChipLoad.NoLastDim)
    else if l.tileRow > 0 && l.addrOffset == 0 then Err(OffChipLoad.ZeroStep)
    else
      var rowOffset := l.tensorShape[|l.tensorShape| - 1] * l.tileCol * l.nByte;
      Ok(OffChipLoad.TileRows(l.baseAddr + idx * TileBytes(l), rowOffset, l.tileRow, Width(l), l.addrOffset))
  }

  /** `generate_tile_addresses`: the row loop over the tile, each row stepping by `addr_offset`. */
  method GenerateTileAddresses(l: Loader, idx: nat) returns (r: Result<seq<nat>>)
    ensures r == TileAddrs(l, idx)
  {
    if |l.tensorShape| == 0 {
      return Err(OffChipLoad.NoLastDim);
    }
    var base := l.baseAddr + idx * TileBytes(l);
    var rowOffset := l.tensorShape[|l.tensorShape| - 1] * l.tileCol * l.nByte;
    if l.tileRow > 0 && l.addrOffset == 0 {
      return Err(OffChipLoad.ZeroStep);
    }
    var addrs := OffChipLoad.TileAddresses(base, rowOffset, l.tileRow, Width(l), l.addrOffset);
    return Ok(addrs);
  }

  /** A tile has `tileRow` rows of `ceil(width / addr_offset)` addresses, and its addresses strictly increase. */
  lemma TileAddrsShape(l: Loader, idx: nat)
    requires |l.tensorShape| > 0 && l.addrOffset > 0 && l.tensorShape[|l.tensorShape| - 1] > 0
    ensures TileAddrs(l, idx).Ok?
    ensures |TileAddrs(l, idx).value| == l.tileRow * OffChipLoad.RowLength(Width(l), l.addrOffset)
    ensures OffChipLoad.Increasing(TileAddrs(l, idx).value)
  {
    var last := l.tensorShape[|l.tensorShape| - 1];
    var rowOffset := last * l.tileCol * l.nByte;
    var base := l.baseAddr + idx * TileBytes(l);
    OffChipLoad.TileCount(base, rowOffset, l.tileRow, Width(l), l.addrOffset);
    assert Width(l) <= rowOffset by { MulMono(1, last, Width(l)); }
    OffChipLoad.TileOrder(base, rowOffset, l.tileRow, Width(l), l.addrOffset);
  }

  /** Address `k` of row `r` of tile `idx` is `base + idx * TileBytes + r * rowOffset + k * addr_offset`. */
  lemma TileAddressAt(l: Loader, idx: nat, r: nat, k: nat)
    requires |l.tensorShape| > 0 && l.addrOffset > 0
    requires r < l.tileRow && k < OffChipLoad.RowLength(Width(l), l.addrOffset)
    ensures TileAddrs(l, idx).Ok?
    ensures var a := TileAddrs(l, idx).value;
            var n := OffChipLoad.RowLength(Width(l), l.addrOffset);
            0 <= r * n && r * n + k < |a| && a[r * n + k] == l.baseAddr + idx * TileBytes(l) + r * (l.tensorShape[|l.tensorShape| - 1] * Width(l)) + k * l.addrOffset
  {
    var last := l.tensorShape[|l.tensorShape| - 1];
    var rowOffset := last * l.tileCol * l.nByte;
    assert rowOffset == last * Width(l);
    var base := l.baseAddr + idx * TileBytes(l);
    OffChipLoad.TileRowsAt(base, rowOffset, l.tileRow, Width(l), l.addrOffset, r, k);
    MulMono(0, r, OffChipLoad.RowLength(Width(l), l.addrOffset));
  }

  /** `create_tile_data`: the stored tile when the index names one, otherwise a blank tile read from memory. */
  function CreateTileData(l: Loader, idx: nat): (t: Tile)
    ensures l.tiles.Some? && idx < |l.tiles.value| ==> t == l.tiles.value[idx]
    ensures !(l.tiles.Some? && idx < |l.tiles.value|) ==>
              t.underlying.None? && t.shape == [l.tileRow, l.tileCol] && t.bytesPerElem == l.nByte && t.readFromMu
              && t.offset == l.tileRow
  {
    if l.tiles.Some? && idx < |l.tiles.value| then l.tiles.value[idx]
    else NewBlank([l.tileRow, l.tileCol], l.nByte, true)
  }

  // ---------------------------------------------------------------------------------------------
  // The request loop

  /** Every request tile holds unsigned entries. */
  predicate Requests(raddr: seq<Elem<Tile>>)
  {
    forall k :: 0 <= k < |raddr| ==> Unsigned(raddr[k].v)
  }

  /** Serving one request: its addresses in groups of `p`, and the answer in the request's shape. */
  function Serve(l: Loader, e: Elem<Tile>): (r: Result<OffChipLoad.Transfer>)
    requires Unsigned(e.v)
    ensures r.Ok? ==> |r.value.out| == 1
  {
    var idx := IndexOf(e.v);
    if idx.Err? then Err(idx.msg)
    else
      var addrs := TileAddrs(l, idx.value);
      if addrs.Err? then Err(addrs.msg)
      else if l.parDispatch == 0 then Err(OffChipLoad.ZeroChunk)
      else Ok(OffChipLoad.Transfer(OffChipLoad.Chunks(addrs.value, l.parDispatch), [Rewrap(e, CreateTileData(l, idx.value))]))
  }

  /** The loader after the first `n` requests: what it sent to memory and on chip, or the first failure. */
  function Served(l: Loader, raddr: seq<Elem<Tile>>, n: nat): (r: Result<OffChipLoad.Transfer>)
    requires Requests(raddr) && n <= |raddr|
    ensures r.Ok? ==> |r.value.out| == n
    decreases n
  {
    if n == 0 then Ok(OffChipLoad.Transfer([], []))
    else
      var prev := Served(l, raddr, n - 1);
      if prev.Err? then prev
      else
        var step := Serve(l, raddr[n - 1]);
        if step.Err? then Err(step.msg)
        else Ok(OffChipLoad.Transfer(prev.value.requested + step.value.requested, prev.value.out + step.value.out))
  }

  /** `run`: every request is served in arrival order until the request stream closes. */
  method Run(l: Loader, raddr: seq<Elem<Tile>>) returns (r: Result<OffChipLoad.Transfer>)
    requires Requests(raddr)
    ensures r == Served(l, raddr, |raddr|)
  {
    var requested: seq<seq<nat>> := [];
    var out: seq<Elem<Tile>> := [];
    var k: nat := 0;
    while k < |raddr|
      invariant k <= |raddr| && Served(l, raddr, k) == Ok(OffChipLoad.Transfer(requested, out))
    {
      var e := raddr[k];
      var idx := IndexOf(e.v);
      var addrs: Result<seq<nat>> := Ok([]);
      if idx.Ok? {
        addrs := GenerateTileAddresses(l, idx.value);
      }
      if idx.Err? || addrs.Err? || l.parDispatch == 0 {
        ServedFails(l, raddr, k + 1, |raddr|);
        return Served(l, raddr, k + 1);
      }
      var data := CreateTileData(l, idx.value);
      requested := requested + OffChipLoad.Chunks(addrs.value, l.parDispatch);
      out := out + [Rewrap(e, data)];
      k := k + 1;
    }
    return Ok(OffChipLoad.Transfer(requested, out));
  }

  /** A failure stays a failure once more requests are served. */
  lemma {:induction false} ServedFails(l: Loader, raddr: seq<Elem<Tile>>, n: nat, m: nat)
    requires Requests(raddr) && n <= m <= |raddr| && Served(l, raddr, n).Err?
    ensures Served(l, raddr, m) == Served(l, raddr, n)
    decreases m - n
  {
    if n < m {
      ServedFails(l, raddr, n + 1, m);
    }
  }

  /**
   * A successful run answers every request once, in order: answer `k` has request `k`'s shape (plain,
   * or a stop of the same level), carries the tile the request's index names, and the address groups
   * put back together are every request's tile addresses in request order.
   */
  lemma {:induction false} Answers(l: Loader, raddr: seq<Elem<Tile>>, n: nat, k: nat)
    requires Requests(raddr) && k < n <= |raddr| && Served(l, raddr, n).Ok?
    ensures IndexOf(raddr[k].v).Ok?
    ensures var e := Served(l, raddr, n).value.out[k];
            (e.Val? <==> raddr[k].Val?) && Level(e) == Level(raddr[k])
            && e.v == CreateTileData(l, IndexOf(raddr[k].v).value)
    decreases n
  {
    if k < n - 1 {
      Answers(l, raddr, n - 1, k);
    }
  }

  /** The addresses sent for the first `n` requests, put back together, are their tiles' addresses in order. */
  function AllAddrs(l: Loader, raddr: seq<Elem<Tile>>, n: nat): seq<nat>
    requires Requests(raddr) && n <= |raddr|
    decreases n
  {
    if n == 0 then []
    else
      var idx := IndexOf(raddr[n - 1].v);
      var a := if idx.Ok? then TileAddrs(l, idx.value) else Ok([]);
      AllAddrs(l, raddr, n - 1) + (if a.Ok? then a.value else [])
  }

  /** Dispatching in groups loses and reorders no address. */
  lemma {:induction false} RequestedAddresses(l: Loader, raddr: seq<Elem<Tile>>, n: nat)
    requires Requests(raddr) && n <= |raddr| && Served(l, raddr, n).Ok?
    ensures OffChipLoad.Concat(Served(l, raddr, n).value.requested) == AllAddrs(l, raddr, n)
    decreases n
  {
    if n > 0 {
      RequestedAddresses(l, raddr, n - 1);
      var prev := Served(l, raddr, n - 1).value;
      var idx := IndexOf(raddr[n - 1].v).value;
      var a := TileAddrs(l, idx).value;
      OffChipLoad.ConcatAppend(prev.requested, OffChipLoad.Chunks(a, l.parDispatch));
      OffChipLoad.ChunksConcat(a, l.parDispatch);
    }
  }

  /** Without stored data every answer is a blank tile of the tile's shape. */
  lemma NoDataBlank(l: Loader, raddr: seq<Elem<Tile>>, k: nat)
    requires Requests(raddr) && k < |raddr| && l.tiles.None? && Served(l, raddr, |raddr|).Ok?
    ensures var t := Served(l, raddr, |raddr|).value.out[k].v;
            t.underlying.None? && t.shape == [l.tileRow, l.tileCol]
  {
    Answers(l, raddr, |raddr|, k);
  }
}
