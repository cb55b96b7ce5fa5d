/**
 * `OffChipLoad`: streams the tiles of a tiled tensor held off chip, in the order of a strided view.
 * For every position of the output shape it decomposes the flat position into a multi-index, maps it
 * through the view's strides to a tile of the stored tensor, lists the byte addresses to read for
 * that tile, and marks the tile with the number of output dimensions it closes.
 */
module OffChipLoad {
  import opened Wrappers
  import opened Calc
  import opened Elems
  import opened Tiles
  import opened Shapes

  const StrideMismatch := "Stride and output shape must have the same number of dimensions"
  const NoLastDim := "called `Option::unwrap()` on a `None` value"
  const ZeroStep := "assertion failed: step != 0"
  const NoSuchTile := "index out of bounds"
  const ZeroChunk := "chunk size must be non-zero"

  /**
   * The loader's configuration; shapes and strides count tiles. `tiles`, when present, holds the
   * stored tensor cut into `tileRow` x `tileCol` windows, one per position of `tensorShape`.
   */
  datatype Loader = Loader(tensorShape: seq<nat>, stride: seq<nat>, outShape: seq<nat>, tiles: Option<seq<Tile>>,
                           tileRow: nat, tileCol: nat, nByte: nat, baseAddr: nat, addrOffset: nat, parDispatch: nat)

  /** `HbmAddrEnum`: the addresses read for one tile, the tile sent on chip, and its stop level if any. */
  datatype Request = Request(addrs: seq<nat>, tile: Tile, stop: Option<nat>)

  /** What the constructor guarantees: one stored tile per position of the tensor. */
  predicate Stored(l: Loader)
  {
    l.tiles.Some? ==> |l.tiles.value| == Product(l.tensorShape)
  }

  // ---------------------------------------------------------------------------------------------
  // Positions: the multi-index of a flat position and the stored tile it reads

  /** Every component of an index lies below its dimension. */
  predicate InRange(shape: seq<nat>, idx: seq<nat>)
  {
    |idx| == |shape| && forall k :: 0 <= k < |shape| ==> idx[k] < shape[k]
  }

  /** The decomposition takes every component modulo its dimension, so it is always in range. */
  lemma {:induction false} MultiIndexInRange(shape: seq<nat>, i: nat)
    requires Positive(shape)
    ensures InRange(shape, MultiIndex(shape, i))
    decreases |shape|
  {
    if shape != [] {
      var init, d := shape[..|shape| - 1], shape[|shape| - 1];
      PositiveInit(shape);
      MultiIndexInRange(init, i / d);
      assert MultiIndex(shape, i) == MultiIndex(init, i / d) + [i % d];
    }
  }

  /** The multi-index loop: remainder and quotient by each dimension, innermost first. */
  method MultiIndexOf(shape: seq<nat>, flat: nat) returns (idx: seq<nat>)
    requires Positive(shape)
    ensures idx == MultiIndex(shape, flat)
  {
    var remaining := flat;
    idx := seq(|shape|, _ => 0);
    var i: nat := |shape|;
    assert shape[..i] == shape && idx[i..] == [];
    while i > 0
      invariant i <= |shape| && |idx| == |shape|
      invariant MultiIndex(shape, flat) == MultiIndex(shape[..i], remaining) + idx[i..]
    {
      var d := shape[i - 1];
      assert shape[..i][..i - 1] == shape[..i - 1];
      assert MultiIndex(shape[..i], remaining) == MultiIndex(shape[..i - 1], remaining / d) + [remaining % d];
      idx := idx[i - 1 := remaining % d];
      assert idx[i - 1..] == [remaining % d] + idx[i..];
      remaining := remaining / d;
      i := i - 1;
    }
    assert idx[0..] == idx;
  }

  /** The weighted sum of an index by the strides, outermost dimension first. */
  function Dot(idx: seq<nat>, stride: seq<nat>): nat
    requires |idx| == |stride|
    decreases |idx|
  {
    if idx == [] then 0 else Dot(idx[..|idx| - 1], stride[..|idx| - 1]) + idx[|idx| - 1] * stride[|idx| - 1]
  }

  /** The view's position wrapped into the stored tensor, or 0 when that tensor is empty. */
  function Wrap(x: nat, size: nat): (t: nat)
    ensures size > 0 ==> t < size
    ensures size == 0 ==> t == 0
  {
    if size > 0 then x % size else 0
  }

  /** A position already inside the stored tensor is its own wrap. */
  lemma WrapBelow(x: nat, size: nat)
    requires x < size
    ensures Wrap(x, size) == x
  {}

  /** The tile-index loop: the strided sum, then wrapped into the stored tensor. */
  method ViewIndex(idx: seq<nat>, stride: seq<nat>, size: nat) returns (t: nat)
    requires |idx| == |stride|
    ensures t == Wrap(Dot(idx, stride), size)
  {
    t := 0;
    var k: nat := 0;
    while k < |idx|
      invariant k <= |idx| && t == Dot(idx[..k], stride[..k])
    {
      assert idx[..k + 1][..k] == idx[..k] && stride[..k + 1][..k] == stride[..k];
      t := t + idx[k] * stride[k];
      k := k + 1;
    }
    assert idx[..k] == idx && stride[..k] == stride;
    t := if size > 0 then t % size else 0;
  }

  /** The strides of a row-major layout: each dimension's stride is the product of the dimensions inside it. */
  function RowMajorStrides(shape: seq<nat>): (s: seq<nat>)
    ensures |s| == |shape|
    decreases |shape|
  {
    if shape == [] then []
    else
      var d := shape[|shape| - 1];
      var inner := RowMajorStrides(shape[..|shape| - 1]);
      seq(|inner|, k requires 0 <= k < |inner| => inner[k] * d) + [1]
  }

  /** Scaling every stride scales the sum. */
  lemma {:induction false} DotScale(idx: seq<nat>, stride: seq<nat>, scaled: seq<nat>, d: nat)
    requires |idx| == |stride| == |scaled| && forall k :: 0 <= k < |stride| ==> scaled[k] == stride[k] * d
    ensures Dot(idx, scaled) == Dot(idx, stride) * d
    decreases |idx|
  {
    if idx != [] {
      var n := |idx| - 1;
      DotScale(idx[..n], stride[..n], scaled[..n], d);
      assert idx[n] * scaled[n] == idx[n] * stride[n] * d;
    }
  }

  /**
   * The view with row-major strides over its own shape reads the tensor in storage order: the strided
   * sum of the multi-index of position `i` is `i` itself.
   */
  lemma {:induction false} RowMajorInverse(shape: seq<nat>, i: nat)
    requires Positive(shape) && i < Product(shape)
    ensures Dot(MultiIndex(shape, i), RowMajorStrides(shape)) == i
    decreases |shape|
  {
    if shape != [] {
      var init, d := shape[..|shape| - 1], shape[|shape| - 1];
      PositiveInit(shape);
      assert init + [d] == shape;
      ProductSnoc(init, d);
      var q, r := Split(i, d);
      DivBound(i, d, Product(init));
      RowMajorInverse(init, q);
      var idx, strides := MultiIndex(shape, i), RowMajorStrides(shape);
      var inner := RowMajorStrides(init);
      assert idx[..|init|] == MultiIndex(init, q);
      DotScale(MultiIndex(init, q), inner, strides[..|init|], d);
      assert Dot(idx, strides) == Dot(MultiIndex(init, q), strides[..|init|]) + r;
    }
  }

  // ---------------------------------------------------------------------------------------------
  // Stop levels

  /** The stop a tile carries: none when it closes no dimension. */
  function StopOf(level: nat): (s: Option<nat>)
    ensures s.None? <==> level == 0
    ensures s.Some? ==> s.value == level
  {
    if level == 0 then None else Some(level)
  }

  /** The trailing run of dimensions at their end is at least `m` long exactly when the last `m` components are at their end. */
  lemma {:induction false} TrailingAtLeast(shape: seq<nat>, idx: seq<nat>, m: nat)
    requires |idx| == |shape| && m <= |shape|
    ensures TrailingAtEnd(shape, idx) >= m <==> forall k :: |shape| - m <= k < |shape| ==> idx[k] + 1 == shape[k]
    decreases m
  {
    if m > 0 {
      var n := |shape|;
      var init, iinit := shape[..n - 1], idx[..n - 1];
      if idx[n - 1] + 1 == shape[n - 1] {
        assert TrailingAtEnd(shape, idx) == 1 + TrailingAtEnd(init, iinit);
        TrailingAtLeast(init, iinit, m - 1);
      }
    }
  }

  /**
   * The stop-level loop: scanning from the innermost dimension while every inner one is at its end,
   * the last dimension reached at its end decides the level.
   */
  method StopLevel(shape: seq<nat>, idx: seq<nat>) returns (stop: Option<nat>)
    requires InRange(shape, idx)
    ensures stop == StopOf(TrailingAtEnd(shape, idx))
  {
    var n := |shape|;
    var t := TrailingAtEnd(shape, idx);
    stop := None;
    var allInnerAtEnd := true;
    var i: nat := n;
    while i > 0
      invariant i <= n
      invariant allInnerAtEnd <==> t >= n - i
      invariant stop == StopOf(if t < n - i then t else n - i)
    {
      var dim := i - 1;
      if allInnerAtEnd {
        var isSizeOne := shape[dim] == 1;
        var isLast := idx[dim] == shape[dim] - 1;
        TrailingAtLeast(shape, idx, n - i);
        TrailingAtLeast(shape, idx, n - dim);
        if isLast || isSizeOne {
          stop := Some(n - dim);
        }
        allInnerAtEnd := isLast;
      }
      i := i - 1;
    }
  }

  // ---------------------------------------------------------------------------------------------
  // Addresses

  /** The addresses of one row of a tile: `start + c` for `c` from `c0` stepping by `step` while below `width`. */
  function RowFrom(start: nat, c: nat, width: nat, step: nat): (r: seq<nat>)
    requires step > 0
    decreases width - c
  {
    if c >= width then [] else [start + c] + RowFrom(start, c + step, width, step)
  }

  /** The addresses of `rows` rows of a tile, `rowOffset` bytes apart, the first starting at `rowStart`. */
  function TileRows(rowStart: nat, rowOffset: nat, rows: nat, width: nat, step: nat): (r: seq<nat>)
    requires rows == 0 || step > 0
    decreases rows
  {
    if rows == 0 then [] else RowFrom(rowStart, 0, width, step) + TileRows(rowStart + rowOffset, rowOffset, rows - 1, width, step)
  }

  /** The inner address loop: byte `c` of a row stepping by `step` below `width`, at `rowStart + c`. */
  method RowAddresses(rowStart: nat, width: nat, step: nat) returns (row: seq<nat>)
    requires step > 0
    ensures row == RowFrom(rowStart, 0, width, step)
  {
    row := [];
    var c: nat := 0;
    while c < width
      invariant RowFrom(rowStart, 0, width, step) == row + RowFrom(rowStart, c, width, step)
      decreases width - c
    {
      row := row + [rowStart + c];
      c := c + step;
    }
  }

  /** The tile-address loops: row `r` of the tile starts `r * rowOffset` bytes after `base`. */
  method TileAddresses(base: nat, rowOffset: nat, tileRow: nat, width: nat, step: nat) returns (addrs: seq<nat>)
    requires tileRow == 0 || step > 0
    ensures addrs == TileRows(base, rowOffset, tileRow, width, step)
  {
    addrs := [];
    var rowStart: nat := base;
    var r: nat := 0;
    while r < tileRow
      invariant r <= tileRow
      invariant TileRows(base, rowOffset, tileRow, width, step) == addrs + TileRows(rowStart, rowOffset, tileRow - r, width, step)
    {
      var row := RowAddresses(rowStart, width, step);
      addrs := addrs + row;
      rowStart := rowStart + rowOffset;
      r := r + 1;
    }
  }

  /** Addresses strictly increase: no address is requested twice. */
  predicate Increasing(s: seq<nat>)
  {
    forall i, j :: 0 <= i < j < |s| ==> s[i] < s[j]
  }

  /** Every address lies in `[lo, hi)`. */
  predicate Within(s: seq<nat>, lo: nat, hi: nat)
  {
    forall k :: 0 <= k < |s| ==> lo <= s[k] < hi
  }

  /** Two increasing runs, the first wholly below the second, make one increasing run. */
  lemma JoinRuns(a: seq<nat>, b: seq<nat>, lo: nat, mid: nat, hi: nat)
    requires lo <= mid <= hi && Increasing(a) && Increasing(b) && Within(a, lo, mid) && Within(b, mid, hi)
    ensures Increasing(a + b) && Within(a + b, lo, hi)
  {
    forall k | 0 <= k < |a + b| ensures lo <= (a + b)[k] < hi
    {
      if k < |a| { assert (a + b)[k] == a[k]; } else { assert (a + b)[k] == b[k - |a|]; }
    }
    forall i, j | 0 <= i < j < |a + b| ensures (a + b)[i] < (a + b)[j]
    {
      if i < |a| && j >= |a| {
        assert (a + b)[i] == a[i] && (a + b)[j] == b[j - |a|];
      }
    }
  }

  /** A row is increasing and lies within `[start + c, start + width)`. */
  lemma {:induction false} RowOrder(start: nat, c: nat, width: nat, step: nat)
    requires step > 0
    ensures Increasing(RowFrom(start, c, width, step)) && Within(RowFrom(start, c, width, step), start + c, start + width)
    decreases width - c
  {
    if c < width {
      RowOrder(start, c + step, width, step);
      JoinRuns([start + c], RowFrom(start, c + step, width, step), start + c, start + c + 1, start + width);
    }
  }

  /** One more block of `b` covers `a + b` when `q` blocks cover `a`. */
  lemma DivCeilStep(a: nat, b: nat)
    requires b > 0 && a > 0
    ensures DivCeil(a + b, b) == DivCeil(a, b) + 1
  {
    var q := DivCeil(a, b);
    assert (q + 1) * b == q * b + b;
    assert q > 0;
    assert (q + 1 - 1) * b == q * b;
    assert (q - 1) * b == q * b - b;
    DivCeilUnique(a + b, b, q + 1);
  }

  /** A row has one address per started block of `step` bytes. */
  lemma {:induction false} RowCount(start: nat, c: nat, width: nat, step: nat)
    requires step > 0
    ensures |RowFrom(start, c, width, step)| == if c >= width then 0 else DivCeil(width - c, step)
    decreases width - c
  {
    if c < width {
      RowCount(start, c + step, width, step);
      if c + step >= width {
        DivCeilUnique(width - c, step, 1);
      } else {
        DivCeilStep(width - c - step, step);
      }
    }
  }

  /** The addresses of one row of `width` bytes, stepping by `step`. */
  function RowLength(width: nat, step: nat): nat
    requires step > 0
  {
    if width == 0 then 0 else DivCeil(width, step)
  }

  /** A tile has `rows` rows of `RowLength` addresses each. */
  lemma {:induction false} TileCount(rowStart: nat, rowOffset: nat, rows: nat, width: nat, step: nat)
    requires step > 0
    ensures |TileRows(rowStart, rowOffset, rows, width, step)| == rows * RowLength(width, step)
    decreases rows
  {
    if rows > 0 {
      RowCount(rowStart, 0, width, step);
      TileCount(rowStart + rowOffset, rowOffset, rows - 1, width, step);
      var n := RowLength(width, step);
      assert (rows - 1) * n + n == rows * n;
    }
  }

  /** Address `k` of a row starting at byte `c` is `start + c + k * step`. */
  lemma {:induction false} RowFromAt(start: nat, c: nat, width: nat, step: nat, k: nat)
    requires step > 0 && k < |RowFrom(start, c, width, step)|
    ensures RowFrom(start, c, width, step)[k] == start + c + k * step
    decreases width - c
  {
    if k > 0 {
      RowFromAt(start, c + step, width, step, k - 1);
      assert (k - 1) * step + step == k * step;
    }
  }

  /**
   * Address `k` of row `r` of a tile, the `(r * RowLength + k)`-th of the tile, is
   * `rowStart + r * rowOffset + k * step`.
   */
  lemma TileRowsAt(rowStart: nat, rowOffset: nat, rows: nat, width: nat, step: nat, r: nat, k: nat)
    requires step > 0 && r < rows && k < RowLength(width, step)
    ensures r * RowLength(width, step) + k < |TileRows(rowStart, rowOffset, rows, width, step)|
    ensures TileRows(rowStart, rowOffset, rows, width, step)[r * RowLength(width, step) + k] == rowStart + r * rowOffset + k * step
  {
    var n := RowLength(width, step);
    TileRowsAtFrom(rowStart, rowOffset, rows, width, step, r, k, n, r * n + k, r * rowOffset);
  }

  /** `TileRowsAt` with the entry's index `i` and its row's offset `off` named, so the induction stays linear. */
  lemma {:induction false} TileRowsAtFrom(rowStart: nat, rowOffset: nat, rows: nat, width: nat, step: nat,
                                          r: nat, k: nat, n: nat, i: nat, off: nat)
    requires step > 0 && r < rows && n == RowLength(width, step) && k < n
    requires i == r * n + k && off == r * rowOffset
    ensures i < |TileRows(rowStart, rowOffset, rows, width, step)|
    ensures TileRows(rowStart, rowOffset, rows, width, step)[i] == rowStart + off + k * step
    decreases rows
  {
    var first := RowFrom(rowStart, 0, width, step);
    var rest := TileRows(rowStart + rowOffset, rowOffset, rows - 1, width, step);
    assert TileRows(rowStart, rowOffset, rows, width, step) == first + rest;
    assert |first| == n by { FirstRowLength(rowStart, width, step); }
    if r == 0 {
      assert i == k && off == 0;
      RowFromAt(rowStart, 0, width, step, k);
      assert (first + rest)[k] == first[k];
    } else {
      assert i - n == (r - 1) * n + k && off - rowOffset == (r - 1) * rowOffset by { NextRow(r, n, k, rowOffset); }
      TileRowsAtFrom(rowStart + rowOffset, rowOffset, rows - 1, width, step, r - 1, k, n, i - n, off - rowOffset);
      assert (first + rest)[i] == rest[i - n];
    }
  }

  /** A row starting at byte 0 has `RowLength` addresses. */
  lemma FirstRowLength(start: nat, width: nat, step: nat)
    requires step > 0
    ensures |RowFrom(start, 0, width, step)| == RowLength(width, step)
  {
    RowCount(start, 0, width, step);
  }

  /** Row `r` starts one row after row `r - 1`. */
  lemma NextRow(r: nat, n: nat, k: nat, rowOffset: nat)
    requires r > 0
    ensures r * n + k == n + ((r - 1) * n + k) && r * rowOffset == rowOffset + (r - 1) * rowOffset
  {}

  /**
   * When rows are at least a row's width apart, a tile's addresses strictly increase and lie in
   * `[rowStart, rowStart + rows * rowOffset)`.
   */
  lemma {:induction false} TileOrder(rowStart: nat, rowOffset: nat, rows: nat, width: nat, step: nat)
    requires step > 0 && width <= rowOffset
    ensures Increasing(TileRows(rowStart, rowOffset, rows, width, step))
    ensures Within(TileRows(rowStart, rowOffset, rows, width, step), rowStart, rowStart + rows * rowOffset)
    decreases rows
  {
    if rows > 0 {
      RowOrder(rowStart, 0, width, step);
      TileOrder(rowStart + rowOffset, rowOffset, rows - 1, width, step);
      assert rowStart + rowOffset + (rows - 1) * rowOffset == rowStart + rows * rowOffset;
      JoinRuns(RowFrom(rowStart, 0, width, step), TileRows(rowStart + rowOffset, rowOffset, rows - 1, width, step),
               rowStart, rowStart + rowOffset, rowStart + rows * rowOffset);
    }
  }

  /** A tile has no address exactly when it has no row or its rows have no byte. */
  lemma {:induction false} NoAddresses(base: nat, rowOffset: nat, tileRow: nat, width: nat, step: nat)
    requires tileRow == 0 || step > 0
    ensures TileRows(base, rowOffset, tileRow, width, step) == [] <==> tileRow == 0 || width == 0
    decreases tileRow
  {
    if tileRow > 0 {
      NoAddresses(base + rowOffset, rowOffset, tileRow - 1, width, step);
      if width > 0 {
        assert RowFrom(base, 0, width, step)[0] == base;
      }
    }
  }

  // ---------------------------------------------------------------------------------------------
  // The requests

  /** Bytes of one row of a tile. */
  function Width(l: Loader): nat { l.tileCol * l.nByte }

  /** Bytes of one tile. */
  function TileBytes(l: Loader): nat { l.tileRow * Width(l) }

  /** Bytes between two rows of a tile: a row of the whole stored tensor. */
  function RowOffset(l: Loader): nat
    requires |l.tensorShape| > 0
  {
    l.tensorShape[|l.tensorShape| - 1] * l.tileCol * l.nByte
  }

  /** The stored tile the output position `i` reads. */
  function TileIndexAt(l: Loader, i: nat): (t: nat)
    requires |l.stride| == |l.outShape| && Positive(l.outShape)
    ensures Product(l.tensorShape) > 0 ==> t < Product(l.tensorShape)
  {
    Wrap(Dot(MultiIndex(l.outShape, i), l.stride), Product(l.tensorShape))
  }

  /** The loader emits something: a non-empty output, a tensor to read from, and tiles with addresses. */
  predicate Emits(l: Loader)
  {
    Product(l.outShape) > 0 && |l.tensorShape| > 0 && l.addrOffset > 0 && l.tileRow > 0 && Width(l) > 0
    && (l.tiles.Some? ==> Product(l.tensorShape) > 0)
  }

  /** The tile sent for stored position `t`: the stored one, or a blank one read from memory when no data is held. */
  function TileAt(l: Loader, t: nat): Tile
    requires Stored(l) && (l.tiles.Some? ==> t < Product(l.tensorShape))
  {
    if l.tiles.Some? then l.tiles.value[t] else NewBlank([l.tileRow, l.tileCol], l.nByte, true)
  }

  /** The request for output position `i`: the stored tile's addresses, the tile, and the stop it closes. */
  function RequestAt(l: Loader, i: nat): (q: Request)
    requires Emits(l) && Stored(l) && |l.stride| == |l.outShape| && Positive(l.outShape)
  {
    var t := TileIndexAt(l, i);
    var base := l.baseAddr + t * TileBytes(l);
    Request(TileRows(base, RowOffset(l), l.tileRow, Width(l), l.addrOffset), TileAt(l, t),
            StopOf(TrailingAtEnd(l.outShape, MultiIndex(l.outShape, i))))
  }

  /** The requests of the first `n` output positions, in flat order. */
  function Requests(l: Loader, n: nat): (r: seq<Request>)
    requires Emits(l) && Stored(l) && |l.stride| == |l.outShape| && Positive(l.outShape)
    ensures |r| == n
    decreases n
  {
    if n == 0 then [] else Requests(l, n - 1) + [RequestAt(l, n - 1)]
  }

  /** Position `i` of the requests is the request of output position `i`. */
  lemma {:induction false} RequestsAt(l: Loader, n: nat, i: nat)
    requires Emits(l) && Stored(l) && |l.stride| == |l.outShape| && Positive(l.outShape) && i < n
    ensures Requests(l, n)[i] == RequestAt(l, i)
    decreases n
  {
    if i < n - 1 {
      RequestsAt(l, n - 1, i);
    }
  }

  /**
   * The failure the first pass of the address loop runs into, if any: a tensor with no last dimension,
   * a zero address step over a tile with rows, or a stored tensor with no tile to read.
   */
  function Failure(l: Loader): Option<string>
  {
    if |l.tensorShape| == 0 then Some(NoLastDim)
    else if l.tileRow > 0 && l.addrOffset == 0 then Some(ZeroStep)
    else if l.tileRow > 0 && Width(l) > 0 && l.tiles.Some? && Product(l.tensorShape) == 0 then Some(NoSuchTile)
    else None
  }

  /**
   * `generate_addr`: one request per output position in flat order, or the failure its loop runs into.
   * It yields requests exactly when the loader emits, and then one per output position.
   */
  function Generated(l: Loader): (r: Result<seq<Request>>)
    requires Stored(l) && |l.stride| == |l.outShape|
    ensures (r.Ok? && r.value != []) <==> Emits(l)
    ensures r.Ok? && Emits(l) ==> |r.value| == Product(l.outShape)
  {
    var total := Product(l.outShape);
    if total == 0 then Ok([])
    else if Failure(l).Some? then Err(Failure(l).value)
    else if !Emits(l) then Ok([])
    else
      ProductPositiveInverse(l.outShape);
      Ok(Requests(l, total))
  }

  /** One pass of the address loop: the request for output position `flat`, none when its tile has no address, or the failure. */
  method Pass(l: Loader, flat: nat) returns (r: Result<Option<Request>>)
    requires Stored(l) && |l.stride| == |l.outShape| && Positive(l.outShape)
    ensures Failure(l).Some? ==> r == Err(Failure(l).value)
    ensures Failure(l).None? && !Emits(l) ==> r == Ok(None)
    ensures Failure(l).None? && Emits(l) ==> r == Ok(Some(RequestAt(l, flat)))
  {
    var idx := MultiIndexOf(l.outShape, flat);
    MultiIndexInRange(l.outShape, flat);
    var tileIdx := ViewIndex(idx, l.stride, Product(l.tensorShape));
    if |l.tensorShape| == 0 {
      return Err(NoLastDim);
    }
    var base := l.baseAddr + tileIdx * TileBytes(l);
    var rowOffset := RowOffset(l);
    if l.tileRow > 0 && l.addrOffset == 0 {
      return Err(ZeroStep);
    }
    var width := Width(l);
    var tileAddrs := TileAddresses(base, rowOffset, l.tileRow, width, l.addrOffset);
    var stop := StopLevel(l.outShape, idx);
    NoAddresses(base, rowOffset, l.tileRow, width, l.addrOffset);
    if tileAddrs == [] {
      return Ok(None);
    }
    if l.tiles.Some? && tileIdx >= |l.tiles.value| {
      return Err(NoSuchTile);
    }
    var tile := if l.tiles.Some? then l.tiles.value[tileIdx] else NewBlank([l.tileRow, l.tileCol], l.nByte, true);
    ProductPositive(l.outShape);
    assert Emits(l);
    assert Request(tileAddrs, tile, stop) == RequestAt(l, flat);
    return Ok(Some(Request(tileAddrs, tile, stop)));
  }

  /** The address loop of `generate_addr`, one output position at a time. */
  method GenerateAddr(l: Loader) returns (r: Result<seq<Request>>)
    requires Stored(l) && |l.stride| == |l.outShape|
    ensures r == Generated(l)
  {
    var total := Product(l.outShape);
    if total == 0 {
      return Ok([]);
    }
    ProductPositiveInverse(l.outShape);
    var addrs: seq<Request> := [];
    var flat: nat := 0;
    while flat < total
      invariant flat <= total && (flat > 0 ==> Failure(l).None?)
      invariant Emits(l) ==> addrs == Requests(l, flat)
      invariant !Emits(l) ==> addrs == []
    {
      var pass := Pass(l, flat);
      if pass.Err? {
        return Err(pass.msg);
      }
      if pass.value.Some? {
        addrs := addrs + [pass.value.value];
      }
      flat := flat + 1;
    }
    return Ok(addrs);
  }


  // ---------------------------------------------------------------------------------------------
  // Sending

  /** What the loader sends on chip for a request. */
  function Sent(q: Request): (e: Elem<Tile>)
    ensures e.v == q.tile && Level(e) == (if q.stop.Some? then q.stop.value else 0)
  {
    if q.stop.Some? then ValStop(q.tile, q.stop.value) else Val(q.tile)
  }

  /** `chunks(par_dispatch)`: consecutive groups of `p` addresses, the last possibly shorter. */
  function Chunks(addrs: seq<nat>, p: nat): (r: seq<seq<nat>>)
    requires p > 0
    decreases |addrs|
  {
    if addrs == [] then [] else if |addrs| <= p then [addrs] else [addrs[..p]] + Chunks(addrs[p..], p)
  }

  /** The groups put back together. */
  function Concat(s: seq<seq<nat>>): seq<nat>
    decreases |s|
  {
    if s == [] then [] else s[0] + Concat(s[1..])
  }

  /** Dispatching loses and reorders no address: the chunks put back together are the addresses, none empty or above `p`. */
  lemma {:induction false} ChunksConcat(addrs: seq<nat>, p: nat)
    requires p > 0
    ensures Concat(Chunks(addrs, p)) == addrs
    ensures forall k :: 0 <= k < |Chunks(addrs, p)| ==> 0 < |Chunks(addrs, p)[k]| <= p
    decreases |addrs|
  {
    if |addrs| > p {
      ChunksConcat(addrs[p..], p);
      assert addrs[..p] + addrs[p..] == addrs;
    } else if addrs != [] {
      assert Concat([addrs]) == addrs + Concat([]);
    }
  }

  /** What `run` puts on its two channels: the address groups sent to memory, and the tiles sent on chip. */
  datatype Transfer = Transfer(requested: seq<seq<nat>>, out: seq<Elem<Tile>>)

  /** The transfer of a list of requests, each one's addresses grouped by `p`. */
  function TransferOf(reqs: seq<Request>, p: nat): Transfer
    requires p > 0
    decreases |reqs|
  {
    if reqs == [] then Transfer([], [])
    else
      var n := |reqs| - 1;
      var prev := TransferOf(reqs[..n], p);
      Transfer(prev.requested + Chunks(reqs[n].addrs, p), prev.out + [Sent(reqs[n])])
  }

  /** `run`'s outcome: a rank mismatch, a failed generation, a zero dispatch width with something to send, or the transfer. */
  function Ran(l: Loader): Result<Transfer>
    requires Stored(l)
  {
    if |l.stride| != |l.outShape| then Err(StrideMismatch)
    else
      var g := Generated(l);
      if g.Err? then Err(g.msg)
      else if l.parDispatch == 0 then (if g.value == [] then Ok(Transfer([], [])) else Err(ZeroChunk))
      else Ok(TransferOf(g.value, l.parDispatch))
  }

  /**
   * `run`: after checking the view's rank, every generated request is read from memory in groups of
   * `par_dispatch` addresses and its tile is sent on chip, in generation order.
   */
  method Run(l: Loader) returns (r: Result<Transfer>)
    requires Stored(l)
    ensures r == Ran(l)
  {
    if |l.stride| != |l.outShape| {
      return Err(StrideMismatch);
    }
    var g := GenerateAddr(l);
    if g.Err? {
      return Err(g.msg);
    }
    var reqs := g.value;
    if reqs != [] && l.parDispatch == 0 {
      return Err(ZeroChunk);
    }
    if l.parDispatch == 0 {
      return Ok(Transfer([], []));
    }
    var requested: seq<seq<nat>> := [];
    var out: seq<Elem<Tile>> := [];
    var k: nat := 0;
    while k < |reqs|
      invariant k <= |reqs| && l.parDispatch > 0
      invariant Transfer(requested, out) == TransferOf(reqs[..k], l.parDispatch)
    {
      assert reqs[..k + 1][..k] == reqs[..k];
      requested := requested + Chunks(reqs[k].addrs, l.parDispatch);
      out := out + [Sent(reqs[k])];
      k := k + 1;
    }
    assert reqs[..k] == reqs;
    return Ok(Transfer(requested, out));
  }

  /** `on_chip_req_elems`: the entries of one tile. */
  function OnChipReqElems(l: Loader): nat { l.tileRow * l.tileCol }

  /** `loaded_elems`: the entries of every tile the output shape asks for. */
  function LoadedElems(l: Loader): nat { Product(l.outShape) * l.tileRow * l.tileCol }

  // ---------------------------------------------------------------------------------------------
  // What the stream is

  /** The tiles sent on chip for a list of requests. */
  function Stream(reqs: seq<Request>): (s: seq<Elem<Tile>>)
    ensures |s| == |reqs| && forall k :: 0 <= k < |reqs| ==> s[k] == Sent(reqs[k])
  {
    seq(|reqs|, k requires 0 <= k < |reqs| => Sent(reqs[k]))
  }

  /** Every request's addresses, in request order. */
  function AllAddrs(reqs: seq<Request>): seq<nat>
    decreases |reqs|
  {
    if reqs == [] then [] else AllAddrs(reqs[..|reqs| - 1]) + reqs[|reqs| - 1].addrs
  }

  /** Putting groups back together distributes over appending lists of groups. */
  lemma {:induction false} ConcatAppend(a: seq<seq<nat>>, b: seq<seq<nat>>)
    ensures Concat(a + b) == Concat(a) + Concat(b)
    decreases |a|
  {
    if a != [] {
      assert (a + b)[1..] == a[1..] + b;
      ConcatAppend(a[1..], b);
    } else {
      assert a + b == b;
    }
  }

  /**
   * The on-chip part of a transfer is the stream of its requests, and its memory part, put back
   * together, is every request's addresses in request order.
   */
  lemma {:induction false} TransferStream(reqs: seq<Request>, p: nat)
    requires p > 0
    ensures TransferOf(reqs, p).out == Stream(reqs)
    ensures Concat(TransferOf(reqs, p).requested) == AllAddrs(reqs)
  {
    TransferOut(reqs, p);
    TransferAddrs(reqs, p);
  }

  /** The on-chip part of a transfer: one tile per request, in request order. */
  lemma {:induction false} TransferOut(reqs: seq<Request>, p: nat)
    requires p > 0
    ensures TransferOf(reqs, p).out == Stream(reqs)
    decreases |reqs|
  {
    if reqs != [] {
      var n := |reqs| - 1;
      var init := reqs[..n];
      TransferOut(init, p);
      var prev := Stream(init);
      var whole := Stream(reqs);
      assert whole == prev + [Sent(reqs[n])] by {
        forall k | 0 <= k < |reqs| ensures whole[k] == (prev + [Sent(reqs[n])])[k] {
          if k < n { assert init[k] == reqs[k]; }
        }
      }
    }
  }

  /** The memory part of a transfer, put back together: every request's addresses, in request order. */
  lemma {:induction false} TransferAddrs(reqs: seq<Request>, p: nat)
    requires p > 0
    ensures Concat(TransferOf(reqs, p).requested) == AllAddrs(reqs)
    decreases |reqs|
  {
    if reqs != [] {
      var n := |reqs| - 1;
      TransferAddrs(reqs[..n], p);
      ConcatAppend(TransferOf(reqs[..n], p).requested, Chunks(reqs[n].addrs, p));
      ChunksConcat(reqs[n].addrs, p);
    }
  }

  /**
   * The loader's stream is the canonical stream of its output shape: one tile per output position and,
   * after each, the number of output dimensions that position closes.
   */
  lemma LoadLevels(l: Loader)
    requires Stored(l) && |l.stride| == |l.outShape| && Emits(l)
    ensures Generated(l).Ok?
    ensures StopLevels(Stream(Generated(l).value)) == ShapeLevels(l.outShape)
  {
    ProductPositiveInverse(l.outShape);
    var n := Product(l.outShape);
    var reqs := Requests(l, n);
    assert Generated(l) == Ok(reqs);
    var levels := StopLevels(Stream(reqs));
    forall i | 0 <= i < n ensures levels[i] == ShapeLevels(l.outShape)[i]
    {
      RequestsAt(l, n, i);
      LevelAt(l.outShape, i);
    }
    assert |levels| == n == |ShapeLevels(l.outShape)|;
  }

  /** `loaded_elems` counts the entries of the tiles the loader sends, `on_chip_req_elems` each. */
  lemma LoadedCount(l: Loader)
    requires Stored(l) && |l.stride| == |l.outShape| && Emits(l)
    ensures Generated(l).Ok? && LoadedElems(l) == |Generated(l).value| * OnChipReqElems(l)
  {
    var n := |Generated(l).value|;
    assert n == Product(l.outShape);
    assert LoadedElems(l) == n * l.tileRow * l.tileCol;
    assert n * l.tileRow * l.tileCol == n * (l.tileRow * l.tileCol);
  }

  /**
   * A view with the stored tensor's own shape and row-major strides reads every stored tile once, in
   * storage order.
   */
  lemma ContiguousOrder(l: Loader)
    requires Stored(l) && Emits(l) && l.tiles.Some?
    requires l.outShape == l.tensorShape && l.stride == RowMajorStrides(l.tensorShape)
    ensures Generated(l).Ok? && Values(Stream(Generated(l).value)) == l.tiles.value
  {
    ProductPositiveInverse(l.outShape);
    var n := Product(l.outShape);
    var reqs := Requests(l, n);
    assert Generated(l) == Ok(reqs);
    var tiles := Values(Stream(reqs));
    forall i | 0 <= i < n ensures tiles[i] == l.tiles.value[i]
    {
      RequestsAt(l, n, i);
      ContiguousAt(l, i);
    }
    assert |tiles| == n == |l.tiles.value|;
  }

  /** Under the storage-order view, output position `i` reads stored tile `i`. */
  lemma ContiguousAt(l: Loader, i: nat)
    requires Stored(l) && Emits(l) && l.tiles.Some? && Positive(l.outShape) && i < Product(l.outShape)
    requires l.outShape == l.tensorShape && l.stride == RowMajorStrides(l.tensorShape)
    ensures RequestAt(l, i).tile == l.tiles.value[i]
  {
    RowMajorInverse(l.outShape, i);
    WrapBelow(i, Product(l.tensorShape));
  }

  /**
   * Every tile's addresses strictly increase and stay within its `tileRow` rows of the stored tensor,
   * `tileRow` times `addr_offset`-spaced requests per row: no address is read twice for a tile.
   */
  lemma RequestAddresses(l: Loader, i: nat)
    requires Stored(l) && |l.stride| == |l.outShape| && Emits(l) && Positive(l.outShape)
    requires l.tensorShape[|l.tensorShape| - 1] > 0
    ensures var q := RequestAt(l, i);
            var base := l.baseAddr + TileIndexAt(l, i) * TileBytes(l);
            Increasing(q.addrs) && |q.addrs| == l.tileRow * DivCeil(Width(l), l.addrOffset)
            && Within(q.addrs, base, base + l.tileRow * RowOffset(l))
  {
    var base := l.baseAddr + TileIndexAt(l, i) * TileBytes(l);
    var last := l.tensorShape[|l.tensorShape| - 1];
    assert RowOffset(l) == last * Width(l);
    MulMono(1, last, Width(l));
    TileOrder(base, RowOffset(l), l.tileRow, Width(l), l.addrOffset);
    TileCount(base, RowOffset(l), l.tileRow, Width(l), l.addrOffset);
  }
}
