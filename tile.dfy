/**
 * Tiles: the values carried by most streams. A tile has a shape, a byte width per entry, a flag
 * saying whether it is read from an on-chip memory unit, optional 2-D data and an `offset`, the
 * number of rows that are not padding.
 */
module Tiles {
  import opened Wrappers
  import opened Calc

  /** A 2-D array with its dimensions; `cells` lists the rows. Entry values are kept abstract as integers. */
  datatype Matrix = Matrix(rows: nat, cols: nat, cells: seq<seq<int>>)

  predicate Rectangular(m: Matrix)
  {
    |m.cells| == m.rows && forall r :: 0 <= r < m.rows ==> |m.cells[r]| == m.cols
  }

  datatype Tile = Tile(shape: seq<nat>, bytesPerElem: nat, readFromMu: bool, underlying: Option<Matrix>, offset: nat)

  /** A tile whose data, when present, is a rectangular array of the tile's own shape. */
  predicate Valid(t: Tile)
  {
    t.underlying.Some? ==> Rectangular(t.underlying.value) && t.shape == [t.underlying.value.rows, t.underlying.value.cols]
  }

  function Zeros(rows: nat, cols: nat): (m: Matrix)
    ensures Rectangular(m) && m.rows == rows && m.cols == cols
    ensures forall r, c :: 0 <= r < rows && 0 <= c < cols ==> m.cells[r][c] == 0
  {
    Matrix(rows, cols, seq(rows, _ => seq(cols, _ => 0)))
  }

  /** `size_in_bytes`: the entry count of the shape times the byte width. */
  function SizeInBytes(t: Tile): nat
  {
    t.bytesPerElem * Product(t.shape)
  }

  /** A two-dimensional tile holds `rows * cols` entries. */
  lemma SizeOfMatrixTile(t: Tile, rows: nat, cols: nat)
    requires t.shape == [rows, cols]
    ensures SizeInBytes(t) == t.bytesPerElem * rows * cols
  {
    assert t.shape[..1] == [rows] && [rows][..0] == [];
    ProductUnfold([rows]);
    ProductUnfold(t.shape);
  }

  /** The copy of a tile with another `read_from_mu` flag; nothing else changes. */
  function CloneWithReadFromMu(t: Tile, readFromMu: bool): (r: Tile)
    ensures r.readFromMu == readFromMu && r.(readFromMu := t.readFromMu) == t
    ensures Valid(t) ==> Valid(r)
    ensures SizeInBytes(r) == SizeInBytes(t)
  {
    t.(readFromMu := readFromMu)
  }

  /** `new_blank`: no data, and every row counts as real. */
  function NewBlank(shape: seq<nat>, bytesPerElem: nat, readFromMu: bool): (t: Tile)
    requires |shape| > 0
    ensures Valid(t) && t.underlying.None? && t.shape == shape && t.offset == shape[0]
    ensures t.bytesPerElem == bytesPerElem && t.readFromMu == readFromMu
  {
    Tile(shape, bytesPerElem, readFromMu, None, shape[0])
  }

  /** `new`: the shape is the array's, and the offset its row count. */
  function New(arr: Matrix, bytesPerElem: nat, readFromMu: bool): (t: Tile)
    requires Rectangular(arr)
    ensures Valid(t) && t.underlying == Some(arr) && t.shape == [arr.rows, arr.cols] && t.offset == arr.rows
    ensures t.bytesPerElem == bytesPerElem && t.readFromMu == readFromMu
  {
    Tile([arr.rows, arr.cols], bytesPerElem, readFromMu, Some(arr), arr.rows)
  }

  /** `new_blank_padded`: no data, and the given offset as it is. */
  function NewBlankPadded(shape: seq<nat>, bytesPerElem: nat, readFromMu: bool, offset: nat): (t: Tile)
    ensures Valid(t) && t.underlying.None? && t.shape == shape && t.offset == offset
    ensures t.bytesPerElem == bytesPerElem && t.readFromMu == readFromMu
  {
    Tile(shape, bytesPerElem, readFromMu, None, offset)
  }

  /** `new_padded`: the array's shape, and the given offset as it is. */
  function NewPadded(arr: Matrix, bytesPerElem: nat, readFromMu: bool, offset: nat): (t: Tile)
    requires Rectangular(arr)
    ensures Valid(t) && t.underlying == Some(arr) && t.shape == [arr.rows, arr.cols] && t.offset == offset
    ensures t.bytesPerElem == bytesPerElem && t.readFromMu == readFromMu
  {
    Tile([arr.rows, arr.cols], bytesPerElem, readFromMu, Some(arr), offset)
  }

  /** `new_zero`: all-zero data of the given shape, no padding. */
  function NewZero(rows: nat, cols: nat, bytesPerElem: nat, readFromMu: bool): (t: Tile)
    ensures Valid(t) && t.underlying.Some? && t.shape == [rows, cols] && t.offset == rows
    ensures forall r, c :: 0 <= r < rows && 0 <= c < cols ==> t.underlying.value.cells[r][c] == 0
  {
    Tile([rows, cols], bytesPerElem, readFromMu, Some(Zeros(rows, cols)), rows)
  }

  /** `new_zero_padded`: all-zero data, and the given offset as it is. */
  function NewZeroPadded(rows: nat, cols: nat, bytesPerElem: nat, readFromMu: bool, offset: nat): (t: Tile)
    ensures Valid(t) && t.underlying.Some? && t.shape == [rows, cols] && t.offset == offset
    ensures forall r, c :: 0 <= r < rows && 0 <= c < cols ==> t.underlying.value.cells[r][c] == 0
  {
    Tile([rows, cols], bytesPerElem, readFromMu, Some(Zeros(rows, cols)), offset)
  }

  /**
   * `new_empty`: the accumulator start of the retiling functions, an array with no entries. Building
   * an array of that shape from an empty vector only succeeds when one dimension is 0.
   */
  function NewEmpty(rows: nat, cols: nat, bytesPerElem: nat, readFromMu: bool): (r: Result<Tile>)
    ensures r.Ok? <==> rows == 0 || cols == 0
    ensures r.Ok? ==>
              Valid(r.value) && r.value.shape == [rows, cols] && r.value.offset == rows
              && SizeInBytes(r.value) == 0 && r.value.underlying.Some?
  {
    if rows != 0 && cols != 0 then Err("ShapeError: incompatible shapes")
    else
      var t := Tile([rows, cols], bytesPerElem, readFromMu, Some(Zeros(rows, cols)), rows);
      SizeOfMatrixTile(t, rows, cols);
      Ok(t)
  }

  /** The 1 x 1 tile of 8-byte integers holding `x`, the form in which single numbers travel. */
  function Scalar(x: int, readFromMu: bool): (t: Tile)
    ensures Valid(t) && t.shape == [1, 1] && t.offset == 1 && t.bytesPerElem == 8 && t.readFromMu == readFromMu
    ensures t.underlying == Some(Matrix(1, 1, [[x]]))
  {
    New(Matrix(1, 1, [[x]]), 8, readFromMu)
  }
}
