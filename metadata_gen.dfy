/**
 * `MetadataGen`: streams a stored integer tensor entry by entry, each entry as a 1 x 1 tile of 8-byte
 * unsigned integers, with the stop level that entry closes in the tensor's shape.
 */
module MetadataGen {
  import opened Wrappers
  import opened Calc
  import opened Elems
  import opened Tiles
  import opened Shapes
  import opened OffChipLoad

  const NoOuterDim := "range start index 1 out of range for slice of length 0"
  const NotU64 := "Error converting T into u64"

  /** One more than the largest 64-bit unsigned integer. */
  const U64Limit: int := 0x1_0000_0000_0000_0000

  /** Every stored entry converts to a 64-bit unsigned integer. */
  predicate FitsU64(vals: seq<int>)
  {
    forall k :: 0 <= k < |vals| ==> 0 <= vals[k] < U64Limit
  }

  /** The element sent for entry `i`: its scalar tile, carrying the level entry `i` closes in `shape`. */
  function EntryElem(shape: seq<nat>, vals: seq<int>, i: nat): Elem<Tile>
    requires |vals| == Product(shape) && i < |vals| && 0 <= vals[i]
  {
    WithLevel(Scalar(vals[i], false), ShapeLevels(shape)[i])
  }

  /**
   * `get_elem_array`: the tensor's entries in row-major order, each closing the dimensions it ends, or
   * the failure: a tensor of no dimension has no row length, and an entry outside 64-bit unsigned
   * integers does not convert.
   */
  function ElemArray(shape: seq<nat>, vals: seq<int>): (r: Result<seq<Elem<Tile>>>)
    requires |vals| == Product(shape)
    ensures r.Ok? <==> |shape| > 0 && FitsU64(vals)
    ensures r.Ok? ==> |r.value| == |vals| && Canonical(r.value)
  {
    if |shape| == 0 then Err(NoOuterDim)
    else if !FitsU64(vals) then Err(NotU64)
    else Ok(Entries(shape, vals))
  }

  /** Every entry's element, in row-major order. */
  function Entries(shape: seq<nat>, vals: seq<int>): (r: seq<Elem<Tile>>)
    requires |vals| == Product(shape) && FitsU64(vals)
    ensures |r| == |vals| && forall k :: 0 <= k < |vals| ==> r[k] == EntryElem(shape, vals, k)
  {
    seq(|vals|, i requires 0 <= i < |vals| => EntryElem(shape, vals, i))
  }

  /** The stream is the tensor: its values are the entries in order and its levels the shape's. */
  lemma ElemArrayIsTensor(shape: seq<nat>, vals: seq<int>)
    requires |vals| == Product(shape) && |shape| > 0 && FitsU64(vals)
    ensures ElemArray(shape, vals).Ok?
    ensures StopLevels(ElemArray(shape, vals).value) == ShapeLevels(shape)
    ensures forall k :: 0 <= k < |vals| ==> Values(ElemArray(shape, vals).value)[k].underlying == Some(Matrix(1, 1, [[vals[k]]]))
  {
    var s := Entries(shape, vals);
    assert ElemArray(shape, vals) == Ok(s);
    var levels := StopLevels(s);
    forall k | 0 <= k < |s| ensures levels[k] == ShapeLevels(shape)[k] && Values(s)[k].underlying == Some(Matrix(1, 1, [[vals[k]]]))
    {
      assert s[k] == EntryElem(shape, vals, k);
    }
    assert |levels| == |ShapeLevels(shape)|;
  }

  /** In a vector, only the last entry closes a dimension, and it closes one. */
  lemma VectorLevels(n: nat, i: nat)
    requires i < n
    ensures ShapeLevels([n])[i] == if i == n - 1 then 1 else 0
  {
    assert Product([n]) == n by { ProductUnfold([n]); }
    if i == n - 1 {
      LastLevel([n]);
    } else {
      InnerLevel([n], i);
    }
  }

  /** The vector branch of `get_elem_array`: every entry plain, the last one closing one level. */
  method VectorElems(shape: seq<nat>, vals: seq<int>) returns (r: Result<seq<Elem<Tile>>>)
    requires |shape| == 1 && |vals| == Product(shape)
    ensures r == ElemArray(shape, vals)
  {
    assert |vals| == shape[0] by { ProductUnfold(shape); }
    var result: seq<Elem<Tile>> := [];
    var i: nat := 0;
    while i < |vals|
      invariant i <= |vals| && |result| == i
      invariant forall k :: 0 <= k < i ==> 0 <= vals[k] < U64Limit && result[k] == EntryElem(shape, vals, k)
    {
      if !(0 <= vals[i] < U64Limit) {
        return Err(NotU64);
      }
      VectorLevels(shape[0], i);
      assert shape == [shape[0]];
      if i == shape[0] - 1 {
        result := result + [ValStop(Scalar(vals[i], false), 1)];
      } else {
        result := result + [Val(Scalar(vals[i], false))];
      }
      i := i + 1;
    }
    assert FitsU64(vals);
    assert result == Entries(shape, vals);
    return Ok(result);
  }

  /**
   * The general branch of `get_elem_array`: for every entry, its multi-index and then the stop loop
   * shared with the off-chip loaders.
   */
  method TensorElems(shape: seq<nat>, vals: seq<int>) returns (r: Result<seq<Elem<Tile>>>)
    requires |shape| > 0 && |vals| == Product(shape)
    ensures r == ElemArray(shape, vals)
  {
    var result: seq<Elem<Tile>> := [];
    var i: nat := 0;
    if |vals| > 0 {
      ProductPositiveInverse(shape);
    }
    while i < |vals|
      invariant i <= |vals| && |result| == i && (|vals| > 0 ==> Positive(shape))
      invariant forall k :: 0 <= k < i ==> 0 <= vals[k] < U64Limit && result[k] == EntryElem(shape, vals, k)
    {
      var idx := MultiIndexOf(shape, i);
      MultiIndexInRange(shape, i);
      var stop := StopLevel(shape, idx);
      if !(0 <= vals[i] < U64Limit) {
        return Err(NotU64);
      }
      LevelAt(shape, i);
      if stop.Some? {
        result := result + [ValStop(Scalar(vals[i], false), stop.value)];
      } else {
        result := result + [Val(Scalar(vals[i], false))];
      }
      i := i + 1;
    }
    assert FitsU64(vals);
    assert result == Entries(shape, vals);
    return Ok(result);
  }

  /** `get_elem_array`: a vector branch, a failure for a tensor of no dimension, and the general branch. */
  method GetElemArray(shape: seq<nat>, vals: seq<int>) returns (r: Result<seq<Elem<Tile>>>)
    requires |vals| == Product(shape)
    ensures r == ElemArray(shape, vals)
  {
    if |shape| == 1 {
      r := VectorElems(shape, vals);
      return;
    }
    if |shape| == 0 {
      return Err(NoOuterDim);
    }
    r := TensorElems(shape, vals);
  }

  /** `run`: the elements sent one cycle apart from the start time. */
  method Run(shape: seq<nat>, vals: seq<int>, start: nat) returns (r: Result<seq<ChannelElement<Tile>>>)
    requires |vals| == Product(shape)
    ensures r.Ok? <==> ElemArray(shape, vals).Ok?
    ensures r.Err? ==> r.msg == ElemArray(shape, vals).msg
    ensures r.Ok? ==> |r.value| == |vals|
                      && forall k :: 0 <= k < |vals| ==> r.value[k] == ChannelElement(ElemArray(shape, vals).value[k], start + k)
  {
    var elems := GetElemArray(shape, vals);
    if elems.Err? {
      return Err(elems.msg);
    }
    var sent: seq<ChannelElement<Tile>> := [];
    var k: nat := 0;
    while k < |elems.value|
      invariant k <= |elems.value| && |sent| == k
      invariant forall j :: 0 <= j < k ==> sent[j] == ChannelElement(elems.value[j], start + j)
    {
      sent := sent + [ChannelElement(elems.value[k], start + k)];
      k := k + 1;
    }
    return Ok(sent);
  }
}
