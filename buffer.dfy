/**
 * Buffers: a dense tensor of stream values that can be turned into a stop-token stream
 * (`to_elem_iter`) and rebuilt from one (`from_stream`).
 */
module Buffers {
  import opened Wrappers
  import opened Calc
  import opened Elems
  import opened Shapes

  /** A buffer owns a row-major array; `creationTime` is the cycle its first element arrived. */
  datatype Buffer<T> = Buffer(shape: seq<nat>, data: seq<T>, creationTime: nat)

  predicate WellFormed<T>(b: Buffer<T>) { |b.data| == Product(b.shape) }

  /** The same array, created at cycle `t`. */
  function Restamp<T>(b: Buffer<T>, t: nat): (r: Buffer<T>)
    ensures r.shape == b.shape && r.data == b.data && r.creationTime == t
  {
    b.(creationTime := t)
  }

  /** Buffer equality compares the arrays (shape and entries) and deliberately ignores the creation time. */
  predicate SameArray<T(==)>(a: Buffer<T>, b: Buffer<T>) { a.shape == b.shape && a.data == b.data }

  /** `eq_with_time` also compares the creation time. */
  predicate EqWithTime<T(==)>(a: Buffer<T>, b: Buffer<T>) { SameArray(a, b) && a.creationTime == b.creationTime }

  lemma EqualityIgnoresTime<T>(a: Buffer<T>, t: nat)
    ensures SameArray(a, Restamp(a, t))
    ensures EqWithTime(a, Restamp(a, t)) <==> a.creationTime == t
  {}

  // ---------------------------------------------------------------------------------------------
  // Streaming a buffer

  /**
   * Reference definition of the stream of a buffer: entry `i` carries the shape's stop level, and a
   * one-entry buffer is sent as a single level-1 stop whatever its rank.
   */
  function StreamOf<T>(b: Buffer<T>): (s: seq<Elem<T>>)
    requires WellFormed(b)
    ensures |s| == |b.data| && Values(s) == b.data
    ensures forall i :: 0 <= i < |s| ==> s[i] == StreamEntry(b, i)
  {
    StreamPrefix(b, |b.data|)
  }

  /** The first `k` elements of the stream of `b`. */
  function StreamPrefix<T>(b: Buffer<T>, k: nat): (s: seq<Elem<T>>)
    requires WellFormed(b) && k <= |b.data|
    ensures |s| == k && forall i :: 0 <= i < k ==> s[i] == StreamEntry(b, i)
  {
    if k == 0 then [] else StreamPrefix(b, k - 1) + [StreamEntry(b, k - 1)]
  }

  function StreamEntry<T>(b: Buffer<T>, i: nat): (e: Elem<T>)
    requires WellFormed(b) && i < |b.data|
    ensures e.v == b.data[i]
  {
    if |b.data| == 1 then ValStop(b.data[0], 1) else WithLevel(b.data[i], ShapeLevels(b.shape)[i])
  }

  /**
   * Entry `i - 1` of the stream of a buffer of two entries or more, read off its index `prev` and
   * the next index `ind`.
   */
  lemma StreamAt<T>(b: Buffer<T>, i: nat, ind: seq<nat>, prev: seq<nat>)
    requires WellFormed(b) && Positive(b.shape) && 1 < |b.data| && 0 < i < |b.data|
    requires ind == MultiIndex(b.shape, i) && prev == MultiIndex(b.shape, i - 1)
    ensures |ind| == |prev| == |b.shape| && ind != prev
    ensures var level := |b.shape| - OutermostDiff(ind, prev) - 1;
      StreamEntry(b, i - 1) == (if level == 0 then Val(b.data[i - 1]) else ValStop(b.data[i - 1], level))
  {
    LevelFromDiff(b.shape, i - 1);
  }

  /** The last entry of a buffer closes every dimension. */
  lemma StreamLast<T>(b: Buffer<T>)
    requires WellFormed(b) && Positive(b.shape) && 1 < |b.data|
    ensures StreamEntry(b, |b.data| - 1) == ValStop(b.data[|b.data| - 1], |b.shape|)
  {
    LastLevel(b.shape);
  }

  /**
   * The body of the `flat_map` closure of `to_elem_iter` for entry `i` at index `ind`: the entry
   * held back from the previous call is sent with `ndim - outermost_diff_index - 1` as its level,
   * and the last entry is sent at once closing all `ndim` dimensions.
   */
  method EmitEntry<T>(b: Buffer<T>, i: nat, ind: seq<nat>, val: T, previous: Option<(seq<nat>, T)>)
    returns (result: seq<Elem<T>>, held: Option<(seq<nat>, T)>)
    requires WellFormed(b) && i < |b.data| && Positive(b.shape)
    requires ind == MultiIndex(b.shape, i) && val == b.data[i]
    requires previous == if i == 0 then None else Some((MultiIndex(b.shape, i - 1), b.data[i - 1]))
    ensures i + 1 < |b.data| ==> held == Some((ind, val))
    ensures i == 0 ==> result == if |b.data| == 1 then [StreamEntry(b, 0)] else []
    ensures 0 < i && i + 1 < |b.data| ==> result == [StreamEntry(b, i - 1)]
    ensures 0 < i && i + 1 == |b.data| ==> result == [StreamEntry(b, i - 1), StreamEntry(b, i)]
  {
    var ndim := |b.shape|;
    held := previous;
    match previous {
      case Some((prevInd, prevVal)) =>
        StreamAt(b, i, ind, prevInd);
        var changed := OutermostDiff(ind, prevInd);
        var level := ndim - changed - 1;
        assert prevInd == MultiIndex(b.shape, i - 1);
        assert prevVal == b.data[i - 1];
        assert StreamEntry(b, i - 1) == (if level == 0 then Val(prevVal) else ValStop(prevVal, level));
        result := [if level == 0 then Val(prevVal) else ValStop(prevVal, level)];
        if i == |b.data| - 1 {
          StreamLast(b);
          assert StreamEntry(b, i) == ValStop(val, ndim);
          result := result + [ValStop(val, ndim)];
        } else {
          held := Some((ind, val));
        }
      case None =>
        if |b.data| == 1 {
          result := [ValStop(val, 1)];
        } else {
          held := Some((ind, val));
          result := [];
        }
    }
  }

  /** `to_elem_iter`: the entries in row-major order, each passed with its index to `EmitEntry`. */
  method ToElemIter<T>(b: Buffer<T>) returns (out: seq<Elem<T>>)
    requires WellFormed(b)
    ensures out == StreamOf(b)
  {
    var n := |b.data|;
    if n > 0 { ProductPositiveInverse(b.shape); }
    var previous: Option<(seq<nat>, T)> := None;
    out := [];
    var i := 0;
    while i < n
      invariant 0 <= i <= n
      invariant n > 0 ==> Positive(b.shape)
      invariant i < n ==> previous == if i == 0 then None else Some((MultiIndex(b.shape, i - 1), b.data[i - 1]))
      invariant out == StreamPrefix(b, if i == 0 then 0 else if i < n then i - 1 else n)
    {
      var result;
      result, previous := EmitEntry(b, i, MultiIndex(b.shape, i), b.data[i], previous);
      out := out + result;
      assert i + 1 == n && i > 0 ==> out == StreamPrefix(b, i - 1) + [StreamEntry(b, i - 1)] + [StreamEntry(b, i)];
      i := i + 1;
    }
  }

  // ---------------------------------------------------------------------------------------------
  // Rebuilding a buffer

  /**
   * How `from_stream` ends: the stop that closes the buffer was the element before position
   * `consumed`, the stream closed first, or a stop indexed past the shape information gathered so far.
   */
  datatype Scan = Closed(shapeInfo: seq<nat>, consumed: nat, stop: nat) | RanOut(consumed: nat) | OutOfBounds(consumed: nat)

  /** `n` dimensions of size one. */
  function Ones(n: nat): (r: seq<nat>)
    ensures |r| == n && forall k :: 0 <= k < n ==> r[k] == 1
  {
    seq(n, _ => 1)
  }

  /**
   * The effect of an element of level `st < rank` on the shape information: a plain value (level 0)
   * counts towards the innermost dimension while that is the only one known; a stop of a level
   * just beyond the known ones opens a new dimension; a stop of a level whose size is not final
   * yet counts towards that level. As written (`pad` false), a stop more than one level beyond the
   * known ones changes nothing; corrected (`pad` true), the dimensions it skips, which were closed
   * without a stop of their own, have size one.
   */
  function Absorb(si: seq<nat>, tracked: nat, st: nat, pad: bool): (r: (seq<nat>, nat))
    requires |si| > 0
    ensures |r.0| > 0 && (|si| == tracked + 1 ==> |r.0| == r.1 + 1)
  {
    if st == 0 then (if |si| == 1 then si[0 := si[0] + 1] else si, tracked)
    else if |si| == st then (si[st - 1 := si[st - 1] + 1] + [1], tracked + 1)
    else if |si| > st && tracked <= st then (si[st := si[st] + 1], tracked)
    else if pad && |si| < st then (si[|si| - 1 := si[|si| - 1] + 1] + Ones(st - |si|) + [1], tracked + (st - |si|) + 1)
    else (si, tracked)
  }

  /**
   * The shape information once a stop of level `rank` or more closes the buffer: the outermost
   * dimension counts one more entry. As written, that dimension must already be known (else the
   * index is out of bounds); corrected, the dimensions never opened have size one.
   */
  function Close(si: seq<nat>, rank: nat, pad: bool): (r: Option<seq<nat>>)
    requires |si| > 0 && rank > 0
    ensures r.Some? <==> rank - 1 < |si| || pad
  {
    if rank - 1 < |si| then Some(si[rank - 1 := si[rank - 1] + 1])
    else if pad then Some(si[|si| - 1 := si[|si| - 1] + 1] + Ones(rank - |si|))
    else None
  }

  /** The scan's end at position `n` by a stop of level `st`, given the closing shape information. */
  function Ended(c: Option<seq<nat>>, n: nat, st: nat): Scan
  {
    if c.Some? then Closed(c.value, n, st) else OutOfBounds(n)
  }

  /**
   * The shape bookkeeping of `from_stream` over the stop levels of the stream (a plain value is
   * level 0), from position `i` on. `si` counts, innermost dimension first, the entries seen at each
   * level; `tracked` counts the levels whose size is already final. A stop of level `rank` or more
   * closes the buffer.
   */
  function ScanFrom(levels: seq<nat>, i: nat, rank: nat, si: seq<nat>, tracked: nat, pad: bool): (r: Scan)
    requires rank > 0 && |si| > 0 && i <= |levels|
    ensures i <= r.consumed <= |levels| && (r.RanOut? ==> r.consumed == |levels|)
    ensures r.Closed? || r.OutOfBounds? ==> i < r.consumed
    ensures r.Closed? ==> r.stop >= rank
    ensures pad ==> !r.OutOfBounds?
    decreases |levels| - i
  {
    if i == |levels| then RanOut(i)
    else if levels[i] >= rank then Ended(Close(si, rank, pad), i + 1, levels[i])
    else
      var next := Absorb(si, tracked, levels[i], pad);
      ScanFrom(levels, i + 1, rank, next.0, next.1, pad)
  }

  function Reverse(s: seq<nat>): (r: seq<nat>)
    ensures |r| == |s|
  {
    if s == [] then [] else [s[|s| - 1]] + Reverse(s[..|s| - 1])
  }

  datatype Bufferized<T> = Done(buf: Buffer<T>) | StopToken(buf: Buffer<T>, level: nat) | Finished | Incomplete

  /**
   * The end of `from_stream`: the counts, reversed, are the shape, which must account for every
   * value read; a closing stop deeper than `rank` leaves a stop token of the difference.
   */
  function Assemble<T>(shapeInfo: seq<nat>, values: seq<T>, stopLevel: Option<nat>, now: nat): (r: Result<Bufferized<T>>)
    ensures r.Ok? <==> Product(Reverse(shapeInfo)) == |values|
    ensures r.Ok? ==> (r.value.Done? || r.value.StopToken?) && r.value.buf == Buffer(Reverse(shapeInfo), values, now)
    ensures r.Ok? ==> (r.value.StopToken? <==> stopLevel.Some?) && (stopLevel.Some? ==> r.value.level == stopLevel.value)
  {
    var shape := Reverse(shapeInfo);
    if Product(shape) != |values| then Err("Unexpected mismatched shape")
    else
      var buf := Buffer(shape, values, now);
      match stopLevel
      case Some(newLevel) => Ok(StopToken(buf, newLevel))
      case None => Ok(Done(buf))
  }

  /** The outcome of `from_stream` once the scan of the stream's levels is known, and how many elements were dequeued. */
  function Outcome<T>(s: seq<Elem<T>>, rank: nat, now: nat, scan: Scan): (r: (Result<Bufferized<T>>, nat))
    requires rank > 0 && scan.consumed <= |s| && (scan.Closed? ==> scan.stop >= rank)
  {
    match scan
    case RanOut(n) => (Ok(if n == 0 then Finished else Incomplete), n)
    case OutOfBounds(n) => (Err("index out of bounds"), n)
    case Closed(si, n, st) => (Assemble(si, Values(s)[..n], if st == rank then None else Some(st - rank), now), n)
  }

  /**
   * Reference definition of `from_stream`: the outcome and how many elements were dequeued.
   * `now` is the cycle of the first dequeue, which becomes the creation time.
   */
  function FromStreamSpec<T>(s: seq<Elem<T>>, rank: nat, now: nat): (r: (Result<Bufferized<T>>, nat))
    requires rank > 0
    ensures r.1 <= |s|
    ensures r.0 == Ok(Finished) <==> s == []
    ensures r.0.Ok? && (r.0.value.Done? || r.0.value.StopToken?) ==> 0 < r.1
  {
    Outcome(s, rank, now, ScanFrom(StopLevels(s), 0, rank, [0], 0, false))
  }

  /**
   * `from_stream` corrected to read a dimension of size one that closed without a stop of its own:
   * it never fails with an out-of-bounds index.
   */
  function FromStreamCorrected<T>(s: seq<Elem<T>>, rank: nat, now: nat): (r: (Result<Bufferized<T>>, nat))
    requires rank > 0
    ensures r.1 <= |s|
    ensures r.0 == Ok(Finished) <==> s == []
    ensures r.0 != Err("index out of bounds")
  {
    Outcome(s, rank, now, ScanFrom(StopLevels(s), 0, rank, [0], 0, true))
  }

  /** A buffer read back is consistent with its shape, and a stop token left over closes at least one level. */
  lemma FromStreamWellFormed<T>(s: seq<Elem<T>>, rank: nat, now: nat)
    requires rank > 0
    ensures var r := FromStreamSpec(s, rank, now).0;
      r.Ok? && (r.value.Done? || r.value.StopToken?) ==> WellFormed(r.value.buf) && r.value.buf.creationTime == now
    ensures var r := FromStreamSpec(s, rank, now).0;
      r.Ok? && r.value.StopToken? ==> r.value.level > 0
  {
  }

  /** `FromStreamSpec` case by case, in terms of the scan of the stream's levels. */
  lemma FromStreamCases<T>(s: seq<Elem<T>>, rank: nat, now: nat, scan: Scan)
    requires rank > 0 && scan == ScanFrom(StopLevels(s), 0, rank, [0], 0, false)
    ensures scan.RanOut? ==> FromStreamSpec(s, rank, now) == (Ok(if scan.consumed == 0 then Finished else Incomplete), scan.consumed)
    ensures scan.OutOfBounds? ==> FromStreamSpec(s, rank, now) == (Err("index out of bounds"), scan.consumed)
    ensures scan.Closed? ==> (FromStreamSpec(s, rank, now)
      == (Assemble(scan.shapeInfo, Values(s)[..scan.consumed], if scan.stop == rank then None else Some(scan.stop - rank), now), scan.consumed))
  {}

  /** A stop of level `rank` or more ends the scan. */
  lemma ScanCloses(levels: seq<nat>, i: nat, rank: nat, si: seq<nat>, tracked: nat)
    requires rank > 0 && |si| > 0 && i < |levels| && levels[i] >= rank
    ensures ScanFrom(levels, i, rank, si, tracked, false)
         == if rank - 1 < |si| then Closed(si[rank - 1 := si[rank - 1] + 1], i + 1, levels[i]) else OutOfBounds(i + 1)
  {}

  /** A lower level is absorbed into the shape information and the scan goes on. */
  lemma ScanAbsorbs(levels: seq<nat>, i: nat, rank: nat, si: seq<nat>, tracked: nat)
    requires rank > 0 && |si| > 0 && i < |levels| && levels[i] < rank
    ensures ScanFrom(levels, i, rank, si, tracked, false)
         == ScanFrom(levels, i + 1, rank, Absorb(si, tracked, levels[i], false).0, Absorb(si, tracked, levels[i], false).1, false)
  {}

  /** The bookkeeping of `from_stream` for an element that does not close the buffer. */
  method AbsorbElem<T>(shapeInfo: seq<nat>, trackedShapeInfo: nat, e: Elem<T>) returns (si: seq<nat>, tracked: nat)
    requires |shapeInfo| == trackedShapeInfo + 1
    ensures (si, tracked) == Absorb(shapeInfo, trackedShapeInfo, Level(e), false) && |si| == tracked + 1
  {
    si, tracked := shapeInfo, trackedShapeInfo;
    if e.Val? {
      if |si| == 1 {
        si := si[0 := si[0] + 1];
      }
    } else {
      var st := e.level;
      if |si| == st {
        si := si[st - 1 := si[st - 1] + 1] + [1];
        tracked := tracked + 1;
      } else if |si| > st && tracked <= st {
        si := si[st := si[st] + 1];
      }
    }
  }

  const RankZero := "Buffer::from_stream only operates on buffer of rank >= 1"

  /**
   * `from_stream`: asserts a positive rank before dequeuing anything, then dequeues until a stop of
   * level >= `rank`, pushing every value and updating the per-level counts; the counts reversed are
   * the shape.
   */
  method FromStream<T>(s: seq<Elem<T>>, rank: nat, now: nat) returns (res: Result<Bufferized<T>>, consumed: nat)
    ensures rank == 0 ==> res == Err(RankZero) && consumed == 0
    ensures rank > 0 ==> (res, consumed) == FromStreamSpec(s, rank, now)
  {
    if rank == 0 {
      return Err(RankZero), 0;
    }
    var buffer: seq<T> := [];
    var trackedShapeInfo: nat := 0;
    var shapeInfo: seq<nat> := [0];
    var stopLevel: Option<nat> := None;
    var i := 0;
    ghost var levels := StopLevels(s);
    ghost var scan := ScanFrom(levels, 0, rank, [0], 0, false);
    FromStreamCases(s, rank, now, scan);
    while true
      invariant 0 <= i <= |s|
      invariant |shapeInfo| == trackedShapeInfo + 1
      invariant buffer == Values(s)[..i]
      invariant scan == ScanFrom(levels, i, rank, shapeInfo, trackedShapeInfo, false)
      invariant stopLevel.None?
      decreases |s| - i
    {
      if i == |s| {
        assert |buffer| == i;
        return Ok(if buffer == [] then Finished else Incomplete), i;
      }
      ValuesSnoc(s, i);
      var e := s[i];
      buffer := buffer + [e.v];
      if e.ValStop? && e.level >= rank {
        var st := e.level;
        ScanCloses(levels, i, rank, shapeInfo, trackedShapeInfo);
        if rank - 1 >= |shapeInfo| {
          return Err("index out of bounds"), i + 1;
        }
        shapeInfo := shapeInfo[rank - 1 := shapeInfo[rank - 1] + 1];
        if st > rank {
          stopLevel := Some(st - rank);
        }
        i := i + 1;
        break;
      }
      ScanAbsorbs(levels, i, rank, shapeInfo, trackedShapeInfo);
      shapeInfo, trackedShapeInfo := AbsorbElem(shapeInfo, trackedShapeInfo, e);
      i := i + 1;
    }
    assert scan.Closed? && scan.shapeInfo == shapeInfo && scan.consumed == i && 0 < i <= |s|;
    assert stopLevel == if scan.stop == rank then None else Some(scan.stop - rank);
    res := Assemble(shapeInfo, buffer, stopLevel, now);
    consumed := i;
  }
}
