/**
 * `Streamify`: turns a stream of buffers back into a stream of their entries. Each buffer is read
 * out in row-major order, once, or once per unit of each repeat factor; the stop that closes a
 * whole buffer (a stop at exactly the operator's rank) also carries the buffer's own outer stop
 * level and, on the last read-out of a repeat factor, one extra level per factor.
 */
module Streamify {
  import opened Calc
  import opened Wrappers
  import opened Elems
  import opened Shapes
  import opened Buffers
  import opened RoundTrip
  import opened Bufferize

  // ---------------------------------------------------------------------------------------------
  // Reference definitions

  /** One element of a read-out: a stop at exactly `rank` (the whole buffer) closes `raise` more levels. */
  function RaiseAt<T>(e: Elem<T>, rank: nat, raise: nat): (r: Elem<T>)
    ensures r.v == e.v && r.Val? == e.Val?
  {
    if e.ValStop? && e.level == rank then ValStop(e.v, e.level + raise) else e
  }

  /** A read-out of a buffer with every stop at `rank` raised by `raise`. */
  function Raised<T>(bs: seq<Elem<T>>, rank: nat, raise: nat): (r: seq<Elem<T>>)
    ensures |r| == |bs| && Values(r) == Values(bs)
  {
    seq(|bs|, i requires 0 <= i < |bs| => RaiseAt(bs[i], rank, raise))
  }

  /** `k` back-to-back copies of `s`. */
  function Copies<T>(s: seq<T>, k: nat): (r: seq<T>)
  {
    if k == 0 then [] else Copies(s, k - 1) + s
  }

  /** `count` read-outs of a buffer, the last of which closes `raise` more levels. */
  function Repeated<T>(bs: seq<Elem<T>>, rank: nat, count: nat, raise: nat): (r: seq<Elem<T>>)
  {
    if count == 0 then [] else Copies(bs, count - 1) + Raised(bs, rank, raise)
  }

  /**
   * The first `i` repeat factors handled, innermost (last in `repeat`) first: factor `j` counted from
   * the end reads the buffer that many times and its last read-out closes `outer + 1 + j` more levels.
   */
  function RepeatUpTo<T>(bs: seq<Elem<T>>, rank: nat, outer: nat, repeat: seq<nat>, i: nat): (r: seq<Elem<T>>)
    requires i <= |repeat|
  {
    if i == 0 then []
    else RepeatUpTo(bs, rank, outer, repeat, i - 1) + Repeated(bs, rank, repeat[|repeat| - i], outer + i)
  }

  /** What one buffer with outer stop level `outer` becomes, `bs` being its read-out. */
  function StreamifyBuffer<T>(bs: seq<Elem<T>>, rank: nat, outer: nat, repeat: seq<nat>): (r: seq<Elem<T>>)
  {
    if repeat == [] then Raised(bs, rank, outer) else RepeatUpTo(bs, rank, outer, repeat, |repeat|)
  }

  /** Every buffer of the input stream holds as many entries as its shape says. */
  predicate AllWellFormed<T>(input: seq<Elem<Buffer<T>>>)
  {
    forall k :: 0 <= k < |input| ==> WellFormed(input[k].v)
  }

  /** The output for a whole input stream of buffers: the buffers' pieces one after the other. */
  function StreamifyStream<T>(input: seq<Elem<Buffer<T>>>, rank: nat, repeat: seq<nat>): (r: seq<Elem<T>>)
    requires AllWellFormed(input)
    decreases |input|
  {
    if input == [] then []
    else StreamifyBuffer(StreamOf(input[0].v), rank, Level(input[0]), repeat) + StreamifyStream(input[1..], rank, repeat)
  }

  /** Number of read-outs the last `i` repeat factors ask for together. */
  function ReadCount(repeat: seq<nat>, i: nat): nat
    requires i <= |repeat|
  {
    if i == 0 then 0 else ReadCount(repeat, i - 1) + repeat[|repeat| - i]
  }

  // ---------------------------------------------------------------------------------------------
  // The operator

  /** One read-out: each element passes unchanged, except that a stop at `rank` is raised when `last` holds. */
  method EmitCopy<T>(elems: seq<Elem<T>>, rank: nat, raise: nat, last: bool) returns (out: seq<Elem<T>>)
    ensures out == if last then Raised(elems, rank, raise) else elems
  {
    out := [];
    var j := 0;
    while j < |elems|
      invariant 0 <= j <= |elems| && |out| == j
      invariant forall k :: 0 <= k < j ==> out[k] == if last then RaiseAt(elems[k], rank, raise) else elems[k]
    {
      var e := elems[j];
      if e.ValStop? && e.level == rank && last {
        out := out + [ValStop(e.v, e.level + raise)];
      } else {
        out := out + [e];
      }
      j := j + 1;
    }
  }

  /**
   * The body of the operator's loop for one input element: without repeat factors the buffer is read
   * out once, its rank stops raised by the element's outer level (a plain value passes them unchanged);
   * with repeat factors, innermost factor first, the buffer is read out `factor` times and the last
   * read-out's rank stops close the outer level plus one level per factor handled so far.
   */
  method EmitBuffer<T>(e: Elem<Buffer<T>>, rank: nat, repeat: seq<nat>) returns (piece: seq<Elem<T>>)
    requires WellFormed(e.v)
    ensures piece == StreamifyBuffer(StreamOf(e.v), rank, Level(e), repeat)
  {
    var outer := if e.Val? then 0 else e.level;
    var elems := ToElemIter(e.v);
    if |repeat| == 0 {
      piece := EmitCopy(elems, rank, outer, e.ValStop?);
      if e.Val? { RaisedNothing(elems, rank); }
    } else {
      piece := ReadRepeats(elems, rank, outer, repeat);
    }
  }

  /** The loop over the repeat factors, innermost first. */
  method ReadRepeats<T>(elems: seq<Elem<T>>, rank: nat, outer: nat, repeat: seq<nat>) returns (piece: seq<Elem<T>>)
    ensures piece == RepeatUpTo(elems, rank, outer, repeat, |repeat|)
  {
    piece := [];
    var i := 0;
    while i < |repeat|
      invariant 0 <= i <= |repeat|
      invariant piece == RepeatUpTo(elems, rank, outer, repeat, i)
    {
      var copies := ReadOuts(elems, rank, repeat[|repeat| - 1 - i], outer + 1 + i);
      piece := piece + copies;
      i := i + 1;
    }
  }

  /**
   * The loop over one repeat factor `f`: `f` read-outs, only the last of which raises its rank stops.
   * Each read-out iterates a fresh clone of the buffer, which yields the same elements `elems`.
   */
  method ReadOuts<T>(elems: seq<Elem<T>>, rank: nat, f: nat, raise: nat) returns (piece: seq<Elem<T>>)
    ensures piece == Repeated(elems, rank, f, raise)
  {
    piece := [];
    var r := 0;
    while r < f
      invariant 0 <= r <= f
      invariant r < f ==> piece == Copies(elems, r)
      invariant r == f ==> piece == Repeated(elems, rank, f, raise)
    {
      var copy := EmitCopy(elems, rank, raise, r == f - 1);
      piece := piece + copy;
      r := r + 1;
    }
  }

  /** `run`: each buffer of the input in turn. */
  method Run<T>(input: seq<Elem<Buffer<T>>>, rank: nat, repeat: seq<nat>) returns (output: seq<Elem<T>>)
    requires AllWellFormed(input)
    ensures output == StreamifyStream(input, rank, repeat)
  {
    output := [];
    var i := 0;
    assert input[0..] == input;
    while i < |input|
      invariant 0 <= i <= |input|
      invariant output + StreamifyStream(input[i..], rank, repeat) == StreamifyStream(input, rank, repeat)
    {
      var piece := EmitBuffer(input[i], rank, repeat);
      assert input[i..][1..] == input[i + 1..];
      output := output + piece;
      i := i + 1;
    }
  }

  // ---------------------------------------------------------------------------------------------
  // Properties

  /** Raising by nothing leaves a read-out as it is. */
  lemma RaisedNothing<T>(bs: seq<Elem<T>>, rank: nat)
    ensures Raised(bs, rank, 0) == bs
  {
    assert forall i :: 0 <= i < |bs| ==> Raised(bs, rank, 0)[i] == bs[i];
  }

  lemma {:induction false} CopiesAdd<T>(s: seq<T>, a: nat, b: nat)
    ensures Copies(s, a) + Copies(s, b) == Copies(s, a + b)
    decreases b
  {
    if b > 0 {
      CopiesAdd(s, a, b - 1);
      assert Copies(s, a) + Copies(s, b) == Copies(s, a) + Copies(s, b - 1) + s;
    }
  }

  lemma {:induction false} CopiesLength<T>(s: seq<T>, k: nat)
    ensures |Copies(s, k)| == k * |s|
  {
    if k > 0 { CopiesLength(s, k - 1); }
  }

  /** Copies of an element stream carry copies of its values and of its stop levels. */
  lemma {:induction false} CopiesOfStream<T>(s: seq<Elem<T>>, k: nat)
    ensures Values(Copies(s, k)) == Copies(Values(s), k) && StopLevels(Copies(s, k)) == Copies<nat>(StopLevels(s), k)
  {
    if k > 0 {
      CopiesOfStream(s, k - 1);
      StreamAppend(Copies(s, k - 1), s);
    }
  }

  lemma RepeatedValues<T>(bs: seq<Elem<T>>, rank: nat, count: nat, raise: nat)
    ensures Values(Repeated(bs, rank, count, raise)) == Copies(Values(bs), count)
  {
    if count > 0 {
      CopiesOfStream(bs, count - 1);
      StreamAppend(Copies(bs, count - 1), Raised(bs, rank, raise));
    }
  }

  lemma {:induction false} RepeatUpToValues<T>(bs: seq<Elem<T>>, rank: nat, outer: nat, repeat: seq<nat>, i: nat)
    requires i <= |repeat|
    ensures Values(RepeatUpTo(bs, rank, outer, repeat, i)) == Copies(Values(bs), ReadCount(repeat, i))
  {
    if i > 0 {
      var f := repeat[|repeat| - i];
      var prev := RepeatUpTo(bs, rank, outer, repeat, i - 1);
      var last := Repeated(bs, rank, f, outer + i);
      calc {
        Values(RepeatUpTo(bs, rank, outer, repeat, i));
        Values(prev + last);
        { StreamAppend(prev, last); }
        Values(prev) + Values(last);
        { RepeatUpToValues(bs, rank, outer, repeat, i - 1); }
        Copies(Values(bs), ReadCount(repeat, i - 1)) + Values(last);
        { RepeatedValues(bs, rank, f, outer + i); }
        Copies(Values(bs), ReadCount(repeat, i - 1)) + Copies(Values(bs), f);
        { CopiesAdd(Values(bs), ReadCount(repeat, i - 1), f); }
        Copies(Values(bs), ReadCount(repeat, i));
      }
    }
  }

  /**
   * Every entry of every buffer comes out, in order, once without repeat factors and as many times as
   * the factors add up to with them; so the output is that many times as long as the read-out.
   */
  lemma StreamifyValues<T>(bs: seq<Elem<T>>, rank: nat, outer: nat, repeat: seq<nat>)
    ensures var n := if repeat == [] then 1 else ReadCount(repeat, |repeat|);
      Values(StreamifyBuffer(bs, rank, outer, repeat)) == Copies(Values(bs), n)
      && |StreamifyBuffer(bs, rank, outer, repeat)| == n * |bs|
  {
    var n := if repeat == [] then 1 else ReadCount(repeat, |repeat|);
    if repeat == [] {
      assert Copies(Values(bs), 1) == Values(bs);
    } else {
      RepeatUpToValues(bs, rank, outer, repeat, |repeat|);
    }
    CopiesLength(Values(bs), n);
  }

  /** Read out whole, a buffer's only stop at the operator's rank is its last one; raising it closes the enclosing levels. */
  lemma RaisedWhole<T>(b: Buffer<T>, raise: nat)
    requires WellFormed(b) && Streamable(b.shape)
    ensures Raised(StreamOf(b), |b.shape|, raise) == RaiseStream(StreamOf(b), raise)
  {
    assert Positive(b.shape);
    StreamableReadable(b);
    StreamLevels(b);
    LastLevel(b.shape);
    forall i | 0 <= i < Product(b.shape) - 1
      ensures ShapeLevels(b.shape)[i] < |b.shape|
    {
      InnerLevel(b.shape, i);
    }
    RaisedOnlyLast(StreamOf(b), ShapeLevels(b.shape), |b.shape|, raise);
  }

  /** When only the last entry stops at `rank` (and none higher), raising the rank stops is raising the last one. */
  lemma RaisedOnlyLast<T>(s: seq<Elem<T>>, levels: seq<nat>, rank: nat, raise: nat)
    requires StopLevels(s) == levels && s != [] && rank > 0 && levels[|s| - 1] == rank
    requires forall i :: 0 <= i < |s| - 1 ==> levels[i] < rank
    ensures Raised(s, rank, raise) == RaiseStream(s, raise)
  {
    var n := |s|;
    assert Level(s[n - 1]) == rank;
    forall i | 0 <= i < n
      ensures Raised(s, rank, raise)[i] == RaiseStream(s, raise)[i]
    {
      if i < n - 1 {
        assert Level(s[i]) < rank;
      }
    }
  }

  /** Raising a raised read-out adds up. */
  lemma RaiseTwice(levels: seq<nat>, a: nat, b: nat)
    ensures Raise(Raise(levels, a), b) == Raise(levels, a + b)
  {}

  lemma CopiesOfZero(k: nat)
    ensures Copies<nat>([0], k) == Zeros(k)
  {
    if k > 0 {
      CopiesOfZero(k - 1);
      assert Zeros(k - 1) + [0] == Zeros(k);
    }
  }

  lemma {:induction false} ExpandCopies(levels: seq<nat>, d: nat, k: nat)
    ensures ExpandRows(Copies<nat>(levels, k), d) == Copies<nat>(ExpandRows(levels, d), k)
  {
    if k > 0 {
      ExpandCopies(levels, d, k - 1);
      ExpandRowsAppend(Copies<nat>(levels, k - 1), levels, d);
    }
  }

  /**
   * A tensor with a new outermost dimension `r` is `r` tensors of the old shape one after the other,
   * the last one closing one level more.
   */
  lemma {:induction false} ShapeLevelsPrepend(r: nat, shape: seq<nat>)
    requires r > 0 && Positive(shape)
    ensures ShapeLevels([r] + shape) == Copies<nat>(ShapeLevels(shape), r - 1) + Raise(ShapeLevels(shape), 1)
    decreases |shape|
  {
    if shape == [] {
      ShapeLevelsSnoc([], r);
      assert [r] + shape == [] + [r];
      CopiesOfZero(r - 1);
      assert ShapeLevels(shape) == [0];
      assert Raise([0], 1) == [1];
      assert ExpandRows([0], r) == Row(0, r);
      assert Row(0, r) == Zeros(r - 1) + [1];
      assert ShapeLevels([r] + shape) == ExpandRows([0], r);
      assert Copies<nat>(ShapeLevels(shape), r - 1) == Zeros(r - 1);
    } else {
      var init, d := shape[..|shape| - 1], shape[|shape| - 1];
      assert init + [d] == shape;
      assert [r] + shape == ([r] + init) + [d];
      ShapeLevelsPrepend(r, init);
      var levels := ShapeLevels(init);
      ProductPositive(init);
      ShapeLevelsSnoc([r] + init, d);
      ShapeLevelsSnoc(init, d);
      ExpandRowsAppend(Copies<nat>(levels, r - 1), Raise(levels, 1), d);
      ExpandCopies(levels, d, r - 1);
      RaiseExpand(levels, d, 1);
    }
  }

  /**
   * With several repeat factors the read-outs add up rather than multiply: factors `[2, 3]` read a
   * non-empty buffer out 5 times, not the 6 times a tensor of shape `[2, 3] + shape` would hold.
   */
  lemma {:induction false} TwoThreeAdds<T>(bs: seq<Elem<T>>, rank: nat, outer: nat)
    ensures Values(StreamifyBuffer(bs, rank, outer, [2, 3])) == Copies(Values(bs), 5)
    ensures bs != [] ==> |StreamifyBuffer(bs, rank, outer, [2, 3])| != Product([2, 3]) * |bs|
  {
    StreamifyValues(bs, rank, outer, [2, 3]);
    assert ReadCount([2, 3], 2) == 5;
    assert Product([2, 3]) == 6 by {
      assert [2, 3][..1] == [2];
      assert [2][..0] == [];
    }
  }

  /**
   * With one repeat factor `r` a buffer of `shape` comes out as a tensor of shape `[r] + shape`:
   * the data `r` times and the stop levels of that shape, the last also closing the outer level.
   */
  lemma RepeatShape<T>(b: Buffer<T>, outer: nat, r: nat)
    requires WellFormed(b) && Streamable(b.shape) && r > 0
    ensures var out := StreamifyBuffer(StreamOf(b), |b.shape|, outer, [r]);
      StopLevels(out) == Raise(ShapeLevels([r] + b.shape), outer) && Values(out) == Copies(b.data, r)
  {
    assert Positive(b.shape);
    ProductPositive(b.shape);
    RaisedWhole(b, outer + 1);
    StreamableReadable(b);
    StreamLevels(b);
    ShapeLevelsPrepend(r, b.shape);
    SingleFactor(StreamOf(b), |b.shape|, outer, r);
    RepeatedLevels(StreamOf(b), |b.shape|, outer, r);
  }

  /**
   * `r` read-outs, the last raised: the read-out comes `r` times and the last copy's final stop closes
   * one level more than the others' and the outer level besides (given that the rank stop is the final one).
   */
  lemma RepeatedLevels<T>(s: seq<Elem<T>>, rank: nat, outer: nat, r: nat)
    requires r > 0 && s != [] && Raised(s, rank, outer + 1) == RaiseStream(s, outer + 1)
    ensures StopLevels(Repeated(s, rank, r, outer + 1)) == Raise(Copies<nat>(StopLevels(s), r - 1) + Raise(StopLevels(s), 1), outer)
    ensures Values(Repeated(s, rank, r, outer + 1)) == Copies(Values(s), r)
  {
    CopiesThenRaised(Repeated(s, rank, r, outer + 1), s, r - 1, outer);
    RepeatedValues(s, rank, r, outer + 1);
  }

  lemma CopiesThenRaised<T>(x: seq<Elem<T>>, s: seq<Elem<T>>, k: nat, outer: nat)
    requires s != [] && x == Copies(s, k) + RaiseStream(s, outer + 1)
    ensures StopLevels(x) == Raise(Copies<nat>(StopLevels(s), k) + Raise(StopLevels(s), 1), outer)
  {
    var levels := StopLevels(s);
    calc {
      StopLevels(x);
      { StreamAppend(Copies(s, k), RaiseStream(s, outer + 1)); }
      StopLevels(Copies(s, k)) + StopLevels(RaiseStream(s, outer + 1));
      { CopiesOfStream(s, k); }
      Copies<nat>(levels, k) + Raise(levels, outer + 1);
      { RaiseTwice(levels, 1, outer); }
      Copies<nat>(levels, k) + Raise(Raise(levels, 1), outer);
      { RaiseAppend(Copies<nat>(levels, k), Raise(levels, 1), outer); }
      Raise(Copies<nat>(levels, k) + Raise(levels, 1), outer);
    }
  }

  lemma SingleFactor<T>(bs: seq<Elem<T>>, rank: nat, outer: nat, r: nat)
    ensures StreamifyBuffer(bs, rank, outer, [r]) == Repeated(bs, rank, r, outer + 1)
  {
    assert RepeatUpTo(bs, rank, outer, [r], 0) == [];
  }

  lemma StreamOfIgnoresTime<T>(b: Buffer<T>, t: nat)
    requires WellFormed(b)
    ensures StreamOf(Restamp(b, t)) == StreamOf(b)
  {
    var c := Restamp(b, t);
    assert forall i :: 0 <= i < |b.data| ==> StreamEntry(c, i) == StreamEntry(b, i);
  }

  /**
   * Without repeat factors, streaming the buffers `Bufferize` sends gives back the stream they were
   * cut from: each buffer's read-out, its last stop raised by the buffer's outer level.
   */
  lemma {:induction false} StreamifyStamped<T>(bufs: seq<Buffer<T>>, outer: seq<nat>, rank: nat, t: nat)
    requires |outer| == |bufs| && Tiles(bufs, rank)
    ensures AllWellFormed(Stamped(bufs, outer, t))
    ensures StreamifyStream(Stamped(bufs, outer, t), rank, []) == Flat(bufs, outer)
    decreases |bufs|
  {
    StampedWellFormed(bufs, outer, rank, t);
    if bufs == [] {
      assert Flat(bufs, outer) == [];
    } else {
      assert Tiles(bufs[1..], rank);
      StreamifyStamped(bufs[1..], outer[1..], rank, t + |bufs[0].data|);
      StampedStep(bufs, outer, rank, t);
    }
  }

  /** One tile more: the stream of the stamped buffers grows by the tile's raised read-out. */
  lemma StampedStep<T>(bufs: seq<Buffer<T>>, outer: seq<nat>, rank: nat, t: nat)
    requires |outer| == |bufs| && Tiles(bufs, rank) && bufs != []
    requires AllWellFormed(Stamped(bufs[1..], outer[1..], t + |bufs[0].data|))
    requires StreamifyStream(Stamped(bufs[1..], outer[1..], t + |bufs[0].data|), rank, []) == Flat(bufs[1..], outer[1..])
    ensures AllWellFormed(Stamped(bufs, outer, t))
    ensures StreamifyStream(Stamped(bufs, outer, t), rank, []) == Flat(bufs, outer)
  {
    StampedWellFormed(bufs, outer, rank, t);
    StampedHead(bufs, outer, rank, t);
    FlatCons(bufs, outer);
  }

  /** The stream of stamped tiles opens with the first tile's read-out, its last stop raised by its outer level. */
  lemma StampedHead<T>(bufs: seq<Buffer<T>>, outer: seq<nat>, rank: nat, t: nat)
    requires |outer| == |bufs| && bufs != []
    requires WellFormed(bufs[0]) && Streamable(bufs[0].shape) && |bufs[0].shape| == rank
    requires AllWellFormed(Stamped(bufs, outer, t))
    ensures AllWellFormed(Stamped(bufs[1..], outer[1..], t + |bufs[0].data|))
    ensures StreamifyStream(Stamped(bufs, outer, t), rank, [])
      == RaiseStream(StreamOf(bufs[0]), outer[0]) + StreamifyStream(Stamped(bufs[1..], outer[1..], t + |bufs[0].data|), rank, [])
  {
    var w := WithLevel(Restamp(bufs[0], t), outer[0]);
    StampedCons(bufs, outer, t, t + |bufs[0].data|);
    StreamifyConsOf(Stamped(bufs, outer, t), w, Stamped(bufs[1..], outer[1..], t + |bufs[0].data|), rank, []);
    HeadPiece(bufs[0], outer[0], t, rank);
  }

  lemma StampedWellFormed<T>(bufs: seq<Buffer<T>>, outer: seq<nat>, rank: nat, t: nat)
    requires |outer| == |bufs| && Tiles(bufs, rank)
    ensures AllWellFormed(Stamped(bufs, outer, t))
  {
    var st := Stamped(bufs, outer, t);
    forall k | 0 <= k < |st|
      ensures WellFormed(st[k].v)
    {
      StampedAt(bufs, outer, t, k);
    }
  }

  lemma StreamifyCons<T>(input: seq<Elem<Buffer<T>>>, rank: nat, repeat: seq<nat>)
    requires AllWellFormed(input) && input != []
    ensures AllWellFormed(input[1..])
    ensures StreamifyStream(input, rank, repeat)
      == StreamifyBuffer(StreamOf(input[0].v), rank, Level(input[0]), repeat) + StreamifyStream(input[1..], rank, repeat)
  {}

  lemma StreamifyConsOf<T>(input: seq<Elem<Buffer<T>>>, head: Elem<Buffer<T>>, tail: seq<Elem<Buffer<T>>>, rank: nat, repeat: seq<nat>)
    requires AllWellFormed(input) && input == [head] + tail && WellFormed(head.v)
    ensures AllWellFormed(tail)
    ensures StreamifyStream(input, rank, repeat)
      == StreamifyBuffer(StreamOf(head.v), rank, Level(head), repeat) + StreamifyStream(tail, rank, repeat)
  {
    assert input[0] == head && input[1..] == tail;
    StreamifyCons(input, rank, repeat);
  }

  /** A whole tile stamped with any time, with no repeat factors, is its read-out with the outer level added to its last stop. */
  lemma HeadPiece<T>(b: Buffer<T>, outer: nat, t: nat, rank: nat)
    requires WellFormed(b) && Streamable(b.shape) && |b.shape| == rank
    ensures StreamifyBuffer(StreamOf(WithLevel(Restamp(b, t), outer).v), rank, Level(WithLevel(Restamp(b, t), outer)), [])
      == RaiseStream(StreamOf(b), outer)
  {
    StreamOfIgnoresTime(b, t);
    RaisedWhole(b, outer);
  }

  /** Bufferize after Streamify: the buffers come back, stamped with their first element's position. */
  lemma BufferizeOfStreamify<T>(bufs: seq<Buffer<T>>, outer: seq<nat>, rank: nat, t: nat)
    requires rank > 0 && |outer| == |bufs| && Tiles(bufs, rank)
    ensures var st := Stamped(bufs, outer, t);
      AllWellFormed(st)
      && BufferizeFrom(StreamifyStream(st, rank, []), rank, 0) == Ok(Stamped(bufs, outer, 0))
  {
    StreamifyStamped(bufs, outer, rank, t);
    BufferizeFlat(rank, 0, bufs, outer);
  }

  /** Streamify after Bufferize: a stream made of whole tiles is given back unchanged. */
  lemma StreamifyOfBufferize<T>(s: seq<Elem<T>>, bufs: seq<Buffer<T>>, outer: seq<nat>, rank: nat)
    requires rank > 0 && |outer| == |bufs| && Tiles(bufs, rank) && s == Flat(bufs, outer)
    ensures var st := Stamped(bufs, outer, 0);
      BufferizeFrom(s, rank, 0) == Ok(st)
      && AllWellFormed(st)
      && StreamifyStream(st, rank, []) == s
  {
    BufferizeFlat(rank, 0, bufs, outer);
    StreamifyStamped(bufs, outer, rank, 0);
  }
}
