/**
 * `Bufferize`: the innermost `rank` dimensions of a stream are gathered into buffers, one per
 * `from_stream` call, and the buffers travel as a stream of their own.
 */
module Bufferize {
  import opened Wrappers
  import opened Calc
  import opened Elems
  import opened Buffers
  import opened Shapes
  import opened RoundTrip

  const IncompleteBuffer := "Stream terminated, but buffer was incomplete"

  /**
   * The output of `Bufferize::run` for the input `t` still to be read, at input position `now`. Each
   * buffer is sent as a plain value, or as a stop of the difference when a deeper stop closed it; a
   * closed input ends the operator and a stream that ends inside a buffer is a panic. The clock is the
   * input position, so a buffer's creation time is the position of its first element.
   */
  function BufferizeFrom<T>(t: seq<Elem<T>>, rank: nat, now: nat): (r: Result<seq<Elem<Buffer<T>>>>)
    requires rank > 0
    decreases |t|, 1
  {
    Continue(t, rank, now, FromStreamSpec(t, rank, now))
  }

  /** What the operator sends for the outcome `step` of `from_stream` on `t`, and after it. */
  function Continue<T>(t: seq<Elem<T>>, rank: nat, now: nat, step: (Result<Bufferized<T>>, nat)): (r: Result<seq<Elem<Buffer<T>>>>)
    requires rank > 0 && step.1 <= |t|
    requires step.0.Ok? && (step.0.value.Done? || step.0.value.StopToken?) ==> 0 < step.1
    decreases |t|, 0
  {
    if step.0.Err? then Err(step.0.msg)
    else match step.0.value
      case Finished => Ok([])
      case Incomplete => Err(IncompleteBuffer)
      case Done(b) => Then([Val(b)], BufferizeFrom(t[step.1..], rank, now + step.1))
      case StopToken(b, l) => Then([ValStop(b, l)], BufferizeFrom(t[step.1..], rank, now + step.1))
  }

  /**
   * `Bufferize::run`: call `from_stream` until it reports a closed input. At rank 0 the first call
   * already fails its assertion, whatever the input.
   */
  method Run<T>(s: seq<Elem<T>>, rank: nat) returns (output: Result<seq<Elem<Buffer<T>>>>)
    ensures rank == 0 ==> output == Err(RankZero)
    ensures rank > 0 ==> output == BufferizeFrom(s, rank, 0)
  {
    if rank == 0 {
      var res, _ := FromStream(s, rank, 0);
      return Err(res.msg);
    }
    var out: seq<Elem<Buffer<T>>> := [];
    var i := 0;
    ghost var total := BufferizeFrom(s, rank, 0);
    ThenNil(total);
    assert s[0..] == s;
    while true
      invariant i <= |s|
      invariant total == Then(out, BufferizeFrom(s[i..], rank, i))
      decreases |s| - i
    {
      var res, n := NextBuffer(s, rank, i);
      if res.Err? {
        return Err(res.msg);
      }
      if res.value.Finished? {
        assert out + [] == out;
        return Ok(out);
      } else if res.value.Incomplete? {
        return Err(IncompleteBuffer);
      }
      var e := if res.value.Done? then Val(res.value.buf) else ValStop(res.value.buf, res.value.level);
      ghost var rest := BufferizeFrom(s[i + n..], rank, i + n);
      ThenStep(total, out, BufferizeFrom(s[i..], rank, i), e, rest);
      out, i := out + [e], i + n;
    }
  }

  /** One call of `from_stream` at position `i`, and what `BufferizeFrom` makes of its outcome. */
  method NextBuffer<T>(s: seq<Elem<T>>, rank: nat, i: nat) returns (res: Result<Bufferized<T>>, n: nat)
    requires rank > 0 && i <= |s|
    ensures res.Err? ==> BufferizeFrom(s[i..], rank, i) == Err(res.msg)
    ensures res == Ok(Finished) ==> BufferizeFrom(s[i..], rank, i) == Ok([])
    ensures res == Ok(Incomplete) ==> BufferizeFrom(s[i..], rank, i) == Err(IncompleteBuffer)
    ensures res.Ok? && res.value.Done? ==>
      0 < n && i + n <= |s| && BufferizeFrom(s[i..], rank, i) == Then([Val(res.value.buf)], BufferizeFrom(s[i + n..], rank, i + n))
    ensures res.Ok? && res.value.StopToken? ==>
      0 < n && i + n <= |s| && BufferizeFrom(s[i..], rank, i) == Then([ValStop(res.value.buf, res.value.level)], BufferizeFrom(s[i + n..], rank, i + n))
  {
    res, n := FromStream(s[i..], rank, i);
    assert n <= |s| - i ==> s[i..][n..] == s[i + n..];
  }

  /** Every buffer is consistent with its shape, and every stop closes at least one level. */
  ghost predicate ValidBuffers<T>(out: seq<Elem<Buffer<T>>>)
  {
    Canonical(out) && forall k :: 0 <= k < |out| ==> WellFormed(out[k].v)
  }

  lemma BuffersCons<T>(e: Elem<Buffer<T>>, rest: seq<Elem<Buffer<T>>>)
    requires WellFormed(e.v) && (e.ValStop? ==> e.level > 0) && ValidBuffers(rest)
    ensures ValidBuffers([e] + rest)
  {
    var out := [e] + rest;
    forall k | 1 <= k < |out|
      ensures WellFormed(out[k].v) && (out[k].ValStop? ==> out[k].level > 0)
    {
      assert out[k] == rest[k - 1];
    }
  }

  /** Every buffer sent is consistent with its shape, and every stop sent closes at least one level. */
  lemma {:induction false} BufferizeWellFormed<T>(t: seq<Elem<T>>, rank: nat, now: nat)
    requires rank > 0 && BufferizeFrom(t, rank, now).Ok?
    ensures ValidBuffers(BufferizeFrom(t, rank, now).value)
    decreases |t|
  {
    var step := FromStreamSpec(t, rank, now);
    assert BufferizeFrom(t, rank, now) == Continue(t, rank, now, step);
    var res := step.0.value;
    if res.Done? || res.StopToken? {
      FromStreamWellFormed(t, rank, now);
      BufferizeWellFormed(t[step.1..], rank, now + step.1);
      var e := if res.Done? then Val(res.buf) else ValStop(res.buf, res.level);
      BuffersCons(e, BufferizeFrom(t[step.1..], rank, now + step.1).value);
    }
  }

  // ---------------------------------------------------------------------------------------------
  // Streams of whole buffers

  /** Buffers that all stream with `rank` dimensions and that `from_stream` reads back. */
  ghost predicate Tiles<T>(bufs: seq<Buffer<T>>, rank: nat)
  {
    forall k :: 0 <= k < |bufs| ==> WellFormed(bufs[k]) && Streamable(bufs[k].shape) && |bufs[k].shape| == rank
  }

  lemma TilesTail<T>(bufs: seq<Buffer<T>>, rank: nat)
    requires bufs != [] && Tiles(bufs, rank)
    ensures Tiles(bufs[1..], rank)
  {
    forall k | 0 <= k < |bufs| - 1
      ensures WellFormed(bufs[1..][k]) && Streamable(bufs[1..][k].shape) && |bufs[1..][k].shape| == rank
    {
      assert bufs[1..][k] == bufs[k + 1];
    }
  }

  /** The streams of `bufs` one after the other, the last element of each also closing `outer[k]` enclosing levels. */
  function Flat<T>(bufs: seq<Buffer<T>>, outer: seq<nat>): (s: seq<Elem<T>>)
    requires |outer| == |bufs| && forall k :: 0 <= k < |bufs| ==> WellFormed(bufs[k])
    decreases |bufs|
  {
    if bufs == [] then [] else RaiseStream(StreamOf(bufs[0]), outer[0]) + Flat(bufs[1..], outer[1..])
  }

  lemma FlatCons<T>(bufs: seq<Buffer<T>>, outer: seq<nat>)
    requires |outer| == |bufs| && bufs != [] && forall k :: 0 <= k < |bufs| ==> WellFormed(bufs[k])
    ensures Flat(bufs, outer) == RaiseStream(StreamOf(bufs[0]), outer[0]) + Flat(bufs[1..], outer[1..])
  {
  }

  /** The buffers as sent by `Bufferize`: each stamped with the position of its first element, counted from `t`. */
  function Stamped<T>(bufs: seq<Buffer<T>>, outer: seq<nat>, t: nat): (r: seq<Elem<Buffer<T>>>)
    requires |outer| == |bufs|
    ensures |r| == |bufs|
    decreases |bufs|
  {
    if bufs == [] then []
    else [WithLevel(Restamp(bufs[0], t), outer[0])] + Stamped(bufs[1..], outer[1..], t + |bufs[0].data|)
  }

  lemma StampedCons<T>(bufs: seq<Buffer<T>>, outer: seq<nat>, t: nat, next: nat)
    requires |outer| == |bufs| && bufs != [] && next == t + |bufs[0].data|
    ensures Stamped(bufs, outer, t) == [WithLevel(Restamp(bufs[0], t), outer[0])] + Stamped(bufs[1..], outer[1..], next)
  {
  }

  /** Entry `k` of `Stamped` is buffer `k` with its outer level; only the creation time is new. */
  lemma {:induction false} StampedAt<T>(bufs: seq<Buffer<T>>, outer: seq<nat>, t: nat, k: nat)
    requires |outer| == |bufs| && k < |bufs|
    ensures var r := Stamped(bufs, outer, t); SameArray(r[k].v, bufs[k]) && Level(r[k]) == outer[k]
    decreases k
  {
    if k > 0 {
      StampedAt(bufs[1..], outer[1..], t + |bufs[0].data|, k - 1);
    }
  }

  /**
   * `t` is the streams of `bufs` one after the other, the last element of each also closing
   * `outer[k]` enclosing levels: `Flat` seen from the stream's side, one buffer at a time.
   */
  ghost predicate IsFlat<T>(t: seq<Elem<T>>, bufs: seq<Buffer<T>>, outer: seq<nat>)
    requires |outer| == |bufs| && forall k :: 0 <= k < |bufs| ==> WellFormed(bufs[k])
    decreases |bufs|
  {
    if bufs == [] then t == []
    else
      var n := |bufs[0].data|;
      n <= |t| && t[..n] == RaiseStream(StreamOf(bufs[0]), outer[0]) && IsFlat(t[n..], bufs[1..], outer[1..])
  }

  lemma {:induction false} FlatIsFlat<T>(bufs: seq<Buffer<T>>, outer: seq<nat>)
    requires |outer| == |bufs| && forall k :: 0 <= k < |bufs| ==> WellFormed(bufs[k])
    ensures IsFlat(Flat(bufs, outer), bufs, outer)
    decreases |bufs|
  {
    if bufs != [] {
      var head, rest := RaiseStream(StreamOf(bufs[0]), outer[0]), Flat(bufs[1..], outer[1..]);
      assert |head| == |bufs[0].data|;
      FlatCons(bufs, outer);
      assert (head + rest)[..|head|] == head && (head + rest)[|head|..] == rest;
      FlatIsFlat(bufs[1..], outer[1..]);
    }
  }

  /**
   * `Bufferize` of rank `rank` cuts a stream of whole buffers of `rank` dimensions back into those
   * buffers, each sent with the outer levels its last element closed.
   */
  lemma BufferizeFlat<T>(rank: nat, now: nat, bufs: seq<Buffer<T>>, outer: seq<nat>)
    requires rank > 0 && |outer| == |bufs| && Tiles(bufs, rank)
    ensures BufferizeFrom(Flat(bufs, outer), rank, now) == Ok(Stamped(bufs, outer, now))
  {
    FlatIsFlat(bufs, outer);
    BufferizeTiles(Flat(bufs, outer), rank, now, bufs, outer);
  }

  lemma {:induction false} BufferizeTiles<T>(t: seq<Elem<T>>, rank: nat, now: nat, bufs: seq<Buffer<T>>, outer: seq<nat>)
    requires rank > 0 && |outer| == |bufs| && Tiles(bufs, rank) && IsFlat(t, bufs, outer)
    ensures BufferizeFrom(t, rank, now) == Ok(Stamped(bufs, outer, now))
    decreases |bufs|
  {
    if bufs == [] {
      BufferizeEmpty<T>(rank, now);
    } else {
      var n := |bufs[0].data|;
      var next := now + n;
      TilesTail(bufs, rank);
      NextWholeBuffer(t, rank, now, next, bufs[0], outer[0], n);
      BufferizeTiles(t[n..], rank, next, bufs[1..], outer[1..]);
      StampedCons(bufs, outer, now, next);
    }
  }

  /** A closed input ends the operator with nothing sent. */
  lemma BufferizeEmpty<T>(rank: nat, now: nat)
    requires rank > 0
    ensures BufferizeFrom<T>([], rank, now) == Ok([])
  {
    assert FromStreamSpec<T>([], rank, now).0 == Ok(Finished);
  }

  /** `t` opens with one whole buffer `b`: `from_stream` reads it back, and the operator goes on after it. */
  lemma NextWholeBuffer<T>(t: seq<Elem<T>>, rank: nat, now: nat, next: nat, b: Buffer<T>, e: nat, n: nat)
    requires rank > 0 && WellFormed(b) && Streamable(b.shape) && |b.shape| == rank
    requires n == |b.data| <= |t| && t[..n] == RaiseStream(StreamOf(b), e) && next == now + n
    ensures BufferizeFrom(t, rank, now) == Then([WithLevel(Restamp(b, now), e)], BufferizeFrom(t[n..], rank, next))
  {
    var head := RaiseStream(StreamOf(b), e);
    var m := WholeLength(b, e, head);
    assert t == head + t[n..];
    assert FromStreamSpec(t, rank, now) == (Ok(if e == 0 then Done(Restamp(b, now)) else StopToken(Restamp(b, now), e)), n) by {
      RoundTrip.RoundTrip(b, e, t[n..], now);
    }
    BufferizeWhole(t, rank, now, next, Restamp(b, now), e, n);
  }

  /** The stream of a streamable buffer is not empty. */
  lemma WholeLength<T>(b: Buffer<T>, e: nat, head: seq<Elem<T>>) returns (n: nat)
    requires WellFormed(b) && Streamable(b.shape) && head == RaiseStream(StreamOf(b), e)
    ensures n == |b.data| == |head| && n > 0
  {
    assert Positive(b.shape) by {
      forall k | 0 <= k < |b.shape| ensures b.shape[k] > 0 {
        if k < |b.shape| - 1 { assert b.shape[k] >= 2; }
      }
    }
    ProductPositive(b.shape);
    n := |b.data|;
  }

  /** `from_stream` read a whole buffer of `n` elements: it is sent, and the operator goes on after it. */
  lemma BufferizeWhole<T>(t: seq<Elem<T>>, rank: nat, now: nat, next: nat, back: Buffer<T>, e: nat, n: nat)
    requires rank > 0 && 0 < n <= |t| && next == now + n
    requires FromStreamSpec(t, rank, now) == (Ok(if e == 0 then Done(back) else StopToken(back, e)), n)
    ensures BufferizeFrom(t, rank, now) == Then([WithLevel(back, e)], BufferizeFrom(t[n..], rank, next))
  {
    assert BufferizeFrom(t, rank, now) == Continue(t, rank, now, FromStreamSpec(t, rank, now));
  }

  /** A [2, 3] stream bufferized at rank 1 gives a plain buffer of three values, then one closing the outer level. */
  lemma BufferizeTwoByThree<T>(a: T, b: T, c: T, d: T, e: T, f: T)
    ensures BufferizeFrom([Val(a), Val(b), ValStop(c, 1), Val(d), Val(e), ValStop(f, 2)], 1, 0)
      == Ok([Val(Buffer([3], [a, b, c], 0)), ValStop(Buffer([3], [d, e, f], 3), 1)])
  {
    var bufs, outer := [Buffer([3], [a, b, c], 0), Buffer([3], [d, e, f], 0)], [0, 1];
    var s := [Val(a), Val(b), ValStop(c, 1), Val(d), Val(e), ValStop(f, 2)];
    TwoVectors(a, b, c, d, e, f);
    BufferizeFlat(1, 0, bufs, outer);
    StampedCons(bufs, outer, 0, 3);
    StampedCons(bufs[1..], outer[1..], 3, 6);
    assert Stamped(bufs[1..][1..], outer[1..][1..], 6) == [];
    assert bufs[1..][0] == bufs[1] && outer[1..][0] == 1 && |bufs[0].data| == 3;
    assert WithLevel(Restamp(bufs[0], 0), 0) == Val(Buffer([3], [a, b, c], 0));
    assert WithLevel(Restamp(bufs[1], 3), 1) == ValStop(Buffer([3], [d, e, f], 3), 1);
    assert BufferizeFrom(s, 1, 0) == Ok(Stamped(bufs, outer, 0));
    assert Stamped(bufs, outer, 0) == [Val(Buffer([3], [a, b, c], 0)), ValStop(Buffer([3], [d, e, f], 3), 1)];
  }

  lemma TwoVectors<T>(a: T, b: T, c: T, d: T, e: T, f: T)
    ensures var bufs, outer := [Buffer([3], [a, b, c], 0), Buffer([3], [d, e, f], 0)], [0, 1];
      Tiles(bufs, 1) && [Val(a), Val(b), ValStop(c, 1), Val(d), Val(e), ValStop(f, 2)] == Flat(bufs, outer)
  {
    var b1, b2 := Buffer([3], [a, b, c], 0), Buffer([3], [d, e, f], 0);
    ProductUnfold([3]);
    assert [3][..0] == [] && Product([3]) == 3;
    assert ShapeLevels([3]) == ExpandRows([0], 3) == [0, 0, 1];
    assert StreamOf(b1) == [Val(a), Val(b), ValStop(c, 1)];
    assert StreamOf(b2) == [Val(d), Val(e), ValStop(f, 1)];
    var bufs, outer := [b1, b2], [0, 1];
    assert Tiles(bufs, 1);
    FlatCons(bufs, outer);
    FlatCons(bufs[1..], outer[1..]);
    assert Flat(bufs[1..][1..], outer[1..][1..]) == [];
    assert RaiseStream(StreamOf(b1), 0) == StreamOf(b1);
    assert RaiseStream(StreamOf(b2), 1) == [Val(d), Val(e), ValStop(f, 2)];
  }
}
