/**
 * `DynStreamify`: streams each input buffer once per element of a reference stream. A plain-value
 * buffer is read out once per reference value until the reference closes; a buffer carrying a stop
 * is read out once per reference element until a reference stop closes more than `repeat_rank`
 * levels, the buffer's own closing stop (at `bufferized_rank`) raised by the reference stop level.
 */
module DynStreamify {
  import opened Wrappers
  import opened Calc
  import opened Elems
  import opened Shapes
  import opened Buffers
  import opened RoundTrip
  import opened Streamify
  import opened Nesting

  const UnexpectedRefStop := "Unexpected stop token in reference stream"
  const StopAboveRank := "Larger stop token than the buffer's rank!"

  // ---------------------------------------------------------------------------------------------
  // Reference definitions

  /** No element of a read-out stops above the buffer's rank. */
  predicate BelowRank<T>(bs: seq<Elem<T>>, rank: nat)
  {
    forall i :: 0 <= i < |bs| ==> Level(bs[i]) <= rank
  }

  /** The read-out for a reference stop `r`: the rank stop goes up by `r`; a stop above the rank fails. */
  function RefCopy<T>(bs: seq<Elem<T>>, rank: nat, r: nat): (res: Result<seq<Elem<T>>>)
  {
    if BelowRank(bs, rank) then Ok(Raised(bs, rank, r)) else Err(StopAboveRank)
  }

  /** A plain-value buffer: a read-out per reference value until the reference closes; a reference stop fails. */
  function ValCopies<T, R>(bs: seq<Elem<T>>, ref: seq<Elem<R>>): (res: Result<seq<Elem<T>>>)
    decreases |ref|
  {
    if ref == [] then Ok([])
    else if ref[0].ValStop? then Err(UnexpectedRefStop)
    else Then(bs, ValCopies(bs, ref[1..]))
  }

  /** What one buffer with a stop sends, and how many reference elements it uses. */
  datatype Piece<T> = Piece(out: seq<Elem<T>>, used: nat)

  /** `piece` preceded by `prefix`, which used `n` reference elements. */
  function Prepend<T>(prefix: seq<Elem<T>>, n: nat, piece: Result<Piece<T>>): (res: Result<Piece<T>>)
    ensures res.Ok? <==> piece.Ok?
    ensures res.Ok? ==> res.value == Piece(prefix + piece.value.out, n + piece.value.used)
  {
    if piece.Ok? then Ok(Piece(prefix + piece.value.out, n + piece.value.used)) else Err(piece.msg)
  }

  /**
   * A buffer with a stop: a plain read-out per reference value, a raised read-out per reference stop,
   * until a reference stop above `repeat_rank` (which is used) or the end of the reference.
   */
  function StopCopies<T, R>(bs: seq<Elem<T>>, ref: seq<Elem<R>>, rank: nat, repeatRank: nat): (res: Result<Piece<T>>)
    ensures res.Ok? ==> res.value.used <= |ref|
    decreases |ref|
  {
    if ref == [] then Ok(Piece([], 0))
    else if ref[0].Val? then Prepend(bs, 1, StopCopies(bs, ref[1..], rank, repeatRank))
    else
      var c := RefCopy(bs, rank, ref[0].level);
      if c.Err? then Err(c.msg)
      else if ref[0].level >= repeatRank + 1 then Ok(Piece(c.value, 1))
      else Prepend(c.value, 1, StopCopies(bs, ref[1..], rank, repeatRank))
  }

  /**
   * The whole output: each buffer in turn, on the part of the reference the previous buffers left. A
   * plain-value buffer uses up the reference, and the operator returns after it.
   */
  function DynStream<T, R>(input: seq<Elem<Buffer<T>>>, ref: seq<Elem<R>>, rank: nat, repeatRank: nat): (res: Result<seq<Elem<T>>>)
    requires AllWellFormed(input)
    decreases |input|
  {
    if input == [] then Ok([])
    else if input[0].Val? then ValCopies(StreamOf(input[0].v), ref)
    else
      var p := StopCopies(StreamOf(input[0].v), ref, rank, repeatRank);
      if p.Err? then Err(p.msg)
      else Then(p.value.out, DynStream(input[1..], ref[p.value.used..], rank, repeatRank))
  }

  /** Read-outs of `bs`, one per level of `levels`, each with its rank stop raised by that level. */
  function Readouts<T>(bs: seq<Elem<T>>, rank: nat, levels: seq<nat>): (r: seq<Elem<T>>)
    decreases |levels|
  {
    if levels == [] then [] else Raised(bs, rank, levels[0]) + Readouts(bs, rank, levels[1..])
  }

  // ---------------------------------------------------------------------------------------------
  // The operator

  /** One read-out for a reference stop `r`. */
  method RaiseCopy<T>(elems: seq<Elem<T>>, rank: nat, r: nat) returns (res: Result<seq<Elem<T>>>)
    ensures res == RefCopy(elems, rank, r)
  {
    var out: seq<Elem<T>> := [];
    var k := 0;
    while k < |elems|
      invariant 0 <= k <= |elems| && |out| == k
      invariant forall m :: 0 <= m < k ==> out[m] == RaiseAt(elems[m], rank, r) && Level(elems[m]) <= rank
    {
      match elems[k] {
        case Val(x) =>
          out := out + [Val(x)];
        case ValStop(x, l) =>
          var newStopLevel;
          if l == rank {
            newStopLevel := l + r;
          } else if l < rank {
            newStopLevel := l;
          } else {
            assert !BelowRank(elems, rank) by { assert Level(elems[k]) > rank; }
            return Err(StopAboveRank);
          }
          out := out + [ValStop(x, newStopLevel)];
      }
      k := k + 1;
    }
    res := Ok(out);
    assert out == Raised(elems, rank, r);
  }

  /** The reference loop for a plain-value buffer. */
  method ValLoop<T, R>(elems: seq<Elem<T>>, ref: seq<Elem<R>>, j0: nat) returns (res: Result<seq<Elem<T>>>)
    requires j0 <= |ref|
    ensures res == ValCopies(elems, ref[j0..])
  {
    var out: seq<Elem<T>> := [];
    var j := j0;
    ThenNil(ValCopies(elems, ref[j0..]));
    while j < |ref|
      invariant j0 <= j <= |ref|
      invariant ValCopies(elems, ref[j0..]) == Then(out, ValCopies(elems, ref[j..]))
    {
      assert ref[j..][1..] == ref[j + 1..];
      if ref[j].ValStop? {
        return Err(UnexpectedRefStop);
      }
      var copy := EmitCopy(elems, 0, 0, false);
      ThenThen(out, copy, ValCopies(elems, ref[j + 1..]));
      out := out + copy;
      j := j + 1;
    }
    res := Ok(out);
    assert out + [] == out;
  }

  /** The reference loop for a buffer with a stop, from reference position `j0`. */
  method StopLoop<T, R>(elems: seq<Elem<T>>, ref: seq<Elem<R>>, j0: nat, rank: nat, repeatRank: nat)
    returns (res: Result<Piece<T>>)
    requires j0 <= |ref|
    ensures res == StopCopies(elems, ref[j0..], rank, repeatRank)
  {
    var out: seq<Elem<T>> := [];
    var j := j0;
    PrependNothing(StopCopies(elems, ref[j0..], rank, repeatRank));
    while j < |ref|
      invariant j0 <= j <= |ref|
      invariant StopCopies(elems, ref[j0..], rank, repeatRank) == Prepend(out, j - j0, StopCopies(elems, ref[j..], rank, repeatRank))
    {
      if ref[j].Val? {
        var copy := EmitCopy(elems, 0, 0, false);
        StopLoopVal(elems, ref, j0, j, rank, repeatRank, out);
        out := out + copy;
      } else {
        var r := ref[j].level;
        var copy := RaiseCopy(elems, rank, r);
        StopLoopStop(elems, ref, j0, j, rank, repeatRank, out, copy);
        if copy.Err? {
          return Err(copy.msg);
        }
        if r >= repeatRank + 1 {
          return Ok(Piece(out + copy.value, j + 1 - j0));
        }
        out := out + copy.value;
      }
      j := j + 1;
    }
    res := Ok(Piece(out, j - j0));
    assert out + [] == out;
  }

  /** A reference value in the stop loop: one plain read-out, and the loop goes on. */
  lemma StopLoopVal<T, R>(elems: seq<Elem<T>>, ref: seq<Elem<R>>, j0: nat, j: nat, rank: nat, repeatRank: nat,
                          out: seq<Elem<T>>)
    requires j0 <= j < |ref| && ref[j].Val?
    requires StopCopies(elems, ref[j0..], rank, repeatRank) == Prepend(out, j - j0, StopCopies(elems, ref[j..], rank, repeatRank))
    ensures StopCopies(elems, ref[j0..], rank, repeatRank)
            == Prepend(out + elems, j + 1 - j0, StopCopies(elems, ref[j + 1..], rank, repeatRank))
  {
    assert ref[j..][0] == ref[j] && ref[j..][1..] == ref[j + 1..];
    PrependTwice(out, j - j0, elems, StopCopies(elems, ref[j + 1..], rank, repeatRank));
  }

  /** A reference stop in the stop loop: a raised read-out, after which the loop ends or goes on. */
  lemma StopLoopStop<T, R>(elems: seq<Elem<T>>, ref: seq<Elem<R>>, j0: nat, j: nat, rank: nat, repeatRank: nat,
                           out: seq<Elem<T>>, copy: Result<seq<Elem<T>>>)
    requires j0 <= j < |ref| && ref[j].ValStop? && copy == RefCopy(elems, rank, ref[j].level)
    requires StopCopies(elems, ref[j0..], rank, repeatRank) == Prepend(out, j - j0, StopCopies(elems, ref[j..], rank, repeatRank))
    ensures copy.Err? ==> StopCopies(elems, ref[j0..], rank, repeatRank) == Err(copy.msg)
    ensures copy.Ok? && ref[j].level >= repeatRank + 1 ==>
              StopCopies(elems, ref[j0..], rank, repeatRank) == Ok(Piece(out + copy.value, j + 1 - j0))
    ensures copy.Ok? && ref[j].level < repeatRank + 1 ==>
              StopCopies(elems, ref[j0..], rank, repeatRank)
              == Prepend(out + copy.value, j + 1 - j0, StopCopies(elems, ref[j + 1..], rank, repeatRank))
  {
    assert ref[j..][0] == ref[j] && ref[j..][1..] == ref[j + 1..];
    if copy.Ok? && ref[j].level < repeatRank + 1 {
      PrependTwice(out, j - j0, copy.value, StopCopies(elems, ref[j + 1..], rank, repeatRank));
    }
  }

  /** `run`: each input buffer in turn, taking the reference stream up where the previous buffer left it. */
  method Run<T, R>(input: seq<Elem<Buffer<T>>>, ref: seq<Elem<R>>, rank: nat, repeatRank: nat)
    returns (res: Result<seq<Elem<T>>>)
    requires AllWellFormed(input)
    ensures res == DynStream(input, ref, rank, repeatRank)
  {
    var output: seq<Elem<T>> := [];
    var i: nat, j: nat := 0, 0;
    assert input[0..] == input && ref[0..] == ref;
    ThenNil(DynStream(input, ref, rank, repeatRank));
    while i < |input|
      invariant 0 <= i <= |input| && j <= |ref|
      invariant DynStream(input, ref, rank, repeatRank) == Then(output, DynStream(input[i..], ref[j..], rank, repeatRank))
    {
      var elems := ToElemIter(input[i].v);
      match input[i] {
        case Val(_) =>
          var rest := ValLoop(elems, ref, j);
          DynStreamVal(input, ref, i, j, rank, repeatRank, output, rest);
          return Then(output, rest);
        case ValStop(_, _) =>
          var p := StopLoop(elems, ref, j, rank, repeatRank);
          DynStreamStop(input, ref, i, j, rank, repeatRank, output, p);
          if p.Err? {
            return Err(p.msg);
          }
          output := output + p.value.out;
          j := j + p.value.used;
      }
      i := i + 1;
    }
    res := Ok(output);
    assert output + [] == output;
  }

  /** At a plain-value buffer the output is the output so far, then its read-outs on the rest of the reference. */
  lemma DynStreamVal<T, R>(input: seq<Elem<Buffer<T>>>, ref: seq<Elem<R>>, i: nat, j: nat, rank: nat, repeatRank: nat,
                           output: seq<Elem<T>>, rest: Result<seq<Elem<T>>>)
    requires AllWellFormed(input) && i < |input| && j <= |ref| && input[i].Val?
    requires DynStream(input, ref, rank, repeatRank) == Then(output, DynStream(input[i..], ref[j..], rank, repeatRank))
    requires rest == ValCopies(StreamOf(input[i].v), ref[j..])
    ensures DynStream(input, ref, rank, repeatRank) == Then(output, rest)
  {
    assert input[i..][0] == input[i];
  }

  /**
   * At a buffer with a stop, the output is the output so far, then the buffer's piece, then the
   * next buffers on the reference after the part it used.
   */
  lemma DynStreamStop<T, R>(input: seq<Elem<Buffer<T>>>, ref: seq<Elem<R>>, i: nat, j: nat, rank: nat, repeatRank: nat,
                            output: seq<Elem<T>>, p: Result<Piece<T>>)
    requires AllWellFormed(input) && i < |input| && j <= |ref| && input[i].ValStop?
    requires DynStream(input, ref, rank, repeatRank) == Then(output, DynStream(input[i..], ref[j..], rank, repeatRank))
    requires p == StopCopies(StreamOf(input[i].v), ref[j..], rank, repeatRank)
    ensures p.Err? ==> DynStream(input, ref, rank, repeatRank) == Err(p.msg)
    ensures p.Ok? ==> j + p.value.used <= |ref|
    ensures p.Ok? ==> DynStream(input, ref, rank, repeatRank)
                      == Then(output + p.value.out, DynStream(input[i + 1..], ref[j + p.value.used..], rank, repeatRank))
  {
    assert input[i..][0] == input[i] && input[i..][1..] == input[i + 1..];
    if p.Ok? {
      assert ref[j..][p.value.used..] == ref[j + p.value.used..];
      ThenThen(output, p.value.out, DynStream(input[i + 1..], ref[j + p.value.used..], rank, repeatRank));
    }
  }

  lemma PrependNothing<T>(p: Result<Piece<T>>)
    ensures Prepend([], 0, p) == p
  {
    if p.Ok? { assert [] + p.value.out == p.value.out; }
  }

  lemma PrependTwice<T>(out: seq<Elem<T>>, n: nat, copy: seq<Elem<T>>, rest: Result<Piece<T>>)
    ensures Prepend(out, n, Prepend(copy, 1, rest)) == Prepend(out + copy, n + 1, rest)
  {
    if rest.Ok? { assert out + (copy + rest.value.out) == (out + copy) + rest.value.out; }
  }

  // ---------------------------------------------------------------------------------------------
  // Properties

  /** A plain-value buffer is read out once per reference element exactly when the reference holds no stop. */
  lemma {:induction false} ValCopiesAll<T, R>(bs: seq<Elem<T>>, ref: seq<Elem<R>>)
    ensures ValCopies(bs, ref).Ok? <==> forall k :: 0 <= k < |ref| ==> ref[k].Val?
    ensures ValCopies(bs, ref).Ok? ==> ValCopies(bs, ref).value == Copies(bs, |ref|)
    decreases |ref|
  {
    if ref != [] {
      ValCopiesAll(bs, ref[1..]);
      assert forall k :: 1 <= k < |ref| ==> ref[k] == ref[1..][k - 1];
      if ValCopies(bs, ref).Ok? {
        CopiesCons(bs, |ref| - 1);
      }
    }
  }

  /** One copy in front of `k` copies is `k + 1` copies. */
  lemma CopiesCons<T>(s: seq<T>, k: nat)
    ensures s + Copies(s, k) == Copies(s, k + 1)
  {
    CopiesAdd(s, 1, k);
    assert Copies(s, 1) == s by { assert Copies(s, 0) == []; }
  }

  /**
   * A buffer with a stop on a reference block of `n` elements, whose last stop is the first one above
   * `repeat_rank`: the block is used up, and the buffer is read out once per block element, raised
   * by that element's level.
   */
  lemma {:induction false} StopCopiesBlock<T, R>(bs: seq<Elem<T>>, ref: seq<Elem<R>>, rank: nat, repeatRank: nat, n: nat)
    requires 1 <= n <= |ref| && BelowRank(bs, rank)
    requires forall k :: 0 <= k < n - 1 ==> Level(ref[k]) <= repeatRank
    requires Level(ref[n - 1]) > repeatRank
    ensures StopCopies(bs, ref, rank, repeatRank) == Ok(Piece(Readouts(bs, rank, StopLevels(ref[..n])), n))
    decreases n
  {
    var levels := StopLevels(ref[..n]);
    assert levels[0] == Level(ref[0]);
    if n == 1 {
      assert Level(ref[0]) > repeatRank && levels[1..] == [];
      assert ref[0].ValStop? && levels[0] == ref[0].level;
      assert RefCopy(bs, rank, ref[0].level) == Ok(Raised(bs, rank, levels[0]));
      assert StopCopies(bs, ref, rank, repeatRank) == Ok(Piece(Raised(bs, rank, levels[0]), 1));
      assert Readouts(bs, rank, levels) == Raised(bs, rank, levels[0]) + [];
      assert Raised(bs, rank, levels[0]) + [] == Raised(bs, rank, levels[0]);
    } else {
      var tail := ref[1..];
      assert forall k :: 0 <= k < n - 2 ==> Level(tail[k]) <= repeatRank by {
        forall k | 0 <= k < n - 2 ensures Level(tail[k]) <= repeatRank { assert tail[k] == ref[k + 1]; }
      }
      assert tail[n - 2] == ref[n - 1];
      StopCopiesBlock(bs, tail, rank, repeatRank, n - 1);
      assert levels[1..] == StopLevels(tail[..n - 1]);
      if ref[0].Val? {
        RaisedNothing(bs, rank);
      }
    }
  }

  /** Read out whole, each raised read-out of a streamable buffer closes the reference level on its last entry. */
  lemma ReadoutLevels<T>(b: Buffer<T>, levels: seq<nat>)
    requires WellFormed(b) && Streamable(b.shape)
    ensures StopLevels(Readouts(StreamOf(b), |b.shape|, levels)) == Nest(levels, ShapeLevels(b.shape))
    ensures Values(Readouts(StreamOf(b), |b.shape|, levels)) == Copies(b.data, |levels|)
  {
    forall l: nat
      ensures StopLevels(Raised(StreamOf(b), |b.shape|, l)) == Raise(ShapeLevels(b.shape), l)
    {
      HeadReadout(b, l);
    }
    ReadoutStops(StreamOf(b), |b.shape|, levels, ShapeLevels(b.shape));
    ReadoutValues(StreamOf(b), |b.shape|, levels);
  }

  lemma {:induction false} ReadoutStops<T>(bs: seq<Elem<T>>, rank: nat, levels: seq<nat>, inner: seq<nat>)
    requires forall l: nat :: StopLevels(Raised(bs, rank, l)) == Raise(inner, l)
    ensures StopLevels(Readouts(bs, rank, levels)) == Nest(levels, inner)
    decreases |levels|
  {
    if levels != [] {
      ReadoutStops(bs, rank, levels[1..], inner);
      StreamAppend(Raised(bs, rank, levels[0]), Readouts(bs, rank, levels[1..]));
    }
  }

  lemma {:induction false} ReadoutValues<T>(bs: seq<Elem<T>>, rank: nat, levels: seq<nat>)
    ensures Values(Readouts(bs, rank, levels)) == Copies(Values(bs), |levels|)
    decreases |levels|
  {
    if levels != [] {
      ReadoutValues(bs, rank, levels[1..]);
      StreamAppend(Raised(bs, rank, levels[0]), Readouts(bs, rank, levels[1..]));
      CopiesCons(Values(bs), |levels| - 1);
    }
  }

  lemma HeadReadout<T>(b: Buffer<T>, l: nat)
    requires WellFormed(b) && Streamable(b.shape)
    ensures StopLevels(Raised(StreamOf(b), |b.shape|, l)) == Raise(ShapeLevels(b.shape), l)
  {
    RaisedWhole(b, l);
    StreamableReadable(b);
    StreamLevels(b);
  }

  /** A buffer's own stream never stops above the buffer's rank. */
  lemma StreamBelowRank<T>(b: Buffer<T>)
    requires WellFormed(b) && Streamable(b.shape)
    ensures BelowRank(StreamOf(b), |b.shape|)
  {
    StreamableReadable(b);
    StreamLevels(b);
    var bs := StreamOf(b);
    forall i | 0 <= i < |bs| ensures Level(bs[i]) <= |b.shape| {
      assert Level(bs[i]) == StopLevels(bs)[i];
      if i + 1 < |bs| {
        InnerLevel(b.shape, i);
      } else {
        LastLevel(b.shape);
      }
    }
  }

  /**
   * One block of the reference (values and low stops, closed by a stop above `repeat_rank`) reads a
   * buffer with a stop out once per element: the levels are the buffer's own, nested in the block's.
   */
  lemma DynBlock<T, R>(b: Buffer<T>, ref: seq<Elem<R>>, repeatRank: nat, n: nat)
    requires WellFormed(b) && Streamable(b.shape) && 1 <= n <= |ref|
    requires forall k :: 0 <= k < n - 1 ==> Level(ref[k]) <= repeatRank
    requires Level(ref[n - 1]) > repeatRank
    ensures StopCopies(StreamOf(b), ref, |b.shape|, repeatRank).Ok?
    ensures StopCopies(StreamOf(b), ref, |b.shape|, repeatRank).value.used == n
    ensures StopLevels(StopCopies(StreamOf(b), ref, |b.shape|, repeatRank).value.out)
            == Nest(StopLevels(ref[..n]), ShapeLevels(b.shape))
    ensures Values(StopCopies(StreamOf(b), ref, |b.shape|, repeatRank).value.out) == Copies(b.data, n)
  {
    StreamBelowRank(b);
    StopCopiesBlock(StreamOf(b), ref, |b.shape|, repeatRank, n);
    ReadoutLevels(b, StopLevels(ref[..n]));
  }

  /**
   * A reference shaped like the tensor `outer` (its last stop raised by `e`) with `repeat_rank + 1`
   * dimensions turns a buffer with a stop into the stream of the tensor `outer + shape`, last stop
   * raised by `e`, holding one copy of the buffer's data per reference element.
   */
  lemma DynShape<T, R>(b: Buffer<T>, ref: seq<Elem<R>>, outer: seq<nat>, e: nat)
    requires WellFormed(b) && Streamable(b.shape) && outer != [] && Positive(outer)
    requires StopLevels(ref) == Raise(ShapeLevels(outer), e)
    ensures StopCopies(StreamOf(b), ref, |b.shape|, |outer| - 1).Ok?
    ensures StopCopies(StreamOf(b), ref, |b.shape|, |outer| - 1).value.used == |ref|
    ensures StopLevels(StopCopies(StreamOf(b), ref, |b.shape|, |outer| - 1).value.out)
            == Raise(ShapeLevels(outer + b.shape), e)
    ensures Values(StopCopies(StreamOf(b), ref, |b.shape|, |outer| - 1).value.out) == Copies(b.data, |ref|)
  {
    RefBlock(ref, outer, e);
    assert ref[..|ref|] == ref;
    DynBlock(b, ref, |outer| - 1, |ref|);
    NestRaisedShape(outer, b.shape, e);
  }

  /** A reference shaped like the tensor `outer` is one block for `repeat_rank = |outer| - 1`. */
  lemma RefBlock<R>(ref: seq<Elem<R>>, outer: seq<nat>, e: nat)
    requires outer != [] && Positive(outer) && StopLevels(ref) == Raise(ShapeLevels(outer), e)
    ensures |ref| > 0 && Level(ref[|ref| - 1]) > |outer| - 1
    ensures forall k :: 0 <= k < |ref| - 1 ==> Level(ref[k]) <= |outer| - 1
  {
    var n := |ref|;
    assert n == Product(outer) > 0 by { ProductPositive(outer); }
    forall k | 0 <= k < n - 1 ensures Level(ref[k]) <= |outer| - 1 {
      assert Level(ref[k]) == StopLevels(ref)[k] == ShapeLevels(outer)[k];
      InnerLevel(outer, k);
    }
    assert Level(ref[n - 1]) == StopLevels(ref)[n - 1] == ShapeLevels(outer)[n - 1] + e;
    LastLevel(outer);
  }
}
