/**
 * `ExpandRef`: every input element is broadcast over a stretch of a reference stream, and the output
 * takes the reference's stop levels.
 */
module Expand {
  import opened Wrappers
  import opened Elems

  const NotRankOne := "assertion `left == right` failed: expand_rank must be 1 for a rank-0 input"
  const StopOnRankZero := "input stream should not have any Elem::ValStop values as the input stream is rank 0"
  const RefEnded := "should not reach here as it should have exited the loop on a stop token"

  /** A reference element ends the expansion of the current input when its stop reaches `expand_rank`. */
  predicate Closes<R>(e: Elem<R>, expandRank: nat)
  {
    e.ValStop? && e.level >= expandRank
  }

  /** A rank-0 reference: plain values only. */
  predicate NoStops<R>(ref: seq<Elem<R>>)
  {
    forall i :: 0 <= i < |ref| ==> ref[i].Val?
  }

  /** Every input element is a stop element, which is what an input of rank at least 1 looks like. */
  predicate AllStops<T>(input: seq<Elem<T>>)
  {
    forall i :: 0 <= i < |input| ==> input[i].ValStop?
  }

  /** `x` sent once per reference element, with that element's shape. */
  function Broadcast<T, R>(x: T, ref: seq<Elem<R>>): (r: seq<Elem<T>>)
    ensures |r| == |ref| && StopLevels(r) == StopLevels(ref)
    ensures forall i :: 0 <= i < |ref| ==> r[i].v == x && (r[i].Val? <==> ref[i].Val?)
  {
    seq(|ref|, i requires 0 <= i < |ref| => Rewrap(ref[i], x))
  }

  /** How many reference elements close an expansion. */
  function CountCloses<R>(ref: seq<Elem<R>>, expandRank: nat): (c: nat)
    ensures c <= |ref|
    decreases |ref|
  {
    if ref == [] then 0 else (if Closes(ref[0], expandRank) then 1 else 0) + CountCloses(ref[1..], expandRank)
  }

  /** The length of the stretch one stop input is expanded over: up to and including the first closing element. */
  function FirstClose<R>(ref: seq<Elem<R>>, expandRank: nat): (n: Option<nat>)
    ensures n.Some? ==> 1 <= n.value <= |ref| && Closes(ref[n.value - 1], expandRank)
    ensures n.Some? ==> forall i :: 0 <= i < n.value - 1 ==> !Closes(ref[i], expandRank)
    ensures n.None? ==> forall i :: 0 <= i < |ref| ==> !Closes(ref[i], expandRank)
    decreases |ref|
  {
    if ref == [] then None
    else if Closes(ref[0], expandRank) then Some(1)
    else match FirstClose(ref[1..], expandRank)
      case None => None
      case Some(n) => Some(n + 1)
  }

  /**
   * The output of `ExpandRef::run`. A plain input (rank 0) is repeated once per reference value until the
   * reference ends, and the operator then stops; a stop input is repeated over the reference up to the
   * first stop of level at least `expand_rank`. A panic is `Err`.
   */
  function ExpandStream<T, R>(input: seq<Elem<T>>, ref: seq<Elem<R>>, expandRank: nat): (r: Result<seq<Elem<T>>>)
    decreases |input|
  {
    if input == [] then Ok([])
    else match input[0]
      case Val(x) =>
        if expandRank != 1 then Err(NotRankOne)
        else if !NoStops(ref) then Err(StopOnRankZero)
        else Ok(Broadcast(x, ref))
      case ValStop(x, _) =>
        match FirstClose(ref, expandRank)
        case None => Err(RefEnded)
        case Some(n) => Then(Broadcast(x, ref[..n]), ExpandStream(input[1..], ref[n..], expandRank))
  }

  /** The inner loop for a rank-0 input: one plain copy per reference value, and a panic on a reference stop. */
  method ExpandScalar<T, R>(x: T, ref: seq<Elem<R>>, j: nat) returns (piece: Result<seq<Elem<T>>>)
    requires j <= |ref|
    ensures piece == (if NoStops(ref[j..]) then Ok(Broadcast(x, ref[j..])) else Err(StopOnRankZero))
  {
    var out: seq<Elem<T>> := [];
    var k := j;
    while k < |ref|
      invariant j <= k <= |ref|
      invariant NoStops(ref[j..k]) && out == Broadcast(x, ref[j..k])
    {
      if ref[k].ValStop? {
        assert ref[j..][k - j] == ref[k];
        return Err(StopOnRankZero);
      }
      assert ref[j..k + 1] == ref[j..k] + [ref[k]];
      out := out + [Val(x)];
      k := k + 1;
    }
    assert ref[j..k] == ref[j..];
    return Ok(out);
  }

  /** The inner loop for a stop input: copies up to and including the first closing reference element. */
  method ExpandStop<T, R>(x: T, ref: seq<Elem<R>>, j: nat, expandRank: nat) returns (piece: Result<seq<Elem<T>>>, next: nat)
    requires j <= |ref|
    ensures FirstClose(ref[j..], expandRank).None? ==> piece == Err(RefEnded)
    ensures FirstClose(ref[j..], expandRank).Some? ==>
      next == j + FirstClose(ref[j..], expandRank).value && piece == Ok(Broadcast(x, ref[j..next]))
  {
    var out: seq<Elem<T>> := [];
    var k := j;
    while true
      invariant j <= k <= |ref|
      invariant forall i :: j <= i < k ==> !Closes(ref[i], expandRank)
      invariant out == Broadcast(x, ref[j..k])
      decreases |ref| - k
    {
      if k == |ref| {
        FirstCloseNone(ref, j, expandRank);
        return Err(RefEnded), k;
      }
      BroadcastSnoc(x, ref, j, k);
      out := out + [Rewrap(ref[k], x)];
      if Closes(ref[k], expandRank) {
        FirstCloseAt(ref, j, k, expandRank);
        return Ok(out), k + 1;
      }
      k := k + 1;
    }
  }

  /** One more reference element covered: its copy joins the broadcast. */
  lemma BroadcastSnoc<T, R>(x: T, ref: seq<Elem<R>>, j: nat, k: nat)
    requires j <= k < |ref|
    ensures Broadcast(x, ref[j..k + 1]) == Broadcast(x, ref[j..k]) + [Rewrap(ref[k], x)]
  {
    assert ref[j..k + 1] == ref[j..k] + [ref[k]];
  }

  /** No closing element from `j` on: the reference ends before the stretch closes. */
  lemma FirstCloseNone<R>(ref: seq<Elem<R>>, j: nat, expandRank: nat)
    requires j <= |ref| && forall i :: j <= i < |ref| ==> !Closes(ref[i], expandRank)
    ensures FirstClose(ref[j..], expandRank).None?
  {
  }

  /** The first closing element from `j` on is at `k`: the stretch is `k - j + 1` elements long. */
  lemma FirstCloseAt<R>(ref: seq<Elem<R>>, j: nat, k: nat, expandRank: nat)
    requires j <= k < |ref| && Closes(ref[k], expandRank)
    requires forall i :: j <= i < k ==> !Closes(ref[i], expandRank)
    ensures FirstClose(ref[j..], expandRank) == Some(k - j + 1)
  {
    var n := FirstClose(ref[j..], expandRank);
    assert ref[j..][k - j] == ref[k];
    assert n.Some? && n.value - 1 <= k - j;
    assert ref[j..][n.value - 1] == ref[j + n.value - 1];
  }

  /**
   * `ExpandRef::run`: peek at the next input, expand it over the reference, and dequeue it once its
   * stretch is closed. A rank-0 input ends the operator when the reference ends.
   */
  method Run<T, R>(input: seq<Elem<T>>, ref: seq<Elem<R>>, expandRank: nat) returns (output: Result<seq<Elem<T>>>)
    ensures output == ExpandStream(input, ref, expandRank)
  {
    var out: seq<Elem<T>> := [];
    var n, j := 0, 0;
    assert input[n..] == input && ref[j..] == ref;
    ThenNil(ExpandStream(input, ref, expandRank));
    while n < |input|
      invariant 0 <= n <= |input| && 0 <= j <= |ref|
      invariant ExpandStream(input, ref, expandRank) == Then(out, ExpandStream(input[n..], ref[j..], expandRank))
      decreases |input| - n
    {
      assert input[n..][0] == input[n] && input[n..][1..] == input[n + 1..];
      match input[n]
      case Val(x) => {
        if expandRank != 1 {
          return Err(NotRankOne);
        }
        var piece := ExpandScalar(x, ref, j);
        return Then(out, piece);
      }
      case ValStop(x, _) => {
        var piece, next := ExpandStop(x, ref, j, expandRank);
        if piece.Err? {
          return piece;
        }
        var m := FirstClose(ref[j..], expandRank).value;
        assert ref[j..][..m] == ref[j..next] && ref[j..][m..] == ref[next..];
        ThenThen(out, piece.value, ExpandStream(input[n + 1..], ref[next..], expandRank));
        out := out + piece.value;
        n, j := n + 1, next;
      }
    }
    assert input[n..] == [] && out + [] == out;
    return Ok(out);
  }

  lemma {:induction false} CountAppend<R>(a: seq<Elem<R>>, b: seq<Elem<R>>, expandRank: nat)
    ensures CountCloses(a + b, expandRank) == CountCloses(a, expandRank) + CountCloses(b, expandRank)
    decreases |a|
  {
    if a == [] {
      assert a + b == b;
    } else {
      assert (a + b)[0] == a[0] && (a + b)[1..] == a[1..] + b;
      CountAppend(a[1..], b, expandRank);
    }
  }

  lemma {:induction false} CountNone<R>(ref: seq<Elem<R>>, expandRank: nat)
    requires forall i :: 0 <= i < |ref| ==> !Closes(ref[i], expandRank)
    ensures CountCloses(ref, expandRank) == 0
    decreases |ref|
  {
    if ref != [] {
      CountNone(ref[1..], expandRank);
    }
  }

  /** The stretch of one stop input holds exactly one closing element, its last. */
  lemma StretchCount<R>(ref: seq<Elem<R>>, expandRank: nat)
    requires FirstClose(ref, expandRank).Some?
    ensures var n := FirstClose(ref, expandRank).value;
      CountCloses(ref[..n], expandRank) == 1 &&
      CountCloses(ref, expandRank) == 1 + CountCloses(ref[n..], expandRank)
  {
    var n := FirstClose(ref, expandRank).value;
    assert ref[..n] == ref[..n - 1] + [ref[n - 1]];
    CountNone(ref[..n - 1], expandRank);
    CountAppend(ref[..n - 1], [ref[n - 1]], expandRank);
    assert [ref[n - 1]][1..] == [];
    assert ref == ref[..n] + ref[n..];
    CountAppend(ref[..n], ref[n..], expandRank);
  }

  /** Output element `j` is the input that `j`'s closing count points at, in the shape of reference element `j`. */
  ghost predicate Expanded<T, R>(input: seq<Elem<T>>, ref: seq<Elem<R>>, expandRank: nat, out: seq<Elem<T>>)
  {
    |out| <= |ref| &&
    forall j :: 0 <= j < |out| ==>
      CountCloses(ref[..j], expandRank) < |input| &&
      out[j] == Rewrap(ref[j], input[CountCloses(ref[..j], expandRank)].v)
  }

  /**
   * Every output element is an input value in the reference's shape: reference element `j` yields the
   * input whose index is the number of closing reference elements before `j`.
   */
  lemma {:induction false} ExpandShape<T, R>(input: seq<Elem<T>>, ref: seq<Elem<R>>, expandRank: nat)
    requires ExpandStream(input, ref, expandRank).Ok?
    ensures Expanded(input, ref, expandRank, ExpandStream(input, ref, expandRank).value)
    ensures var out := ExpandStream(input, ref, expandRank).value;
      StopLevels(out) == StopLevels(ref[..|out|])
    decreases |input|, 1
  {
    if input != [] {
      match input[0]
      case Val(x) => ScalarShape(input, ref, expandRank);
      case ValStop(x, _) => StopShape(input, ref, expandRank);
    }
  }

  lemma ScalarShape<T, R>(input: seq<Elem<T>>, ref: seq<Elem<R>>, expandRank: nat)
    requires input != [] && input[0].Val? && ExpandStream(input, ref, expandRank).Ok?
    ensures Expanded(input, ref, expandRank, ExpandStream(input, ref, expandRank).value)
    ensures var out := ExpandStream(input, ref, expandRank).value;
      StopLevels(out) == StopLevels(ref[..|out|])
  {
    var out := ExpandStream(input, ref, expandRank).value;
    assert out == Broadcast(input[0].v, ref);
    forall j | 0 <= j < |out|
      ensures CountCloses(ref[..j], expandRank) == 0 && out[j] == Rewrap(ref[j], input[0].v)
    {
      CountNone(ref[..j], expandRank);
    }
    assert ref[..|out|] == ref;
  }

  /** A stop input: its stretch, then the expansion of the rest of the input over the rest of the reference. */
  lemma {:induction false} StopShape<T, R>(input: seq<Elem<T>>, ref: seq<Elem<R>>, expandRank: nat)
    requires input != [] && input[0].ValStop? && ExpandStream(input, ref, expandRank).Ok?
    ensures Expanded(input, ref, expandRank, ExpandStream(input, ref, expandRank).value)
    ensures var out := ExpandStream(input, ref, expandRank).value;
      StopLevels(out) == StopLevels(ref[..|out|])
    decreases |input|, 0
  {
    var out := ExpandStream(input, ref, expandRank).value;
    var n := FirstClose(ref, expandRank).value;
    var head := Broadcast(input[0].v, ref[..n]);
    var tail := ExpandStream(input[1..], ref[n..], expandRank).value;
    assert out == head + tail;
    ExpandShape(input[1..], ref[n..], expandRank);
    StretchCount(ref, expandRank);
    forall j | 0 <= j < |out|
      ensures CountCloses(ref[..j], expandRank) < |input|
      ensures out[j] == Rewrap(ref[j], input[CountCloses(ref[..j], expandRank)].v)
    {
      if j < n {
        CountNone(ref[..j], expandRank);
      } else {
        TailAt(input, ref, expandRank, n, tail, j);
      }
    }
    assert ref[..|out|] == ref[..n] + ref[n..][..|tail|];
    StreamAppend(head, tail);
    StreamAppend(ref[..n], ref[n..][..|tail|]);
  }

  /** An output element past the first stretch comes from the rest of the input, one closing element later. */
  lemma TailAt<T, R>(input: seq<Elem<T>>, ref: seq<Elem<R>>, expandRank: nat, n: nat, tail: seq<Elem<T>>, j: nat)
    requires input != [] && 1 <= n <= |ref| && CountCloses(ref[..n], expandRank) == 1
    requires Expanded(input[1..], ref[n..], expandRank, tail)
    requires n <= j < n + |tail|
    ensures CountCloses(ref[..j], expandRank) < |input|
    ensures tail[j - n] == Rewrap(ref[j], input[CountCloses(ref[..j], expandRank)].v)
  {
    assert ref[..j] == ref[..n] + ref[n..][..j - n];
    CountAppend(ref[..n], ref[n..][..j - n], expandRank);
    assert ref[n..][j - n] == ref[j];
  }

  /** With stop inputs only, the operator completes exactly when the reference closes at least once per input. */
  lemma {:induction false} ExpandDefined<T, R>(input: seq<Elem<T>>, ref: seq<Elem<R>>, expandRank: nat)
    requires AllStops(input)
    ensures ExpandStream(input, ref, expandRank).Ok? <==> CountCloses(ref, expandRank) >= |input|
    decreases |input|
  {
    if input != [] {
      assert input[0].ValStop?;
      if FirstClose(ref, expandRank).None? {
        CountNone(ref, expandRank);
      } else {
        var n := FirstClose(ref, expandRank).value;
        StretchCount(ref, expandRank);
        ExpandDefined(input[1..], ref[n..], expandRank);
      }
    }
  }

  /**
   * When the reference closes exactly once per stop input and ends on a closing element, the whole
   * reference is used: the output has the reference's length and its stop levels.
   */
  lemma {:induction false} ExpandWhole<T, R>(input: seq<Elem<T>>, ref: seq<Elem<R>>, expandRank: nat)
    requires AllStops(input) && CountCloses(ref, expandRank) == |input|
    requires |ref| > 0 ==> Closes(ref[|ref| - 1], expandRank)
    ensures ExpandStream(input, ref, expandRank).Ok?
    ensures |ExpandStream(input, ref, expandRank).value| == |ref|
    ensures StopLevels(ExpandStream(input, ref, expandRank).value) == StopLevels(ref)
    decreases |input|
  {
    if input == [] {
      if |ref| > 0 {
        CountLast(ref, expandRank);
        assert false;
      }
    } else {
      if FirstClose(ref, expandRank).None? {
        CountNone(ref, expandRank);
        assert false;
      }
      var n := FirstClose(ref, expandRank).value;
      WholeTail(input, ref, expandRank, n);
      ExpandWhole(input[1..], ref[n..], expandRank);
      WholeStep(input, ref, expandRank, n, ExpandStream(input[1..], ref[n..], expandRank).value);
    }
  }

  /** A reference that ends on a closing element closes at least once. */
  lemma CountLast<R>(ref: seq<Elem<R>>, expandRank: nat)
    requires |ref| > 0 && Closes(ref[|ref| - 1], expandRank)
    ensures CountCloses(ref, expandRank) > 0
  {
    assert ref == ref[..|ref| - 1] + [ref[|ref| - 1]];
    CountAppend(ref[..|ref| - 1], [ref[|ref| - 1]], expandRank);
  }

  /** After the first stretch, the rest of the input and of the reference meet the same conditions. */
  lemma WholeTail<T, R>(input: seq<Elem<T>>, ref: seq<Elem<R>>, expandRank: nat, n: nat)
    requires input != [] && AllStops(input) && CountCloses(ref, expandRank) == |input|
    requires |ref| > 0 ==> Closes(ref[|ref| - 1], expandRank)
    requires FirstClose(ref, expandRank) == Some(n)
    ensures AllStops(input[1..]) && CountCloses(ref[n..], expandRank) == |input[1..]|
    ensures |ref[n..]| > 0 ==> Closes(ref[n..][|ref[n..]| - 1], expandRank)
  {
    StretchCount(ref, expandRank);
    if |ref[n..]| > 0 {
      assert ref[n..][|ref[n..]| - 1] == ref[|ref| - 1];
    }
  }

  /** The first stretch followed by a tail that covers the rest of the reference covers all of it. */
  lemma WholeStep<T, R>(input: seq<Elem<T>>, ref: seq<Elem<R>>, expandRank: nat, n: nat, tail: seq<Elem<T>>)
    requires input != [] && input[0].ValStop? && FirstClose(ref, expandRank) == Some(n)
    requires ExpandStream(input[1..], ref[n..], expandRank) == Ok(tail)
    requires |tail| == |ref[n..]| && StopLevels(tail) == StopLevels(ref[n..])
    ensures ExpandStream(input, ref, expandRank).Ok?
    ensures |ExpandStream(input, ref, expandRank).value| == |ref|
    ensures StopLevels(ExpandStream(input, ref, expandRank).value) == StopLevels(ref)
  {
    var head := Broadcast(input[0].v, ref[..n]);
    assert ExpandStream(input, ref, expandRank) == Ok(head + tail);
    StreamAppend(head, tail);
    StreamAppend(ref[..n], ref[n..]);
    assert ref[..n] + ref[n..] == ref;
  }

  /** A rank-0 input against a rank-0 reference: the input value once per reference value. */
  lemma ExpandScalarExample()
    ensures ExpandStream([Val(1)], [Val(2), Val(2), Val(2)], 1) == Ok([Val(1), Val(1), Val(1)])
  {
    var ref: seq<Elem<int>> := [Val(2), Val(2), Val(2)];
    assert NoStops(ref);
    var b := Broadcast(1, ref);
    assert b[0] == Val(1) && b[1] == Val(1) && b[2] == Val(1);
    assert b == [Val(1), Val(1), Val(1)];
    assert [Val(1)][0] == Val(1);
    assert ExpandStream([Val(1)], ref, 1) == Ok(b);
  }
}
