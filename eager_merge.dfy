/**
 * `EagerMerge`: merges whole groups of several input streams into one, always taking next the
 * stream whose head element arrives first. For every group it forwards, it also emits a one-hot
 * selector naming the stream the group came from.
 *
 * A peek at a stream shows its head and the head's time, nothing (the sender has not got that far
 * yet), or that the stream is closed. The choice peeks every stream in index order; it waits a
 * cycle and peeks the undecided streams again while some stream showed nothing and the earliest
 * head seen is still in the future.
 */
module EagerMerge {
  import opened Elems
  import opened Wrappers
  import opened Calc
  import opened Select
  import Parallelize

  const StopAboveRank := "Found a stop token in the input stream that has a higher rank than the given input rank"

  /** `PeekResult`: the head's time, nothing visible yet, or the stream closed. */
  datatype Peek = Something(time: nat) | Nothing | Closed

  /** The stream with the earliest head seen so far, and that head's time. */
  datatype Pick = Pick(idx: nat, time: nat)

  /**
   * The bookkeeping of `get_earliest_input_idx`: per stream the conclusive peek (`None` while its
   * peeks showed nothing) and the time it was made, and the earliest head seen.
   */
  datatype Scan = Scan(seen: seq<Option<Peek>>, at: seq<nat>, earliest: Option<Pick>)

  function Start(n: nat): (s: Scan)
    ensures |s.seen| == |s.at| == n && s.earliest.None?
  {
    Scan(seq(n, _ => None), seq(n, _ => 0), None)
  }

  /** Peeking stream `i` at time `now`: a decided stream is skipped; a later head replaces the pick only if strictly earlier. */
  function Visit(s: Scan, i: nat, p: Peek, now: nat): (r: Scan)
    requires i < |s.seen| == |s.at|
    ensures |r.seen| == |r.at| == |s.seen|
  {
    if s.seen[i].Some? || p.Nothing? then s
    else
      var earliest := if p.Something? && (s.earliest.None? || p.time < s.earliest.value.time) then Some(Pick(i, p.time)) else s.earliest;
      Scan(s.seen[i := Some(p)], s.at[i := now], earliest)
  }

  /** One pass of the peeking loop over the streams `i, i + 1, ...` at time `now`. */
  function RoundFrom(s: Scan, peek: (nat, nat) -> Peek, now: nat, i: nat): (r: Scan)
    requires i <= |s.seen| == |s.at|
    ensures |r.seen| == |r.at| == |s.seen|
    decreases |s.seen| - i
  {
    if i == |s.seen| then s else RoundFrom(Visit(s, i, peek(i, now), now), peek, now, i + 1)
  }

  datatype Decision = Chosen(idx: nat) | AllClosed | Retry

  predicate Undecided(s: Scan)
  {
    exists i :: 0 <= i < |s.seen| && s.seen[i].None?
  }

  /** After a pass: take the pick unless a stream is undecided and the pick lies in the future; stop when all are closed. */
  function Decide(s: Scan, now: nat): Decision
  {
    match s.earliest
    case Some(pk) => if Undecided(s) && now < pk.time then Retry else Chosen(pk.idx)
    case None => if forall i :: 0 <= i < |s.seen| ==> s.seen[i] == Some(Closed) then AllClosed else Retry
  }

  /** The pick is a stream seen with exactly that head time, and no head seen is earlier; with no pick, every decided stream is closed. */
  predicate Sound(s: Scan)
  {
    |s.seen| == |s.at|
    && (forall j :: 0 <= j < |s.seen| ==> s.seen[j] != Some(Nothing))
    && (s.earliest.Some? ==>
          s.earliest.value.idx < |s.seen| && s.seen[s.earliest.value.idx] == Some(Something(s.earliest.value.time))
          && forall j :: 0 <= j < |s.seen| && s.seen[j].Some? && s.seen[j].value.Something? ==> s.earliest.value.time <= s.seen[j].value.time)
    && (s.earliest.None? ==> forall j :: 0 <= j < |s.seen| && s.seen[j].Some? ==> s.seen[j].value == Closed)
  }

  /** Every decided stream showed what is recorded for it, at its recorded time, between `t0` and `now`. */
  ghost predicate Witnessed(s: Scan, peek: (nat, nat) -> Peek, t0: nat, now: nat)
  {
    |s.seen| == |s.at|
    && forall i :: 0 <= i < |s.seen| && s.seen[i].Some? ==> t0 <= s.at[i] <= now && peek(i, s.at[i]) == s.seen[i].value
  }

  lemma VisitSound(s: Scan, i: nat, p: Peek, now: nat)
    requires i < |s.seen| && Sound(s)
    ensures Sound(Visit(s, i, p, now))
  {}

  lemma {:induction false} RoundSound(s: Scan, peek: (nat, nat) -> Peek, t0: nat, now: nat, i: nat)
    requires i <= |s.seen| && Sound(s) && Witnessed(s, peek, t0, now) && t0 <= now
    ensures Sound(RoundFrom(s, peek, now, i)) && Witnessed(RoundFrom(s, peek, now, i), peek, t0, now)
    decreases |s.seen| - i
  {
    if i < |s.seen| {
      VisitSound(s, i, peek(i, now), now);
      RoundSound(Visit(s, i, peek(i, now), now), peek, t0, now, i + 1);
    }
  }

  /** A pass decides every stream whose peek shows something, and keeps every earlier decision. */
  lemma {:induction false} RoundDecides(s: Scan, peek: (nat, nat) -> Peek, now: nat, i: nat)
    requires i <= |s.seen| == |s.at|
    ensures var r := RoundFrom(s, peek, now, i);
      forall j :: 0 <= j < |s.seen| ==>
        (s.seen[j].Some? ==> r.seen[j] == s.seen[j]) && (i <= j && peek(j, now) != Nothing ==> r.seen[j].Some?)
    decreases |s.seen| - i
  {
    if i < |s.seen| {
      RoundDecides(Visit(s, i, peek(i, now), now), peek, now, i + 1);
    }
  }

  /** `e` picks, among the first `i` streams, the earliest head, and the lowest index among equally early heads. */
  ghost predicate FirstEarliest(e: Option<Pick>, peek: (nat, nat) -> Peek, now: nat, i: nat)
  {
    if i == 0 then e.None?
    else
      e.Some? && e.value.idx < i && peek(e.value.idx, now) == Something(e.value.time)
      && (forall j :: 0 <= j < i && peek(j, now).Something? ==> e.value.time <= peek(j, now).time)
      && (forall j :: 0 <= j < e.value.idx && peek(j, now).Something? ==> e.value.time < peek(j, now).time)
  }

  /**
   * When every stream shows its head at the first pass, the pass picks the earliest head, and on a
   * tie the stream with the lowest index.
   */
  lemma {:induction false} FirstPassPicksEarliest(s: Scan, peek: (nat, nat) -> Peek, now: nat, i: nat)
    requires i <= |s.seen| == |s.at| && forall j :: 0 <= j < |s.seen| ==> peek(j, now).Something?
    requires forall j :: i <= j < |s.seen| ==> s.seen[j].None?
    requires FirstEarliest(s.earliest, peek, now, i)
    ensures FirstEarliest(RoundFrom(s, peek, now, i).earliest, peek, now, |s.seen|)
    decreases |s.seen| - i
  {
    if i < |s.seen| {
      FirstPassPicksEarliest(Visit(s, i, peek(i, now), now), peek, now, i + 1);
    }
  }

  lemma FirstPass(n: nat, peek: (nat, nat) -> Peek, now: nat)
    requires forall j :: 0 <= j < n ==> peek(j, now).Something?
    ensures FirstEarliest(RoundFrom(Start(n), peek, now, 0).earliest, peek, now, n)
  {
    FirstPassPicksEarliest(Start(n), peek, now, 0);
  }

  /** The `for` loop over the streams: one peek at each undecided stream. */
  method Round(s0: Scan, peek: (nat, nat) -> Peek, now: nat) returns (s: Scan)
    requires |s0.seen| == |s0.at|
    ensures s == RoundFrom(s0, peek, now, 0)
  {
    s := s0;
    var i: nat := 0;
    while i < |s.seen|
      invariant i <= |s.seen| == |s.at| == |s0.seen|
      invariant RoundFrom(s, peek, now, i) == RoundFrom(s0, peek, now, 0)
    {
      var p := peek(i, now);
      if s.seen[i].None? {
        match p {
          case Something(t) =>
            if s.earliest.None? || t < s.earliest.value.time {
              s := Scan(s.seen[i := Some(p)], s.at[i := now], Some(Pick(i, t)));
            } else {
              s := Scan(s.seen[i := Some(p)], s.at[i := now], s.earliest);
            }
          case Nothing =>
          case Closed =>
            s := Scan(s.seen[i := Some(p)], s.at[i := now], s.earliest);
        }
      }
      i := i + 1;
    }
  }

  /**
   * `get_earliest_input_idx`. `horizon` is a time from which no stream shows nothing (every
   * sender has caught up), which is what makes the waiting end.
   */
  method GetEarliestInputIdx(n: nat, peek: (nat, nat) -> Peek, now0: nat, ghost horizon: nat)
    returns (choice: Option<nat>, now: nat, s: Scan)
    requires forall i, t :: 0 <= i < n && horizon <= t ==> peek(i, t) != Nothing
    ensures now0 <= now && |s.seen| == n && Sound(s) && Witnessed(s, peek, now0, now)
    ensures choice.None? <==> forall i :: 0 <= i < n ==> s.seen[i] == Some(Closed)
    ensures choice.Some? ==> s.earliest.Some? && choice.value == s.earliest.value.idx
                             && (!Undecided(s) || s.earliest.value.time <= now)
  {
    s := Start(n);
    now := now0;
    while true
      invariant now0 <= now && |s.seen| == n && Sound(s) && Witnessed(s, peek, now0, now)
      decreases if now <= horizon then horizon - now else 0
    {
      RoundSound(s, peek, now0, now, 0);
      RoundDecides(s, peek, now, 0);
      s := Round(s, peek, now);
      assert horizon <= now ==> !Undecided(s);
      match Decide(s, now) {
        case Chosen(k) =>
          return Some(k), now, s;
        case AllClosed =>
          return None, now, s;
        case Retry =>
          now := now + 1;
      }
    }
  }

  // ---------------------------------------------------------------------------------------------
  // The merge

  /**
   * What stream `i` shows at time `t` when its first `pos[i]` elements are taken: the next head,
   * or the end, once `visible` says the sender has got that far.
   */
  function PeekAt<T>(streams: seq<seq<ChannelElement<T>>>, pos: seq<nat>, visible: (nat, nat, nat) -> bool, i: nat, t: nat): Peek
  {
    if i >= |streams| || i >= |pos| || !visible(i, pos[i], t) then Nothing
    else if pos[i] < |streams[i]| then Something(streams[i][pos[i]].time)
    else Closed
  }

  /** The position just past the group of stream `s` that starts at `p`: past the first element closing it, or the end. */
  function GroupEnd<T>(s: seq<ChannelElement<T>>, p: nat, rank: nat): (e: nat)
    requires p <= |s|
    ensures p <= e <= |s| && (p < |s| ==> p < e)
    ensures e < |s| ==> p < e && Parallelize.Closes(s[e - 1].data, rank)
    decreases |s| - p
  {
    if p == |s| then p else if Parallelize.Closes(s[p].data, rank) then p + 1 else GroupEnd(s, p + 1, rank)
  }

  function Datas<T>(s: seq<ChannelElement<T>>): (d: seq<Elem<T>>)
    ensures |d| == |s| && forall k :: 0 <= k < |s| ==> d[k] == s[k].data
  {
    seq(|s|, k requires 0 <= k < |s| => s[k].data)
  }

  /** The merged output, the stream each output element came from, and how far each stream is read. */
  datatype Cursor<T> = Cursor(out: seq<Elem<T>>, from: seq<nat>, pos: seq<nat>)

  /** The merge for the arbitration order `chosen`: each choice takes the next group of its stream. */
  function Merge<T>(streams: seq<seq<ChannelElement<T>>>, rank: nat, chosen: seq<nat>): (c: Cursor<T>)
    requires forall k :: 0 <= k < |chosen| ==> chosen[k] < |streams|
    ensures |c.out| == |c.from| && |c.pos| == |streams| && forall i :: 0 <= i < |streams| ==> c.pos[i] <= |streams[i]|
  {
    if chosen == [] then Cursor([], [], seq(|streams|, _ => 0))
    else
      var prev := Merge(streams, rank, chosen[..|chosen| - 1]);
      var i := chosen[|chosen| - 1];
      var e := GroupEnd(streams[i], prev.pos[i], rank);
      var group := Datas(streams[i][prev.pos[i]..e]);
      Cursor(prev.out + group, prev.from + seq(|group|, _ => i), prev.pos[i := e])
  }

  /** The elements of `out` that came from stream `i`, in order. */
  function Proj<T>(out: seq<Elem<T>>, from: seq<nat>, i: nat): seq<Elem<T>>
    requires |out| == |from|
  {
    if out == [] then []
    else Proj(out[..|out| - 1], from[..|from| - 1], i) + if from[|from| - 1] == i then [out[|out| - 1]] else []
  }

  lemma {:induction false} ProjAppend<T>(a: seq<Elem<T>>, fa: seq<nat>, b: seq<Elem<T>>, fb: seq<nat>, i: nat)
    requires |a| == |fa| && |b| == |fb|
    ensures Proj(a + b, fa + fb, i) == Proj(a, fa, i) + Proj(b, fb, i)
    decreases |b|
  {
    if b != [] {
      var b', fb' := b[..|b| - 1], fb[..|fb| - 1];
      assert (a + b)[..|a + b| - 1] == a + b' && (fa + fb)[..|fa + fb| - 1] == fa + fb';
      ProjAppend(a, fa, b', fb', i);
    } else {
      assert a + b == a && fa + fb == fa;
    }
  }

  lemma {:induction false} ProjConst<T>(b: seq<Elem<T>>, j: nat, i: nat)
    ensures Proj(b, seq(|b|, _ => j), i) == if i == j then b else []
    decreases |b|
  {
    if b != [] {
      var b' := b[..|b| - 1];
      assert seq(|b|, _ => j)[..|b| - 1] == seq(|b'|, _ => j);
      ProjConst(b', j, i);
    }
  }

  /** The merge for one more choice: the chosen stream's next group is appended and its position moves past it. */
  lemma MergeStep<T>(streams: seq<seq<ChannelElement<T>>>, rank: nat, chosen: seq<nat>, i: nat)
    requires (forall k :: 0 <= k < |chosen| ==> chosen[k] < |streams|) && i < |streams|
    ensures var prev := Merge(streams, rank, chosen);
      var e := GroupEnd(streams[i], prev.pos[i], rank);
      var group := Datas(streams[i][prev.pos[i]..e]);
      Merge(streams, rank, chosen + [i]) == Cursor(prev.out + group, prev.from + seq(|group|, _ => i), prev.pos[i := e])
  {
    assert (chosen + [i])[..|chosen|] == chosen;
  }

  lemma DatasSplit<T>(s: seq<ChannelElement<T>>, a: nat, b: nat)
    requires a <= b <= |s|
    ensures Datas(s[..b]) == Datas(s[..a]) + Datas(s[a..b])
  {
    assert s[..b] == s[..a] + s[a..b];
  }

  /**
   * Nothing is lost, duplicated or reordered: the elements the merge took from stream `i` are,
   * in output order, exactly that stream's elements up to how far it is read.
   */
  lemma {:induction false} MergeProjection<T>(streams: seq<seq<ChannelElement<T>>>, rank: nat, chosen: seq<nat>, i: nat)
    requires (forall k :: 0 <= k < |chosen| ==> chosen[k] < |streams|) && i < |streams|
    ensures var c := Merge(streams, rank, chosen); Proj(c.out, c.from, i) == Datas(streams[i][..c.pos[i]])
    decreases |chosen|
  {
    if chosen != [] {
      var init := chosen[..|chosen| - 1];
      var j := chosen[|chosen| - 1];
      assert chosen == init + [j];
      var prev := Merge(streams, rank, init);
      MergeProjection(streams, rank, init, i);
      MergeStep(streams, rank, init, j);
      var e := GroupEnd(streams[j], prev.pos[j], rank);
      var group := Datas(streams[j][prev.pos[j]..e]);
      ProjAppend(prev.out, prev.from, group, seq(|group|, _ => j), i);
      ProjConst(group, j, i);
      if i == j {
        DatasSplit(streams[j], prev.pos[j], e);
      }
    }
  }

  /** Elements left in the streams `0 .. k - 1` past the positions `pos`. */
  function Left<T>(streams: seq<seq<ChannelElement<T>>>, pos: seq<nat>, k: nat): nat
    requires k <= |streams| == |pos|
  {
    if k == 0 then 0 else Left(streams, pos, k - 1) + (if pos[k - 1] < |streams[k - 1]| then |streams[k - 1]| - pos[k - 1] else 0)
  }

  lemma {:induction false} LeftDecreases<T>(streams: seq<seq<ChannelElement<T>>>, pos: seq<nat>, i: nat, e: nat, k: nat)
    requires k <= |streams| == |pos| && i < |streams| && pos[i] <= e <= |streams[i]|
    ensures Left(streams, pos[i := e], k) + (if i < k then e - pos[i] else 0) == Left(streams, pos, k)
    decreases k
  {
    if k > 0 {
      LeftDecreases(streams, pos, i, e, k - 1);
    }
  }

  /** The selector naming stream `i` among `n`: a one-hot vector. */
  function OneHot(i: nat, n: nat): (m: MultiHot)
    ensures |m.underlying| == n && forall j :: 0 <= j < n ==> (m.underlying[j] <==> j == i)
  {
    MultiHot(HotFlags([i], n), false)
  }

  /** The selector stream and the merged stream. */
  datatype Merged<T> = Merged(sel: seq<ChannelElement<MultiHot>>, out: seq<ChannelElement<T>>)

  /** A group forwarded from one stream: the elements sent, the position reached, the clock, and whether the stream closed first. */
  datatype Forward<T> = Forward(sent: seq<ChannelElement<T>>, end: nat, now: nat, closed: bool)

  /**
   * The forwarding loop of `run` for the chosen stream `s` from position `start`: each element is
   * sent unchanged once it has arrived, one cycle apart, until the element closing the group; the
   * stream closing first ends the group too, and a stop above the rank fails.
   */
  method ForwardGroup<T>(s: seq<ChannelElement<T>>, start: nat, rank: nat, now0: nat) returns (r: Result<Forward<T>>)
    requires start <= |s|
    ensures r.Ok? ==> r.value.end == GroupEnd(s, start, rank) && Datas(r.value.sent) == Datas(s[start..r.value.end])
                      && (r.value.closed <==> !(start < r.value.end && Parallelize.Closes(s[r.value.end - 1].data, rank)))
    ensures r.Err? ==> exists p :: start <= p < |s| && Parallelize.TooHigh(s[p].data, rank)
  {
    var pos := start;
    var now := now0;
    var sent: seq<ChannelElement<T>> := [];
    while true
      invariant start <= pos <= |s| && GroupEnd(s, start, rank) == GroupEnd(s, pos, rank)
      invariant Datas(sent) == Datas(s[start..pos])
      invariant forall p :: start <= p < pos ==> !Parallelize.Closes(s[p].data, rank)
      decreases |s| - pos
    {
      if pos == |s| {
        return Ok(Forward(sent, pos, now, true));
      }
      var x := s[pos];
      now := Max(now, x.time);
      sent := sent + [ChannelElement(x.data, now)];
      assert s[start..pos + 1] == s[start..pos] + [x];
      pos := pos + 1;
      if Parallelize.Closes(x.data, rank) {
        return Ok(Forward(sent, pos, now, false));
      }
      if Parallelize.TooHigh(x.data, rank) {
        return Err(StopAboveRank);
      }
      now := now + 1;
    }
  }

  /**
   * `EagerMerge::run`: choose a stream, emit its selector, forward its group; stop when every stream
   * is closed or the chosen stream closes within a group. `visible(i, p, t)` tells whether element
   * `p` of stream `i` (its end when `p` is the stream's length) has reached the channel by time `t`;
   * from `horizon` on everything has. The ghost `chosen` is the arbitration order.
   */
  method Run<T>(streams: seq<seq<ChannelElement<T>>>, visible: (nat, nat, nat) -> bool, rank: nat, ghost horizon: nat)
    returns (r: Result<Merged<T>>, ghost chosen: seq<nat>)
    requires forall i, p, t :: 0 <= i < |streams| && horizon <= t ==> visible(i, p, t)
    ensures r.Ok? ==> Emitted(streams, rank, chosen, r.value)
    ensures r.Ok? ==> Drained(streams, Merge(streams, rank, chosen).pos) || CutShort(streams, rank, chosen)
    ensures r.Err? ==> exists i, p :: 0 <= i < |streams| && 0 <= p < |streams[i]| && Parallelize.TooHigh(streams[i][p].data, rank)
  {
    var n := |streams|;
    var pos: seq<nat> := seq(n, _ => 0);
    var sel: seq<ChannelElement<MultiHot>> := [];
    var out: seq<ChannelElement<T>> := [];
    var now: nat := 0;
    chosen := [];
    while true
      invariant Emitted(streams, rank, chosen, Merged(sel, out)) && pos == Merge(streams, rank, chosen).pos
      decreases Left(streams, pos, n)
    {
      var idx, after := Choose(streams, pos, visible, now, horizon);
      now := after;
      if idx.None? {
        return Ok(Merged(sel, out)), chosen;
      }
      var i := idx.value;
      var choice := ChannelElement(Val(OneHot(i, n)), now);
      sel := sel + [choice];
      var fwd := ForwardGroup(streams[i], pos[i], rank, now);
      if fwd.Err? {
        return Err(fwd.msg), chosen;
      }
      Advance(streams, rank, chosen, i, pos, sel[..|sel| - 1], out, choice, fwd.value);
      out := out + fwd.value.sent;
      pos := pos[i := fwd.value.end];
      chosen := chosen + [i];
      now := fwd.value.now;
      if fwd.value.closed {
        return Ok(Merged(sel, out)), chosen;
      }
    }
  }

  /** One turn of the run: the chosen stream's group is forwarded, the order grows by that choice, and less is left. */
  lemma Advance<T>(streams: seq<seq<ChannelElement<T>>>, rank: nat, chosen: seq<nat>, i: nat, pos: seq<nat>,
                   sel: seq<ChannelElement<MultiHot>>, out: seq<ChannelElement<T>>, choice: ChannelElement<MultiHot>, f: Forward<T>)
    requires Emitted(streams, rank, chosen, Merged(sel, out)) && pos == Merge(streams, rank, chosen).pos
    requires i < |streams| && pos[i] < |streams[i]| && choice.data == Val(OneHot(i, |streams|))
    requires f.end == GroupEnd(streams[i], pos[i], rank) && Datas(f.sent) == Datas(streams[i][pos[i]..f.end])
    requires f.closed <==> !(pos[i] < f.end && Parallelize.Closes(streams[i][f.end - 1].data, rank))
    ensures Emitted(streams, rank, chosen + [i], Merged(sel + [choice], out + f.sent))
    ensures pos[i := f.end] == Merge(streams, rank, chosen + [i]).pos
    ensures Left(streams, pos[i := f.end], |streams|) < Left(streams, pos, |streams|)
    ensures f.closed ==> CutShort(streams, rank, chosen + [i])
  {
    RunStep(streams, rank, chosen, i, pos, out, f.sent, f.end);
    EmittedStep(streams, rank, chosen, i, sel, out, choice, f.sent);
    if f.closed {
      RunsOut(streams, rank, chosen, i, f.end);
    }
    LeftDecreases(streams, pos, i, f.end, |streams|);
  }

  /**
   * The run so far follows the arbitration order `chosen`: one selector per choice naming the
   * chosen stream, each choice a stream with an element left, and the merged output that of `Merge`.
   */
  ghost predicate Emitted<T>(streams: seq<seq<ChannelElement<T>>>, rank: nat, chosen: seq<nat>, m: Merged<T>)
  {
    Fair(streams, rank, chosen)
    && |m.sel| == |chosen| && (forall k :: 0 <= k < |chosen| ==> m.sel[k].data == Val(OneHot(chosen[k], |streams|)))
    && Datas(m.out) == Merge(streams, rank, chosen).out
  }

  /** Choosing stream `i` with an element left and forwarding its group keeps the run following the order. */
  lemma EmittedStep<T>(streams: seq<seq<ChannelElement<T>>>, rank: nat, chosen: seq<nat>, i: nat, sel: seq<ChannelElement<MultiHot>>,
                       out: seq<ChannelElement<T>>, choice: ChannelElement<MultiHot>, sent: seq<ChannelElement<T>>)
    requires Emitted(streams, rank, chosen, Merged(sel, out)) && i < |streams| && Merge(streams, rank, chosen).pos[i] < |streams[i]|
    requires choice.data == Val(OneHot(i, |streams|)) && Datas(out + sent) == Merge(streams, rank, chosen + [i]).out
    ensures Emitted(streams, rank, chosen + [i], Merged(sel + [choice], out + sent))
  {
    FairSnoc(streams, rank, chosen, i);
  }

  /** Forwarding the chosen stream's group keeps the output and the positions equal to the merge's. */
  lemma RunStep<T>(streams: seq<seq<ChannelElement<T>>>, rank: nat, chosen: seq<nat>, i: nat, pos: seq<nat>,
                   out: seq<ChannelElement<T>>, sent: seq<ChannelElement<T>>, end: nat)
    requires (forall k :: 0 <= k < |chosen| ==> chosen[k] < |streams|) && i < |streams|
    requires pos == Merge(streams, rank, chosen).pos && Datas(out) == Merge(streams, rank, chosen).out
    requires end == GroupEnd(streams[i], pos[i], rank) && Datas(sent) == Datas(streams[i][pos[i]..end])
    ensures pos[i := end] == Merge(streams, rank, chosen + [i]).pos && Datas(out + sent) == Merge(streams, rank, chosen + [i]).out
  {
    MergeStep(streams, rank, chosen, i);
    DatasAppend(out, sent);
  }

  lemma DatasAppend<T>(a: seq<ChannelElement<T>>, b: seq<ChannelElement<T>>)
    ensures Datas(a + b) == Datas(a) + Datas(b)
  {
  }

  /** One call of `get_earliest_input_idx` on the streams read up to `pos`; a chosen stream has an element left. */
  method Choose<T>(streams: seq<seq<ChannelElement<T>>>, pos: seq<nat>, visible: (nat, nat, nat) -> bool, now0: nat, ghost horizon: nat)
    returns (idx: Option<nat>, now: nat)
    requires |pos| == |streams| && forall i, p, t :: 0 <= i < |streams| && horizon <= t ==> visible(i, p, t)
    requires forall i :: 0 <= i < |streams| ==> pos[i] <= |streams[i]|
    ensures now0 <= now && (idx.Some? ==> idx.value < |streams| && pos[idx.value] < |streams[idx.value]|)
    ensures idx.None? ==> Drained(streams, pos)
  {
    var peek := (i: nat, t: nat) => PeekAt(streams, pos, visible, i, t);
    forall i, t | 0 <= i < |streams| && horizon <= t
      ensures peek(i, t) != Nothing
    {}
    var s;
    idx, now, s := GetEarliestInputIdx(|streams|, peek, now0, horizon);
    if idx.Some? {
      var k := idx.value;
      assert s.seen[k] == Some(Something(s.earliest.value.time));
      assert peek(k, s.at[k]) == Something(s.earliest.value.time);
    } else {
      forall i | 0 <= i < |streams| ensures pos[i] == |streams[i]| {
        assert peek(i, s.at[i]) == Closed;
      }
    }
  }

  /** Every stream of `pos` is read to its end. */
  predicate Drained<T>(streams: seq<seq<ChannelElement<T>>>, pos: seq<nat>)
  {
    |pos| == |streams| && forall i :: 0 <= i < |streams| ==> pos[i] == |streams[i]|
  }

  /** Every choice names a stream that still had an element left when it was chosen. */
  predicate Fair<T>(streams: seq<seq<ChannelElement<T>>>, rank: nat, chosen: seq<nat>)
    ensures Fair(streams, rank, chosen) ==> forall k :: 0 <= k < |chosen| ==> chosen[k] < |streams|
    decreases |chosen|
  {
    chosen == [] ||
    var prev, i := chosen[..|chosen| - 1], chosen[|chosen| - 1];
    Fair(streams, rank, prev) && i < |streams| && Merge(streams, rank, prev).pos[i] < |streams[i]|
  }

  /** The last chosen stream ran out in the middle of its group: it is read to its end, which closes no group. */
  predicate CutShort<T>(streams: seq<seq<ChannelElement<T>>>, rank: nat, chosen: seq<nat>)
    requires forall k :: 0 <= k < |chosen| ==> chosen[k] < |streams|
  {
    |chosen| > 0 &&
    var i := chosen[|chosen| - 1];
    0 < |streams[i]| == Merge(streams, rank, chosen).pos[i] && !Parallelize.Closes(streams[i][|streams[i]| - 1].data, rank)
  }

  /** A group that ends without a closing element ends the stream: the run stops cut short. */
  lemma RunsOut<T>(streams: seq<seq<ChannelElement<T>>>, rank: nat, chosen: seq<nat>, i: nat, end: nat)
    requires (forall k :: 0 <= k < |chosen| ==> chosen[k] < |streams|) && i < |streams|
    requires Merge(streams, rank, chosen).pos[i] < |streams[i]|
    requires end == GroupEnd(streams[i], Merge(streams, rank, chosen).pos[i], rank)
    requires !(Merge(streams, rank, chosen).pos[i] < end && Parallelize.Closes(streams[i][end - 1].data, rank))
    ensures CutShort(streams, rank, chosen + [i])
  {
    var c := chosen + [i];
    assert c[..|c| - 1] == chosen && c[|c| - 1] == i;
  }

  lemma FairSnoc<T>(streams: seq<seq<ChannelElement<T>>>, rank: nat, chosen: seq<nat>, i: nat)
    requires Fair(streams, rank, chosen) && i < |streams| && Merge(streams, rank, chosen).pos[i] < |streams[i]|
    ensures Fair(streams, rank, chosen + [i])
  {
    var c := chosen + [i];
    assert c[..|chosen|] == chosen;
  }
}
