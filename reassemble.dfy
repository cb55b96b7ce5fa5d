/**
 * `FlatReassemble`: the inverse of `FlatPartition`. For each selector token (a multi-hot vector) it
 * waits until every selected stream shows a head element, then drains one group from each selected
 * stream, earliest head first (selection order on ties). A group is one element at rank 0, and
 * otherwise runs up to a stop of at least the reassemble rank. Only the last stream served closes
 * the token's dimension: its closing stop is raised by the selector's own stop plus one.
 */
module Reassemble {
  import opened Wrappers
  import opened Calc
  import opened Elems
  import opened Tiles
  import opened Roofline
  import opened Select
  import Partition

  const AllClosed := "All input streams are closed or empty"
  const StreamClosed := "Stream is closed or empty"
  const OutOfRange := "index out of bounds"

  type Stream = seq<ChannelElement<Tile>>

  // ---------------------------------------------------------------------------------------------
  // The serving order

  /** Selection entry `a` is served before entry `b`: its head arrived earlier, or at the same time and it is selected first. */
  predicate Before(times: seq<nat>, a: nat, b: nat)
    requires a < |times| && b < |times|
  {
    times[a] < times[b] || (times[a] == times[b] && a < b)
  }

  /** `order` lists the first `n` selection entries, each once, in serving order. */
  predicate ServesInOrder(times: seq<nat>, n: nat, order: seq<nat>)
    requires n <= |times|
  {
    |order| == n
    && (forall x: nat :: x < n ==> x in order)
    && (forall k :: 0 <= k < |order| ==> order[k] < n)
    && (forall k, l :: 0 <= k < l < |order| ==> Before(times, order[k], order[l]))
  }

  /** Where an entry with head time `t` goes in `order` from position `p` on: past every entry whose head arrived no later. */
  function PlaceFrom(times: seq<nat>, order: seq<nat>, t: nat, p: nat): (q: nat)
    requires p <= |order| && forall k :: 0 <= k < |order| ==> order[k] < |times|
    ensures p <= q <= |order|
    decreases |order| - p
  {
    if p == |order| || times[order[p]] > t then p else PlaceFrom(times, order, t, p + 1)
  }

  /**
   * The first `i` selection entries sorted by head time, as a stable sort leaves them: each entry is
   * placed after every earlier entry whose head arrived no later than its own.
   */
  function SortedFirst(times: seq<nat>, i: nat): (order: seq<nat>)
    requires i <= |times|
    ensures |order| == i && forall k :: 0 <= k < i ==> order[k] < i
  {
    if i == 0 then []
    else
      var o := SortedFirst(times, i - 1);
      var p := PlaceFrom(times, o, times[i - 1], 0);
      o[..p] + [i - 1] + o[p..]
  }

  /** The order `sort_by_key` leaves the selection entries in. */
  function Order(times: seq<nat>): (order: seq<nat>)
  {
    SortedFirst(times, |times|)
  }

  /** Entries before the place arrived no later than `t`; the entry at the place arrived later. */
  lemma {:induction false} PlaceFromBounds(times: seq<nat>, order: seq<nat>, t: nat, p: nat)
    requires p <= |order| && forall k :: 0 <= k < |order| ==> order[k] < |times|
    requires forall k :: 0 <= k < p ==> times[order[k]] <= t
    ensures var q := PlaceFrom(times, order, t, p);
            (forall k :: 0 <= k < q ==> times[order[k]] <= t) && (q < |order| ==> times[order[q]] > t)
    decreases |order| - p
  {
    if p < |order| && times[order[p]] <= t {
      PlaceFromBounds(times, order, t, p + 1);
    }
  }

  /** A stable sort by head time: every entry appears once, earlier heads first, selection order on ties. */
  lemma {:induction false} SortedFirstServesInOrder(times: seq<nat>, i: nat)
    requires i <= |times|
    ensures ServesInOrder(times, i, SortedFirst(times, i))
  {
    if i > 0 {
      var o := SortedFirst(times, i - 1);
      SortedFirstServesInOrder(times, i - 1);
      var p := PlaceFrom(times, o, times[i - 1], 0);
      PlaceFromBounds(times, o, times[i - 1], 0);
      InsertServesInOrder(times, i - 1, o, p);
    }
  }

  /** Placing entry `i` after the entries arrived no later keeps the serving order. */
  lemma InsertServesInOrder(times: seq<nat>, i: nat, o: seq<nat>, p: nat)
    requires i < |times| && ServesInOrder(times, i, o) && p <= |o|
    requires forall k :: 0 <= k < p ==> times[o[k]] <= times[i]
    requires p < |o| ==> times[o[p]] > times[i]
    ensures ServesInOrder(times, i + 1, o[..p] + [i] + o[p..])
  {
    var r := o[..p] + [i] + o[p..];
    var t := times[i];
    assert forall k :: p <= k < |o| ==> times[o[k]] > t by {
      forall k | p <= k < |o| ensures times[o[k]] > t {
        if k > p { assert Before(times, o[p], o[k]); }
      }
    }
    InsertMembers(o, p, i);
    forall k, l | 0 <= k < l < |r| ensures Before(times, r[k], r[l]) {
      if l < p {
        assert r[k] == o[k] && r[l] == o[l];
      } else if l == p {
        assert r[k] == o[k] && r[l] == i;
      } else if k < p {
        assert r[k] == o[k] && r[l] == o[l - 1];
      } else if k == p {
        assert r[k] == i && r[l] == o[l - 1];
      } else {
        assert r[k] == o[k - 1] && r[l] == o[l - 1];
      }
    }
  }

  lemma InsertMembers(o: seq<nat>, p: nat, i: nat)
    requires p <= |o| && |o| == i && forall x: nat :: x < i ==> x in o
    ensures forall x: nat :: x < i + 1 ==> x in o[..p] + [i] + o[p..]
  {
    forall x: nat | x < i
      ensures x in o[..p] + [i] + o[p..]
    {
      assert x in o;
      assert o == o[..p] + o[p..];
    }
  }

  /** `sorted_indices`: every selection entry once, in ascending order of head time, stable on ties. */
  lemma OrderServesInOrder(times: seq<nat>)
    ensures ServesInOrder(times, |times|, Order(times))
  {
    SortedFirstServesInOrder(times, |times|);
  }

  /** `sort_by_key` on the selection entries: each entry is inserted after the entries whose heads arrived no later. */
  method SortByArrival(times: seq<nat>) returns (order: seq<nat>)
    ensures order == Order(times)
    ensures ServesInOrder(times, |times|, order)
  {
    order := [];
    var i := 0;
    while i < |times|
      invariant i <= |times| && order == SortedFirst(times, i)
    {
      var p := 0;
      while p < |order| && times[order[p]] <= times[i]
        invariant p <= |order| && PlaceFrom(times, order, times[i], p) == PlaceFrom(times, order, times[i], 0)
      {
        p := p + 1;
      }
      order := order[..p] + [i] + order[p..];
      i := i + 1;
    }
    OrderServesInOrder(times);
  }

  /** Only the entry served last is the last of `sorted_indices`: the order lists every entry once. */
  lemma LastServedOnly(times: seq<nat>, order: seq<nat>, k: nat)
    requires ServesInOrder(times, |times|, order) && k < |order|
    ensures order[|order| - 1] == order[k] <==> k == |order| - 1
  {
    if k < |order| - 1 {
      assert Before(times, order[k], order[|order| - 1]);
    }
  }

  // ---------------------------------------------------------------------------------------------
  // One element, one group

  /** The group drained from a selected stream ends at this element: a plain value at rank 0, or a stop of at least the rank. */
  predicate Ends(e: Elem<Tile>, rank: nat)
  {
    (e.Val? && rank == 0) || (e.ValStop? && e.level >= rank)
  }

  /**
   * The element sent for `e`, its tile carrying the write-back flag. At rank 0 it is a plain value,
   * except in the stream served last, which closes with the input stop plus `addRank + 1`. At a
   * higher rank the element keeps its shape, except the closing stop of the stream served last,
   * which is raised the same way.
   */
  function Rewritten(e: Elem<Tile>, rank: nat, addRank: nat, last: bool, writeBackMu: bool): Elem<Tile>
  {
    var x := CloneWithReadFromMu(e.v, writeBackMu);
    if rank == 0 then (if last then ValStop(x, Level(e) + addRank + 1) else Val(x))
    else if e.Val? then Val(x)
    else if last && e.level >= rank then ValStop(x, e.level + addRank + 1)
    else ValStop(x, e.level)
  }

  /**
   * The clock once `e` is forwarded: the operator waits for the element, then for its load, which
   * starts at the arrival `head` of the group's first element and takes the stream's switching
   * cost plus the read from the memory unit, then writes the tile back when configured.
   */
  function SendTime(now: nat, e: ChannelElement<Tile>, head: nat, switch: nat, writeBackMu: bool): (t: nat)
    ensures t >= now
  {
    Max(Max(now, e.time), head + switch + LoadCycles(e.data.v)) + StoreCycles(e.data.v, writeBackMu)
  }

  /** A drained group: the elements sent, the input elements used, the clock afterwards. */
  datatype Served = Served(sent: Stream, used: nat, now: nat)

  /** `r` preceded by the elements `sent`, one per input element. */
  function Prepend(sent: Stream, r: Result<Served>): Result<Served>
  {
    if r.Err? then r else Ok(Served(sent + r.value.sent, |sent| + r.value.used, r.value.now))
  }

  /** The inner `loop` of `process_input_stream`: one group of `stream` from position `j`; the stream closing first is a failure. */
  function GroupFrom(stream: Stream, j: nat, head: nat, switch: nat, rank: nat, addRank: nat, last: bool,
                     writeBackMu: bool, now: nat): (r: Result<Served>)
    requires j <= |stream|
    ensures r.Ok? ==> 1 <= r.value.used <= |stream| - j && |r.value.sent| == r.value.used && r.value.now >= now
    decreases |stream| - j
  {
    if j == |stream| then Err(StreamClosed)
    else
      var e := stream[j];
      var t := SendTime(now, e, head, switch, writeBackMu);
      var c := ChannelElement(Rewritten(e.data, rank, addRank, last, writeBackMu), t);
      if Ends(e.data, rank) then Ok(Served([c], 1, t))
      else Prepend([c], GroupFrom(stream, j + 1, head, switch, rank, addRank, last, writeBackMu, t))
  }

  // ---------------------------------------------------------------------------------------------
  // One selector token

  /** Stream `idx` exists and has an element left at its position. */
  predicate HeadReady(streams: seq<Stream>, pos: seq<nat>, idx: nat)
    requires |pos| == |streams|
  {
    idx < |streams| && pos[idx] < |streams[idx]|
  }

  /** Every selected stream exists and has an element left. */
  predicate Ready(streams: seq<Stream>, pos: seq<nat>, sv: seq<nat>)
    requires |pos| == |streams|
  {
    forall k :: 0 <= k < |sv| ==> HeadReady(streams, pos, sv[k])
  }

  /** The failure the peek meets first, scanning the selection from entry `k`: an index past the streams, or a closed stream. */
  function PeekErrorFrom(streams: seq<Stream>, pos: seq<nat>, sv: seq<nat>, k: nat): (e: Option<string>)
    requires |pos| == |streams| && k <= |sv|
    decreases |sv| - k
  {
    if k == |sv| then None
    else if sv[k] >= |streams| then Some(OutOfRange)
    else if pos[sv[k]] >= |streams[sv[k]]| then Some(AllClosed)
    else PeekErrorFrom(streams, pos, sv, k + 1)
  }

  /** The peek fails exactly when some selected stream from entry `k` on is missing or closed. */
  lemma {:induction false} PeekErrorNone(streams: seq<Stream>, pos: seq<nat>, sv: seq<nat>, k: nat)
    requires |pos| == |streams| && k <= |sv|
    ensures PeekErrorFrom(streams, pos, sv, k).None? <==> forall m :: k <= m < |sv| ==> HeadReady(streams, pos, sv[m])
    decreases |sv| - k
  {
    if k < |sv| {
      PeekErrorNone(streams, pos, sv, k + 1);
    }
  }

  /** The arrival times of the selected streams' heads, in selection order. */
  function Heads(streams: seq<Stream>, pos: seq<nat>, sv: seq<nat>): (times: seq<nat>)
    requires |pos| == |streams| && Ready(streams, pos, sv)
    ensures |times| == |sv|
  {
    seq(|sv|, k requires 0 <= k < |sv| => streams[sv[k]][pos[sv[k]]].time)
  }

  /** The latest of the times; 0 for none. */
  function Latest(times: seq<nat>): (m: nat)
    ensures forall k :: 0 <= k < |times| ==> times[k] <= m
  {
    if times == [] then 0
    else
      var prev := Latest(times[..|times| - 1]);
      assert forall k :: 0 <= k < |times| - 1 ==> times[..|times| - 1][k] == times[k];
      Max(prev, times[|times| - 1])
  }

  /** The latest time is the least bound of the times. */
  lemma {:induction false} LatestLeast(times: seq<nat>, x: nat)
    requires forall k :: 0 <= k < |times| ==> times[k] <= x
    ensures Latest(times) <= x
    decreases |times|
  {
    if times != [] {
      LatestLeast(times[..|times| - 1], x);
    }
  }

  /** Every position lies within its stream. */
  predicate Positions(streams: seq<Stream>, pos: seq<nat>)
  {
    |pos| == |streams| && forall j :: 0 <= j < |streams| ==> pos[j] <= |streams[j]|
  }

  /** The streams' positions, the clock, and the output so far. */
  datatype Cursor = Cursor(pos: seq<nat>, now: nat, out: Stream)

  /** The selected indices name streams that exist and have a switching cost. */
  predicate Selects(streams: seq<Stream>, switchCycles: seq<nat>, sv: seq<nat>)
  {
    forall m :: 0 <= m < |sv| ==> sv[m] < |streams| && sv[m] < |switchCycles|
  }

  /** Draining one group from each selected stream, from the `k`-th in serving order on. */
  function ServeFrom(streams: seq<Stream>, sv: seq<nat>, times: seq<nat>, order: seq<nat>, k: nat, rank: nat,
                     addRank: nat, switchCycles: seq<nat>, writeBackMu: bool, c: Cursor): (r: Result<Cursor>)
    requires Positions(streams, c.pos) && Selects(streams, switchCycles, sv) && |times| == |sv| && k <= |order|
    requires forall m :: 0 <= m < |order| ==> order[m] < |sv|
    ensures r.Ok? ==> Positions(streams, r.value.pos)
    decreases |order| - k
  {
    if k == |order| then Ok(c)
    else
      var idx := sv[order[k]];
      var g := GroupFrom(streams[idx], c.pos[idx], times[order[k]], switchCycles[idx], rank, addRank,
                         k == |order| - 1, writeBackMu, c.now);
      if g.Err? then Err(g.msg)
      else
        ServeFrom(streams, sv, times, order, k + 1, rank, addRank, switchCycles, writeBackMu,
                  Cursor(c.pos[idx := c.pos[idx] + g.value.used], g.value.now, c.out + g.value.sent))
  }

  /**
   * `process_input_stream` for the selection `sv`: wait until every selected stream shows its head
   * (a missing stream or a closed one, or an empty selection, is a failure), then serve the streams
   * in order of head arrival.
   */
  function Serve(streams: seq<Stream>, sv: seq<nat>, addRank: nat, rank: nat, switchCycles: seq<nat>,
                 writeBackMu: bool, c: Cursor): (r: Result<Cursor>)
    requires Positions(streams, c.pos)
    ensures r.Ok? ==> Positions(streams, r.value.pos)
  {
    var e := PeekErrorFrom(streams, c.pos, sv, 0);
    if e.Some? then Err(e.value)
    else if sv == [] then Err(AllClosed)
    else if !Selects(streams, switchCycles, sv) then Err(OutOfRange)
    else
      PeekErrorNone(streams, c.pos, sv, 0);
      var times := Heads(streams, c.pos, sv);
      var order := Order(times);
      OrderServesInOrder(times);
      ServeFrom(streams, sv, times, order, 0, rank, addRank, switchCycles, writeBackMu,
                c.(now := Max(c.now, Latest(times))))
  }

  /** One selector token: wait for it, load it, then serve the streams it selects; its stop, if any, is `addRank`. */
  function TokenStep(streams: seq<Stream>, s: ChannelElement<MultiHot>, rank: nat, switchCycles: seq<nat>,
                     writeBackMu: bool, c: Cursor): (r: Result<Cursor>)
    requires Positions(streams, c.pos)
    ensures r.Ok? ==> Positions(streams, r.value.pos)
  {
    Serve(streams, Partition.SelVec(s.data.v), Level(s.data), rank, switchCycles, writeBackMu,
          c.(now := Max(c.now, s.time) + Partition.SelLoad(s.data.v)))
  }

  /** `run` from selector token `si`: one token after another until the selector stream closes. */
  function RunFrom(sel: seq<ChannelElement<MultiHot>>, si: nat, streams: seq<Stream>, rank: nat,
                   switchCycles: seq<nat>, writeBackMu: bool, c: Cursor): (r: Result<Cursor>)
    requires si <= |sel| && Positions(streams, c.pos)
    decreases |sel| - si
  {
    if si == |sel| then Ok(c)
    else
      var t := TokenStep(streams, sel[si], rank, switchCycles, writeBackMu, c);
      if t.Err? then t else RunFrom(sel, si + 1, streams, rank, switchCycles, writeBackMu, t.value)
  }

  /** Nothing read, nothing sent, at time 0. */
  function Start(streams: seq<Stream>): (c: Cursor)
    ensures Positions(streams, c.pos)
  {
    Cursor(seq(|streams|, _ => 0), 0, [])
  }

  // ---------------------------------------------------------------------------------------------
  // The operator

  /**
   * The inner `loop` of `process_input_stream`: forwards elements of one stream, each rewritten
   * and stamped with the clock, until one ends the group; the stream closing first is a failure.
   */
  method DrainGroup(stream: Stream, j0: nat, head: nat, switch: nat, rank: nat, addRank: nat, last: bool,
                    writeBackMu: bool, now0: nat) returns (r: Result<Served>)
    requires j0 <= |stream|
    ensures r == GroupFrom(stream, j0, head, switch, rank, addRank, last, writeBackMu, now0)
  {
    ghost var whole := GroupFrom(stream, j0, head, switch, rank, addRank, last, writeBackMu, now0);
    var sent: Stream := [];
    var j: nat, now: nat := j0, now0;
    PrependNothing(whole);
    while true
      invariant j0 <= j <= |stream| && |sent| == j - j0
      invariant whole == Prepend(sent, GroupFrom(stream, j, head, switch, rank, addRank, last, writeBackMu, now))
      decreases |stream| - j
    {
      if j == |stream| {
        return Err(StreamClosed);
      }
      var e := stream[j];
      var t := Max(now, e.time);
      t := Max(t, head + switch + if e.data.v.readFromMu then DivCeil(SizeInBytes(e.data.v), PmuBw) else 0);
      if writeBackMu {
        t := t + DivCeil(SizeInBytes(e.data.v), PmuBw);
      }
      var c := ChannelElement(Rewritten(e.data, rank, addRank, last, writeBackMu), t);
      GroupStep(stream, j, head, switch, rank, addRank, last, writeBackMu, now, sent, c);
      if Ends(e.data, rank) {
        return Ok(Served(sent + [c], j + 1 - j0, t));
      }
      sent, j, now := sent + [c], j + 1, t;
    }
  }

  lemma PrependNothing(r: Result<Served>)
    ensures Prepend([], r) == r
  {
    if r.Ok? {
      assert [] + r.value.sent == r.value.sent;
    }
  }

  /** One element of a group: it ends the group, or it is sent before the rest of the group. */
  lemma GroupStep(stream: Stream, j: nat, head: nat, switch: nat, rank: nat, addRank: nat, last: bool,
                  writeBackMu: bool, now: nat, sent: Stream, c: ChannelElement<Tile>)
    requires j < |stream|
    requires c == ChannelElement(Rewritten(stream[j].data, rank, addRank, last, writeBackMu),
                                 SendTime(now, stream[j], head, switch, writeBackMu))
    ensures Ends(stream[j].data, rank) ==>
              Prepend(sent, GroupFrom(stream, j, head, switch, rank, addRank, last, writeBackMu, now))
              == Ok(Served(sent + [c], |sent| + 1, c.time))
    ensures !Ends(stream[j].data, rank) ==>
              Prepend(sent, GroupFrom(stream, j, head, switch, rank, addRank, last, writeBackMu, now))
              == Prepend(sent + [c], GroupFrom(stream, j + 1, head, switch, rank, addRank, last, writeBackMu, c.time))
  {
    if !Ends(stream[j].data, rank) {
      var rest := GroupFrom(stream, j + 1, head, switch, rank, addRank, last, writeBackMu, c.time);
      assert GroupFrom(stream, j, head, switch, rank, addRank, last, writeBackMu, now) == Prepend([c], rest);
      PrependTwice(sent, c, rest);
    }
  }

  /** Prepending `sent` to a group that starts with `c` is prepending `sent + [c]` to the group's rest. */
  lemma PrependTwice(sent: Stream, c: ChannelElement<Tile>, rest: Result<Served>)
    ensures Prepend(sent, Prepend([c], rest)) == Prepend(sent + [c], rest)
  {
    if rest.Ok? {
      assert sent + ([c] + rest.value.sent) == (sent + [c]) + rest.value.sent;
    }
  }

  /** How many flags are set. */
  function CountTrue(flags: seq<bool>): (c: nat)
    ensures c <= |flags|
  {
    if flags == [] then 0 else CountTrue(flags[..|flags| - 1]) + (if flags[|flags| - 1] then 1 else 0)
  }

  lemma {:induction false} CountTrueSet(flags: seq<bool>, k: nat)
    requires k < |flags| && !flags[k]
    ensures CountTrue(flags[k := true]) == CountTrue(flags) + 1
    decreases |flags|
  {
    var f := flags[k := true];
    assert f[..|f| - 1] == if k < |flags| - 1 then flags[..|flags| - 1][k := true] else flags[..|flags| - 1];
    if k < |flags| - 1 {
      CountTrueSet(flags[..|flags| - 1], k);
    }
  }

  lemma {:induction false} CountTrueNone(n: nat)
    ensures CountTrue(seq(n, _ => false)) == 0
  {
    if n > 0 {
      assert seq(n, _ => false)[..n - 1] == seq(n - 1, _ => false);
      CountTrueNone(n - 1);
    }
  }

  /** All flags are set exactly when the count reaches their number. */
  lemma {:induction false} CountTrueAll(flags: seq<bool>)
    ensures CountTrue(flags) == |flags| <==> forall k :: 0 <= k < |flags| ==> flags[k]
    decreases |flags|
  {
    if flags != [] {
      var init := flags[..|flags| - 1];
      CountTrueAll(init);
      assert forall k :: 0 <= k < |init| ==> init[k] == flags[k];
    }
  }

  /** The heads `peek_all_streams` saw and the clock once it has seen them all. */
  datatype Peeked = Peeked(times: seq<nat>, now: nat)

  /** The flagged entries have been peeked: their streams exist and show heads that arrived by `now`, recorded in `times`. */
  predicate PeekedHeads(streams: seq<Stream>, pos: seq<nat>, sv: seq<nat>, now: nat, peeked: seq<bool>, times: seq<nat>)
    requires |pos| == |streams|
  {
    |peeked| == |times| == |sv| &&
    forall m :: 0 <= m < |sv| && peeked[m] ==>
      HeadReady(streams, pos, sv[m]) && times[m] == streams[sv[m]][pos[sv[m]]].time <= now
  }

  /**
   * `peek_all_streams`: scans the selected streams in rounds, one cycle apart, until each has shown
   * its head; a head shows once the clock reaches its arrival. A selected index past the streams,
   * or a closed stream, met in the scan is a failure.
   */
  method PeekAllStreams(streams: seq<Stream>, pos: seq<nat>, sv: seq<nat>, now0: nat) returns (r: Result<Peeked>)
    requires Positions(streams, pos)
    ensures r.Err? <==> PeekErrorFrom(streams, pos, sv, 0).Some?
    ensures r.Err? ==> r.msg == PeekErrorFrom(streams, pos, sv, 0).value
    ensures r.Ok? ==> Ready(streams, pos, sv)
                      && r.value == Peeked(Heads(streams, pos, sv), Max(now0, Latest(Heads(streams, pos, sv))))
  {
    var peeked := seq(|sv|, _ => false);
    var times: seq<nat> := seq(|sv|, _ => 0);
    var count := 0;
    var now := now0;
    PeekErrorNone(streams, pos, sv, 0);
    ghost var bound := if PeekErrorFrom(streams, pos, sv, 0).None? then Max(now0, Latest(Heads(streams, pos, sv))) else now0;
    CountTrueNone(|sv|);
    while count < |sv|
      invariant count == CountTrue(peeked) && PeekedHeads(streams, pos, sv, now, peeked, times)
      invariant now0 <= now <= bound
      decreases bound - now, |sv| - count
    {
      var err;
      ghost var count0 := count;
      err, peeked, times, count := PeekRound(streams, pos, sv, now, peeked, times, count);
      if err.Some? {
        return Err(err.value);
      }
      CountTrueAll(peeked);
      if count < |sv| {
        var m :| 0 <= m < |sv| && !peeked[m];
        assert Heads(streams, pos, sv)[m] > now;
        now := now + 1;
      }
    }
    CountTrueAll(peeked);
    assert times == Heads(streams, pos, sv);
    LatestLeast(times, now);
    return Ok(Peeked(times, now));
  }

  /** One scan of `peek_all_streams` over the selection, peeking every stream not yet peeked. */
  method PeekRound(streams: seq<Stream>, pos: seq<nat>, sv: seq<nat>, now: nat, peeked0: seq<bool>, times0: seq<nat>, count0: nat)
    returns (err: Option<string>, peeked: seq<bool>, times: seq<nat>, count: nat)
    requires Positions(streams, pos) && count0 == CountTrue(peeked0) && PeekedHeads(streams, pos, sv, now, peeked0, times0)
    ensures err.Some? ==> err == PeekErrorFrom(streams, pos, sv, 0)
    ensures err.None? ==> Ready(streams, pos, sv) && count == CountTrue(peeked) && count0 <= count
                          && PeekedHeads(streams, pos, sv, now, peeked, times)
                          && forall m :: 0 <= m < |sv| && streams[sv[m]][pos[sv[m]]].time <= now ==> peeked[m]
  {
    peeked, times, count := peeked0, times0, count0;
    var k := 0;
    while k < |sv|
      invariant k <= |sv| && count == CountTrue(peeked) && count0 <= count
      invariant PeekedHeads(streams, pos, sv, now, peeked, times)
      invariant forall m :: 0 <= m < k ==> HeadReady(streams, pos, sv[m])
      invariant forall m :: 0 <= m < k && streams[sv[m]][pos[sv[m]]].time <= now ==> peeked[m]
    {
      if !peeked[k] {
        var idx := sv[k];
        if idx >= |streams| {
          PeekErrorAt(streams, pos, sv, k, 0);
          return Some(OutOfRange), peeked, times, count;
        }
        if pos[idx] >= |streams[idx]| {
          PeekErrorAt(streams, pos, sv, k, 0);
          return Some(AllClosed), peeked, times, count;
        }
        var head := streams[idx][pos[idx]];
        if head.time <= now {
          CountTrueSet(peeked, k);
          times, peeked, count := times[k := head.time], peeked[k := true], count + 1;
        }
      }
      k := k + 1;
    }
    err := None;
  }

  /** The first entry whose stream is missing or closed decides the peek's failure. */
  lemma {:induction false} PeekErrorAt(streams: seq<Stream>, pos: seq<nat>, sv: seq<nat>, k: nat, j: nat)
    requires |pos| == |streams| && j <= k < |sv| && !HeadReady(streams, pos, sv[k])
    requires forall m :: j <= m < k ==> HeadReady(streams, pos, sv[m])
    ensures PeekErrorFrom(streams, pos, sv, j) == Some(if sv[k] >= |streams| then OutOfRange else AllClosed)
    decreases k - j
  {
    if j < k {
      PeekErrorAt(streams, pos, sv, k, j + 1);
    }
  }

  /**
   * `process_input_stream`: peek every selected stream, sort the selection by head arrival, then
   * drain one group from each stream in that order; the stream that is last in the order closes
   * the token's dimension. A selected index without a switching cost fails before anything is
   * drained rather than when its stream is reached.
   */
  method ProcessInputStream(streams: seq<Stream>, sv: seq<nat>, addRank: nat, rank: nat, switchCycles: seq<nat>,
                            writeBackMu: bool, c: Cursor) returns (r: Result<Cursor>)
    requires Positions(streams, c.pos)
    ensures r == Serve(streams, sv, addRank, rank, switchCycles, writeBackMu, c)
  {
    var p := PeekAllStreams(streams, c.pos, sv, c.now);
    if p.Err? {
      return Err(p.msg);
    }
    var times := p.value.times;
    if |times| == 0 {
      return Err(AllClosed);
    }
    if !Selects(streams, switchCycles, sv) {
      return Err(OutOfRange);
    }
    var order := SortByArrival(times);
    var cur := Cursor(c.pos, p.value.now, c.out);
    ghost var whole := ServeFrom(streams, sv, times, order, 0, rank, addRank, switchCycles, writeBackMu, cur);
    ServeUnfold(streams, sv, addRank, rank, switchCycles, writeBackMu, c);
    for k := 0 to |order|
      invariant Positions(streams, cur.pos)
      invariant whole == ServeFrom(streams, sv, times, order, k, rank, addRank, switchCycles, writeBackMu, cur)
    {
      var i := order[k];
      var idx := sv[i];
      var last := order[|order| - 1] == i;
      LastServedOnly(times, order, k);
      var g := DrainGroup(streams[idx], cur.pos[idx], times[i], switchCycles[idx], rank, addRank, last, writeBackMu, cur.now);
      if g.Err? {
        ServeStep(streams, sv, times, order, k, idx, last, rank, addRank, switchCycles, writeBackMu, cur, g, cur);
        return Err(g.msg);
      }
      var next := Cursor(cur.pos[idx := cur.pos[idx] + g.value.used], g.value.now, cur.out + g.value.sent);
      ServeStep(streams, sv, times, order, k, idx, last, rank, addRank, switchCycles, writeBackMu, cur, g, next);
      cur := next;
    }
    return Ok(cur);
  }

  /** `FlatReassemble::run`: one selector token after another until the selector stream closes. */
  method Run(sel: seq<ChannelElement<MultiHot>>, streams: seq<Stream>, rank: nat, switchCycles: seq<nat>, writeBackMu: bool)
    returns (r: Result<Cursor>)
    ensures r == RunFrom(sel, 0, streams, rank, switchCycles, writeBackMu, Start(streams))
  {
    var cur := Cursor(seq(|streams|, _ => 0), 0, []);
    for si := 0 to |sel|
      invariant Positions(streams, cur.pos)
      invariant RunFrom(sel, 0, streams, rank, switchCycles, writeBackMu, Start(streams))
                == RunFrom(sel, si, streams, rank, switchCycles, writeBackMu, cur)
    {
      var s := sel[si];
      var now := Max(cur.now, s.time);
      now := now + if s.data.v.readFromMu then DivCeil(MultiHotSize(s.data.v), PmuBw) else 0;
      var sv := MultiHotToSelVec(s.data.v);
      var addRank := if s.data.ValStop? then s.data.level else 0;
      var loaded := Cursor(cur.pos, now, cur.out);
      var t := ProcessInputStream(streams, sv, addRank, rank, switchCycles, writeBackMu, loaded);
      TokenUnfold(streams, s, rank, switchCycles, writeBackMu, cur, sv, addRank, loaded, t);
      RunStep(sel, si, streams, rank, switchCycles, writeBackMu, cur, t);
      if t.Err? {
        return t;
      }
      cur := t.value;
    }
    return Ok(cur);
  }

  /** A selection every stream of which shows a head is served in order of head arrival, from the latest arrival on. */
  lemma ServeUnfold(streams: seq<Stream>, sv: seq<nat>, addRank: nat, rank: nat, switchCycles: seq<nat>,
                    writeBackMu: bool, c: Cursor)
    requires Positions(streams, c.pos)
    ensures PeekErrorFrom(streams, c.pos, sv, 0).Some? ==>
              Serve(streams, sv, addRank, rank, switchCycles, writeBackMu, c) == Err(PeekErrorFrom(streams, c.pos, sv, 0).value)
    ensures PeekErrorFrom(streams, c.pos, sv, 0).None? && sv == [] ==>
              Serve(streams, sv, addRank, rank, switchCycles, writeBackMu, c) == Err(AllClosed)
    ensures PeekErrorFrom(streams, c.pos, sv, 0).None? && sv != [] && !Selects(streams, switchCycles, sv) ==>
              Serve(streams, sv, addRank, rank, switchCycles, writeBackMu, c) == Err(OutOfRange)
    ensures PeekErrorFrom(streams, c.pos, sv, 0).None? && Ready(streams, c.pos, sv) && sv != [] && Selects(streams, switchCycles, sv) ==>
              var times := Heads(streams, c.pos, sv);
              Serve(streams, sv, addRank, rank, switchCycles, writeBackMu, c)
              == ServeFrom(streams, sv, times, Order(times), 0, rank, addRank, switchCycles, writeBackMu,
                           c.(now := Max(c.now, Latest(times))))
  {}

  /** One stream in serving order: its group fails the token, or is sent before the remaining streams'. */
  lemma ServeStep(streams: seq<Stream>, sv: seq<nat>, times: seq<nat>, order: seq<nat>, k: nat, idx: nat, last: bool,
                  rank: nat, addRank: nat, switchCycles: seq<nat>, writeBackMu: bool, c: Cursor, g: Result<Served>, next: Cursor)
    requires Positions(streams, c.pos) && Selects(streams, switchCycles, sv) && |times| == |sv| && k < |order|
    requires forall m :: 0 <= m < |order| ==> order[m] < |sv|
    requires idx == sv[order[k]] && last == (k == |order| - 1)
    requires g == GroupFrom(streams[idx], c.pos[idx], times[order[k]], switchCycles[idx], rank, addRank, last, writeBackMu, c.now)
    requires g.Ok? ==> next == Cursor(c.pos[idx := c.pos[idx] + g.value.used], g.value.now, c.out + g.value.sent)
    ensures g.Err? ==> ServeFrom(streams, sv, times, order, k, rank, addRank, switchCycles, writeBackMu, c) == Err(g.msg)
    ensures g.Ok? ==> Positions(streams, next.pos)
    ensures g.Ok? ==> ServeFrom(streams, sv, times, order, k, rank, addRank, switchCycles, writeBackMu, c)
                      == ServeFrom(streams, sv, times, order, k + 1, rank, addRank, switchCycles, writeBackMu, next)
  {}

  /** The token's selection, stop and loaded clock are the ones `TokenStep` serves with. */
  lemma TokenUnfold(streams: seq<Stream>, s: ChannelElement<MultiHot>, rank: nat, switchCycles: seq<nat>,
                    writeBackMu: bool, c: Cursor, sv: seq<nat>, addRank: nat, loaded: Cursor, t: Result<Cursor>)
    requires Positions(streams, c.pos) && sv == Partition.SelVec(s.data.v)
    requires addRank == (if s.data.ValStop? then s.data.level else 0)
    requires loaded == Cursor(c.pos, Max(c.now, s.time) + (if s.data.v.readFromMu then DivCeil(MultiHotSize(s.data.v), PmuBw) else 0), c.out)
    requires t == Serve(streams, sv, addRank, rank, switchCycles, writeBackMu, loaded)
    ensures t == TokenStep(streams, s, rank, switchCycles, writeBackMu, c)
  {}

  /** One selector token: it fails the run, or the run goes on from its result. */
  lemma RunStep(sel: seq<ChannelElement<MultiHot>>, si: nat, streams: seq<Stream>, rank: nat, switchCycles: seq<nat>,
                writeBackMu: bool, c: Cursor, t: Result<Cursor>)
    requires si < |sel| && Positions(streams, c.pos)
    requires t == TokenStep(streams, sel[si], rank, switchCycles, writeBackMu, c)
    ensures t.Err? ==> RunFrom(sel, si, streams, rank, switchCycles, writeBackMu, c) == t
    ensures t.Ok? ==> RunFrom(sel, si, streams, rank, switchCycles, writeBackMu, c)
                      == RunFrom(sel, si + 1, streams, rank, switchCycles, writeBackMu, t.value)
  {}

  // ---------------------------------------------------------------------------------------------
  // Properties

  /** `e` is forwarded no earlier than its arrival, nor than its load and write-back; exactly then when nothing else waits. */
  lemma SendTimeBounds(now: nat, e: ChannelElement<Tile>, head: nat, switch: nat, writeBackMu: bool)
    ensures var t := SendTime(now, e, head, switch, writeBackMu);
            t >= e.time && t >= head + switch + LoadCycles(e.data.v) + StoreCycles(e.data.v, writeBackMu)
            && (now <= head + switch + LoadCycles(e.data.v) && e.time <= head + switch + LoadCycles(e.data.v) ==>
                  t == head + switch + LoadCycles(e.data.v) + StoreCycles(e.data.v, writeBackMu))
  {}

  /**
   * `g` is the group drained from position `j`: elements that do not end the group up to one that
   * does, each forwarded in order as `Rewritten` says, no earlier than its arrival and its load.
   */
  predicate Drains(stream: Stream, j: nat, head: nat, switch: nat, rank: nat, addRank: nat, last: bool,
                   writeBackMu: bool, g: Served)
  {
    g.used >= 1 && j + g.used <= |stream| && |g.sent| == g.used
    && (forall m :: j <= m < j + g.used - 1 ==> !Ends(stream[m].data, rank))
    && Ends(stream[j + g.used - 1].data, rank)
    && (forall m :: 0 <= m < g.used ==>
          g.sent[m].data == Rewritten(stream[j + m].data, rank, addRank, last, writeBackMu)
          && g.sent[m].time >= stream[j + m].time
          && g.sent[m].time >= head + switch + LoadCycles(stream[j + m].data.v) + StoreCycles(stream[j + m].data.v, writeBackMu))
  }

  lemma DrainsCons(stream: Stream, j: nat, head: nat, switch: nat, rank: nat, addRank: nat, last: bool,
                   writeBackMu: bool, c: ChannelElement<Tile>, rest: Served)
    requires j < |stream| && !Ends(stream[j].data, rank)
    requires c.data == Rewritten(stream[j].data, rank, addRank, last, writeBackMu) && c.time >= stream[j].time
    requires c.time >= head + switch + LoadCycles(stream[j].data.v) + StoreCycles(stream[j].data.v, writeBackMu)
    requires Drains(stream, j + 1, head, switch, rank, addRank, last, writeBackMu, rest)
    ensures Drains(stream, j, head, switch, rank, addRank, last, writeBackMu,
                   Served([c] + rest.sent, 1 + rest.used, rest.now))
  {
    var g := Served([c] + rest.sent, 1 + rest.used, rest.now);
    forall m | 1 <= m < g.used
      ensures g.sent[m] == rest.sent[m - 1] && j + m == (j + 1) + (m - 1)
    {}
  }

  /** A group that succeeds is drained as `Drains` says. */
  lemma {:induction false} GroupDrains(stream: Stream, j: nat, head: nat, switch: nat, rank: nat, addRank: nat,
                                       last: bool, writeBackMu: bool, now: nat)
    requires j <= |stream|
    ensures var g := GroupFrom(stream, j, head, switch, rank, addRank, last, writeBackMu, now);
            g.Ok? ==> Drains(stream, j, head, switch, rank, addRank, last, writeBackMu, g.value)
    decreases |stream| - j
  {
    if j < |stream| {
      var e := stream[j];
      var t := SendTime(now, e, head, switch, writeBackMu);
      SendTimeBounds(now, e, head, switch, writeBackMu);
      var c := ChannelElement(Rewritten(e.data, rank, addRank, last, writeBackMu), t);
      if !Ends(e.data, rank) {
        var rest := GroupFrom(stream, j + 1, head, switch, rank, addRank, last, writeBackMu, t);
        if rest.Ok? {
          GroupDrains(stream, j + 1, head, switch, rank, addRank, last, writeBackMu, t);
          DrainsCons(stream, j, head, switch, rank, addRank, last, writeBackMu, c, rest.value);
        }
      }
    }
  }

  /** Draining a group fails exactly when no element from `j` on ends it: the stream closes mid-group. */
  lemma {:induction false} GroupFails(stream: Stream, j: nat, head: nat, switch: nat, rank: nat, addRank: nat,
                                      last: bool, writeBackMu: bool, now: nat)
    requires j <= |stream|
    ensures GroupFrom(stream, j, head, switch, rank, addRank, last, writeBackMu, now).Err?
            <==> forall m :: j <= m < |stream| ==> !Ends(stream[m].data, rank)
    decreases |stream| - j
  {
    if j < |stream| && !Ends(stream[j].data, rank) {
      GroupFails(stream, j + 1, head, switch, rank, addRank, last, writeBackMu,
                 SendTime(now, stream[j], head, switch, writeBackMu));
    }
  }

  /**
   * The stops a group is sent with. At rank 0 the group is one element, sent plain unless its
   * stream is served last, when it carries its own stop plus the selector's plus one. At a higher
   * rank the elements before the closing one keep their stops, all below the rank; the closing
   * stop, at least the rank, is raised the same way in the stream served last and kept otherwise.
   */
  lemma GroupLevels(stream: Stream, j: nat, head: nat, switch: nat, rank: nat, addRank: nat, last: bool,
                    writeBackMu: bool, now: nat, g: Served)
    requires j <= |stream| && GroupFrom(stream, j, head, switch, rank, addRank, last, writeBackMu, now) == Ok(g)
    ensures j + g.used <= |stream| && |g.sent| == g.used >= 1
    ensures var close := stream[j + g.used - 1].data;
            (rank == 0 ==> g.used == 1 && Level(g.sent[0].data) == if last then Level(close) + addRank + 1 else 0)
            && (rank > 0 ==>
                  (forall m :: 0 <= m < g.used - 1 ==> Level(g.sent[m].data) == Level(stream[j + m].data) < rank)
                  && Level(close) >= rank
                  && Level(g.sent[g.used - 1].data) == if last then Level(close) + addRank + 1 else Level(close))
  {
    GroupDrains(stream, j, head, switch, rank, addRank, last, writeBackMu, now);
    if rank > 0 {
      forall m | 0 <= m < g.used - 1
        ensures Level(g.sent[m].data) == Level(stream[j + m].data) < rank
      {
        assert !Ends(stream[j + m].data, rank);
      }
    }
  }

  /** Every element of `s` carries the read flag `flag`. */
  predicate FlagsAre(s: Stream, flag: bool)
  {
    forall k :: 0 <= k < |s| ==> s[k].data.v.readFromMu == flag
  }

  lemma FlagsAppend(a: Stream, b: Stream, flag: bool)
    requires FlagsAre(a, flag) && FlagsAre(b, flag)
    ensures FlagsAre(a + b, flag)
  {
    forall k | |a| <= k < |a + b| ensures (a + b)[k] == b[k - |a|] {}
  }

  /** Serving the streams from the `k`-th in order only appends elements carrying the write-back flag. */
  lemma {:induction false} ServeFlags(streams: seq<Stream>, sv: seq<nat>, times: seq<nat>, order: seq<nat>, k: nat, rank: nat,
                                      addRank: nat, switchCycles: seq<nat>, writeBackMu: bool, c: Cursor)
    requires Positions(streams, c.pos) && Selects(streams, switchCycles, sv) && |times| == |sv| && k <= |order|
    requires forall m :: 0 <= m < |order| ==> order[m] < |sv|
    requires FlagsAre(c.out, writeBackMu)
    ensures var r := ServeFrom(streams, sv, times, order, k, rank, addRank, switchCycles, writeBackMu, c);
            r.Ok? ==> FlagsAre(r.value.out, writeBackMu)
    decreases |order| - k
  {
    if k < |order| {
      var idx := sv[order[k]];
      var last := k == |order| - 1;
      var g := GroupFrom(streams[idx], c.pos[idx], times[order[k]], switchCycles[idx], rank, addRank, last, writeBackMu, c.now);
      if g.Ok? {
        var next := Cursor(c.pos[idx := c.pos[idx] + g.value.used], g.value.now, c.out + g.value.sent);
        assert FlagsAre(next.out, writeBackMu) by {
          GroupDrains(streams[idx], c.pos[idx], times[order[k]], switchCycles[idx], rank, addRank, last, writeBackMu, c.now);
          FlagsAppend(c.out, g.value.sent, writeBackMu);
        }
        ServeStep(streams, sv, times, order, k, idx, last, rank, addRank, switchCycles, writeBackMu, c, g, next);
        ServeFlags(streams, sv, times, order, k + 1, rank, addRank, switchCycles, writeBackMu, next);
      }
    }
  }

  /** Serving a selection only appends elements carrying the write-back flag. */
  lemma ServeAllFlags(streams: seq<Stream>, sv: seq<nat>, addRank: nat, rank: nat, switchCycles: seq<nat>,
                      writeBackMu: bool, c: Cursor)
    requires Positions(streams, c.pos) && FlagsAre(c.out, writeBackMu)
    ensures var r := Serve(streams, sv, addRank, rank, switchCycles, writeBackMu, c);
            r.Ok? ==> FlagsAre(r.value.out, writeBackMu)
  {
    ServeUnfold(streams, sv, addRank, rank, switchCycles, writeBackMu, c);
    PeekErrorNone(streams, c.pos, sv, 0);
    if PeekErrorFrom(streams, c.pos, sv, 0).None? && sv != [] && Selects(streams, switchCycles, sv) {
      var times := Heads(streams, c.pos, sv);
      OrderServesInOrder(times);
      ServeFlags(streams, sv, times, Order(times), 0, rank, addRank, switchCycles, writeBackMu,
                 c.(now := Max(c.now, Latest(times))));
    }
  }

  /** One selector token only appends elements carrying the write-back flag. */
  lemma TokenFlags(streams: seq<Stream>, s: ChannelElement<MultiHot>, rank: nat, switchCycles: seq<nat>,
                   writeBackMu: bool, c: Cursor)
    requires Positions(streams, c.pos) && FlagsAre(c.out, writeBackMu)
    ensures var t := TokenStep(streams, s, rank, switchCycles, writeBackMu, c);
            t.Ok? ==> FlagsAre(t.value.out, writeBackMu)
  {
    ServeAllFlags(streams, Partition.SelVec(s.data.v), Level(s.data), rank, switchCycles, writeBackMu,
                  c.(now := Max(c.now, s.time) + Partition.SelLoad(s.data.v)));
  }

  /** Every element `run` forwards carries the write-back flag: the operator writes what it forwards back when configured. */
  lemma {:induction false} RunFlags(sel: seq<ChannelElement<MultiHot>>, si: nat, streams: seq<Stream>, rank: nat,
                                    switchCycles: seq<nat>, writeBackMu: bool, c: Cursor)
    requires si <= |sel| && Positions(streams, c.pos) && FlagsAre(c.out, writeBackMu)
    ensures var r := RunFrom(sel, si, streams, rank, switchCycles, writeBackMu, c);
            r.Ok? ==> FlagsAre(r.value.out, writeBackMu)
    decreases |sel| - si
  {
    if si < |sel| {
      var t := TokenStep(streams, sel[si], rank, switchCycles, writeBackMu, c);
      RunStep(sel, si, streams, rank, switchCycles, writeBackMu, c, t);
      TokenFlags(streams, sel[si], rank, switchCycles, writeBackMu, c);
      if t.Ok? {
        RunFlags(sel, si + 1, streams, rank, switchCycles, writeBackMu, t.value);
      }
    }
  }

  /** The stop levels of a stream's elements. */
  function Levels(out: Stream): (r: seq<nat>)
    ensures |r| == |out| && forall k :: 0 <= k < |out| ==> r[k] == Level(out[k].data)
  {
    seq(|out|, k requires 0 <= k < |out| => Level(out[k].data))
  }

  /** The rank-1 test's group: two values and a stop 1, all arrived at time 0. */
  function TestGroup(x: Tile): Stream
  {
    [ChannelElement(Val(x), 0), ChannelElement(Val(x), 0), ChannelElement(ValStop(x, 1), 0)]
  }

  /** A group of two values and a stop 1 at rank 1: all three are drained, the stop raised by `a + 1` when served last. */
  lemma RankOneGroup(x: Tile, switch: nat, a: nat, last: bool, writeBackMu: bool, now: nat)
    ensures var group := TestGroup(x);
            var g := GroupFrom(group, 0, 0, switch, 1, a, last, writeBackMu, now);
            g.Ok? && g.value.used == 3 && Levels(g.value.sent) == [0, 0, if last then a + 2 else 1]
  {
    var group := TestGroup(x);
    GroupFails(group, 0, 0, switch, 1, a, last, writeBackMu, now);
    assert Ends(group[2].data, 1);
    GroupDrains(group, 0, 0, switch, 1, a, last, writeBackMu, now);
    GroupLevels(group, 0, 0, switch, 1, a, last, writeBackMu, now, GroupFrom(group, 0, 0, switch, 1, a, last, writeBackMu, now).value);
  }

  /** Serving the two rank-1 groups in selection order: the first keeps its stop, the last is raised. */
  lemma RankOneServe(x: Tile, other: Stream, streams: seq<Stream>, switchCycles: seq<nat>, writeBackMu: bool, a: nat,
                     start: Cursor)
    requires streams == [TestGroup(x), TestGroup(x), other, other]
    requires |switchCycles| == 4 && start.pos == [0, 0, 0, 0] && start.out == []
    ensures var r := ServeFrom(streams, [0, 1], [0, 0], [0, 1], 0, 1, a, switchCycles, writeBackMu, start);
            r.Ok? && Levels(r.value.out) == [0, 0, 1, 0, 0, a + 2] && r.value.pos == [3, 3, 0, 0]
  {
    var group := TestGroup(x);
    var sv, times, order := [0, 1], [0, 0], [0, 1];
    var g0 := GroupFrom(group, 0, 0, switchCycles[0], 1, a, false, writeBackMu, start.now);
    RankOneGroup(x, switchCycles[0], a, false, writeBackMu, start.now);
    var c1 := Cursor(start.pos[0 := 3], g0.value.now, start.out + g0.value.sent);
    ServeStep(streams, sv, times, order, 0, 0, false, 1, a, switchCycles, writeBackMu, start, g0, c1);
    var g1 := GroupFrom(group, 0, 0, switchCycles[1], 1, a, true, writeBackMu, c1.now);
    RankOneGroup(x, switchCycles[1], a, true, writeBackMu, c1.now);
    var c2 := Cursor(c1.pos[1 := 3], g1.value.now, c1.out + g1.value.sent);
    ServeStep(streams, sv, times, order, 1, 1, true, 1, a, switchCycles, writeBackMu, c1, g1, c2);
    assert ServeFrom(streams, sv, times, order, 2, 1, a, switchCycles, writeBackMu, c2) == Ok(c2);
    assert c2.out == g0.value.sent + g1.value.sent;
    assert Levels(c2.out) == Levels(g0.value.sent) + Levels(g1.value.sent);
  }

  /** Four streams start at their heads with nothing forwarded. */
  lemma StartOfFour(streams: seq<Stream>)
    requires |streams| == 4
    ensures Start(streams).pos == [0, 0, 0, 0] && Start(streams).out == []
  {
  }

  /** The selector of the rank-1 test picks the first two of four streams. */
  lemma FirstTwoSelected(m: MultiHot)
    requires m.underlying == [true, true, false, false]
    ensures Partition.SelVec(m) == [0, 1]
  {
    assert HotFlags([0, 1], 4) == m.underlying;
    MultiHotRoundTrip([0, 1], 4);
  }

  /** The heads of the rank-1 test's first two streams are ready, both arrived at time 0. */
  lemma RankOneHeads(group: Stream, other: Stream)
    requires |group| > 0 && group[0].time == 0
    ensures var streams := [group, group, other, other];
            PeekErrorFrom(streams, [0, 0, 0, 0], [0, 1], 0).None?
            && Ready(streams, [0, 0, 0, 0], [0, 1])
            && Heads(streams, [0, 0, 0, 0], [0, 1]) == [0, 0]
  {
    var streams := [group, group, other, other];
    PeekErrorNone(streams, [0, 0, 0, 0], [0, 1], 0);
  }

  /** Two heads arrived together are served in selection order. */
  lemma TiedOrder()
    ensures Order([0, 0]) == [0, 1]
  {
    assert SortedFirst([0, 0], 1) == [0];
    assert PlaceFrom([0, 0], [0], 0, 1) == 1;
  }

  /** A selection of the first two streams whose heads arrived together serves them in selection order. */
  lemma TwoTiedServe(streams: seq<Stream>, addRank: nat, rank: nat, switchCycles: seq<nat>, writeBackMu: bool, c: Cursor)
    requires Positions(streams, c.pos) && 2 <= |streams| && 2 <= |switchCycles|
    requires PeekErrorFrom(streams, c.pos, [0, 1], 0).None? && Ready(streams, c.pos, [0, 1])
    requires Heads(streams, c.pos, [0, 1]) == [0, 0]
    ensures Serve(streams, [0, 1], addRank, rank, switchCycles, writeBackMu, c)
            == ServeFrom(streams, [0, 1], [0, 0], [0, 1], 0, rank, addRank, switchCycles, writeBackMu, c)
  {
    TiedOrder();
    assert Latest([0, 0]) == 0;
    assert c.(now := Max(c.now, 0)) == c;
    ServeUnfold(streams, [0, 1], addRank, rank, switchCycles, writeBackMu, c);
  }

  /** A token selecting the first two streams, whose heads arrived together, serves them in selection order. */
  lemma TiedToken(streams: seq<Stream>, s: ChannelElement<MultiHot>, rank: nat, switchCycles: seq<nat>,
                  writeBackMu: bool, c: Cursor, loaded: Cursor)
    requires Positions(streams, c.pos) && 2 <= |streams| && 2 <= |switchCycles|
    requires Partition.SelVec(s.data.v) == [0, 1]
    requires PeekErrorFrom(streams, c.pos, [0, 1], 0).None? && Ready(streams, c.pos, [0, 1])
    requires Heads(streams, c.pos, [0, 1]) == [0, 0]
    requires loaded == c.(now := Max(c.now, s.time) + Partition.SelLoad(s.data.v))
    ensures TokenStep(streams, s, rank, switchCycles, writeBackMu, c)
            == ServeFrom(streams, [0, 1], [0, 0], [0, 1], 0, rank, Level(s.data), switchCycles, writeBackMu, loaded)
  {
    TwoTiedServe(streams, Level(s.data), rank, switchCycles, writeBackMu, loaded);
  }

  /**
   * A token of the rank-1 test: it selects the first two of four streams, each of which holds a
   * group of two values and a stop 1, all arrived at time 0. The first stream's group keeps its
   * stop; the second, served last, closes with the token's own stop plus 2.
   */
  lemma RankOneToken(x: Tile, s: ChannelElement<MultiHot>, other: Stream, streams: seq<Stream>,
                     switchCycles: seq<nat>, writeBackMu: bool)
    requires streams == [TestGroup(x), TestGroup(x), other, other]
    requires s.data.v.underlying == [true, true, false, false] && |switchCycles| == 4
    ensures var t := TokenStep(streams, s, 1, switchCycles, writeBackMu, Start(streams));
            t.Ok? && Levels(t.value.out) == [0, 0, 1, 0, 0, Level(s.data) + 2] && t.value.pos == [3, 3, 0, 0]
  {
    var c := Start(streams);
    StartOfFour(streams);
    FirstTwoSelected(s.data.v);
    RankOneHeads(TestGroup(x), other);
    var loaded := c.(now := Max(c.now, s.time) + Partition.SelLoad(s.data.v));
    TiedToken(streams, s, 1, switchCycles, writeBackMu, c, loaded);
    RankOneServe(x, other, streams, switchCycles, writeBackMu, Level(s.data), loaded);
  }
}
