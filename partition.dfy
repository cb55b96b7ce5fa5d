/**
 * `FlatPartition`: routes groups of input elements to output streams by a selector stream. Each
 * selector token (a multi-hot vector) moves one group, the elements up to the one closing
 * `partition_rank` dimensions, to every stream it names; a selector stop `l` instead demands that the
 * group end at input stop `l + partition_rank`. Forwarded tiles take the operator's write-back flag.
 */
module Partition {
  import opened Wrappers
  import opened Calc
  import opened Elems
  import opened Tiles
  import opened Select
  import opened Roofline

  const ExpectedMismatch := "The expected stop level does not match the stop level in the select stream!"
  const AboveRank := "The stop level in the select stream is greater than the partition rank!"
  const LacksStop := "The input stream lacks a stop token that corresponds to the stop token in the select stream!"
  const RanOut := "Input stream ran out of things to dequeue during partition."
  const OutOfRange := "index out of bounds"

  /** Every selected index names one of `n` streams. */
  predicate InRange(sv: seq<nat>, n: nat)
  {
    forall k :: 0 <= k < |sv| ==> sv[k] < n
  }

  /** The largest switching cost among the selected streams; 0 when none is selected. */
  function MaxSwitch(switchCycles: seq<nat>, sv: seq<nat>): (m: nat)
    requires InRange(sv, |switchCycles|)
    ensures forall k :: 0 <= k < |sv| ==> switchCycles[sv[k]] <= m
    ensures m == 0 || exists k :: 0 <= k < |sv| && switchCycles[sv[k]] == m
    decreases |sv|
  {
    if sv == [] then 0
    else
      var prev := MaxSwitch(switchCycles, sv[..|sv| - 1]);
      assert forall k :: 0 <= k < |sv| - 1 ==> sv[..|sv| - 1][k] == sv[k];
      Max(prev, switchCycles[sv[|sv| - 1]])
  }

  /** `handle_write_cycles`'s cost: the slowest switch, plus writing the tile back when configured. */
  function WriteCycles(switchCycles: seq<nat>, sv: seq<nat>, t: Tile, writeBackMu: bool): nat
    requires InRange(sv, |switchCycles|)
  {
    MaxSwitch(switchCycles, sv) + StoreCycles(t, writeBackMu)
  }

  /** One group: the elements sent to the selected streams, the input elements used, the cycles spent. */
  datatype Routed = Routed(out: seq<Elem<Tile>>, used: nat, cycles: nat)

  /** `r` preceded by the elements `sent`, which used as many input elements and took `spent` cycles. */
  function Prepend(sent: seq<Elem<Tile>>, spent: nat, r: Result<Routed>): Result<Routed>
  {
    if r.Err? then r else Ok(Routed(sent + r.value.out, |sent| + r.value.used, spent + r.value.cycles))
  }

  /** What one input element does in a group: the element sent, the cycles spent, and whether it ends the group. */
  datatype Move = Move(sent: Elem<Tile>, cycles: nat, closes: bool)

  /**
   * One input element of a group moved by a selector with indices `sv`, expecting the input stop
   * `expected` when the selector carried a stop.
   */
  function ElemStep(e: Elem<Tile>, sv: seq<nat>, expected: Option<nat>, rank: nat, switchCycles: seq<nat>, outputs: nat,
                    writeBackMu: bool): (r: Result<Move>)
  {
    if e.ValStop? && expected.Some? && expected.value != e.level then Err(ExpectedMismatch)
    else if e.ValStop? && expected.None? && e.level > rank then Err(AboveRank)
    else if !InRange(sv, |switchCycles|) || !InRange(sv, outputs) then Err(OutOfRange)
    else
      var level := if e.Val? then 0 else if expected.Some? then rank else e.level;
      Ok(Move(WithLevel(CloneWithReadFromMu(e.v, writeBackMu), level),
              LoadCycles(e.v) + WriteCycles(switchCycles, sv, e.v, writeBackMu),
              if e.Val? then rank == 0 else e.level == rank || expected == Some(e.level)))
  }

  /** `process_input_stream` from input position `i`: the group one selector token moves. */
  function GroupFrom(input: seq<Elem<Tile>>, i: nat, sv: seq<nat>, expected: Option<nat>, rank: nat,
                     switchCycles: seq<nat>, outputs: nat, writeBackMu: bool): (r: Result<Routed>)
    requires i <= |input|
    ensures r.Ok? ==> 1 <= r.value.used <= |input| - i && |r.value.out| == r.value.used
    decreases |input| - i
  {
    if i == |input| then Err(if expected.Some? then LacksStop else RanOut)
    else
      var st := ElemStep(input[i], sv, expected, rank, switchCycles, outputs, writeBackMu);
      if st.Err? then Err(st.msg)
      else if st.value.closes then Ok(Routed([st.value.sent], 1, st.value.cycles))
      else Prepend([st.value.sent], st.value.cycles, GroupFrom(input, i + 1, sv, expected, rank, switchCycles, outputs, writeBackMu))
  }

  /** The streams after `sent` has gone to every selected stream. */
  function Deliver(outs: seq<seq<Elem<Tile>>>, sv: seq<nat>, sent: seq<Elem<Tile>>): (r: seq<seq<Elem<Tile>>>)
    ensures |r| == |outs|
  {
    seq(|outs|, j requires 0 <= j < |outs| => if j in sv then outs[j] + sent else outs[j])
  }

  /** The output streams, the input position and the cycles spent, after some groups. */
  datatype Progress = Progress(outs: seq<seq<Elem<Tile>>>, pos: nat, cycles: nat)

  /** The state after the group from `pos` has gone to the selected streams; fails where the group does. */
  function Advance(input: seq<Elem<Tile>>, pos: nat, sv: seq<nat>, expected: Option<nat>, rank: nat,
                   switchCycles: seq<nat>, outputs: nat, writeBackMu: bool, outs: seq<seq<Elem<Tile>>>, cycles: nat): (r: Result<Progress>)
    requires pos <= |input|
    ensures r.Ok? ==> pos < r.value.pos <= |input| && |r.value.outs| == |outs|
  {
    var g := GroupFrom(input, pos, sv, expected, rank, switchCycles, outputs, writeBackMu);
    if g.Err? then Err(g.msg)
    else Ok(Progress(Deliver(outs, sv, g.value.out), pos + g.value.used, cycles + g.value.cycles))
  }

  /** The output streams and the cycles spent. */
  datatype Parted = Parted(outs: seq<seq<Elem<Tile>>>, cycles: nat)

  function SelVec(s: MultiHot): seq<nat>
  {
    TrueIndices(s.underlying, |s.underlying|)
  }

  /** Cycles to read a selector: its size over the bandwidth when it comes from a memory unit. */
  function SelLoad(s: MultiHot): nat
  {
    if s.readFromMu then DivCeil(MultiHotSize(s), PmuBw) else 0
  }

  /** The input stop a selector token demands: none for a plain vector, `l + rank` for a stop `l`. */
  function Expected(s: Elem<MultiHot>, rank: nat): (r: Option<nat>)
  {
    if s.Val? then None else Some(s.level + rank)
  }

  /** `run` from selector position `si` and input position `pos`: one group per selector token. */
  function PartitionFrom(sel: seq<Elem<MultiHot>>, si: nat, input: seq<Elem<Tile>>, pos: nat, rank: nat,
                         switchCycles: seq<nat>, outputs: nat, writeBackMu: bool, outs: seq<seq<Elem<Tile>>>, cycles: nat)
    : (r: Result<Parted>)
    requires si <= |sel| && pos <= |input|
    ensures r.Ok? ==> |r.value.outs| == |outs|
    decreases |sel| - si
  {
    if si == |sel| then Ok(Parted(outs, cycles))
    else
      var s := sel[si];
      var p := Advance(input, pos, SelVec(s.v), Expected(s, rank), rank, switchCycles, outputs, writeBackMu, outs, cycles + SelLoad(s.v));
      if p.Err? then Err(p.msg)
      else PartitionFrom(sel, si + 1, input, p.value.pos, rank, switchCycles, outputs, writeBackMu, p.value.outs, p.value.cycles)
  }

  /** No output stream holds anything yet. */
  function Empties(n: nat): (r: seq<seq<Elem<Tile>>>)
    ensures |r| == n && forall j :: 0 <= j < n ==> r[j] == []
  {
    seq(n, _ => [])
  }

  // ---------------------------------------------------------------------------------------------
  // The operator

  /** `handle_write_cycles`: a scan for the slowest selected switch, then the write-back. */
  method HandleWriteCycles(switchCycles: seq<nat>, sv: seq<nat>, t: Tile, writeBackMu: bool) returns (c: nat)
    requires InRange(sv, |switchCycles|)
    ensures c == WriteCycles(switchCycles, sv, t, writeBackMu)
  {
    c := 0;
    var k := 0;
    while k < |sv|
      invariant k <= |sv| && c == MaxSwitch(switchCycles, sv[..k])
    {
      assert sv[..k + 1][..k] == sv[..k];
      if switchCycles[sv[k]] > c {
        c := switchCycles[sv[k]];
      }
      k := k + 1;
    }
    assert sv[..k] == sv;
    if writeBackMu {
      c := c + DivCeil(SizeInBytes(t), PmuBw);
    }
  }

  /** `enqueue_to_experts`: the element goes to each selected stream once. */
  method EnqueueToExperts(outs: seq<seq<Elem<Tile>>>, sv: seq<nat>, e: Elem<Tile>) returns (r: seq<seq<Elem<Tile>>>)
    requires StrictlyIncreasing(sv) && InRange(sv, |outs|)
    ensures r == Deliver(outs, sv, [e])
  {
    r := outs;
    var k := 0;
    while k < |sv|
      invariant k <= |sv| && |r| == |outs|
      invariant forall j :: 0 <= j < |outs| ==> r[j] == if j in sv[..k] then outs[j] + [e] else outs[j]
    {
      assert forall j :: j in sv[..k + 1] <==> j in sv[..k] || j == sv[k];
      assert sv[k] !in sv[..k];
      r := r[sv[k] := r[sv[k]] + [e]];
      k := k + 1;
    }
    assert sv[..k] == sv;
  }

  /**
   * `process_input_stream`: moves one group from position `pos` to the selected streams, and fails
   * where the group does.
   */
  method ProcessInputStream(input: seq<Elem<Tile>>, pos: nat, sv: seq<nat>, expected: Option<nat>, rank: nat,
                            switchCycles: seq<nat>, outputs: nat, writeBackMu: bool, outs: seq<seq<Elem<Tile>>>, cycles: nat)
    returns (res: Result<Progress>)
    requires pos <= |input| && StrictlyIncreasing(sv) && |outs| == outputs
    ensures res == Advance(input, pos, sv, expected, rank, switchCycles, outputs, writeBackMu, outs, cycles)
  {
    ghost var whole := Advance(input, pos, sv, expected, rank, switchCycles, outputs, writeBackMu, outs, cycles);
    var o: seq<seq<Elem<Tile>>>, j: nat, c: nat := outs, pos, cycles;
    while true
      invariant pos <= j <= |input| && |o| == |outs|
      invariant whole == Advance(input, j, sv, expected, rank, switchCycles, outputs, writeBackMu, o, c)
      decreases |input| - j
    {
      if j == |input| {
        return Err(if expected.Some? then LacksStop else RanOut);
      }
      var st := RouteElem(input[j], sv, expected, rank, switchCycles, outputs, writeBackMu);
      AdvanceStep(input, j, sv, expected, rank, switchCycles, outputs, writeBackMu, o, c, st);
      if st.Err? {
        return Err(st.msg);
      }
      var o' := EnqueueToExperts(o, sv, st.value.sent);
      if st.value.closes {
        return Ok(Progress(o', j + 1, c + st.value.cycles));
      }
      o, j, c := o', j + 1, c + st.value.cycles;
    }
  }

  /** One element of a group: it fails the group, ends it, or is delivered before the rest of it. */
  lemma AdvanceStep(input: seq<Elem<Tile>>, j: nat, sv: seq<nat>, expected: Option<nat>, rank: nat,
                    switchCycles: seq<nat>, outputs: nat, writeBackMu: bool, outs: seq<seq<Elem<Tile>>>, cycles: nat, st: Result<Move>)
    requires j < |input| && st == ElemStep(input[j], sv, expected, rank, switchCycles, outputs, writeBackMu)
    ensures st.Err? ==> Advance(input, j, sv, expected, rank, switchCycles, outputs, writeBackMu, outs, cycles) == Err(st.msg)
    ensures st.Ok? && st.value.closes ==>
              Advance(input, j, sv, expected, rank, switchCycles, outputs, writeBackMu, outs, cycles)
              == Ok(Progress(Deliver(outs, sv, [st.value.sent]), j + 1, cycles + st.value.cycles))
    ensures st.Ok? && !st.value.closes ==>
              Advance(input, j, sv, expected, rank, switchCycles, outputs, writeBackMu, outs, cycles)
              == Advance(input, j + 1, sv, expected, rank, switchCycles, outputs, writeBackMu,
                         Deliver(outs, sv, [st.value.sent]), cycles + st.value.cycles)
  {
    if st.Ok? && !st.value.closes {
      var rest := GroupFrom(input, j + 1, sv, expected, rank, switchCycles, outputs, writeBackMu);
      if rest.Ok? {
        DeliverTwice(outs, sv, [st.value.sent], rest.value.out);
      }
    }
  }



  /** The body of `process_input_stream`'s loop for one element: the checks, the cycles, the element to send. */
  method RouteElem(e: Elem<Tile>, sv: seq<nat>, expected: Option<nat>, rank: nat, switchCycles: seq<nat>, outputs: nat,
                   writeBackMu: bool) returns (r: Result<Move>)
    ensures r == ElemStep(e, sv, expected, rank, switchCycles, outputs, writeBackMu)
  {
    if e.ValStop? {
      if expected.Some? && expected.value != e.level {
        return Err(ExpectedMismatch);
      } else if expected.None? && e.level > rank {
        return Err(AboveRank);
      }
    }
    var load := if e.v.readFromMu then DivCeil(SizeInBytes(e.v), PmuBw) else 0;
    if !InRange(sv, |switchCycles|) {
      return Err(OutOfRange);
    }
    var write := HandleWriteCycles(switchCycles, sv, e.v, writeBackMu);
    if !InRange(sv, outputs) {
      return Err(OutOfRange);
    }
    var level := if e.Val? then 0 else if expected.Some? then rank else e.level;
    var closes := if e.Val? then rank == 0 else e.level == rank || expected == Some(e.level);
    return Ok(Move(WithLevel(CloneWithReadFromMu(e.v, writeBackMu), level), load + write, closes));
  }

  /** `FlatPartition::run`: one group per selector token, until the selector stream ends. */
  method Run(sel: seq<Elem<MultiHot>>, input: seq<Elem<Tile>>, rank: nat, switchCycles: seq<nat>, outputs: nat, writeBackMu: bool)
    returns (res: Result<Parted>)
    ensures res == PartitionFrom(sel, 0, input, 0, rank, switchCycles, outputs, writeBackMu, Empties(outputs), 0)
  {
    var outs := Empties(outputs);
    var cycles: nat := 0;
    var si: nat, pos: nat := 0, 0;
    ghost var whole := PartitionFrom(sel, 0, input, 0, rank, switchCycles, outputs, writeBackMu, outs, 0);
    while si < |sel|
      invariant si <= |sel| && pos <= |input| && |outs| == outputs
      invariant whole == PartitionFrom(sel, si, input, pos, rank, switchCycles, outputs, writeBackMu, outs, cycles)
    {
      var p := ProcessToken(sel[si], input, pos, rank, switchCycles, outputs, writeBackMu, outs, cycles);
      RunStep(sel, si, input, pos, rank, switchCycles, outputs, writeBackMu, outs, cycles, p);
      if p.Err? {
        return Err(p.msg);
      }
      outs, pos, cycles, si := p.value.outs, p.value.pos, p.value.cycles, si + 1;
    }
    PartitionEnd(sel, si, input, pos, rank, switchCycles, outputs, writeBackMu, outs, cycles);
    return Ok(Parted(outs, cycles));
  }

  /** The body of `run`'s loop for one selector token: load it, read its selection, move one group. */
  method ProcessToken(s: Elem<MultiHot>, input: seq<Elem<Tile>>, pos: nat, rank: nat, switchCycles: seq<nat>, outputs: nat,
                      writeBackMu: bool, outs: seq<seq<Elem<Tile>>>, cycles: nat) returns (p: Result<Progress>)
    requires pos <= |input| && |outs| == outputs
    ensures p == Advance(input, pos, SelVec(s.v), Expected(s, rank), rank, switchCycles, outputs, writeBackMu, outs, cycles + SelLoad(s.v))
  {
    var load: nat := if s.v.readFromMu then DivCeil(MultiHotSize(s.v), PmuBw) else 0;
    var sv := MultiHotToSelVec(s.v);
    var expected: Option<nat> := if s.Val? then None else Some(s.level + rank);
    assert sv == SelVec(s.v) && StrictlyIncreasing(sv) && expected == Expected(s, rank) && load == SelLoad(s.v);
    p := ProcessInputStream(input, pos, sv, expected, rank, switchCycles, outputs, writeBackMu, outs, cycles + load);
  }

  /** One selector token of `run`: the group it selects, then the rest of the run. */
  lemma RunStep(sel: seq<Elem<MultiHot>>, si: nat, input: seq<Elem<Tile>>, pos: nat, rank: nat,
                switchCycles: seq<nat>, outputs: nat, writeBackMu: bool, outs: seq<seq<Elem<Tile>>>, cycles: nat, p: Result<Progress>)
    requires si < |sel| && pos <= |input|
    requires p == Advance(input, pos, SelVec(sel[si].v), Expected(sel[si], rank), rank, switchCycles, outputs, writeBackMu,
                          outs, cycles + SelLoad(sel[si].v))
    ensures p.Err? ==> PartitionFrom(sel, si, input, pos, rank, switchCycles, outputs, writeBackMu, outs, cycles) == Err(p.msg)
    ensures p.Ok? ==> PartitionFrom(sel, si, input, pos, rank, switchCycles, outputs, writeBackMu, outs, cycles)
                      == PartitionFrom(sel, si + 1, input, p.value.pos, rank, switchCycles, outputs, writeBackMu, p.value.outs, p.value.cycles)
  {}

  lemma PartitionEnd(sel: seq<Elem<MultiHot>>, si: nat, input: seq<Elem<Tile>>, pos: nat, rank: nat,
                     switchCycles: seq<nat>, outputs: nat, writeBackMu: bool, outs: seq<seq<Elem<Tile>>>, cycles: nat)
    requires si == |sel| && pos <= |input|
    ensures PartitionFrom(sel, si, input, pos, rank, switchCycles, outputs, writeBackMu, outs, cycles) == Ok(Parted(outs, cycles))
  {}


  lemma DeliverTwice(outs: seq<seq<Elem<Tile>>>, sv: seq<nat>, a: seq<Elem<Tile>>, b: seq<Elem<Tile>>)
    ensures Deliver(Deliver(outs, sv, a), sv, b) == Deliver(outs, sv, a + b)
  {
    forall j | 0 <= j < |outs| ensures Deliver(Deliver(outs, sv, a), sv, b)[j] == Deliver(outs, sv, a + b)[j] {
      assert outs[j] + a + b == outs[j] + (a + b);
    }
  }




  // ---------------------------------------------------------------------------------------------
  // Properties

  /** What one element's step sends and whether it ends the group, by the selector's kind. */
  lemma ElemStepFacts(e: Elem<Tile>, sv: seq<nat>, expected: Option<nat>, rank: nat, switchCycles: seq<nat>, outputs: nat, writeBackMu: bool)
    requires ElemStep(e, sv, expected, rank, switchCycles, outputs, writeBackMu).Ok?
    ensures var m := ElemStep(e, sv, expected, rank, switchCycles, outputs, writeBackMu).value;
            m.sent.v == CloneWithReadFromMu(e.v, writeBackMu) &&
            (expected.None? ==> Level(m.sent) == Level(e) <= rank && (m.closes <==> Level(e) == rank)) &&
            (expected.Some? ==> (m.closes <==> e.ValStop? || rank == 0) && (e.ValStop? ==> e.level == expected.value) &&
                                (m.closes ==> Level(m.sent) == rank) && (!m.closes ==> m.sent.Val?))
  {}

  /**
   * A selection naming a stream without a switching cost or without an output stream fails the group
   * at its first element that passes the stop checks: the switching costs and the output streams are
   * two lists, each indexed by the selection.
   */
  lemma UnknownStreamFails(e: Elem<Tile>, sv: seq<nat>, expected: Option<nat>, rank: nat, switchCycles: seq<nat>, outputs: nat,
                           writeBackMu: bool)
    requires !(e.ValStop? && expected.Some? && expected.value != e.level) && !(e.ValStop? && expected.None? && e.level > rank)
    ensures ElemStep(e, sv, expected, rank, switchCycles, outputs, writeBackMu).Ok?
            <==> InRange(sv, |switchCycles|) && InRange(sv, outputs)
    ensures ElemStep(e, sv, expected, rank, switchCycles, outputs, writeBackMu).Err?
            ==> ElemStep(e, sv, expected, rank, switchCycles, outputs, writeBackMu) == Err(OutOfRange)
  {}

  /** A group that succeeds from `i`: its first element's step, then either nothing or the group from `i + 1`. */
  lemma GroupUnfold(input: seq<Elem<Tile>>, i: nat, sv: seq<nat>, expected: Option<nat>, rank: nat,
                    switchCycles: seq<nat>, outputs: nat, writeBackMu: bool)
    requires i <= |input| && GroupFrom(input, i, sv, expected, rank, switchCycles, outputs, writeBackMu).Ok?
    ensures i < |input| && ElemStep(input[i], sv, expected, rank, switchCycles, outputs, writeBackMu).Ok?
    ensures var m := ElemStep(input[i], sv, expected, rank, switchCycles, outputs, writeBackMu).value;
            var g := GroupFrom(input, i, sv, expected, rank, switchCycles, outputs, writeBackMu).value;
            (m.closes ==> g.out == [m.sent] && g.used == 1) &&
            (!m.closes ==> var rest := GroupFrom(input, i + 1, sv, expected, rank, switchCycles, outputs, writeBackMu);
                           rest.Ok? && g.out == [m.sent] + rest.value.out && g.used == 1 + rest.value.used)
  {}

  /** `out` sends, in order, the `used` input elements from `i`, each carrying the write-back flag. */
  predicate SendsInput(input: seq<Elem<Tile>>, i: nat, out: seq<Elem<Tile>>, used: nat, writeBackMu: bool)
  {
    |out| == used && i + used <= |input| &&
    forall k :: 0 <= k < used ==> out[k].v == CloneWithReadFromMu(input[i + k].v, writeBackMu)
  }

  /** `out` keeps the stops of the `used` input elements from `i`; only the last closes `rank`, exactly. */
  predicate KeepsLevels(input: seq<Elem<Tile>>, i: nat, out: seq<Elem<Tile>>, used: nat, rank: nat)
  {
    |out| == used >= 1 && i + used <= |input| &&
    (forall k :: 0 <= k < used ==> Level(out[k]) == Level(input[i + k])) &&
    (forall k :: i <= k < i + used - 1 ==> Level(input[k]) < rank) &&
    Level(input[i + used - 1]) == rank
  }

  /**
   * The `used` input elements from `i` are plain values up to a last one carrying the stop `expected`
   * (or, at rank 0, a plain value), and `out` is plain values up to a last one closing `rank`.
   */
  predicate ClosesAt(input: seq<Elem<Tile>>, i: nat, out: seq<Elem<Tile>>, used: nat, expected: nat, rank: nat)
  {
    |out| == used >= 1 && i + used <= |input| &&
    (forall k :: 0 <= k < used - 1 ==> out[k].Val?) &&
    (forall k :: i <= k < i + used - 1 ==> input[k].Val?) &&
    Level(out[used - 1]) == rank &&
    ((input[i + used - 1].ValStop? && input[i + used - 1].level == expected) || (rank == 0 && input[i + used - 1].Val?))
  }

  lemma SendsCons(input: seq<Elem<Tile>>, i: nat, e: Elem<Tile>, out: seq<Elem<Tile>>, used: nat, writeBackMu: bool)
    requires i < |input| && e.v == CloneWithReadFromMu(input[i].v, writeBackMu)
    requires SendsInput(input, i + 1, out, used, writeBackMu)
    ensures SendsInput(input, i, [e] + out, used + 1, writeBackMu)
  {
    forall k | 1 <= k < used + 1 ensures ([e] + out)[k].v == CloneWithReadFromMu(input[i + k].v, writeBackMu) {
      assert ([e] + out)[k] == out[k - 1];
      assert i + 1 + (k - 1) == i + k;
    }
  }

  lemma KeepsCons(input: seq<Elem<Tile>>, i: nat, e: Elem<Tile>, out: seq<Elem<Tile>>, used: nat, rank: nat)
    requires i < |input| && Level(e) == Level(input[i]) < rank
    requires KeepsLevels(input, i + 1, out, used, rank)
    ensures KeepsLevels(input, i, [e] + out, used + 1, rank)
  {
    forall k | 1 <= k < used + 1 ensures Level(([e] + out)[k]) == Level(input[i + k]) {
      assert ([e] + out)[k] == out[k - 1];
      assert i + 1 + (k - 1) == i + k;
    }
  }

  lemma ClosesCons(input: seq<Elem<Tile>>, i: nat, e: Elem<Tile>, out: seq<Elem<Tile>>, used: nat, expected: nat, rank: nat)
    requires i < |input| && e.Val? && input[i].Val?
    requires ClosesAt(input, i + 1, out, used, expected, rank)
    ensures ClosesAt(input, i, [e] + out, used + 1, expected, rank)
  {
    forall k | 1 <= k < used ensures ([e] + out)[k].Val? {
      assert ([e] + out)[k] == out[k - 1];
    }
    assert ([e] + out)[used] == out[used - 1];
  }

  /** A group sends, in order, each input element it uses, carrying the operator's write-back flag. */
  lemma {:induction false} GroupValues(input: seq<Elem<Tile>>, i: nat, sv: seq<nat>, expected: Option<nat>, rank: nat,
                                       switchCycles: seq<nat>, outputs: nat, writeBackMu: bool)
    requires i <= |input|
    ensures var g := GroupFrom(input, i, sv, expected, rank, switchCycles, outputs, writeBackMu);
            g.Ok? ==> SendsInput(input, i, g.value.out, g.value.used, writeBackMu)
    decreases |input| - i
  {
    var g := GroupFrom(input, i, sv, expected, rank, switchCycles, outputs, writeBackMu);
    if g.Ok? {
      GroupUnfold(input, i, sv, expected, rank, switchCycles, outputs, writeBackMu);
      var m := ElemStep(input[i], sv, expected, rank, switchCycles, outputs, writeBackMu).value;
      ElemStepFacts(input[i], sv, expected, rank, switchCycles, outputs, writeBackMu);
      if !m.closes {
        var rest := GroupFrom(input, i + 1, sv, expected, rank, switchCycles, outputs, writeBackMu).value;
        assert SendsInput(input, i + 1, rest.out, rest.used, writeBackMu) by {
          GroupValues(input, i + 1, sv, expected, rank, switchCycles, outputs, writeBackMu);
        }
        SendsCons(input, i, m.sent, rest.out, rest.used, writeBackMu);
      }
    }
  }

  /**
   * Under a plain selector vector, a group keeps its elements' stops: it runs up to the first stop
   * of level `partition_rank` (at rank 0, a single element), every stop before it below that rank.
   */
  lemma {:induction false} GroupKeepsLevels(input: seq<Elem<Tile>>, i: nat, sv: seq<nat>, rank: nat,
                                            switchCycles: seq<nat>, outputs: nat, writeBackMu: bool)
    requires i <= |input|
    ensures var g := GroupFrom(input, i, sv, None, rank, switchCycles, outputs, writeBackMu);
            g.Ok? ==> KeepsLevels(input, i, g.value.out, g.value.used, rank)
    decreases |input| - i
  {
    var g := GroupFrom(input, i, sv, None, rank, switchCycles, outputs, writeBackMu);
    if g.Ok? {
      GroupUnfold(input, i, sv, None, rank, switchCycles, outputs, writeBackMu);
      var m := ElemStep(input[i], sv, None, rank, switchCycles, outputs, writeBackMu).value;
      ElemStepFacts(input[i], sv, None, rank, switchCycles, outputs, writeBackMu);
      if !m.closes {
        var rest := GroupFrom(input, i + 1, sv, None, rank, switchCycles, outputs, writeBackMu).value;
        assert KeepsLevels(input, i + 1, rest.out, rest.used, rank) by {
          GroupKeepsLevels(input, i + 1, sv, rank, switchCycles, outputs, writeBackMu);
        }
        KeepsCons(input, i, m.sent, rest.out, rest.used, rank);
      }
    }
  }

  /**
   * Under a selector stop, a group is plain values up to the input stop the selector demands (at
   * rank 0, a single value), and it is sent with only its last element closing `partition_rank`.
   */
  lemma {:induction false} GroupCloses(input: seq<Elem<Tile>>, i: nat, sv: seq<nat>, expected: nat, rank: nat,
                                       switchCycles: seq<nat>, outputs: nat, writeBackMu: bool)
    requires i <= |input|
    ensures var g := GroupFrom(input, i, sv, Some(expected), rank, switchCycles, outputs, writeBackMu);
            g.Ok? ==> ClosesAt(input, i, g.value.out, g.value.used, expected, rank)
    decreases |input| - i
  {
    var g := GroupFrom(input, i, sv, Some(expected), rank, switchCycles, outputs, writeBackMu);
    if g.Ok? {
      GroupUnfold(input, i, sv, Some(expected), rank, switchCycles, outputs, writeBackMu);
      var m := ElemStep(input[i], sv, Some(expected), rank, switchCycles, outputs, writeBackMu).value;
      ElemStepFacts(input[i], sv, Some(expected), rank, switchCycles, outputs, writeBackMu);
      if !m.closes {
        var rest := GroupFrom(input, i + 1, sv, Some(expected), rank, switchCycles, outputs, writeBackMu).value;
        assert ClosesAt(input, i + 1, rest.out, rest.used, expected, rank) by {
          GroupCloses(input, i + 1, sv, expected, rank, switchCycles, outputs, writeBackMu);
        }
        ClosesCons(input, i, m.sent, rest.out, rest.used, expected, rank);
      }
    }
  }

  /** At `partition_rank` 0 every selector token moves exactly one element. */
  lemma GroupRankZero(input: seq<Elem<Tile>>, i: nat, sv: seq<nat>, expected: Option<nat>,
                      switchCycles: seq<nat>, outputs: nat, writeBackMu: bool)
    requires i <= |input|
    ensures var g := GroupFrom(input, i, sv, expected, 0, switchCycles, outputs, writeBackMu);
            g.Ok? ==> g.value.used == 1
  {
  }

  /** Every element held by the streams carries the read flag `flag`. */
  predicate FlagsAre(outs: seq<seq<Elem<Tile>>>, flag: bool)
  {
    forall j, k :: 0 <= j < |outs| && 0 <= k < |outs[j]| ==> outs[j][k].v.readFromMu == flag
  }

  lemma DeliverFlags(outs: seq<seq<Elem<Tile>>>, sv: seq<nat>, sent: seq<Elem<Tile>>, flag: bool)
    requires FlagsAre(outs, flag) && forall k :: 0 <= k < |sent| ==> sent[k].v.readFromMu == flag
    ensures FlagsAre(Deliver(outs, sv, sent), flag)
  {
    var r: seq<seq<Elem<Tile>>> := Deliver(outs, sv, sent);
    forall j: int, k: int | 0 <= j < |r| && 0 <= k < |r[j]| ensures r[j][k].v.readFromMu == flag {
      if j in sv && k >= |outs[j]| {
        assert r[j][k] == sent[k - |outs[j]|];
      }
    }
  }

  /** A group leaves the streams it does not select as they were. */
  lemma AdvanceUnselected(input: seq<Elem<Tile>>, pos: nat, sv: seq<nat>, expected: Option<nat>, rank: nat,
                          switchCycles: seq<nat>, outputs: nat, writeBackMu: bool, outs: seq<seq<Elem<Tile>>>, cycles: nat, j: nat)
    requires pos <= |input| && j < |outs| && j !in sv
    ensures var p := Advance(input, pos, sv, expected, rank, switchCycles, outputs, writeBackMu, outs, cycles);
            p.Ok? ==> p.value.outs[j] == outs[j]
  {}

  /** A group only adds elements carrying the write-back flag. */
  lemma AdvanceFlags(input: seq<Elem<Tile>>, pos: nat, sv: seq<nat>, expected: Option<nat>, rank: nat,
                     switchCycles: seq<nat>, outputs: nat, writeBackMu: bool, outs: seq<seq<Elem<Tile>>>, cycles: nat)
    requires pos <= |input| && FlagsAre(outs, writeBackMu)
    ensures var p := Advance(input, pos, sv, expected, rank, switchCycles, outputs, writeBackMu, outs, cycles);
            p.Ok? ==> FlagsAre(p.value.outs, writeBackMu)
  {
    var g := GroupFrom(input, pos, sv, expected, rank, switchCycles, outputs, writeBackMu);
    if g.Ok? {
      GroupValues(input, pos, sv, expected, rank, switchCycles, outputs, writeBackMu);
      DeliverFlags(outs, sv, g.value.out, writeBackMu);
    }
  }

  /** `run` only appends to the streams its selector tokens name: a stream no remaining token selects ends as it was. */
  lemma {:induction false} PartitionUnselected(sel: seq<Elem<MultiHot>>, si: nat, input: seq<Elem<Tile>>, pos: nat, rank: nat,
                                               switchCycles: seq<nat>, outputs: nat, writeBackMu: bool, outs: seq<seq<Elem<Tile>>>,
                                               cycles: nat, j: nat)
    requires si <= |sel| && pos <= |input| && j < |outs|
    requires forall t :: si <= t < |sel| ==> j !in SelVec(sel[t].v)
    ensures var r := PartitionFrom(sel, si, input, pos, rank, switchCycles, outputs, writeBackMu, outs, cycles);
            r.Ok? ==> r.value.outs[j] == outs[j]
    decreases |sel| - si
  {
    if si < |sel| {
      var s := sel[si];
      var p := Advance(input, pos, SelVec(s.v), Expected(s, rank), rank, switchCycles, outputs, writeBackMu, outs, cycles + SelLoad(s.v));
      RunStep(sel, si, input, pos, rank, switchCycles, outputs, writeBackMu, outs, cycles, p);
      if p.Ok? {
        AdvanceUnselected(input, pos, SelVec(s.v), Expected(s, rank), rank, switchCycles, outputs, writeBackMu, outs, cycles + SelLoad(s.v), j);
        var rest := PartitionFrom(sel, si + 1, input, p.value.pos, rank, switchCycles, outputs, writeBackMu, p.value.outs, p.value.cycles);
        assert rest.Ok? ==> rest.value.outs[j] == outs[j] by {
          PartitionUnselected(sel, si + 1, input, p.value.pos, rank, switchCycles, outputs, writeBackMu, p.value.outs, p.value.cycles, j);
        }
      }
    }
  }

  /** Every element `run` forwards carries the operator's write-back flag. */
  lemma {:induction false} PartitionFlags(sel: seq<Elem<MultiHot>>, si: nat, input: seq<Elem<Tile>>, pos: nat, rank: nat,
                                          switchCycles: seq<nat>, outputs: nat, writeBackMu: bool, outs: seq<seq<Elem<Tile>>>, cycles: nat)
    requires si <= |sel| && pos <= |input| && FlagsAre(outs, writeBackMu)
    ensures var r := PartitionFrom(sel, si, input, pos, rank, switchCycles, outputs, writeBackMu, outs, cycles);
            r.Ok? ==> FlagsAre(r.value.outs, writeBackMu)
    decreases |sel| - si
  {
    if si < |sel| {
      var s := sel[si];
      var p := Advance(input, pos, SelVec(s.v), Expected(s, rank), rank, switchCycles, outputs, writeBackMu, outs, cycles + SelLoad(s.v));
      RunStep(sel, si, input, pos, rank, switchCycles, outputs, writeBackMu, outs, cycles, p);
      if p.Ok? {
        AdvanceFlags(input, pos, SelVec(s.v), Expected(s, rank), rank, switchCycles, outputs, writeBackMu, outs, cycles + SelLoad(s.v));
        var rest := PartitionFrom(sel, si + 1, input, p.value.pos, rank, switchCycles, outputs, writeBackMu, p.value.outs, p.value.cycles);
        assert rest.Ok? ==> FlagsAre(rest.value.outs, writeBackMu) by {
          PartitionFlags(sel, si + 1, input, p.value.pos, rank, switchCycles, outputs, writeBackMu, p.value.outs, p.value.cycles);
        }
      }
    }
  }
}
