/**
 * `Parallelize`: deals the groups of its input stream to its output streams in turn. A group is one
 * plain value at partition rank 0, and otherwise runs up to a stop equal to the partition rank;
 * group `k` goes to output `k mod n`. Each element is forwarded unchanged, stamped with the time
 * it was read plus the switching cost of its output.
 */
module Parallelize {
  import opened Elems
  import opened Wrappers
  import opened Calc
  import opened Shapes

  const StopAboveRank := "Stop level is greater than partition rank"
  const NoSwitchCost := "index out of bounds"

  /** The element ends the group it belongs to. */
  predicate Closes<T>(e: Elem<T>, rank: nat)
  {
    (e.Val? && rank == 0) || (e.ValStop? && e.level == rank)
  }

  /** The element is a stop above the partition rank: the operator fails on it. */
  predicate TooHigh<T>(e: Elem<T>, rank: nat)
  {
    e.ValStop? && e.level > rank
  }

  /** The operator's clock after reading the first `i` elements: reading waits for each element's arrival. */
  function Clock<T>(input: seq<ChannelElement<T>>, i: nat): (now: nat)
    requires i <= |input|
    ensures forall j :: 0 <= j < i ==> input[j].time <= now
  {
    if i == 0 then 0 else Max(Clock(input, i - 1), input[i - 1].time)
  }

  /** How many groups the first `i` elements close. */
  function Closed<T>(input: seq<ChannelElement<T>>, rank: nat, i: nat): (c: nat)
    requires i <= |input|
    ensures c <= i
  {
    if i == 0 then 0 else Closed(input, rank, i - 1) + (if Closes(input[i - 1].data, rank) then 1 else 0)
  }

  /** The output element `i` goes to: its group's number, modulo the number of outputs. */
  function Dest<T>(input: seq<ChannelElement<T>>, rank: nat, n: nat, i: nat): (k: nat)
    requires 0 < n && i < |input|
    ensures k < n
  {
    Closed(input, rank, i) % n
  }

  /**
   * The switching cost of output `k`. The costs are configured apart from the outputs; an output
   * without a cost makes the source's index panic, so the value given here is never sent.
   */
  function Cost(switchCycles: seq<nat>, k: nat): nat
  {
    if k < |switchCycles| then switchCycles[k] else 0
  }

  /** Element `i` as sent: unchanged, stamped with its reading time plus its output's switching cost. */
  function Forwarded<T>(input: seq<ChannelElement<T>>, rank: nat, n: nat, switchCycles: seq<nat>, i: nat): ChannelElement<T>
    requires 0 < n && i < |input|
  {
    ChannelElement(input[i].data, Clock(input, i + 1) + Cost(switchCycles, Dest(input, rank, n, i)))
  }

  /** What output `j` of `n` has received once the first `i` elements are read, in reading order. */
  function Received<T>(input: seq<ChannelElement<T>>, rank: nat, n: nat, switchCycles: seq<nat>, j: nat, i: nat): seq<ChannelElement<T>>
    requires 0 < n && i <= |input|
  {
    if i == 0 then []
    else
      Received(input, rank, n, switchCycles, j, i - 1)
      + if Dest(input, rank, n, i - 1) == j then [Forwarded(input, rank, n, switchCycles, i - 1)] else []
  }

  /** All `n` outputs once the first `i` elements are read. */
  function Outputs<T>(input: seq<ChannelElement<T>>, rank: nat, n: nat, switchCycles: seq<nat>, i: nat): (outs: seq<seq<ChannelElement<T>>>)
    requires 0 < n && i <= |input|
    ensures |outs| == n
  {
    seq(n, (j: int) requires 0 <= j => Received(input, rank, n, switchCycles, j, i))
  }

  /** Some element is a stop above the partition rank. */
  predicate Fails<T>(input: seq<ChannelElement<T>>, rank: nat)
  {
    exists i :: 0 <= i < |input| && TooHigh(input[i].data, rank)
  }

  /** Some element goes to an output that has no switching cost configured. */
  predicate Uncosted<T>(input: seq<ChannelElement<T>>, rank: nat, n: nat, switchCycles: seq<nat>)
    requires 0 < n
  {
    exists i :: 0 <= i < |input| && Dest(input, rank, n, i) >= |switchCycles|
  }

  /** With a switching cost for every output, no element lacks one. */
  lemma EnoughCosts<T>(input: seq<ChannelElement<T>>, rank: nat, n: nat, switchCycles: seq<nat>)
    requires 0 < n <= |switchCycles|
    ensures !Uncosted(input, rank, n, switchCycles)
  {}

  /**
   * `Parallelize::run` over `n` output streams: reads the input until it closes (a group left open
   * at the end is not an error), sending each element to the output of its group. The switching
   * costs are indexed by output, so an output beyond them panics before its element is sent.
   */
  method Run<T>(input: seq<ChannelElement<T>>, rank: nat, n: nat, switchCycles: seq<nat>) returns (r: Result<seq<seq<ChannelElement<T>>>>)
    requires 0 < n
    ensures r.Err? <==> Fails(input, rank) || Uncosted(input, rank, n, switchCycles)
    ensures r == Err(NoSwitchCost) || r == Err(StopAboveRank) || r.Ok?
    ensures r == Err(NoSwitchCost) ==> Uncosted(input, rank, n, switchCycles)
    ensures r == Err(StopAboveRank) ==> Fails(input, rank)
    ensures r.Ok? ==> r.value == Outputs(input, rank, n, switchCycles, |input|)
  {
    var outs: seq<seq<ChannelElement<T>>> := seq(n, _ => []);
    var now: nat := 0;
    var k: nat := 0;
    var i: nat := 0;
    while i < |input|
      invariant i <= |input| && now == Clock(input, i) && k == Closed(input, rank, i) % n
      invariant outs == Outputs(input, rank, n, switchCycles, i)
      invariant forall j :: 0 <= j < i ==> !TooHigh(input[j].data, rank)
      invariant forall j :: 0 <= j < i ==> Dest(input, rank, n, j) < |switchCycles|
    {
      var x := input[i];
      now := Max(now, x.time);
      assert k == Dest(input, rank, n, i);
      if k >= |switchCycles| {
        UncostedAt(input, rank, n, switchCycles, i);
        return Err(NoSwitchCost);
      }
      var sent := ChannelElement(x.data, now + switchCycles[k]);
      OutputsStep(input, rank, n, switchCycles, i, outs, k, sent);
      outs := outs[k := outs[k] + [sent]];
      if TooHigh(x.data, rank) {
        FailsAt(input, rank, i);
        return Err(StopAboveRank);
      }
      if Closes(x.data, rank) {
        k := (k + 1) % n;
        ModSucc(Closed(input, rank, i), n);
      }
      i := i + 1;
    }
    NoneFails(input, rank, n, switchCycles);
    return Ok(outs);
  }

  lemma UncostedAt<T>(input: seq<ChannelElement<T>>, rank: nat, n: nat, switchCycles: seq<nat>, i: nat)
    requires 0 < n && i < |input| && Dest(input, rank, n, i) >= |switchCycles|
    ensures Uncosted(input, rank, n, switchCycles)
  {}

  lemma FailsAt<T>(input: seq<ChannelElement<T>>, rank: nat, i: nat)
    requires i < |input| && TooHigh(input[i].data, rank)
    ensures Fails(input, rank)
  {}

  lemma NoneFails<T>(input: seq<ChannelElement<T>>, rank: nat, n: nat, switchCycles: seq<nat>)
    requires 0 < n
    requires forall j :: 0 <= j < |input| ==> !TooHigh(input[j].data, rank)
    requires forall j :: 0 <= j < |input| ==> Dest(input, rank, n, j) < |switchCycles|
    ensures !Fails(input, rank) && !Uncosted(input, rank, n, switchCycles)
  {}

  /** Sending element `i` to its output extends that output's record by the element and leaves the others. */
  lemma OutputsStep<T>(input: seq<ChannelElement<T>>, rank: nat, n: nat, switchCycles: seq<nat>, i: nat,
                       outs: seq<seq<ChannelElement<T>>>, k: nat, sent: ChannelElement<T>)
    requires 0 < n && i < |input| && outs == Outputs(input, rank, n, switchCycles, i)
    requires k == Dest(input, rank, n, i) && k < |switchCycles|
    requires sent == ChannelElement(input[i].data, Clock(input, i + 1) + switchCycles[k])
    ensures outs[k := outs[k] + [sent]] == Outputs(input, rank, n, switchCycles, i + 1)
  {
    var next := Outputs(input, rank, n, switchCycles, i + 1);
    forall j | 0 <= j < n
      ensures outs[k := outs[k] + [sent]][j] == next[j]
    {
      assert next[j] == Received(input, rank, n, switchCycles, j, i + 1);
    }
  }

  lemma ModSucc(c: nat, n: nat)
    requires 0 < n
    ensures (c % n + 1) % n == (c + 1) % n
  {
    var q, r := Split(c, n);
    if r + 1 < n {
      DivModUnique(c + 1, n, q, r + 1);
      DivModUnique(r + 1, n, 0, r + 1);
    } else {
      assert c + 1 == (q + 1) * n + 0 by { RowStart(q, n); }
      DivModUnique(c + 1, n, q + 1, 0);
      DivModUnique(r + 1, n, 1, 0);
    }
  }

  /** At partition rank 0 every element is a group of its own, so element `i` goes to output `i mod n`. */
  lemma {:induction false} RankZeroRoundRobin<T>(input: seq<ChannelElement<T>>, n: nat, i: nat)
    requires 0 < n && i < |input| && !Fails(input, 0)
    ensures Dest(input, 0, n, i) == i % n
  {
    ClosedAll(input, i);
  }

  lemma {:induction false} ClosedAll<T>(input: seq<ChannelElement<T>>, i: nat)
    requires i <= |input| && !Fails(input, 0)
    ensures Closed(input, 0, i) == i
  {
    if i > 0 {
      ClosedAll(input, i - 1);
      assert !TooHigh(input[i - 1].data, 0);
    }
  }

  /** At a positive rank a group closes exactly at a stop equal to the rank: the next element goes to the next output. */
  lemma NextGroupNextOutput<T>(input: seq<ChannelElement<T>>, rank: nat, n: nat, i: nat)
    requires 0 < n && i + 1 < |input|
    ensures Closes(input[i].data, rank) ==> Dest(input, rank, n, i + 1) == (Dest(input, rank, n, i) + 1) % n
    ensures !Closes(input[i].data, rank) ==> Dest(input, rank, n, i + 1) == Dest(input, rank, n, i)
  {
    assert Closed(input, rank, i + 1) == Closed(input, rank, i) + if Closes(input[i].data, rank) then 1 else 0;
    ModSucc(Closed(input, rank, i), n);
  }

  /** Four plain tiles at rank 0 over four outputs: one to each output, in order. */
  lemma FourToFour<T>(a: T, b: T, c: T, d: T)
    ensures var input := [ChannelElement(Val(a), 0), ChannelElement(Val(b), 0), ChannelElement(Val(c), 0), ChannelElement(Val(d), 0)];
      !Fails(input, 0)
      && Outputs(input, 0, 4, [1, 1, 1, 1], 4)
         == [[ChannelElement(Val(a), 1)], [ChannelElement(Val(b), 1)], [ChannelElement(Val(c), 1)], [ChannelElement(Val(d), 1)]]
  {
    var input := [ChannelElement(Val(a), 0), ChannelElement(Val(b), 0), ChannelElement(Val(c), 0), ChannelElement(Val(d), 0)];
    var sc := [1, 1, 1, 1];
    assert Closed(input, 0, 1) == 1 && Closed(input, 0, 2) == 2 && Closed(input, 0, 3) == 3;
    assert Dest(input, 0, 4, 0) == 0 && Dest(input, 0, 4, 1) == 1 && Dest(input, 0, 4, 2) == 2 && Dest(input, 0, 4, 3) == 3;
    assert Clock(input, 1) == 0 && Clock(input, 2) == 0 && Clock(input, 3) == 0 && Clock(input, 4) == 0;
    forall j | 0 <= j < 4
      ensures Received(input, 0, 4, sc, j, 4) == [Forwarded(input, 0, 4, sc, j)]
    {
      var f := seq(4, m requires 0 <= m < 4 => Forwarded(input, 0, 4, sc, m));
      assert Received(input, 0, 4, sc, j, 1) == if j == 0 then [f[0]] else [];
      assert Received(input, 0, 4, sc, j, 2) == Received(input, 0, 4, sc, j, 1) + if j == 1 then [f[1]] else [];
      assert Received(input, 0, 4, sc, j, 3) == Received(input, 0, 4, sc, j, 2) + if j == 2 then [f[2]] else [];
      assert Received(input, 0, 4, sc, j, 4) == Received(input, 0, 4, sc, j, 3) + if j == 3 then [f[3]] else [];
    }
  }
}
