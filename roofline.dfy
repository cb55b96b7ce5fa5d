/**
 * The roofline cost of one operator step: reading an operand from a memory unit costs its size over
 * the memory-unit bandwidth, writing the result back likewise, and the step takes as long as the
 * slowest of loading, computing and storing.
 */
module Roofline {
  import opened Calc
  import opened Elems
  import opened Tiles

  /** Cycles to read a tile: its size over the bandwidth when it comes from a memory unit, else none. */
  function LoadCycles(t: Tile): (c: nat)
    ensures t.readFromMu ==> c * PmuBw >= SizeInBytes(t)
    ensures !t.readFromMu ==> c == 0
  {
    if t.readFromMu then DivCeil(SizeInBytes(t), PmuBw) else 0
  }

  /** Cycles to write a tile back: its size over the bandwidth when the operator writes back, else none. */
  function StoreCycles(t: Tile, writeBackMu: bool): (c: nat)
    ensures writeBackMu ==> c * PmuBw >= SizeInBytes(t)
    ensures !writeBackMu ==> c == 0
  {
    if writeBackMu then DivCeil(SizeInBytes(t), PmuBw) else 0
  }

  /** What an operator sent, and the cycles it spent. */
  datatype Timed = Timed(out: seq<Elem<Tile>>, cycles: nat)

  /** `rest` preceded by the elements `out`, sent after `cycles` cycles. */
  function Prefixed(out: seq<Elem<Tile>>, cycles: nat, rest: Timed): Timed
  {
    Timed(out + rest.out, cycles + rest.cycles)
  }

  lemma PrefixedTwice(out: seq<Elem<Tile>>, cycles: nat, more: seq<Elem<Tile>>, c: nat, rest: Timed)
    ensures Prefixed(out, cycles, Prefixed(more, c, rest)) == Prefixed(out + more, cycles + c, rest)
  {
    assert out + (more + rest.out) == (out + more) + rest.out;
  }

  lemma PrefixedNothing(r: Timed)
    ensures Prefixed([], 0, r) == r
  {
    assert [] + r.out == r.out;
  }
}
