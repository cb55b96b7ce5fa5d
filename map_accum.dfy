/**
 * `BinaryMapAccum`: an accumulation over two streams read in lockstep. Each pair of elements must
 * match (two values, or two stops of one level); the pair folds into the accumulator, and a stop of
 * level `rank` or more sends the folded tile and resets the accumulator, as in `Accum`.
 */
module MapAccum {
  import opened Wrappers
  import opened Calc
  import opened Elems
  import opened Tiles
  import opened Roofline
  import opened Accum
  import opened Map
  import opened Shapes

  /** The folding function: (operand, operand, accumulator, compute bandwidth, write-back flag) to (cycles, tile). */
  type MapAccumFunc = (Tile, Tile, Tile, nat, bool) -> (nat, Tile)

  /** The two streams read as one stream of operand pairs, as far as both reach, with the first's stops. */
  function Zip(in1: seq<Elem<Tile>>, in2: seq<Elem<Tile>>): (z: seq<Elem<(Tile, Tile)>>)
    ensures |z| == if |in1| <= |in2| then |in1| else |in2|
    ensures forall k :: 0 <= k < |z| ==> z[k] == Rewrap(in1[k], (in1[k].v, in2[k].v))
  {
    seq(if |in1| <= |in2| then |in1| else |in2|, k requires 0 <= k < |in1| && 0 <= k < |in2| =>
      Rewrap(in1[k], (in1[k].v, in2[k].v)))
  }

  /** The pair-folding operator as an accumulation: loading costs both operands' loads. */
  function PairOp(func: MapAccumFunc, init: Tile, rank: nat, computeBw: nat, writeBackMu: bool): (op: Op<(Tile, Tile)>)
  {
    Op((p: (Tile, Tile)) => LoadCycles(p.0) + LoadCycles(p.1), (p: (Tile, Tile), a: Tile, bw: nat, wb: bool) => func(p.0, p.1, a, bw, wb),
       init, rank, computeBw, writeBackMu)
  }

  /**
   * `run`: succeeds exactly on aligned inputs, and then sends and spends what accumulating the stream
   * of operand pairs does; otherwise fails on the first mismatched pair or on the stream that ends first.
   */
  method Run(in1: seq<Elem<Tile>>, in2: seq<Elem<Tile>>, func: MapAccumFunc, init: Tile, rank: nat,
             computeBw: nat, writeBackMu: bool) returns (res: Result<Timed>)
    ensures res.Ok? <==> Aligned(in1, in2)
    ensures res.Ok? ==> res.value == AccumFrom(Zip(in1, in2), init, PairOp(func, init, rank, computeBw, writeBackMu))
    ensures res.Err? ==> (res.msg == ShapeMismatch <==> Mismatched(in1, in2))
    ensures res.Err? ==> res.msg == ShapeMismatch || res.msg == ClosedEarlier
  {
    ghost var op := PairOp(func, init, rank, computeBw, writeBackMu);
    ghost var zipped := Zip(in1, in2);
    var accumulator := init;
    var out: seq<Elem<Tile>>, cycles: nat := [], 0;
    var i: nat := 0;
    PrefixedNothing(AccumFrom(zipped, init, op));
    while true
      invariant i <= |in1| && i <= |in2| && i <= |zipped|
      invariant forall k :: 0 <= k < i ==> Matches(in1[k], in2[k])
      invariant AccumFrom(zipped, init, op) == Prefixed(out, cycles, AccumFrom(zipped[i..], accumulator, op))
      decreases |in1| - i
    {
      if i == |in1| && i == |in2| {
        assert AccumFrom(zipped[i..], accumulator, op) == Timed([], 0);
        assert out + [] == out;
        return Ok(Timed(out, cycles));
      } else if i == |in1| || i == |in2| {
        NoMismatchBefore(in1, in2, i);
        return Err(ClosedEarlier);
      }
      var stopLev := PairStop(in1[i], in2[i]);
      if stopLev.Err? {
        return Err(ShapeMismatch);
      }
      var pair := match stopLev.value
        case None => Val((in1[i].v, in2[i].v))
        case Some(lev) => ValStop((in1[i].v, in2[i].v), lev);
      var emitted, c, next := FoldPair(pair, accumulator, func, init, rank, computeBw, writeBackMu);
      assert AccumFrom(zipped, init, op) == Prefixed(out + emitted, cycles + c, AccumFrom(zipped[i + 1..], next, op)) by {
        assert pair == zipped[i];
        StepAt(zipped, i, accumulator, op, out, cycles);
      }
      out, cycles, accumulator := out + emitted, cycles + c, next;
      i := i + 1;
    }
  }

  /**
   * One step of `run` on a matched pair (`process_map_accum` when it folds, `process_map_accum_init`
   * when it sends): what accumulating the pair does.
   */
  method FoldPair(pair: Elem<(Tile, Tile)>, accumulator: Tile, func: MapAccumFunc, init: Tile, rank: nat,
                  computeBw: nat, writeBackMu: bool) returns (out: seq<Elem<Tile>>, cycles: nat, next: Tile)
    ensures Step(out, cycles, next) == StepOf(pair, accumulator, PairOp(func, init, rank, computeBw, writeBackMu))
  {
    var (data1, data2) := pair.v;
    var loadCycle: nat := 0;
    if data1.readFromMu {
      loadCycle := loadCycle + DivCeil(SizeInBytes(data1), PmuBw);
    }
    if data2.readFromMu {
      loadCycle := loadCycle + DivCeil(SizeInBytes(data2), PmuBw);
    }
    var (compCycles, outTile) := func(data1, data2, accumulator, computeBw, writeBackMu);
    if pair.ValStop? && pair.level >= rank {
      next := init;
      var storeCycles := if writeBackMu then DivCeil(SizeInBytes(next), PmuBw) else 0;
      cycles := Max3(loadCycle, compCycles, storeCycles);
      if pair.level == rank {
        out := [Val(outTile)];
      } else {
        out := [ValStop(outTile, pair.level - rank)];
      }
    } else {
      next := outTile;
      cycles := Max(loadCycle, compCycles);
      out := [];
    }
  }

  // ---------------------------------------------------------------------------------------------
  // Properties

  /** Aligned streams zip into a stream of their common length whose stops are theirs. */
  lemma ZipLevels(in1: seq<Elem<Tile>>, in2: seq<Elem<Tile>>)
    requires Aligned(in1, in2)
    ensures |Zip(in1, in2)| == |in1| && StopLevels(Zip(in1, in2)) == StopLevels(in1) == StopLevels(in2)
    ensures Canonical(Zip(in1, in2)) <==> Canonical(in1)
  {
    var z := Zip(in1, in2);
    AlignedLevels(in1, in2);
    assert forall k :: 0 <= k < |z| ==> (z[k].ValStop? <==> in1[k].ValStop?);
    assert forall k :: 0 <= k < |in1| ==> Level(z[k]) == Level(in1[k]);
  }

  /**
   * Accumulating the innermost `rank` dimensions of two aligned streams of a tensor `outer + inner`
   * gives the stream of the tensor `outer`.
   */
  lemma MapAccumShape(in1: seq<Elem<Tile>>, in2: seq<Elem<Tile>>, func: MapAccumFunc, init: Tile,
                      computeBw: nat, writeBackMu: bool, outer: seq<nat>, inner: seq<nat>)
    requires Aligned(in1, in2) && Canonical(in1) && Positive(inner) && |inner| >= 1
    requires StopLevels(in1) == ShapeLevels(outer + inner)
    ensures var r := AccumFrom(Zip(in1, in2), init, PairOp(func, init, |inner|, computeBw, writeBackMu));
            StopLevels(r.out) == ShapeLevels(outer) && |r.out| == |ShapeLevels(outer)|
  {
    ZipLevels(in1, in2);
    AccumShape(Zip(in1, in2), PairOp(func, init, |inner|, computeBw, writeBackMu), outer, inner);
  }
}
