/**
 * `Accum`: folds the innermost `rank` dimensions of a stream of tiles into one tile each. Every
 * element folds into the accumulator; an element whose stop closes `rank` or more dimensions also
 * sends the folded tile (carrying the stop minus `rank`) and resets the accumulator.
 */
module Accum {
  import opened Calc
  import opened Elems
  import opened Tiles
  import opened Shapes
  import opened RoundTrip
  import opened Nesting
  import opened Roofline

  /**
   * An accumulating operator on elements holding `T`: the load cost of an input, the folding function
   * (input, accumulator, compute bandwidth, write-back flag) to (compute cycles, new tile), the
   * initial accumulator, and the rank folded away.
   */
  datatype Op<-T> = Op(load: T -> nat, func: (T, Tile, nat, bool) -> (nat, Tile), init: Tile, rank: nat,
                      computeBw: nat, writeBackMu: bool)

  /** The element closes the folded dimensions: the operator sends and resets. */
  predicate Emits<T>(e: Elem<T>, rank: nat)
  {
    e.ValStop? && e.level >= rank
  }

  /** What one element does: the elements it sends, the cycles it takes and the next accumulator. */
  datatype Step = Step(out: seq<Elem<Tile>>, cycles: nat, next: Tile)

  /**
   * One element `e` against accumulator `acc`: folding costs the larger of loading and computing;
   * sending also costs storing the reset accumulator when writing back.
   */
  function StepOf<T>(e: Elem<T>, acc: Tile, op: Op<T>): (s: Step)
    ensures |s.out| <= 1
  {
    var step := op.func(e.v, acc, op.computeBw, op.writeBackMu);
    if Emits(e, op.rank) then
      Step([WithLevel(step.1, e.level - op.rank)], Max3(op.load(e.v), step.0, StoreCycles(op.init, op.writeBackMu)), op.init)
    else
      Step([], Max(op.load(e.v), step.0), step.1)
  }

  /** The whole run from accumulator `acc`: output and cycles. */
  function AccumFrom<T>(input: seq<Elem<T>>, acc: Tile, op: Op<T>): (r: Timed)
    decreases |input|
  {
    if input == [] then Timed([], 0)
    else
      var s := StepOf(input[0], acc, op);
      Prefixed(s.out, s.cycles, AccumFrom(input[1..], s.next, op))
  }

  /** The levels an accumulation leaves: those of the closing elements, less `rank`. */
  function Reduce(levels: seq<nat>, rank: nat): (r: seq<nat>)
    ensures |r| <= |levels|
    decreases |levels|
  {
    if levels == [] then []
    else (if levels[0] >= rank then [levels[0] - rank] else []) + Reduce(levels[1..], rank)
  }

  /** `run`: the accumulator starts as the initial tile and is overwritten at every element. */
  method Run<T>(input: seq<Elem<T>>, op: Op<T>) returns (out: seq<Elem<Tile>>, cycles: nat)
    ensures Timed(out, cycles) == AccumFrom(input, op.init, op)
  {
    var accumulator := op.init;
    out, cycles := [], 0;
    var i: nat := 0;
    PrefixedNothing(AccumFrom(input, op.init, op));
    while i < |input|
      invariant i <= |input|
      invariant AccumFrom(input, op.init, op) == Prefixed(out, cycles, AccumFrom(input[i..], accumulator, op))
    {
      var e := input[i];
      ghost var s := StepOf(e, accumulator, op);
      ghost var old_out, old_cycles := out, cycles;
      StepAt(input, i, accumulator, op, out, cycles);
      var (compCycles, outTile) := op.func(e.v, accumulator, op.computeBw, op.writeBackMu);
      assert outTile == op.func(e.v, accumulator, op.computeBw, op.writeBackMu).1;
      assert s.out == if Emits(e, op.rank) then [WithLevel(outTile, e.level - op.rank)] else [];
      if Emits(e, op.rank) {
        accumulator := op.init;
        cycles := cycles + Max3(op.load(e.v), compCycles, StoreCycles(accumulator, op.writeBackMu));
        out := out + [WithLevel(outTile, e.level - op.rank)];
      } else {
        accumulator := outTile;
        cycles := cycles + Max(op.load(e.v), compCycles);
        out := out + [];
      }
      assert out == old_out + s.out && cycles == old_cycles + s.cycles && accumulator == s.next;
      i := i + 1;
    }
    assert AccumFrom(input[i..], accumulator, op) == Timed([], 0);
    assert out + [] == out;
  }

  /** One step of the run at position `i`, after output `out` and `cycles` cycles. */
  lemma StepAt<T>(input: seq<Elem<T>>, i: nat, acc: Tile, op: Op<T>, out: seq<Elem<Tile>>, cycles: nat)
    requires i < |input|
    ensures var s := StepOf(input[i], acc, op);
            Prefixed(out, cycles, AccumFrom(input[i..], acc, op))
            == Prefixed(out + s.out, cycles + s.cycles, AccumFrom(input[i + 1..], s.next, op))
  {
    assert input[i..][0] == input[i] && input[i..][1..] == input[i + 1..];
    var s := StepOf(input[i], acc, op);
    PrefixedTwice(out, cycles, s.out, s.cycles, AccumFrom(input[i + 1..], s.next, op));
  }

  // ---------------------------------------------------------------------------------------------
  // Properties

  /**
   * In a canonical stream with `rank >= 1`, the output levels are the reduced input levels: one
   * output per element closing at least `rank` dimensions, which closes `rank` fewer.
   */
  lemma {:induction false} AccumLevels<T>(input: seq<Elem<T>>, acc: Tile, op: Op<T>)
    requires Canonical(input) && op.rank >= 1
    ensures StopLevels(AccumFrom(input, acc, op).out) == Reduce(StopLevels(input), op.rank)
    decreases |input|
  {
    if input != [] {
      var e := input[0];
      var next := StepOf(e, acc, op).next;
      assert Canonical(input[1..]) by {
        forall k | 0 <= k < |input[1..]| ensures input[1..][k].ValStop? ==> input[1..][k].level > 0 {
          assert input[1..][k] == input[k + 1];
        }
      }
      AccumLevels(input[1..], next, op);
      assert StopLevels(input)[1..] == StopLevels(input[1..]);
      assert StopLevels(input)[0] == Level(e);
      assert Emits(e, op.rank) <==> Level(e) >= op.rank by {
        assert e.ValStop? ==> e.level > 0;
      }
      var rest := AccumFrom(input[1..], next, op).out;
      StreamAppend(StepOf(e, acc, op).out, rest);
    }
  }

  lemma {:induction false} ReduceAppend(a: seq<nat>, b: seq<nat>, rank: nat)
    ensures Reduce(a + b, rank) == Reduce(a, rank) + Reduce(b, rank)
    decreases |a|
  {
    if a == [] {
      assert a + b == b;
    } else {
      assert (a + b)[0] == a[0] && (a + b)[1..] == a[1..] + b;
      ReduceAppend(a[1..], b, rank);
    }
  }

  /** Levels all below `rank` leave nothing. */
  lemma {:induction false} ReduceBelow(levels: seq<nat>, rank: nat)
    requires forall k :: 0 <= k < |levels| ==> levels[k] < rank
    ensures Reduce(levels, rank) == []
    decreases |levels|
  {
    if levels != [] {
      ReduceBelow(levels[1..], rank);
    }
  }

  /** The stream of a tensor of `rank` dimensions, its last stop raised by `l`, reduces to the single level `l`. */
  lemma ReduceBlock(inner: seq<nat>, l: nat)
    requires inner != [] && Positive(inner)
    ensures Reduce(Raise(ShapeLevels(inner), l), |inner|) == [l]
  {
    var n := BlockEnd(inner);
    ReduceClosing(ShapeLevels(inner), |inner|, l);
  }

  /** Levels below `rank` closed by one level `rank`, raised by `l`, reduce to `l`. */
  lemma ReduceClosing(levels: seq<nat>, rank: nat, l: nat)
    requires levels != [] && levels[|levels| - 1] == rank
    requires forall k :: 0 <= k < |levels| - 1 ==> levels[k] < rank
    ensures Reduce(Raise(levels, l), rank) == [l]
  {
    var init: seq<nat>, tail: seq<nat> := levels[..|levels| - 1], [rank + l];
    assert Reduce(Raise(levels, l), rank) == Reduce(init + tail, rank) by { RaiseSplit(levels, l); }
    assert Reduce(init + tail, rank) == Reduce(init, rank) + Reduce(tail, rank) by { ReduceAppend(init, tail, rank); }
    assert Reduce(init, rank) == [] by { ReduceBelow(init, rank); }
    assert Reduce(tail, rank) == [l] by { ReduceOne(rank + l, rank); }
  }

  lemma RaiseSplit(levels: seq<nat>, e: nat)
    requires levels != []
    ensures Raise(levels, e) == levels[..|levels| - 1] + [levels[|levels| - 1] + e]
  {}

  lemma ReduceOne(x: nat, rank: nat)
    ensures Reduce([x], rank) == if x >= rank then [x - rank] else []
  {
    assert [x][1..] == [];
  }

  /** The stream of a tensor: every level but the last is below its rank, the last equals it. */
  lemma BlockEnd(inner: seq<nat>) returns (n: nat)
    requires Positive(inner)
    ensures n == |ShapeLevels(inner)| > 0 && ShapeLevels(inner)[n - 1] == |inner|
    ensures forall k :: 0 <= k < n - 1 ==> ShapeLevels(inner)[k] < |inner|
  {
    n := |ShapeLevels(inner)|;
    assert n == Product(inner) > 0 by { ProductPositive(inner); }
    LastLevel(inner);
    forall k | 0 <= k < n - 1 ensures ShapeLevels(inner)[k] < |inner| {
      InnerLevel(inner, k);
    }
  }

  /** Reducing a nested stream by the inner tensor's rank gives back the outer levels. */
  lemma {:induction false} ReduceNest(outer: seq<nat>, inner: seq<nat>)
    requires inner != [] && Positive(inner)
    ensures Reduce(Nest(outer, ShapeLevels(inner)), |inner|) == outer
    decreases |outer|
  {
    if outer != [] {
      ReduceNest(outer[1..], inner);
      ReduceAppend(Raise(ShapeLevels(inner), outer[0]), Nest(outer[1..], ShapeLevels(inner)), |inner|);
      ReduceBlock(inner, outer[0]);
    }
  }

  /**
   * Accumulating the innermost `rank` dimensions of the stream of a tensor `outer + inner` gives the
   * stream of the tensor `outer`: one tile per entry of `outer`.
   */
  lemma AccumShape<T>(input: seq<Elem<T>>, op: Op<T>, outer: seq<nat>, inner: seq<nat>)
    requires Canonical(input) && Positive(inner) && |inner| == op.rank >= 1
    requires StopLevels(input) == ShapeLevels(outer + inner)
    ensures StopLevels(AccumFrom(input, op.init, op).out) == ShapeLevels(outer)
    ensures |AccumFrom(input, op.init, op).out| == |ShapeLevels(outer)|
  {
    AccumLevels(input, op.init, op);
    NestShape(outer, inner);
    ReduceNest(ShapeLevels(outer), inner);
  }

  /** A 3 x 3 stream accumulated at rank 1 gives three tiles, the last closing one dimension. */
  lemma AccumThreeByThree<T>(input: seq<Elem<T>>, op: Op<T>)
    requires Canonical(input) && op.rank == 1 && StopLevels(input) == ShapeLevels([3, 3])
    ensures StopLevels(AccumFrom(input, op.init, op).out) == [0, 0, 1]
  {
    assert [3] + [3] == [3, 3];
    AccumShape(input, op, [3], [3]);
    assert ShapeLevels([3]) == ExpandRows([0], 3) == [0, 0, 1];
  }

  /** The accumulator after folding the values `xs`, in order, into `acc`. */
  function Folded<T>(xs: seq<T>, acc: Tile, op: Op<T>): Tile
    decreases |xs|
  {
    if xs == [] then acc else Folded(xs[1..], op.func(xs[0], acc, op.computeBw, op.writeBackMu).1, op)
  }

  /**
   * A group of elements of which only the last closes the folded dimensions sends one tile: every
   * value of the group folded into the accumulator, closing `rank` fewer dimensions than the last
   * element. The run then goes on from the initial accumulator.
   */
  lemma {:induction false} AccumGroup<T>(group: seq<Elem<T>>, rest: seq<Elem<T>>, acc: Tile, op: Op<T>)
    requires |group| > 0 && Emits(group[|group| - 1], op.rank)
    requires forall k :: 0 <= k < |group| - 1 ==> !Emits(group[k], op.rank)
    ensures AccumFrom(group + rest, acc, op).out
            == [WithLevel(Folded(Values(group), acc, op), group[|group| - 1].level - op.rank)] + AccumFrom(rest, op.init, op).out
    decreases |group|
  {
    var e := group[0];
    var s := StepOf(e, acc, op);
    assert (group + rest)[0] == e;
    assert (group + rest)[1..] == group[1..] + rest;
    assert Values(group)[1..] == Values(group[1..]);
    if |group| == 1 {
      assert group[1..] + rest == rest;
      assert Values(group[1..]) == [];
    } else {
      assert !Emits(e, op.rank);
      AccumGroup(group[1..], rest, s.next, op);
      assert s.out == [];
    }
  }
}
