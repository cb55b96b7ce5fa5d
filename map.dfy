/**
 * `BinaryMap` and `UnaryMap`: one output tile per input (pair), computed by the operator's function,
 * carrying the input's stop. A binary map needs its two inputs to have the same shape element by
 * element and to end together.
 */
module Map {
  import opened Wrappers
  import opened Calc
  import opened Elems
  import opened Tiles
  import opened Roofline

  const ShapeMismatch := "The two input streams' shape don't match!"
  const ClosedEarlier := "One stream closed earlier"

  /** The function of a binary map: (operand, operand, compute bandwidth, write-back flag) to (cycles, tile). */
  type BinaryFunc = (Tile, Tile, nat, bool) -> (nat, Tile)

  /** The function of a unary map: (operand, compute bandwidth, write-back flag) to (cycles, tile). */
  type UnaryFunc = (Tile, nat, bool) -> (nat, Tile)

  /** Two elements pair up: both plain values, or both stops of the same level. */
  predicate Matches<A, B>(a: Elem<A>, b: Elem<B>)
  {
    (a.Val? && b.Val?) || (a.ValStop? && b.ValStop? && a.level == b.level)
  }

  /** Two streams pair up element by element and end together. */
  predicate Aligned<A, B>(in1: seq<Elem<A>>, in2: seq<Elem<B>>)
  {
    |in1| == |in2| && forall k :: 0 <= k < |in1| ==> Matches(in1[k], in2[k])
  }

  /** Some pair in the common part of the two streams does not match. */
  predicate Mismatched<A, B>(in1: seq<Elem<A>>, in2: seq<Elem<B>>)
  {
    exists k :: 0 <= k < |in1| && k < |in2| && !Matches(in1[k], in2[k])
  }

  /** The roofline cost of one binary step: both loads, the computation, and the write-back of the result. */
  function BinaryStepCycles(t1: Tile, t2: Tile, func: BinaryFunc, computeBw: nat, writeBackMu: bool): nat
  {
    var r := func(t1, t2, computeBw, writeBackMu);
    Max3(LoadCycles(t1) + LoadCycles(t2), r.0, StoreCycles(r.1, writeBackMu))
  }

  /** The cycles of the first `n` binary steps. */
  function BinaryCycles(in1: seq<Elem<Tile>>, in2: seq<Elem<Tile>>, func: BinaryFunc, computeBw: nat, writeBackMu: bool, n: nat): nat
    requires n <= |in1| && n <= |in2|
  {
    if n == 0 then 0
    else BinaryCycles(in1, in2, func, computeBw, writeBackMu, n - 1)
         + BinaryStepCycles(in1[n - 1].v, in2[n - 1].v, func, computeBw, writeBackMu)
  }

  /** The roofline cost of one unary step. */
  function UnaryStepCycles(t: Tile, func: UnaryFunc, computeBw: nat, writeBackMu: bool): nat
  {
    var r := func(t, computeBw, writeBackMu);
    Max3(LoadCycles(t), r.0, StoreCycles(r.1, writeBackMu))
  }

  /** The cycles of the first `n` unary steps. */
  function UnaryCycles(input: seq<Elem<Tile>>, func: UnaryFunc, computeBw: nat, writeBackMu: bool, n: nat): nat
    requires n <= |input|
  {
    if n == 0 then 0
    else UnaryCycles(input, func, computeBw, writeBackMu, n - 1) + UnaryStepCycles(input[n - 1].v, func, computeBw, writeBackMu)
  }

  /**
   * `BinaryMap::run`: succeeds exactly on aligned inputs, sending for each pair the function's tile
   * with the pair's stop; otherwise fails on the first mismatched pair or on the stream that ends first.
   */
  method BinaryMap(in1: seq<Elem<Tile>>, in2: seq<Elem<Tile>>, func: BinaryFunc, computeBw: nat, writeBackMu: bool)
    returns (res: Result<Timed>)
    ensures res.Ok? <==> Aligned(in1, in2)
    ensures res.Ok? ==> |res.value.out| == |in1|
    ensures res.Ok? ==> forall k :: 0 <= k < |in1| ==>
              res.value.out[k] == Rewrap(in1[k], func(in1[k].v, in2[k].v, computeBw, writeBackMu).1)
    ensures res.Ok? ==> res.value.cycles == BinaryCycles(in1, in2, func, computeBw, writeBackMu, |in1|)
    ensures res.Err? ==> (res.msg == ShapeMismatch <==> Mismatched(in1, in2))
    ensures res.Err? ==> res.msg == ShapeMismatch || res.msg == ClosedEarlier
  {
    var out: seq<Elem<Tile>> := [];
    var cycles: nat := 0;
    var i: nat := 0;
    while true
      invariant i <= |in1| && i <= |in2|
      invariant forall k :: 0 <= k < i ==> Matches(in1[k], in2[k])
      invariant |out| == i
      invariant forall k :: 0 <= k < i ==> out[k] == Rewrap(in1[k], func(in1[k].v, in2[k].v, computeBw, writeBackMu).1)
      invariant cycles == BinaryCycles(in1, in2, func, computeBw, writeBackMu, i)
      decreases |in1| - i
    {
      if i == |in1| && i == |in2| {
        return Ok(Timed(out, cycles));
      } else if i == |in1| || i == |in2| {
        NoMismatchBefore(in1, in2, i);
        return Err(ClosedEarlier);
      }
      var stopLev := PairStop(in1[i], in2[i]);
      if stopLev.Err? {
        assert !Matches(in1[i], in2[i]);
        return Err(ShapeMismatch);
      }
      var data, c := BinaryStep(in1[i].v, in2[i].v, stopLev.value, func, computeBw, writeBackMu);
      assert data == Rewrap(in1[i], func(in1[i].v, in2[i].v, computeBw, writeBackMu).1);
      BinaryNext(in1, in2, func, computeBw, writeBackMu, i, out, data);
      cycles := cycles + c;
      out := out + [data];
      i := i + 1;
    }
  }

  /** Appending pair `i`'s output keeps every output so far the function's tile with its input's stop. */
  lemma BinaryNext(in1: seq<Elem<Tile>>, in2: seq<Elem<Tile>>, func: BinaryFunc, computeBw: nat, writeBackMu: bool,
                   i: nat, out: seq<Elem<Tile>>, data: Elem<Tile>)
    requires i < |in1| && i < |in2| && |out| == i
    requires forall k :: 0 <= k < i ==> out[k] == Rewrap(in1[k], func(in1[k].v, in2[k].v, computeBw, writeBackMu).1)
    requires data == Rewrap(in1[i], func(in1[i].v, in2[i].v, computeBw, writeBackMu).1)
    ensures forall k :: 0 <= k < i + 1 ==> (out + [data])[k] == Rewrap(in1[k], func(in1[k].v, in2[k].v, computeBw, writeBackMu).1)
  {}

  /** The stop a pair carries: none for two plain values, the common level for two equal stops; else a mismatch. */
  method PairStop<A, B>(a: Elem<A>, b: Elem<B>) returns (r: Result<Option<nat>>)
    ensures r.Ok? <==> Matches(a, b)
    ensures r.Ok? ==> r.value == if a.Val? then None else Some(a.level)
  {
    match (a, b) {
      case (Val(_), Val(_)) =>
        return Ok(None);
      case (ValStop(_, lev1), ValStop(_, lev2)) =>
        if lev1 != lev2 {
          return Err(ShapeMismatch);
        }
        return Ok(Some(lev1));
      case (_, _) =>
        return Err(ShapeMismatch);
    }
  }

  /** One binary step: the function's tile with the pair's stop, and the step's roofline cycles. */
  method BinaryStep(tile1: Tile, tile2: Tile, stopLev: Option<nat>, func: BinaryFunc, computeBw: nat, writeBackMu: bool)
    returns (data: Elem<Tile>, cycles: nat)
    ensures data.v == func(tile1, tile2, computeBw, writeBackMu).1
    ensures data.Val? <==> stopLev.None?
    ensures stopLev.Some? ==> data.level == stopLev.value
    ensures cycles == BinaryStepCycles(tile1, tile2, func, computeBw, writeBackMu)
  {
    var loadCycle: nat := 0;
    if tile1.readFromMu {
      loadCycle := loadCycle + DivCeil(SizeInBytes(tile1), PmuBw);
    }
    if tile2.readFromMu {
      loadCycle := loadCycle + DivCeil(SizeInBytes(tile2), PmuBw);
    }
    var (compCycles, outTile) := func(tile1, tile2, computeBw, writeBackMu);
    var storeCycles := if writeBackMu then DivCeil(SizeInBytes(outTile), PmuBw) else 0;
    cycles := Max3(loadCycle, compCycles, storeCycles);
    data := match stopLev
      case Some(level) => ValStop(outTile, level)
      case None => Val(outTile);
  }

  /** When the common part matched up to where one stream ended, nothing in it is mismatched. */
  lemma NoMismatchBefore<A, B>(in1: seq<Elem<A>>, in2: seq<Elem<B>>, i: nat)
    requires i <= |in1| && i <= |in2| && (i == |in1| || i == |in2|)
    requires forall k :: 0 <= k < i ==> Matches(in1[k], in2[k])
    ensures !Mismatched(in1, in2)
  {}

  /** `UnaryMap::run`: one output per input, the function's tile with the input's stop. */
  method UnaryMap(input: seq<Elem<Tile>>, func: UnaryFunc, computeBw: nat, writeBackMu: bool) returns (res: Timed)
    ensures |res.out| == |input|
    ensures forall k :: 0 <= k < |input| ==> res.out[k] == Rewrap(input[k], func(input[k].v, computeBw, writeBackMu).1)
    ensures res.cycles == UnaryCycles(input, func, computeBw, writeBackMu, |input|)
  {
    var out: seq<Elem<Tile>> := [];
    var cycles: nat := 0;
    var i: nat := 0;
    while i < |input|
      invariant i <= |input| && |out| == i
      invariant forall k :: 0 <= k < i ==> out[k] == Rewrap(input[k], func(input[k].v, computeBw, writeBackMu).1)
      invariant cycles == UnaryCycles(input, func, computeBw, writeBackMu, i)
    {
      var (inTile, stopLev) := match input[i]
        case Val(data) => (data, None)
        case ValStop(data, lev) => (data, Some(lev));
      var loadCycles := if inTile.readFromMu then DivCeil(SizeInBytes(inTile), PmuBw) else 0;
      var (compCycles, outTile) := func(inTile, computeBw, writeBackMu);
      var storeCycles := if writeBackMu then DivCeil(SizeInBytes(outTile), PmuBw) else 0;
      cycles := cycles + Max3(loadCycles, compCycles, storeCycles);
      var data := match stopLev
        case Some(level) => ValStop(outTile, level)
        case None => Val(outTile);
      out := out + [data];
      i := i + 1;
    }
    res := Timed(out, cycles);
  }

  /** Aligned streams carry the same levels, and so does a map's output: mapping keeps the tensor's shape. */
  lemma AlignedLevels<A, B>(in1: seq<Elem<A>>, in2: seq<Elem<B>>)
    requires Aligned(in1, in2)
    ensures StopLevels(in1) == StopLevels(in2)
    ensures Canonical(in1) <==> Canonical(in2)
  {
    assert forall k :: 0 <= k < |in1| ==> Level(in1[k]) == Level(in2[k]);
  }

  /** A stream whose elements keep another's levels has that stream's levels. */
  lemma RewrapLevels<A, B>(input: seq<Elem<A>>, out: seq<Elem<B>>)
    requires |out| == |input| && forall k :: 0 <= k < |input| ==> out[k] == Rewrap(input[k], out[k].v)
    ensures StopLevels(out) == StopLevels(input) && (Canonical(out) <==> Canonical(input))
  {
    assert forall k :: 0 <= k < |input| ==> Level(out[k]) == Level(input[k]);
  }
}
