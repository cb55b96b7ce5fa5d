/**
 * Nested tensors: the stream of a tensor `outer + inner` is the stream of `inner` once per entry of
 * `outer`, each copy's last stop also closing the dimensions of `outer` that entry closes.
 */
module Nesting {
  import opened Calc
  import opened Shapes
  import opened RoundTrip
  import opened Streamify

  /** Levels of an inner tensor nested once per outer level: each copy's last level closes the outer one too. */
  function Nest(outer: seq<nat>, inner: seq<nat>): (r: seq<nat>)
    decreases |outer|
  {
    if outer == [] then [] else Raise(inner, outer[0]) + Nest(outer[1..], inner)
  }

  /** Levels of the tensor `outer + inner` are those of `inner`, nested once per entry of `outer`. */
  lemma {:induction false} NestShape(outer: seq<nat>, inner: seq<nat>)
    requires Positive(inner)
    ensures ShapeLevels(outer + inner) == Nest(ShapeLevels(outer), ShapeLevels(inner))
    decreases |inner|
  {
    if inner == [] {
      assert outer + inner == outer;
      NestUnit(ShapeLevels(outer));
    } else {
      var init, d := inner[..|inner| - 1], inner[|inner| - 1];
      assert outer + inner == (outer + init) + [d];
      assert init + [d] == inner;
      ShapeLevelsSnoc(outer + init, d);
      ShapeLevelsSnoc(init, d);
      PositiveInit(inner);
      NestShape(outer, init);
      ProductPositive(init);
      NestExpand(ShapeLevels(outer), ShapeLevels(init), d);
    }
  }

  /** Nesting one more outer entry appends one more copy of the inner levels, raised by that entry. */
  lemma {:induction false} NestSnoc(outer: seq<nat>, x: nat, inner: seq<nat>)
    ensures Nest(outer + [x], inner) == Nest(outer, inner) + Raise(inner, x)
    decreases |outer|
  {
    if outer == [] {
      assert ([] + [x])[1..] == [];
    } else {
      assert (outer + [x])[1..] == outer[1..] + [x];
      NestSnoc(outer[1..], x, inner);
    }
  }

  lemma {:induction false} NestUnit(levels: seq<nat>)
    ensures Nest(levels, [0]) == levels
    decreases |levels|
  {
    if levels != [] {
      NestUnit(levels[1..]);
      assert Raise([0], levels[0]) == [levels[0]];
    }
  }

  lemma {:induction false} NestExpand(outer: seq<nat>, inner: seq<nat>, d: nat)
    requires inner != [] && d > 0
    ensures ExpandRows(Nest(outer, inner), d) == Nest(outer, ExpandRows(inner, d))
    decreases |outer|
  {
    if outer != [] {
      NestExpand(outer[1..], inner, d);
      ExpandRowsAppend(Raise(inner, outer[0]), Nest(outer[1..], inner), d);
      RaiseExpand(inner, d, outer[0]);
    }
  }

  /** Raising the outer stream's last level raises the last level of the nested stream by as much. */
  lemma {:induction false} NestRaise(levels: seq<nat>, inner: seq<nat>, e: nat)
    requires inner != []
    ensures Nest(Raise(levels, e), inner) == Raise(Nest(levels, inner), e)
    decreases |levels|
  {
    if |levels| == 1 {
      assert Raise(levels, e) == [levels[0] + e];
      NestSingle(levels[0] + e, inner);
      NestSingle(levels[0], inner);
      RaiseTwice(inner, levels[0], e);
    } else if |levels| > 1 {
      var tail := levels[1..];
      NestRaise(tail, inner, e);
      assert [levels[0]] + tail == levels;
      NestRaiseCons(levels[0], tail, inner, e);
    }
  }

  lemma NestSingle(l: nat, inner: seq<nat>)
    ensures Nest([l], inner) == Raise(inner, l)
  {
    assert [l][1..] == [];
    AppendEmpty(Raise(inner, l), []);
  }

  /** The step of `NestRaise`: the raise passes over the first outer entry. */
  lemma NestRaiseCons(x: nat, tail: seq<nat>, inner: seq<nat>, e: nat)
    requires tail != [] && inner != []
    requires Nest(Raise(tail, e), inner) == Raise(Nest(tail, inner), e)
    ensures Nest(Raise([x] + tail, e), inner) == Raise(Nest([x] + tail, inner), e)
  {
    assert Raise([x] + tail, e) == [x] + Raise(tail, e);
    assert ([x] + Raise(tail, e))[1..] == Raise(tail, e);
    assert ([x] + tail)[1..] == tail;
    assert Nest(tail, inner) != [] by { assert |Raise(inner, tail[0])| > 0; }
    RaiseAppend(Raise(inner, x), Nest(tail, inner), e);
  }

  /** Nesting a tensor in a raised outer tensor gives the raised combined tensor. */
  lemma NestRaisedShape(outer: seq<nat>, inner: seq<nat>, e: nat)
    requires Streamable(inner)
    ensures Nest(Raise(ShapeLevels(outer), e), ShapeLevels(inner)) == Raise(ShapeLevels(outer + inner), e)
  {
    StreamablePositive(inner);
    NestRaise(ShapeLevels(outer), ShapeLevels(inner), e);
    NestShape(outer, inner);
  }
}
