/**
 * `Promote`: inserts a dimension of size one at a stop level by raising every stop at or above it.
 */
module Promote {
  import opened Elems
  import opened Shapes
  import Flatten

  /** The level of a stop after a size-one dimension is inserted at `promoteRank`. */
  function PromotedRank(s: nat, promoteRank: nat): (r: nat)
    ensures r == s || r == s + 1
    ensures r == s + 1 <==> s >= promoteRank
  {
    if promoteRank > s then s else s + 1
  }

  /** One output per input: a `Val` becomes a level-1 stop only at rank 0; a stop keeps its kind. */
  function PromoteElem<T>(e: Elem<T>, promoteRank: nat): (r: Elem<T>)
    ensures r.v == e.v && Level(r) == PromotedRank(Level(e), promoteRank)
    ensures r.ValStop? <==> e.ValStop? || promoteRank == 0
  {
    match e
    case Val(x) => if promoteRank == 0 then ValStop(x, 1) else Val(x)
    case ValStop(x, s) => ValStop(x, PromotedRank(s, promoteRank))
  }

  function PromoteLevels(levels: seq<nat>, promoteRank: nat): (r: seq<nat>)
    ensures |r| == |levels| && forall i :: 0 <= i < |levels| ==> r[i] == PromotedRank(levels[i], promoteRank)
  {
    seq(|levels|, i requires 0 <= i < |levels| => PromotedRank(levels[i], promoteRank))
  }

  function PromoteStream<T>(s: seq<Elem<T>>, promoteRank: nat): (r: seq<Elem<T>>)
    ensures |r| == |s| && Values(r) == Values(s)
    ensures StopLevels(r) == PromoteLevels(StopLevels(s), promoteRank)
    ensures forall i :: 0 <= i < |s| ==> r[i] == PromoteElem(s[i], promoteRank)
  {
    seq(|s|, i requires 0 <= i < |s| => PromoteElem(s[i], promoteRank))
  }

  /** `Promote::run`: one output per input, in order, until the input closes. */
  method Run<T>(input: seq<Elem<T>>, promoteRank: nat) returns (output: seq<Elem<T>>)
    ensures output == PromoteStream(input, promoteRank)
  {
    output := [];
    var i := 0;
    while i < |input|
      invariant 0 <= i <= |input|
      invariant output == PromoteStream(input[..i], promoteRank)
    {
      var out;
      match input[i] {
        case Val(x) =>
          out := if promoteRank == 0 then ValStop(x, 1) else Val(x);
        case ValStop(x, s) =>
          var newStopRank := if promoteRank > s then s else s + 1;
          out := ValStop(x, newStopRank);
      }
      output := output + [out];
      assert input[..i + 1] == input[..i] + [input[i]];
      i := i + 1;
    }
    assert input[..i] == input;
  }

  // ---------------------------------------------------------------------------------------------
  // Promoting a tensor's stream gives the stream of the tensor with a size-one dimension inserted.

  lemma PromoteAppend(a: seq<nat>, b: seq<nat>, promoteRank: nat)
    ensures PromoteLevels(a + b, promoteRank) == PromoteLevels(a, promoteRank) + PromoteLevels(b, promoteRank)
  {}

  lemma PromoteRow(x: nat, d: nat, promoteRank: nat)
    ensures PromoteLevels(Row(x, d), promoteRank + 1) == Row(PromotedRank(x, promoteRank), d)
  {}

  lemma {:induction false} PromoteExpand(outer: seq<nat>, d: nat, promoteRank: nat)
    ensures PromoteLevels(ExpandRows(outer, d), promoteRank + 1) == ExpandRows(PromoteLevels(outer, promoteRank), d)
    decreases |outer|
  {
    if outer != [] {
      var raised := PromoteLevels(outer, promoteRank);
      assert ExpandRows(outer, d) == Row(outer[0], d) + ExpandRows(outer[1..], d);
      assert ExpandRows(raised, d) == Row(raised[0], d) + ExpandRows(raised[1..], d);
      assert raised[1..] == PromoteLevels(outer[1..], promoteRank);
      PromoteAppend(Row(outer[0], d), ExpandRows(outer[1..], d), promoteRank + 1);
      PromoteRow(outer[0], d, promoteRank);
      PromoteExpand(outer[1..], d, promoteRank);
    }
  }

  /** A size-one innermost dimension makes each entry its own row: every level goes up by one. */
  lemma {:induction false} UnitRows(outer: seq<nat>)
    ensures ExpandRows(outer, 1) == PromoteLevels(outer, 0)
    decreases |outer|
  {
    if outer != [] {
      assert ExpandRows(outer, 1) == Row(outer[0], 1) + ExpandRows(outer[1..], 1);
      assert Row(outer[0], 1) == [outer[0] + 1];
      UnitRows(outer[1..]);
      PromoteAppend([outer[0]], outer[1..], 0);
      assert [outer[0]] + outer[1..] == outer;
    }
  }

  /**
   * `Promote(k)` on the stream of a tensor whose innermost `k` dimensions are `inner` gives the stream
   * of the tensor with a dimension of size one inserted just outside them.
   */
  lemma {:induction false} PromoteInserts(outer: seq<nat>, inner: seq<nat>)
    ensures PromoteLevels(ShapeLevels(outer + inner), |inner|) == ShapeLevels(outer + [1] + inner)
    decreases |inner|
  {
    if inner == [] {
      assert outer + inner == outer;
      assert outer + [1] + inner == outer + [1];
      ShapeLevelsSnoc(outer, 1);
      UnitRows(ShapeLevels(outer));
    } else {
      var init, d := inner[..|inner| - 1], inner[|inner| - 1];
      assert outer + inner == (outer + init) + [d];
      assert outer + [1] + inner == (outer + [1] + init) + [d];
      ShapeLevelsSnoc(outer + init, d);
      ShapeLevelsSnoc(outer + [1] + init, d);
      PromoteInserts(outer, init);
      PromoteExpand(ShapeLevels(outer + init), d, |init|);
    }
  }

  /** The unit-test case: with rank 2, the (2, 5) stream gets its final stop raised from 2 to 3. */
  lemma PromoteTwoFive()
    ensures PromoteLevels(ShapeLevels([2, 5]), 2) == ShapeLevels([1, 2, 5])
  {
    PromoteInserts([], [2, 5]);
    assert [] + [2, 5] == [2, 5];
    assert [] + [1] + [2, 5] == [1, 2, 5];
  }

  /** Flattening the inserted dimension with the one inside it undoes `Promote`. */
  lemma FlattenUndoesPromote<T>(s: seq<Elem<T>>, promoteRank: nat)
    requires Canonical(s)
    ensures Flatten.FlattenStream(PromoteStream(s, promoteRank), promoteRank, promoteRank + 1) == s
  {
    var back := Flatten.FlattenStream(PromoteStream(s, promoteRank), promoteRank, promoteRank + 1);
    forall i | 0 <= i < |s|
      ensures back[i] == s[i]
    {
      CanonicalByLevel(s[i]);
    }
  }
}
