/**
 * `Flatten`: merges the dimensions between two stop levels into one by collapsing their stops.
 */
module Flatten {
  import opened Wrappers
  import opened Calc
  import opened Elems
  import opened Shapes

  /**
   * The level a stop `s` keeps after the levels `minRank + 1 ..= maxRank` are merged: levels up to
   * `minRank` stay, the merged ones all become `minRank`, and the levels above drop by the number removed.
   */
  function NewRank(s: nat, minRank: nat, maxRank: nat): (r: nat)
    requires minRank < maxRank
    ensures r <= s && (r == s <==> s <= minRank)
    ensures s > minRank ==> minRank <= r && r + (maxRank - minRank) >= s
  {
    if s <= minRank then s
    else if s <= maxRank then minRank
    else s - (maxRank - minRank)
  }

  function FlattenElem<T>(e: Elem<T>, minRank: nat, maxRank: nat): (r: Elem<T>)
    requires minRank < maxRank
    ensures r.v == e.v && Level(r) == NewRank(Level(e), minRank, maxRank)
  {
    WithLevel(e.v, NewRank(Level(e), minRank, maxRank))
  }

  function FlattenLevels(levels: seq<nat>, minRank: nat, maxRank: nat): (r: seq<nat>)
    requires minRank < maxRank
    ensures |r| == |levels| && forall i :: 0 <= i < |levels| ==> r[i] == NewRank(levels[i], minRank, maxRank)
  {
    seq(|levels|, i requires 0 <= i < |levels| => NewRank(levels[i], minRank, maxRank))
  }

  /** The output of `Flatten` for a whole input stream: one element per input, same value, collapsed stop. */
  function FlattenStream<T>(s: seq<Elem<T>>, minRank: nat, maxRank: nat): (r: seq<Elem<T>>)
    requires minRank < maxRank
    ensures |r| == |s| && Values(r) == Values(s)
    ensures StopLevels(r) == FlattenLevels(StopLevels(s), minRank, maxRank)
    ensures forall i :: 0 <= i < |s| ==> (r[i].Val? <==> NewRank(Level(s[i]), minRank, maxRank) == 0)
  {
    seq(|s|, i requires 0 <= i < |s| => FlattenElem(s[i], minRank, maxRank))
  }

  const RankOrder := "min_rank must be less than max_rank"

  /**
   * `Flatten::new` followed by `Flatten::run`: the constructor's assertion that `min_rank < max_rank`
   * fails before anything is read; otherwise one output per input, in order, until the input closes.
   */
  method Run<T>(input: seq<Elem<T>>, minRank: nat, maxRank: nat) returns (result: Result<seq<Elem<T>>>)
    ensures minRank >= maxRank ==> result == Err(RankOrder)
    ensures minRank < maxRank ==> result == Ok(FlattenStream(input, minRank, maxRank))
  {
    if minRank >= maxRank {
      return Err(RankOrder);
    }
    var output := [];
    var i := 0;
    while i < |input|
      invariant 0 <= i <= |input|
      invariant output == FlattenStream(input[..i], minRank, maxRank)
    {
      var out := match input[i]
        case Val(x) => Val(x)
        case ValStop(x, s) =>
          var newRank := if s <= minRank then s else if s <= maxRank then minRank else s - (maxRank - minRank);
          if newRank == 0 then Val(x) else ValStop(x, newRank);
      assert out == FlattenElem(input[i], minRank, maxRank);
      output := output + [out];
      assert input[..i + 1] == input[..i] + [input[i]];
      i := i + 1;
    }
    assert input[..i] == input;
    return Ok(output);
  }

  // ---------------------------------------------------------------------------------------------
  // Flattening a tensor's stream gives the stream of the tensor with the merged dimension.

  lemma FlattenAppend(a: seq<nat>, b: seq<nat>, minRank: nat, maxRank: nat)
    requires minRank < maxRank
    ensures FlattenLevels(a + b, minRank, maxRank) == FlattenLevels(a, minRank, maxRank) + FlattenLevels(b, minRank, maxRank)
  {}

  /** Inside a row the stops are one level higher, and the collapse commutes with that shift. */
  lemma FlattenRow(x: nat, d: nat, minRank: nat, maxRank: nat)
    requires minRank < maxRank
    ensures FlattenLevels(Row(x, d), minRank + 1, maxRank + 1) == Row(NewRank(x, minRank, maxRank), d)
  {}

  lemma {:induction false} FlattenExpand(outer: seq<nat>, d: nat, minRank: nat, maxRank: nat)
    requires minRank < maxRank
    ensures FlattenLevels(ExpandRows(outer, d), minRank + 1, maxRank + 1)
         == ExpandRows(FlattenLevels(outer, minRank, maxRank), d)
    decreases |outer|
  {
    if outer != [] {
      var flat := FlattenLevels(outer, minRank, maxRank);
      assert ExpandRows(outer, d) == Row(outer[0], d) + ExpandRows(outer[1..], d);
      assert ExpandRows(flat, d) == Row(flat[0], d) + ExpandRows(flat[1..], d);
      assert flat[1..] == FlattenLevels(outer[1..], minRank, maxRank);
      FlattenAppend(Row(outer[0], d), ExpandRows(outer[1..], d), minRank + 1, maxRank + 1);
      FlattenRow(outer[0], d, minRank, maxRank);
      FlattenExpand(outer[1..], d, minRank, maxRank);
    }
  }

  /** Rows of a run of zeros close nothing above the row itself. */
  lemma {:induction false} ExpandZeros(n: nat, b: nat)
    ensures FlattenLevels(ExpandRows(Zeros(n), b), 0, 1) == Zeros(n * b)
    decreases n
  {
    if n > 0 {
      assert Zeros(n)[1..] == Zeros(n - 1);
      ExpandZeros(n - 1, b);
      FlattenAppend(Row(0, b), ExpandRows(Zeros(n - 1), b), 0, 1);
      RowStart(n - 1, b);
    }
  }

  /** The `a` rows of `b` entries made from one entry of level `l` flatten to one row of `a * b` entries. */
  lemma MergeRow(l: nat, a: nat, b: nat)
    ensures FlattenLevels(ExpandRows(Row(l, a), b), 0, 1) == Row(l, a * b)
  {
    if a > 0 && b > 0 {
      MergeFullRow(l, a, b);
    } else if a == 0 {
      assert Row(l, a) == [];
    } else {
      MulPos(a, b);
    }
  }

  lemma MergeFullRow(l: nat, a: nat, b: nat)
    requires a > 0 && b > 0
    ensures FlattenLevels(ExpandRows(Row(l, a), b), 0, 1) == Row(l, a * b)
  {
    var front := ExpandRows(Zeros(a - 1), b);
    var last := Row(l + 1, b);
    assert ExpandRows(Row(l, a), b) == front + last by {
      assert Row(l, a) == Zeros(a - 1) + [l + 1];
      ExpandRowsAppend(Zeros(a - 1), [l + 1], b);
      assert ExpandRows([l + 1], b) == last + ExpandRows([], b);
    }
    FlattenAppend(front, last, 0, 1);
    ExpandZeros(a - 1, b);
    LastRowFlat(l, b);
    RowStart(a - 1, b);
    ZerosThenStop((a - 1) * b, b - 1, l);
  }

  lemma LastRowFlat(l: nat, b: nat)
    requires b > 0
    ensures FlattenLevels(Row(l + 1, b), 0, 1) == Zeros(b - 1) + [l + 1]
  {}

  lemma ZerosThenStop(n: nat, m: nat, l: nat)
    ensures Zeros(n) + (Zeros(m) + [l + 1]) == Row(l, n + m + 1)
  {}

  lemma {:induction false} MergeRows(outer: seq<nat>, a: nat, b: nat)
    ensures FlattenLevels(ExpandRows(ExpandRows(outer, a), b), 0, 1) == ExpandRows(outer, a * b)
    decreases |outer|
  {
    if outer != [] {
      var rows := ExpandRows(outer[1..], a);
      assert ExpandRows(outer, a) == Row(outer[0], a) + rows;
      ExpandRowsAppend(Row(outer[0], a), rows, b);
      FlattenAppend(ExpandRows(Row(outer[0], a), b), ExpandRows(rows, b), 0, 1);
      MergeRow(outer[0], a, b);
      MergeRows(outer[1..], a, b);
    }
  }

  /** The pair as the two innermost dimensions. */
  lemma FlattenInnermostPair(outer: seq<nat>, a: nat, b: nat)
    ensures FlattenLevels(ShapeLevels(outer + [a, b]), 0, 1) == ShapeLevels(outer + [a * b])
  {
    RowStart(a, b);
    assert outer + [a, b] == (outer + [a]) + [b];
    ShapeLevelsSnoc(outer + [a], b);
    ShapeLevelsSnoc(outer, a);
    ShapeLevelsSnoc(outer, a * b);
    MergeRows(ShapeLevels(outer), a, b);
  }

  /**
   * Flattening levels `k` and `k + 1` of a tensor, where `k` dimensions sit inside the pair, gives the
   * stream of the same tensor with the pair of dimensions replaced by their product.
   */
  lemma FlattenPair(outer: seq<nat>, a: nat, b: nat, inner: seq<nat>)
    ensures FlattenLevels(ShapeLevels(outer + [a, b] + inner), |inner|, |inner| + 1)
         == ShapeLevels(outer + [a * b] + inner)
  {
    MulNatural(a, b);
    FlattenInnermostPair(outer, a, b);
    FlattenInside(outer, [a, b], [a * b], inner);
  }

  /** A flatten of the innermost pair carries over to any dimensions added inside. */
  lemma {:induction false} FlattenInside(outer: seq<nat>, pair: seq<nat>, merged: seq<nat>, inner: seq<nat>)
    requires FlattenLevels(ShapeLevels(outer + pair), 0, 1) == ShapeLevels(outer + merged)
    ensures FlattenLevels(ShapeLevels(outer + pair + inner), |inner|, |inner| + 1) == ShapeLevels(outer + merged + inner)
    decreases |inner|
  {
    if inner == [] {
      FlattenInsideNone(outer, pair, merged, inner);
    } else {
      var init := inner[..|inner| - 1];
      FlattenInside(outer, pair, merged, init);
      FlattenPairStep(outer, pair, merged, init, inner);
    }
  }

  lemma FlattenInsideNone(outer: seq<nat>, pair: seq<nat>, merged: seq<nat>, inner: seq<nat>)
    requires inner == [] && FlattenLevels(ShapeLevels(outer + pair), 0, 1) == ShapeLevels(outer + merged)
    ensures FlattenLevels(ShapeLevels(outer + pair + inner), |inner|, |inner| + 1) == ShapeLevels(outer + merged + inner)
  {
    AppendEmpty(outer + pair, inner);
    AppendEmpty(outer + merged, inner);
  }

  /** One dimension more inside the merged pair: both streams grow by rows of that dimension. */
  lemma FlattenPairStep(outer: seq<nat>, pair: seq<nat>, merged: seq<nat>, init: seq<nat>, inner: seq<nat>)
    requires inner != [] && init == inner[..|inner| - 1]
    requires FlattenLevels(ShapeLevels(outer + pair + init), |init|, |init| + 1) == ShapeLevels(outer + merged + init)
    ensures FlattenLevels(ShapeLevels(outer + pair + inner), |inner|, |inner| + 1) == ShapeLevels(outer + merged + inner)
  {
    var d := inner[|inner| - 1];
    AppendLast(outer + pair, inner);
    AppendLast(outer + merged, inner);
    FlattenSnoc(outer + pair + init, outer + merged + init, d, |init|, outer + pair + inner, outer + merged + inner, |inner|);
  }

  /** A dimension added inside both tensors keeps a flatten between them, one level further out. */
  lemma FlattenSnoc(left: seq<nat>, right: seq<nat>, d: nat, k: nat, left': seq<nat>, right': seq<nat>, k': nat)
    requires FlattenLevels(ShapeLevels(left), k, k + 1) == ShapeLevels(right)
    requires left' == left + [d] && right' == right + [d] && k' == k + 1
    ensures FlattenLevels(ShapeLevels(left'), k', k' + 1) == ShapeLevels(right')
  {
    ShapeLevelsSnoc(left, d);
    ShapeLevelsSnoc(right, d);
    FlattenExpand(ShapeLevels(left), d, k, k + 1);
  }

  /**
   * Merging a wider range is merging all but its outermost level, then the pair left at the bottom:
   * with `FlattenPair`, a wide flatten is a sequence of pair merges.
   */
  lemma NewRankStep(s: nat, minRank: nat, maxRank: nat)
    requires minRank + 1 < maxRank
    ensures NewRank(s, minRank, maxRank) == NewRank(NewRank(s, minRank, maxRank - 1), minRank, minRank + 1)
  {}

  lemma FlattenCompose(levels: seq<nat>, minRank: nat, lower: nat, maxRank: nat)
    requires minRank < lower && lower + 1 == maxRank
    ensures FlattenLevels(levels, minRank, maxRank)
         == FlattenLevels(FlattenLevels(levels, minRank, lower), minRank, minRank + 1)
  {
    forall i | 0 <= i < |levels|
      ensures NewRank(levels[i], minRank, maxRank)
           == NewRank(NewRank(levels[i], minRank, lower), minRank, minRank + 1)
    {
      NewRankStep(levels[i], minRank, maxRank);
    }
  }

  /** The unit-test case: the (3, 2, 4) stream flattened over levels 0 and 1 is the (3, 8) stream. */
  lemma FlattenThreeTwoFour()
    ensures FlattenLevels(ShapeLevels([3, 2, 4]), 0, 1) == ShapeLevels([3, 8])
  {
    FlattenPair([3], 2, 4, []);
    assert [3] + [2, 4] + [] == [3, 2, 4];
    assert [3] + [2 * 4] + [] == [3, 8];
  }
}
