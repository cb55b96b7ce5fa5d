/**
 * The stream of a buffer read back by `from_stream`: the buffer comes back with its shape and
 * entries whenever every dimension but the innermost has at least two entries. A dimension of
 * size one leaves no stop of its own in the stream, and `from_stream` cannot recover it.
 */
module RoundTrip {
  import opened Wrappers
  import opened Calc
  import opened Elems
  import opened Shapes
  import opened Buffers

  /** The shapes whose stream `from_stream` reads back: non-empty, and each outer dimension at least 2. */
  predicate Streamable(shape: seq<nat>)
  {
    |shape| > 0 && shape[|shape| - 1] > 0 && forall k :: 0 <= k < |shape| - 1 ==> shape[k] >= 2
  }

  /** A stream whose last element also closes `e` enclosing dimensions (as inside a bigger tensor). */
  function Raise(levels: seq<nat>, e: nat): (r: seq<nat>)
    ensures |r| == |levels|
  {
    if levels == [] then levels else levels[|levels| - 1 := levels[|levels| - 1] + e]
  }

  function RaiseStream<T>(s: seq<Elem<T>>, e: nat): (r: seq<Elem<T>>)
    ensures |r| == |s| && Values(r) == Values(s) && StopLevels(r) == Raise(StopLevels(s), e)
  {
    if s == [] then s else s[|s| - 1 := WithLevel(s[|s| - 1].v, Level(s[|s| - 1]) + e)]
  }

  /** The scan of a stream `d` times finer: every entry became a row of `d` entries. */
  function Lift(r: Scan, d: nat): Scan
  {
    match r
    case Closed(si, n, st) => Closed([d] + si, n * d, st + 1)
    case RanOut(n) => RanOut(n * d)
    case OutOfBounds(n) => OutOfBounds(n * d)
  }

  // ---------------------------------------------------------------------------------------------
  // Level sequences

  lemma RaiseRow(x: nat, d: nat, e: nat)
    requires d > 0
    ensures Raise(Row(x, d), e) == Row(x + e, d)
  {}

  lemma {:induction false} RaiseExpand(outer: seq<nat>, d: nat, e: nat)
    requires outer != [] && d > 0
    ensures Raise(ExpandRows(outer, d), e) == ExpandRows(Raise(outer, e), d)
    decreases |outer|
  {
    var row, rest := Row(outer[0], d), ExpandRows(outer[1..], d);
    assert ExpandRows(outer, d) == row + rest;
    var raised := Raise(outer, e);
    assert ExpandRows(raised, d) == Row(raised[0], d) + ExpandRows(raised[1..], d);
    if |outer| == 1 {
      assert rest == [] && raised == [outer[0] + e] && raised[1..] == [];
      RaiseRow(outer[0], d, e);
    } else {
      assert raised[0] == outer[0] && raised[1..] == Raise(outer[1..], e);
      RaiseExpand(outer[1..], d, e);
      RaiseAppend(row, rest, e);
    }
  }

  lemma RaiseAppend(a: seq<nat>, b: seq<nat>, e: nat)
    requires b != []
    ensures Raise(a + b, e) == a + Raise(b, e)
  {}

  lemma ProductAtLeastTwo(shape: seq<nat>)
    requires shape != [] && forall k :: 0 <= k < |shape| ==> shape[k] >= 2
    ensures Product(shape) >= 2
    decreases |shape|
  {
    var init, d := shape[..|shape| - 1], shape[|shape| - 1];
    ProductUnfold(shape);
    if init != [] {
      ProductAtLeastTwo(init);
      MulMono(2, d, Product(init));
    }
  }

  /** With an innermost dimension of at least two, the first entry closes nothing. */
  lemma FirstLevelZero(shape: seq<nat>)
    requires Positive(shape) && shape != [] && shape[|shape| - 1] >= 2
    ensures |ShapeLevels(shape)| > 0 && ShapeLevels(shape)[0] == 0
  {
    var init, d := shape[..|shape| - 1], shape[|shape| - 1];
    assert Positive(init);
    ProductPositive(init);
    var outer := ShapeLevels(init);
    ExpandRowsAt(outer, d, 0, 0);
    assert ShapeLevels(shape) == ExpandRows(outer, d);
  }

  // ---------------------------------------------------------------------------------------------
  // The scan of an expanded level sequence

  /** A stop one level higher, with one more known dimension in front, has the same effect one level up. */
  lemma AbsorbLift(si: seq<nat>, tracked: nat, st: nat, d: nat, pad: bool)
    requires |si| > 0 && |si| == tracked + 1
    ensures Absorb([d] + si, tracked + 1, st + 1, pad) == ([d] + Absorb(si, tracked, st, pad).0, Absorb(si, tracked, st, pad).1 + 1)
  {
    var full := [d] + si;
    if st == 0 {
      if |si| == 1 {
        assert full[1 := full[1] + 1] == [d] + si[0 := si[0] + 1];
      }
    } else if |si| == st {
      assert full[st := full[st] + 1] + [1] == [d] + (si[st - 1 := si[st - 1] + 1] + [1]);
    } else if |si| > st && tracked <= st {
      assert full[st + 1 := full[st + 1] + 1] == [d] + si[st := si[st] + 1];
    } else if pad && |si| < st {
      var n := |si|;
      assert full[n := full[n] + 1] + Ones(st - n) + [1] == [d] + (si[n - 1 := si[n - 1] + 1] + Ones(st - n) + [1]);
    }
  }

  /** The closing shape information with one more known dimension in front. */
  function Prepend(c: Option<seq<nat>>, d: nat): Option<seq<nat>>
  {
    if c.Some? then Some([d] + c.value) else None
  }

  /** A stop one level higher, with one more known dimension in front, closes like it one level up. */
  lemma CloseLift(si: seq<nat>, rank: nat, d: nat, pad: bool)
    requires |si| > 0 && rank > 0
    ensures Close([d] + si, rank + 1, pad) == Prepend(Close(si, rank, pad), d)
  {
    var full := [d] + si;
    if rank - 1 < |si| {
      assert full[rank := full[rank] + 1] == [d] + si[rank - 1 := si[rank - 1] + 1];
    } else if pad {
      var n := |si|;
      assert full[n := full[n] + 1] + Ones(rank - n) == [d] + (si[n - 1 := si[n - 1] + 1] + Ones(rank - n));
    }
  }

  /** Row `q` of the rows of `outer` starts at `a = q * d`: plain values, then the entry of `outer` one level up. */
  lemma RowFacts(outer: seq<nat>, d: nat, q: nat) returns (a: nat)
    requires d > 0 && q < |outer|
    ensures a == q * d && a + d == (q + 1) * d && a + d <= |ExpandRows(outer, d)|
    ensures forall r :: a <= r < a + d - 1 ==> ExpandRows(outer, d)[r] == 0
    ensures ExpandRows(outer, d)[a + d - 1] == outer[q] + 1
  {
    RowStart(q, d);
    a := q * d;
    ExpandRowsAt(outer, d, q, d - 1);
    forall r | a <= r < a + d - 1 ensures ExpandRows(outer, d)[r] == 0 {
      ExpandRowsAt(outer, d, q, r - a);
    }
  }

  /** Plain values leave a scan that knows two or more dimensions unchanged. */
  lemma {:induction false} PlainRun(levels: seq<nat>, a: nat, b: nat, rank: nat, si: seq<nat>, tracked: nat, pad: bool)
    requires a <= b <= |levels| && rank > 0 && |si| >= 2
    requires forall r :: a <= r < b ==> levels[r] == 0
    ensures ScanFrom(levels, a, rank, si, tracked, pad) == ScanFrom(levels, b, rank, si, tracked, pad)
    decreases b - a
  {
    if a < b {
      PlainRun(levels, a + 1, b, rank, si, tracked, pad);
    }
  }

  /** A row whose closing entry stays below the rank: the scan moves past it with that entry's effect one dimension up. */
  lemma RowPass(levels: seq<nat>, a: nat, d: nat, st: nat, rank: nat, si: seq<nat>, tracked: nat, pad: bool)
    requires d > 0 && a + d <= |levels| && levels[a + d - 1] == st + 1 && st < rank
    requires forall r :: a <= r < a + d - 1 ==> levels[r] == 0
    requires |si| > 0 && |si| == tracked + 1
    ensures var next := Absorb(si, tracked, st, pad);
      ScanFrom(levels, a, rank + 1, [d] + si, tracked + 1, pad) == ScanFrom(levels, a + d, rank + 1, [d] + next.0, next.1 + 1, pad)
  {
    var p := a + d - 1;
    PlainRun(levels, a, p, rank + 1, [d] + si, tracked + 1, pad);
    LiftedPass(levels, p, st, rank, si, tracked, d, pad);
    assert p + 1 == a + d;
  }

  /** A row whose closing entry reaches the rank closes the scan at the row's end. */
  lemma RowClose(levels: seq<nat>, a: nat, d: nat, st: nat, rank: nat, si: seq<nat>, tracked: nat, pad: bool)
    requires d > 0 && a + d <= |levels| && levels[a + d - 1] == st + 1 && st >= rank
    requires forall r :: a <= r < a + d - 1 ==> levels[r] == 0
    requires rank > 0 && |si| > 0 && |si| == tracked + 1
    ensures ScanFrom(levels, a, rank + 1, [d] + si, tracked + 1, pad) == Ended(Prepend(Close(si, rank, pad), d), a + d, st + 1)
  {
    var p := a + d - 1;
    PlainRun(levels, a, p, rank + 1, [d] + si, tracked + 1, pad);
    LiftedStep(levels, p, st, rank, si, tracked, d, pad);
    assert p + 1 == a + d;
  }

  /** A row of the expanded sequence whose entry of `outer` closes the scan: the scan closes at the row's end, one dimension up. */
  lemma ExpandRowClose(outer: seq<nat>, d: nat, q: nat, a: nat, rank: nat, si: seq<nat>, tracked: nat, pad: bool)
    requires d > 0 && rank > 0 && |si| > 0 && |si| == tracked + 1 && q < |outer| && outer[q] >= rank && a == q * d
    ensures a < |ExpandRows(outer, d)|
    ensures ScanFrom(ExpandRows(outer, d), a, rank + 1, [d] + si, tracked + 1, pad) == Lift(ScanFrom(outer, q, rank, si, tracked, pad), d)
  {
    var a' := RowFacts(outer, d, q);
    RowClose(ExpandRows(outer, d), a, d, outer[q], rank, si, tracked, pad);
    LiftClose(outer, q, a + d, rank, si, tracked, d, pad);
  }

  /** A row of the expanded sequence whose entry of `outer` passes: the scan moves to the next row with that entry's effect one dimension up. */
  lemma ExpandRowPass(outer: seq<nat>, d: nat, q: nat, a: nat, rank: nat, si: seq<nat>, tracked: nat, pad: bool)
    requires d > 0 && rank > 0 && |si| > 0 && |si| == tracked + 1 && q < |outer| && outer[q] < rank && a == q * d
    ensures a + d <= |ExpandRows(outer, d)| && a + d == (q + 1) * d
    ensures var next := Absorb(si, tracked, outer[q], pad);
      ScanFrom(ExpandRows(outer, d), a, rank + 1, [d] + si, tracked + 1, pad)
      == ScanFrom(ExpandRows(outer, d), a + d, rank + 1, [d] + next.0, next.1 + 1, pad)
  {
    var a' := RowFacts(outer, d, q);
    assert a' == a;
    RowPass(ExpandRows(outer, d), a, d, outer[q], rank, si, tracked, pad);
  }

  /** A closing entry of `outer`, lifted by one dimension. */
  lemma LiftClose(outer: seq<nat>, q: nat, a: nat, rank: nat, si: seq<nat>, tracked: nat, d: nat, pad: bool)
    requires a == (q + 1) * d && q < |outer| && outer[q] >= rank && rank > 0 && |si| > 0
    ensures Lift(ScanFrom(outer, q, rank, si, tracked, pad), d) == Ended(Prepend(Close(si, rank, pad), d), a, outer[q] + 1)
  {}

  /** An entry one level above a level below the rank, with one more known dimension in front, passes like that level one dimension up. */
  lemma LiftedPass(levels: seq<nat>, p: nat, st: nat, rank: nat, si: seq<nat>, tracked: nat, d: nat, pad: bool)
    requires p < |levels| && levels[p] == st + 1 && st < rank && |si| > 0 && |si| == tracked + 1
    ensures var next := Absorb(si, tracked, st, pad);
      ScanFrom(levels, p, rank + 1, [d] + si, tracked + 1, pad) == ScanFrom(levels, p + 1, rank + 1, [d] + next.0, next.1 + 1, pad)
  {
    AbsorbLift(si, tracked, st, d, pad);
  }

  /** An entry one level above `st`, with one more known dimension in front, scans like `st` one dimension up. */
  lemma LiftedStep(levels: seq<nat>, p: nat, st: nat, rank: nat, si: seq<nat>, tracked: nat, d: nat, pad: bool)
    requires p < |levels| && levels[p] == st + 1 && rank > 0 && |si| > 0 && |si| == tracked + 1
    ensures var next := Absorb(si, tracked, st, pad);
      ScanFrom(levels, p, rank + 1, [d] + si, tracked + 1, pad)
      == if st >= rank then Ended(Prepend(Close(si, rank, pad), d), p + 1, st + 1)
         else ScanFrom(levels, p + 1, rank + 1, [d] + next.0, next.1 + 1, pad)
  {
    if st >= rank {
      CloseLift(si, rank, d, pad);
    } else {
      AbsorbLift(si, tracked, st, d, pad);
    }
  }

  /**
   * The scan of the rows of `outer`, from row `q` on, with the row length `d` in front of the shape
   * information, is the scan of `outer` itself lifted by one dimension.
   */
  lemma {:induction false} ExpandScan(outer: seq<nat>, d: nat, q: nat, a: nat, rank: nat, si: seq<nat>, tracked: nat, pad: bool)
    requires d > 0 && rank > 0 && |si| > 0 && |si| == tracked + 1 && q <= |outer| && a == q * d
    ensures a <= |ExpandRows(outer, d)|
    ensures ScanFrom(ExpandRows(outer, d), a, rank + 1, [d] + si, tracked + 1, pad) == Lift(ScanFrom(outer, q, rank, si, tracked, pad), d)
    decreases |outer| - q, 1
  {
    MulMono(q, |outer|, d);
    if q == |outer| {
      assert ScanFrom(ExpandRows(outer, d), a, rank + 1, [d] + si, tracked + 1, pad) == RanOut(a);
    } else if outer[q] >= rank {
      ExpandRowClose(outer, d, q, a, rank, si, tracked, pad);
    } else {
      ExpandScanPass(outer, d, q, a, rank, si, tracked, pad);
    }
  }

  /** The step of `ExpandScan` over a row whose entry of `outer` passes. */
  lemma {:induction false} ExpandScanPass(outer: seq<nat>, d: nat, q: nat, a: nat, rank: nat, si: seq<nat>, tracked: nat, pad: bool)
    requires d > 0 && rank > 0 && |si| > 0 && |si| == tracked + 1 && q < |outer| && a == q * d && outer[q] < rank
    ensures a <= |ExpandRows(outer, d)|
    ensures ScanFrom(ExpandRows(outer, d), a, rank + 1, [d] + si, tracked + 1, pad) == Lift(ScanFrom(outer, q, rank, si, tracked, pad), d)
    decreases |outer| - q, 0
  {
    var rows, next := ExpandRows(outer, d), Absorb(si, tracked, outer[q], pad);
    ExpandRowPass(outer, d, q, a, rank, si, tracked, pad);
    ExpandScan(outer, d, q + 1, a + d, rank, next.0, next.1, pad);
    assert ScanFrom(outer, q, rank, si, tracked, pad) == ScanFrom(outer, q + 1, rank, next.0, next.1, pad);
  }

  /** While one dimension is known, plain values count towards it. */
  lemma {:induction false} ZeroRun(levels: seq<nat>, j: nat, k: nat, rank: nat, c: nat, pad: bool)
    requires j <= k <= |levels| && rank > 0 && forall m :: j <= m < k ==> levels[m] == 0
    ensures ScanFrom(levels, j, rank, [c], 0, pad) == ScanFrom(levels, k, rank, [c + (k - j)], 0, pad)
    decreases k - j
  {
    if j < k {
      assert [c][0 := c + 1] == [c + 1];
      ZeroRun(levels, j + 1, k, rank, c + 1, pad);
    }
  }

  /** The first row of an expanded sequence: `d - 1` plain values counted into the one known dimension. */
  lemma FirstRow(raised: seq<nat>, d: nat, rank: nat, pad: bool)
    requires raised != [] && d > 0 && rank > 0
    ensures d <= |ExpandRows(raised, d)| && ExpandRows(raised, d)[d - 1] == raised[0] + 1
    ensures ScanFrom(ExpandRows(raised, d), 0, rank, [0], 0, pad) == ScanFrom(ExpandRows(raised, d), d - 1, rank, [d - 1], 0, pad)
  {
    var levels := ExpandRows(raised, d);
    forall m | 0 <= m < d - 1
      ensures levels[m] == 0
    {
      ExpandRowsAt(raised, d, 0, m);
    }
    ExpandRowsAt(raised, d, 0, d - 1);
    ZeroRun(levels, 0, d - 1, rank, 0, pad);
  }

  /** The raised levels of `init + [d]` are the rows of the raised levels of `init`. */
  lemma RaisedLevels(shape: seq<nat>, e: nat)
    requires Positive(shape) && shape != []
    ensures var init, d := shape[..|shape| - 1], shape[|shape| - 1];
      Raise(ShapeLevels(init), e) != [] && Raise(ShapeLevels(shape), e) == ExpandRows(Raise(ShapeLevels(init), e), d)
  {
    var init, d := shape[..|shape| - 1], shape[|shape| - 1];
    assert Positive(init);
    ProductPositive(init);
    RaiseExpand(ShapeLevels(init), d, e);
  }

  /** The one-dimensional case: `d` entries, the last closing level `1 + e`. */
  lemma ScanVector(d: nat, e: nat, pad: bool)
    requires d > 0
    ensures var r := ScanFrom(Raise(ShapeLevels([d]), e), 0, 1, [0], 0, pad);
      r.Closed? && Reverse(r.shapeInfo) == [d] && r.consumed == d && r.stop == 1 + e
  {
    RaisedLevels([d], e);
    assert [d][..0] == [];
    var raised := Raise(ShapeLevels([]), e);
    assert raised == [e];
    FirstRow(raised, d, 1, pad);
    assert [d - 1][0 := d - 1 + 1] == [d];
  }

  /**
   * The rows of a level sequence that starts with a plain value scan like the sequence itself, one
   * dimension up: the first row ends with a level-1 stop that opens the second dimension.
   */
  lemma ScanRows(raised: seq<nat>, d: nat, rank: nat, pad: bool)
    requires raised != [] && raised[0] == 0 && d > 0 && rank >= 2
    ensures ScanFrom(ExpandRows(raised, d), 0, rank, [0], 0, pad) == Lift(ScanFrom(raised, 0, rank - 1, [0], 0, pad), d)
  {
    var levels := ExpandRows(raised, d);
    FirstRow(raised, d, rank, pad);
    assert [d - 1][0 := d - 1 + 1] == [d];
    assert Absorb([d - 1], 0, 1, pad) == ([d] + [1], 1);
    assert ScanFrom(levels, d - 1, rank, [d - 1], 0, pad) == ScanFrom(levels, d, rank, [d] + [1], 1, pad);
    ExpandScan(raised, d, 1, d, rank - 1, [1], 0, pad);
    assert [0][0 := 0 + 1] == [1];
  }

  lemma RaisedSnoc(init: seq<nat>, d: nat, e: nat)
    requires Positive(init) && d > 0
    ensures Raise(ShapeLevels(init), e) != []
    ensures Raise(ShapeLevels(init + [d]), e) == ExpandRows(Raise(ShapeLevels(init), e), d)
  {
    var shape := init + [d];
    assert shape[..|shape| - 1] == init;
    ProductPositive(init);
    RaiseExpand(ShapeLevels(init), d, e);
  }

  lemma {:induction false} ReverseCons(d: nat, s: seq<nat>)
    ensures Reverse([d] + s) == Reverse(s) + [d]
    decreases |s|
  {
    if s != [] {
      var init := s[..|s| - 1];
      assert ([d] + s)[..|s|] == [d] + init;
      ReverseCons(d, init);
    }
  }

  /** The step from `init` to `init + [d]`, given the scan of `init`. */
  lemma ScanNested(init: seq<nat>, d: nat, e: nat, pad: bool)
    requires Streamable(init) && init[|init| - 1] >= 2 && d > 0
    requires var r := ScanFrom(Raise(ShapeLevels(init), e), 0, |init|, [0], 0, pad);
      r.Closed? && Reverse(r.shapeInfo) == init && r.consumed == Product(init) && r.stop == |init| + e
    ensures var r := ScanFrom(Raise(ShapeLevels(init + [d]), e), 0, |init| + 1, [0], 0, pad);
      r.Closed? && Reverse(r.shapeInfo) == init + [d] && r.consumed == Product(init + [d]) && r.stop == |init| + 1 + e
  {
    var raised := Raise(ShapeLevels(init), e);
    RaisedSnoc(init, d, e);
    FirstLevelZero(init);
    ProductAtLeastTwo(init);
    assert raised[0] == 0;
    ScanRows(raised, d, |init| + 1, pad);
    var inner := ScanFrom(raised, 0, |init|, [0], 0, pad);
    ReverseCons(d, inner.shapeInfo);
    ProductSnoc(init, d);
  }

  /**
   * The levels of a streamable shape, the last raised by `e`, close after exactly `Product(shape)`
   * elements with the counts of `shape` (innermost first) and the stop `|shape| + e`.
   */
  lemma {:induction false} ScanShape(shape: seq<nat>, e: nat, pad: bool)
    requires Streamable(shape)
    ensures var r := ScanFrom(Raise(ShapeLevels(shape), e), 0, |shape|, [0], 0, pad);
      r.Closed? && Reverse(r.shapeInfo) == shape && r.consumed == Product(shape) && r.stop == |shape| + e
    decreases |shape|
  {
    var init, d := shape[..|shape| - 1], shape[|shape| - 1];
    assert shape == init + [d];
    if init == [] {
      ScanVector(d, e, pad);
    } else {
      assert Streamable(init);
      ScanShape(init, e, pad);
      ScanNested(init, d, e, pad);
    }
  }

  /** Shape information of `n` dimensions of size one, the first counting one entry more or one entry in all. */
  lemma OnesFacts(d: nat, n: nat)
    requires d > 0 && n > 0
    ensures [d - 1][0 := d] + Ones(n) == [d] + Ones(n)
    ensures [0][0 := 1] + Ones(n - 1) == Ones(n)
    ensures [0][0 := 1] + Ones(n - 1) + [1] == Ones(n + 1)
    ensures [d - 1][0 := d] + Ones(n - 1) + [1] == [d] + Ones(n)
  {}

  /** Corrected, a first stop that reaches the rank closes every dimension not yet opened at size one. */
  lemma FirstCloses(d: nat, r: nat)
    requires d > 0 && r > 0
    ensures Close([d - 1], r + 1, true) == Prepend(Close([0], r, true), d)
    ensures Close([0], r, true) == Some(Ones(r))
  {
    OnesFacts(d, r);
    if r == 1 {
      assert [0][0 := 1] == Ones(1);
    }
  }

  /** Corrected, a first stop below the rank opens the dimensions it closes, each of size one. */
  lemma FirstOpens(d: nat, st: nat)
    requires d > 0
    ensures Absorb([d - 1], 0, st + 1, true) == ([d] + Ones(st + 1), st + 1)
    ensures Absorb([0], 0, st, true) == (Ones(st + 1), st)
  {
    if st == 0 {
      assert [d - 1][0 := d - 1 + 1] + [1] == [d] + Ones(1);
      assert [0][0 := 1] == Ones(1);
    } else {
      assert [d - 1][0 := d] + Ones(st) + [1] == [d] + Ones(st + 1);
      if st == 1 {
        assert [0][0 := 1] + [1] == Ones(2);
      } else {
        assert [0][0 := 1] + Ones(st - 1) + [1] == Ones(st + 1);
      }
    }
  }

  /** The corrected scan of the rows whose first entry closes the scan. */
  lemma FirstRowCloses(raised: seq<nat>, d: nat, r: nat)
    requires raised != [] && d > 0 && r > 0 && raised[0] >= r
    ensures ScanFrom(ExpandRows(raised, d), 0, r + 1, [0], 0, true) == Lift(ScanFrom(raised, 0, r, [0], 0, true), d)
  {
    var levels := ExpandRows(raised, d);
    FirstRow(raised, d, r + 1, true);
    FirstCloses(d, r);
    assert ScanFrom(levels, d - 1, r + 1, [d - 1], 0, true) == Ended(Close([d - 1], r + 1, true), d, raised[0] + 1);
    assert ScanFrom(raised, 0, r, [0], 0, true) == Ended(Close([0], r, true), 1, raised[0]);
  }

  /** The corrected scan of the rows whose first entry does not close the scan. */
  lemma FirstRowPasses(raised: seq<nat>, d: nat, r: nat)
    requires raised != [] && d > 0 && r > 0 && raised[0] < r
    ensures ScanFrom(ExpandRows(raised, d), 0, r + 1, [0], 0, true) == Lift(ScanFrom(raised, 0, r, [0], 0, true), d)
  {
    var levels := ExpandRows(raised, d);
    var st := raised[0];
    FirstRow(raised, d, r + 1, true);
    FirstOpens(d, st);
    assert ScanFrom(levels, d - 1, r + 1, [d - 1], 0, true) == ScanFrom(levels, d, r + 1, [d] + Ones(st + 1), st + 1, true);
    ExpandScan(raised, d, 1, d, r, Ones(st + 1), st, true);
    assert ScanFrom(raised, 0, r, [0], 0, true) == ScanFrom(raised, 1, r, Ones(st + 1), st, true);
  }

  /**
   * Corrected, the rows of any non-empty level sequence scan like the sequence itself one dimension
   * up, even when its first entry already closes some dimensions: those have size one.
   */
  lemma ScanRowsCorrected(raised: seq<nat>, d: nat, rank: nat)
    requires raised != [] && d > 0 && rank >= 2
    ensures ScanFrom(ExpandRows(raised, d), 0, rank, [0], 0, true) == Lift(ScanFrom(raised, 0, rank - 1, [0], 0, true), d)
  {
    if raised[0] >= rank - 1 {
      FirstRowCloses(raised, d, rank - 1);
    } else {
      FirstRowPasses(raised, d, rank - 1);
    }
  }

  /** The step from `init` to `init + [d]` for the corrected scan, given the scan of `init`. */
  lemma ScanNestedCorrected(init: seq<nat>, d: nat, e: nat)
    requires Positive(init) && init != [] && d > 0
    requires var r := ScanFrom(Raise(ShapeLevels(init), e), 0, |init|, [0], 0, true);
      r.Closed? && Reverse(r.shapeInfo) == init && r.consumed == Product(init) && r.stop == |init| + e
    ensures var r := ScanFrom(Raise(ShapeLevels(init + [d]), e), 0, |init| + 1, [0], 0, true);
      r.Closed? && Reverse(r.shapeInfo) == init + [d] && r.consumed == Product(init + [d]) && r.stop == |init| + 1 + e
  {
    var raised := Raise(ShapeLevels(init), e);
    RaisedSnoc(init, d, e);
    ScanRowsCorrected(raised, d, |init| + 1);
    var inner := ScanFrom(raised, 0, |init|, [0], 0, true);
    ReverseCons(d, inner.shapeInfo);
    ProductSnoc(init, d);
  }

  /**
   * Corrected, the levels of every shape without an empty dimension, the last raised by `e`, close
   * after exactly `Product(shape)` elements with the counts of `shape` and the stop `|shape| + e`.
   */
  lemma {:induction false} ScanShapeCorrected(shape: seq<nat>, e: nat)
    requires Positive(shape) && shape != []
    ensures var r := ScanFrom(Raise(ShapeLevels(shape), e), 0, |shape|, [0], 0, true);
      r.Closed? && Reverse(r.shapeInfo) == shape && r.consumed == Product(shape) && r.stop == |shape| + e
    decreases |shape|
  {
    var init, d := shape[..|shape| - 1], shape[|shape| - 1];
    assert shape == init + [d];
    assert Positive(init);
    if init == [] {
      ScanVector(d, e, true);
    } else {
      ScanShapeCorrected(init, e);
      ScanNestedCorrected(init, d, e);
    }
  }

  /** Elements after the one that closes the scan are never read. */
  lemma {:induction false} ScanIgnoresRest(levels: seq<nat>, rest: seq<nat>, j: nat, rank: nat, si: seq<nat>, tracked: nat, pad: bool)
    requires j <= |levels| && rank > 0 && |si| > 0
    requires !ScanFrom(levels, j, rank, si, tracked, pad).RanOut?
    ensures ScanFrom(levels + rest, j, rank, si, tracked, pad) == ScanFrom(levels, j, rank, si, tracked, pad)
    decreases |levels| - j
  {
    assert (levels + rest)[j] == levels[j];
    if levels[j] < rank {
      var next := Absorb(si, tracked, levels[j], pad);
      ScanIgnoresRest(levels, rest, j + 1, rank, next.0, next.1, pad);
    }
  }

  // ---------------------------------------------------------------------------------------------
  // The round trip

  /** A streamable shape has no empty dimension. */
  lemma StreamablePositive(shape: seq<nat>)
    requires Streamable(shape)
    ensures Positive(shape) && Product(shape) > 0
  {
    forall k | 0 <= k < |shape| ensures shape[k] > 0 {
      if k < |shape| - 1 { assert shape[k] >= 2; }
    }
    ProductPositive(shape);
  }

  /**
   * The buffers whose stream carries the canonical levels of their shape: no empty dimension, and a
   * single entry only at rank one, since a one-entry buffer streams as a level-1 stop whatever its rank.
   */
  predicate Readable<T>(b: Buffer<T>)
  {
    WellFormed(b) && b.shape != [] && Positive(b.shape) && (|b.data| > 1 || |b.shape| == 1)
  }

  /** The levels of the stream of a readable buffer are the canonical levels of its shape. */
  lemma StreamLevels<T>(b: Buffer<T>)
    requires Readable(b)
    ensures StopLevels(StreamOf(b)) == ShapeLevels(b.shape)
  {
    var s := StreamOf(b);
    var levels := ShapeLevels(b.shape);
    if |b.data| == 1 {
      var d := b.shape[0];
      assert b.shape == [d] && b.shape[..0] == [];
      ProductSnoc([], d);
      assert d == 1 && [0][1..] == [];
      assert Row(0, 1) == [1];
      assert levels == ExpandRows([0], 1) == [1];
    } else {
      forall i | 0 <= i < |s|
        ensures StopLevels(s)[i] == levels[i]
      {
        assert s[i] == WithLevel(b.data[i], levels[i]);
      }
    }
  }

  /** A streamable buffer is readable. */
  lemma StreamableReadable<T>(b: Buffer<T>)
    requires WellFormed(b) && Streamable(b.shape)
    ensures Readable(b)
  {
    StreamablePositive(b.shape);
    if |b.data| == 1 {
      ProductAtLeastTwoOrSingle(b.shape);
    }
  }

  /** A streamable shape with one entry in all is the vector `[1]`. */
  lemma ProductAtLeastTwoOrSingle(shape: seq<nat>)
    requires Streamable(shape) && Product(shape) == 1
    ensures shape == [1]
  {
    var init, d := shape[..|shape| - 1], shape[|shape| - 1];
    assert shape == init + [d];
    ProductSnoc(init, d);
    if init != [] {
      assert Streamable(init) && init[|init| - 1] >= 2;
      ProductAtLeastTwo(init);
      assert false;
    }
  }

  lemma AppendLevels<T>(s: seq<Elem<T>>, rest: seq<Elem<T>>)
    ensures StopLevels(s + rest) == StopLevels(s) + StopLevels(rest)
    ensures Values(s + rest)[..|s|] == Values(s)
  {
    assert StopLevels(s + rest) == StopLevels(s) + StopLevels(rest);
  }

  /**
   * `from_stream` of rank `|shape|` reads back the stream of a streamable buffer whose last element
   * also closes `e` enclosing dimensions, followed by anything: the buffer comes back with the
   * first dequeue as its creation time, after exactly its own elements, with a stop token of level
   * `e` when `e > 0`.
   */
  lemma RoundTrip<T>(b: Buffer<T>, e: nat, rest: seq<Elem<T>>, now: nat)
    requires WellFormed(b) && Streamable(b.shape)
    ensures var back := Restamp(b, now);
      FromStreamSpec(RaiseStream(StreamOf(b), e) + rest, |b.shape|, now)
      == (Ok(if e == 0 then Done(back) else StopToken(back, e)), |b.data|)
  {
    var raised := RaiseStream(StreamOf(b), e);
    var s := raised + rest;
    var rank := |b.shape|;
    StreamableReadable(b);
    StreamLevels(b);
    AppendLevels(raised, rest);
    ScanShape(b.shape, e, false);
    var levels := Raise(ShapeLevels(b.shape), e);
    assert StopLevels(raised) == levels;
    ScanIgnoresRest(levels, StopLevels(rest), 0, rank, [0], 0, false);
    var scan := ScanFrom(StopLevels(s), 0, rank, [0], 0, false);
    assert scan == ScanFrom(levels, 0, rank, [0], 0, false);
    FromStreamCases(s, rank, now, scan);
    assert Values(s)[..scan.consumed] == b.data;
  }

  lemma UnitShapeLevels()
    ensures ShapeLevels([1, 3]) == [0, 0, 2]
  {
    assert [1, 3][..1] == [1] && [1][..0] == [] && [0][1..] == [] && [1][1..] == [];
    assert Row(0, 1) == [1] && Row(1, 3) == [0, 0, 2];
    assert ShapeLevels([1]) == ExpandRows([0], 1) == [1];
    assert ShapeLevels([1, 3]) == ExpandRows([1], 3);
  }

  /**
   * A dimension of size one other than the innermost breaks the round trip: the buffer of shape
   * `[1, 3]` streams as two plain values and a level-2 stop, and reading it back at rank 2 fails,
   * since the second dimension was never opened.
   */
  lemma UnitDimensionLost(x: int, y: int, z: int, t: nat, now: nat)
    ensures var b := Buffer([1, 3], [x, y, z], t);
      WellFormed(b) && StreamOf(b) == [Val(x), Val(y), ValStop(z, 2)]
      && FromStreamSpec(StreamOf(b), 2, now) == (Err("index out of bounds"), 3)
  {
    var b := Buffer([1, 3], [x, y, z], t);
    UnitShapeLevels();
    var s := StreamOf(b);
    assert s == [Val(x), Val(y), ValStop(z, 2)];
    var levels := StopLevels(s);
    assert levels == [0, 0, 2];
    assert [0][0 := 0 + 1] == [1] && [1][0 := 1 + 1] == [2];
    assert ScanFrom(levels, 2, 2, [2], 0, false) == OutOfBounds(3);
    assert ScanFrom(levels, 0, 2, [0], 0, false) == ScanFrom(levels, 1, 2, [1], 0, false) == ScanFrom(levels, 2, 2, [2], 0, false);
  }

  /**
   * The corrected `from_stream` reads back every readable buffer, whatever its unit dimensions:
   * the stream of `b` whose last element also closes `e` enclosing dimensions, followed by
   * anything, gives `b` back after exactly its own elements.
   */
  lemma RoundTripCorrected<T>(b: Buffer<T>, e: nat, rest: seq<Elem<T>>, now: nat)
    requires Readable(b)
    ensures var back := Restamp(b, now);
      FromStreamCorrected(RaiseStream(StreamOf(b), e) + rest, |b.shape|, now)
      == (Ok(if e == 0 then Done(back) else StopToken(back, e)), |b.data|)
  {
    var raised := RaiseStream(StreamOf(b), e);
    var s := raised + rest;
    var rank := |b.shape|;
    var levels := Raise(ShapeLevels(b.shape), e);
    assert StopLevels(raised) == levels by { StreamLevels(b); }
    var scan := ScanFrom(levels, 0, rank, [0], 0, true);
    assert scan.Closed? && Reverse(scan.shapeInfo) == b.shape && scan.consumed == |b.data| && scan.stop == rank + e by {
      ScanShapeCorrected(b.shape, e);
    }
    assert ScanFrom(StopLevels(s), 0, rank, [0], 0, true) == scan by {
      AppendLevels(raised, rest);
      ScanIgnoresRest(levels, StopLevels(rest), 0, rank, [0], 0, true);
    }
    assert Values(s)[..scan.consumed] == b.data by { AppendLevels(raised, rest); }
    CorrectedCloses(s, rank, now, scan);
  }

  /** The corrected `from_stream` once its scan closes. */
  lemma CorrectedCloses<T>(s: seq<Elem<T>>, rank: nat, now: nat, scan: Scan)
    requires rank > 0 && scan == ScanFrom(StopLevels(s), 0, rank, [0], 0, true) && scan.Closed?
    ensures FromStreamCorrected(s, rank, now)
      == (Assemble(scan.shapeInfo, Values(s)[..scan.consumed], if scan.stop == rank then None else Some(scan.stop - rank), now), scan.consumed)
  {}

  /** Corrected, the buffer of shape `[1, 3]` that the code as written cannot read back is read back. */
  lemma UnitDimensionRead(x: int, y: int, z: int, now: nat)
    ensures FromStreamCorrected([Val(x), Val(y), ValStop(z, 2)], 2, now) == (Ok(Done(Buffer([1, 3], [x, y, z], now))), 3)
  {
    var b := Buffer([1, 3], [x, y, z], now);
    UnitDimensionLost(x, y, z, now, now);
    assert Positive(b.shape);
    RoundTripCorrected(b, 0, [], now);
    assert RaiseStream(StreamOf(b), 0) + [] == [Val(x), Val(y), ValStop(z, 2)];
  }
}
