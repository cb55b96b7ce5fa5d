/**
 * Reading a multi-hot selector tensor: the flat flags are cut into vectors of the last dimension's
 * length, and each vector carries the stop level of its position among the outer dimensions.
 */
module SelectNpy {
  import opened Wrappers
  import opened Calc
  import opened Elems
  import opened Shapes
  import opened Select

  /** How often dimension group `k` (the innermost `k` dimensions) ends: the product of the last `k` sizes. */
  function Period(shape: seq<nat>, k: nat): (p: nat)
    requires k <= |shape|
    ensures Positive(shape) ==> p > 0
  {
    var p := Product(shape[|shape| - k..]);
    if Positive(shape) then ProductPositive(shape[|shape| - k..]); p else p
  }

  /** The largest `k <= top` whose period divides `i + 1`, or 0. */
  function LargestClosed(i: nat, shape: seq<nat>, top: nat): (l: nat)
    requires Positive(shape) && top <= |shape|
    ensures l <= top && (l > 0 ==> (i + 1) % Period(shape, l) == 0)
    ensures forall k :: l < k <= top ==> (i + 1) % Period(shape, k) != 0
  {
    if top == 0 then 0
    else if (i + 1) % Period(shape, top) == 0 then top else LargestClosed(i, shape, top - 1)
  }

  /**
   * `get_stop_level`: every dimension group whose period divides `i + 1` raises the level to its own
   * size, so the level is the largest such group; an empty shape gives 0.
   */
  method GetStopLevel(flatIndex: nat, shape: seq<nat>) returns (level: nat)
    requires Positive(shape)
    ensures level == LargestClosed(flatIndex, shape, |shape|)
  {
    if shape == [] {
      return 0;
    }
    level := 0;
    var dimLevel := 1;
    while dimLevel <= |shape|
      invariant 1 <= dimLevel <= |shape| + 1
      invariant level == LargestClosed(flatIndex, shape, dimLevel - 1)
    {
      var period := Product(shape[|shape| - dimLevel..]);
      assert period == Period(shape, dimLevel);
      if (flatIndex + 1) % period == 0 {
        level := dimLevel;
      }
      dimLevel := dimLevel + 1;
    }
  }

  lemma Assoc(a: nat, b: nat, c: nat)
    ensures a * (b * c) == (a * b) * c
  {}

  /** A product with a positive factor is positive only when the other factor is. */
  lemma PositiveFactor(a: nat, d: nat)
    requires a * d > 0
    ensures a > 0
  {}

  /** If `i + 1` is a multiple of `m * d`, it is one of `d`, and the row index `i / d` ends a block of `m` rows. */
  lemma ModProductTo(i: nat, m: nat, d: nat, p: nat)
    requires m > 0 && d > 0 && p == m * d && (i + 1) % p == 0
    ensures (i + 1) % d == 0 && (i / d + 1) % m == 0
  {
    MulPos(m, d);
    DivMod(i + 1, p);
    var t := (i + 1) / p;
    Assoc(t, m, d);
    var tm := t * m;
    assert i + 1 == tm * d;
    DivModUnique(i + 1, d, tm, 0);
    PositiveFactor(tm, d);
    RowStart(tm - 1, d);
    DivModUnique(i, d, tm - 1, d - 1);
    DivModUnique(tm, m, t, 0);
  }

  /** Conversely, a multiple of `d` whose row index ends a block of `m` rows is a multiple of `m * d`. */
  lemma ModProductFrom(i: nat, m: nat, d: nat, p: nat)
    requires m > 0 && d > 0 && p == m * d && (i + 1) % d == 0 && (i / d + 1) % m == 0
    ensures (i + 1) % p == 0
  {
    MulPos(m, d);
    DivMod(i + 1, d);
    var s := (i + 1) / d;
    assert i + 1 == s * d;
    PositiveFactor(s, d);
    RowStart(s - 1, d);
    DivModUnique(i, d, s - 1, d - 1);
    DivMod(s, m);
    var u := s / m;
    assert s == u * m;
    Assoc(u, m, d);
    DivModUnique(i + 1, p, u, 0);
  }

  /** `i + 1` is a multiple of `m * d` exactly when it is a multiple of `d` and `i / d + 1` a multiple of `m`. */
  lemma ModProduct(i: nat, m: nat, d: nat, p: nat)
    requires m > 0 && d > 0 && p == m * d
    ensures p > 0 && ((i + 1) % p == 0 <==> (i + 1) % d == 0 && (i / d + 1) % m == 0)
  {
    MulPos(m, d);
    if (i + 1) % p == 0 {
      ModProductTo(i, m, d, p);
    }
    if (i + 1) % d == 0 && (i / d + 1) % m == 0 {
      ModProductFrom(i, m, d, p);
    }
  }

  lemma SuffixSnoc(init: seq<nat>, d: nat, k: nat)
    requires 1 <= k <= |init| + 1
    ensures (init + [d])[|init| + 1 - k..] == init[|init| - (k - 1)..] + [d]
  {}

  /** Dropping the innermost dimension divides the period of the group by that dimension's size. */
  lemma PeriodStep(shape: seq<nat>, k: nat)
    requires 1 <= k <= |shape|
    ensures Period(shape, k) == Period(shape[..|shape| - 1], k - 1) * shape[|shape| - 1]
  {
    var init, d := shape[..|shape| - 1], shape[|shape| - 1];
    var inner := init[|init| - (k - 1)..];
    assert shape[|shape| - k..] == inner + [d] by {
      assert shape == init + [d];
      SuffixSnoc(init, d, k);
    }
    calc {
      Period(shape, k);
      Product(inner + [d]);
      { ProductSnoc(inner, d); }
      Product(inner) * d;
      Period(init, k - 1) * d;
    }
  }

  /** The innermost `k` positions are at their end when the last one is, and the `k - 1` before it are too. */
  lemma TrailingStep(shape: seq<nat>, i: nat, k: nat)
    requires Positive(shape) && 1 <= k <= |shape|
    ensures var init, d := shape[..|shape| - 1], shape[|shape| - 1];
      Positive(init)
      && (k <= TrailingAtEnd(shape, MultiIndex(shape, i))
          <==> i % d + 1 == d && k - 1 <= TrailingAtEnd(init, MultiIndex(init, i / d)))
  {
    var init, d := shape[..|shape| - 1], shape[|shape| - 1];
    assert Positive(init);
    var idx := MultiIndex(shape, i);
    assert idx[..|idx| - 1] == MultiIndex(init, i / d);
  }

  /** `i` is the last entry of its row of `d` exactly when `i + 1` is a multiple of `d`. */
  lemma LastOfRow(i: nat, d: nat)
    requires d > 0
    ensures (i + 1) % d == 0 <==> i % d + 1 == d
  {
    var q, r := i / d, i % d;
    DivMod(i, d);
    if r + 1 == d {
      RowStart(q, d);
      assert i + 1 == (q + 1) * d + 0;
      DivModUnique(i + 1, d, q + 1, 0);
    } else {
      assert i + 1 == q * d + (r + 1);
      DivModUnique(i + 1, d, q, r + 1);
    }
  }

  /**
   * The innermost `k` dimensions all end at entry `i` exactly when `i + 1` is a multiple of their
   * period: the loop's divisibility test agrees with the trailing-positions-at-end rule of the loaders.
   */
  lemma {:induction false} ClosedIff(shape: seq<nat>, i: nat, k: nat)
    requires Positive(shape) && 1 <= k <= |shape|
    ensures (i + 1) % Period(shape, k) == 0 <==> k <= TrailingAtEnd(shape, MultiIndex(shape, i))
    decreases |shape|
  {
    var init, d := shape[..|shape| - 1], shape[|shape| - 1];
    assert Positive(init) && d > 0;
    var q := i / d;
    var m := Period(init, k - 1);
    var closed := (i + 1) % Period(shape, k) == 0;
    var rowEnds := (i + 1) % d == 0;
    var outerCloses := (q + 1) % m == 0;
    var outerAtEnd := k - 1 <= TrailingAtEnd(init, MultiIndex(init, q));
    assert closed <==> rowEnds && outerCloses by {
      PeriodStep(shape, k);
      ModProduct(i, m, d, Period(shape, k));
    }
    assert rowEnds <==> i % d + 1 == d by {
      LastOfRow(i, d);
    }
    assert outerCloses <==> outerAtEnd by {
      if k > 1 {
        ClosedIff(init, q, k - 1);
      } else {
        assert init[|init|..] == [];
      }
    }
    TrailingStep(shape, i, k);
  }

  /** The stop level of entry `i` is the number of trailing dimensions whose index is at its end. */
  lemma StopLevelIsTrailing(i: nat, shape: seq<nat>)
    requires Positive(shape)
    ensures LargestClosed(i, shape, |shape|) == TrailingAtEnd(shape, MultiIndex(shape, i))
  {
    var t := TrailingAtEnd(shape, MultiIndex(shape, i));
    var l := LargestClosed(i, shape, |shape|);
    if l > 0 {
      ClosedIff(shape, i, l);
    }
    if t > 0 {
      ClosedIff(shape, i, t);
    }
  }

  /** Inside the tensor, the stop level is the canonical level of the entry's position. */
  lemma StopLevelIsCanonical(i: nat, shape: seq<nat>)
    requires Positive(shape) && i < Product(shape)
    ensures LargestClosed(i, shape, |shape|) == ShapeLevels(shape)[i]
  {
    StopLevelIsTrailing(i, shape);
    LevelAt(shape, i);
  }

  /** The outer dimensions of a file's shape; a one-dimensional file holds a single vector. */
  function ElemShape(shape: seq<nat>): (e: seq<nat>)
    requires |shape| > 0
    ensures |e| > 0 && (|shape| > 1 ==> e + [shape[|shape| - 1]] == shape)
    ensures Product(e) * shape[|shape| - 1] == Product(shape)
  {
    if |shape| > 1 then
      ProductSnoc(shape[..|shape| - 1], shape[|shape| - 1]);
      assert shape[..|shape| - 1] + [shape[|shape| - 1]] == shape;
      shape[..|shape| - 1]
    else
      assert shape == [] + [shape[0]];
      ProductSnoc([], shape[0]);
      [1]
  }

  /** Consecutive pieces of `len` entries; the last piece may be shorter. */
  function Chunks<T>(data: seq<T>, len: nat): (r: seq<seq<T>>)
    requires len > 0
    ensures forall c :: 0 <= c < |r| ==> 0 < |r[c]| <= len
    decreases |data|
  {
    if data == [] then []
    else if |data| <= len then [data]
    else [data[..len]] + Chunks(data[len..], len)
  }

  /** The chunks of a whole number of pieces are the pieces, in order. */
  lemma {:induction false} ChunksExact<T>(data: seq<T>, len: nat, n: nat)
    requires len > 0 && |data| == n * len
    ensures |Chunks(data, len)| == n
    ensures forall c :: 0 <= c < n ==> c * len + len <= |data| && Chunks(data, len)[c] == data[c * len..c * len + len]
    decreases n
  {
    if n == 1 {
      assert Chunks(data, len) == [data];
    } else if n > 1 {
      RowStart(n - 1, len);
      var rest := data[len..];
      assert Chunks(data, len) == [data[..len]] + Chunks(rest, len);
      ChunksExact(rest, len, n - 1);
      forall c | 0 <= c < n
        ensures c * len + len <= |data| && Chunks(data, len)[c] == data[c * len..c * len + len]
      {
        if c > 0 {
          ChunkShift(data, len, c);
        }
      }
    }
  }

  /** Piece `c - 1` after the first piece is piece `c` of the whole. */
  lemma ChunkShift<T>(data: seq<T>, len: nat, c: nat)
    requires len > 0 && c > 0 && c * len + len <= |data|
    ensures (c - 1) * len + len <= |data[len..]|
    ensures data[len..][(c - 1) * len..(c - 1) * len + len] == data[c * len..c * len + len]
  {
    RowStart(c - 1, len);
  }

  /** Nonzero entries are selected. */
  function Flags(data: seq<int>): (f: seq<bool>)
    ensures |f| == |data| && forall k :: 0 <= k < |data| ==> (f[k] <==> data[k] != 0)
  {
    seq(|data|, k requires 0 <= k < |data| => data[k] != 0)
  }

  /** Vector `i` is sent with the stop level `get_stop_level` computes for position `i` of the outer shape. */
  function Tag(vectors: seq<seq<bool>>, e: seq<nat>): (r: seq<Elem<MultiHot>>)
    requires |vectors| == Product(e)
    ensures |r| == |vectors|
    ensures forall i :: 0 <= i < |r| ==> r[i].v == MultiHot(vectors[i], false)
    ensures StopLevels(r) == ShapeLevels(e)
  {
    var r := seq(|vectors|, i requires 0 <= i < |vectors| =>
      WithLevel(MultiHot(vectors[i], false), StopLevelOf(i, e)));
    assert forall i :: 0 <= i < |r| ==> Level(r[i]) == ShapeLevels(e)[i];
    r
  }

  /**
   * The element stream of a multi-hot tensor of `shape` read from the flat entries `data`. A shape
   * without dimensions, or an empty last dimension, is refused.
   */
  function ReadMultiHot(shape: seq<nat>, data: seq<int>): (r: Result<seq<Elem<MultiHot>>>)
    requires |data| == Product(shape)
    ensures r.Ok? <==> |shape| > 0 && shape[|shape| - 1] > 0
    ensures r.Ok? ==>
              var e, len := ElemShape(shape), shape[|shape| - 1];
              |r.value| == Product(e)
              && (forall i :: 0 <= i < |r.value| ==>
                    i * len + len <= |data| && r.value[i].v == MultiHot(Flags(data)[i * len..i * len + len], false))
              && StopLevels(r.value) == ShapeLevels(e)
  {
    if shape == [] then Err("Expected at least 1D tensor")
    else if shape[|shape| - 1] == 0 then Err("chunk size must be non-zero")
    else
      var len := shape[|shape| - 1];
      var e := ElemShape(shape);
      ChunksExact(Flags(data), len, Product(e));
      Ok(Tag(Chunks(Flags(data), len), e))
  }

  /** The stop level of vector `i`, for the shapes that contain vectors. */
  function StopLevelOf(i: nat, e: seq<nat>): (l: nat)
    requires i < Product(e)
    ensures Positive(e) && l == ShapeLevels(e)[i]
  {
    ProductPositiveInverse(e);
    StopLevelIsCanonical(i, e);
    LargestClosed(i, e, |e|)
  }

}
