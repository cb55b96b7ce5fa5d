/**
 * `Reshape`: splits one dimension of a stream into chunks. With `split_dim = 0` the innermost
 * dimension is cut into chunks of `chunk_size` entries, padding an incomplete last chunk; with
 * `split_dim > 0` every `chunk_size`-th closing of dimension `split_dim` is raised by one level.
 */
module Reshape {
  import opened Wrappers
  import opened Calc
  import opened Elems
  import opened Shapes

  datatype Config<T> = Config(splitDim: nat, chunkSize: nat, padVal: Option<T>, inputStreamRank: nat, addOuterDim: bool)

  const PadMissing := "When splitting the innermost dimension, the pad_val must be provided."
  const RankNotZero := "input stream rank should be 0 to enter here"
  const Underflow := "attempt to subtract with overflow"

  /** `n` padding entries; the last one closes `level` dimensions. */
  function Pad<T>(pad: T, n: nat, level: nat): (r: seq<Elem<T>>)
    requires n >= 1
    ensures |r| == n && Values(r) == seq(n, _ => pad)
    ensures StopLevels(r) == seq(n - 1, _ => 0) + [level]
  {
    seq(n - 1, _ => Val(pad)) + [ValStop(pad, level)]
  }

  /** What the innermost split sends when the input closes with `counter` entries in an open chunk. */
  function EndOfStream<T>(counter: nat, cfg: Config<T>): Result<seq<Elem<T>>>
  {
    if 0 < counter < cfg.chunkSize then
      if cfg.padVal.None? then Err(PadMissing)
      else if cfg.inputStreamRank != 0 then Err(RankNotZero)
      else Ok(Pad(cfg.padVal.value, cfg.chunkSize - counter, if cfg.addOuterDim then 2 else 1))
    else Ok([])
  }

  /**
   * The innermost split (`split_dim = 0`) of the rest `s` of the input, with `counter` entries already in
   * the current chunk. A chunk that fills up closes with level 1 (2 when an outer dimension is added and
   * the input ends right there), or one level above the input's stop; a stop that ends a chunk early is
   * sent as a value and followed by padding up to the chunk size.
   */
  function Chunked<T>(s: seq<Elem<T>>, counter: nat, cfg: Config<T>): Result<seq<Elem<T>>>
    decreases |s|
  {
    if s == [] then EndOfStream(counter, cfg)
    else
      var c := counter + 1;
      match s[0]
      case Val(x) =>
        if c == cfg.chunkSize then
          Then([ValStop(x, if cfg.addOuterDim && |s| == 1 then 2 else 1)], Chunked(s[1..], 0, cfg))
        else Then([Val(x)], Chunked(s[1..], c, cfg))
      case ValStop(x, st) =>
        if c == cfg.chunkSize then Then([ValStop(x, st + 1)], Chunked(s[1..], 0, cfg))
        else if cfg.padVal.None? then Err(PadMissing)
        else if c > cfg.chunkSize then Err(Underflow)
        else Then([Val(x)] + Pad(cfg.padVal.value, cfg.chunkSize - c, st + 1), Chunked(s[1..], 0, cfg))
  }

  /** The level an outer split gives each stop, and the count of closings of `split_dim` it carries on. */
  function SplitStop(st: nat, counter: nat, splitDim: nat, chunkSize: nat): (r: (nat, nat))
  {
    var c := if st >= splitDim then counter + 1 else counter;
    if c == chunkSize then (st + 1, 0) else (st, c)
  }

  /** The outer split (`split_dim > 0`): values pass, and every `chunk_size`-th closing of `split_dim` goes one level up. */
  function Split<T>(s: seq<Elem<T>>, counter: nat, cfg: Config<T>): (r: seq<Elem<T>>)
    ensures |r| == |s|
    decreases |s|
  {
    if s == [] then []
    else match s[0]
      case Val(x) => [Val(x)] + Split(s[1..], counter, cfg)
      case ValStop(x, st) =>
        var step := SplitStop(st, counter, cfg.splitDim, cfg.chunkSize);
        [ValStop(x, step.0)] + Split(s[1..], step.1, cfg)
  }

  /** The whole output of `Reshape::run`. */
  function ReshapeStream<T>(s: seq<Elem<T>>, cfg: Config<T>): Result<seq<Elem<T>>>
  {
    if cfg.splitDim == 0 then Chunked(s, 0, cfg) else Ok(Split(s, 0, cfg))
  }

  // ---------------------------------------------------------------------------------------------
  // The operator

  method PadRun<T>(pad: T, n: nat, level: nat) returns (r: seq<Elem<T>>)
    requires n >= 1
    ensures r == Pad(pad, n, level)
  {
    r := [];
    var i := 0;
    while i < n
      invariant 0 <= i <= n
      invariant r == seq(i, k requires 0 <= k < i => if k == n - 1 then ValStop(pad, level) else Val(pad))
    {
      var padded := if i == n - 1 then ValStop(pad, level) else Val(pad);
      r := r + [padded];
      i := i + 1;
    }
  }

  method RunInnermost<T>(input: seq<Elem<T>>, cfg: Config<T>) returns (r: Result<seq<Elem<T>>>)
    ensures r == Chunked(input, 0, cfg)
  {
    var output: seq<Elem<T>> := [];
    var counter: nat := 0;
    var i := 0;
    assert input[0..] == input;
    assert Then([], Chunked(input, 0, cfg)) == Chunked(input, 0, cfg) by {
      if Chunked(input, 0, cfg).Ok? {
        assert [] + Chunked(input, 0, cfg).value == Chunked(input, 0, cfg).value;
      }
    }
    while i < |input|
      invariant 0 <= i <= |input|
      invariant Chunked(input, 0, cfg) == Then(output, Chunked(input[i..], counter, cfg))
    {
      ThenOutputAt(output, input, i, counter, cfg);
      match input[i] {
        case Val(x) =>
          counter := counter + 1;
          var out;
          if counter == cfg.chunkSize {
            counter := 0;
            if cfg.addOuterDim {
              var stopLevel := if i + 1 < |input| then 1 else 2;
              out := ValStop(x, stopLevel);
            } else {
              out := ValStop(x, 1);
            }
          } else {
            out := Val(x);
          }
          output := output + [out];
        case ValStop(x, s) =>
          counter := counter + 1;
          if counter == cfg.chunkSize {
            counter := 0;
            output := output + [ValStop(x, s + 1)];
          } else {
            var front := output + [Val(x)];
            if cfg.padVal.None? {
              return Err(PadMissing);
            }
            if counter > cfg.chunkSize {
              return Err(Underflow);
            }
            var pads := PadRun(cfg.padVal.value, cfg.chunkSize - counter, s + 1);
            AppendAssoc(output, [Val(x)], pads);
            output := front + pads;
            counter := 0;
          }
      }
      i := i + 1;
    }
    assert input[i..] == [];
    if 0 < counter && counter < cfg.chunkSize {
      if cfg.padVal.None? {
        return Err(PadMissing);
      }
      if cfg.inputStreamRank != 0 {
        return Err(RankNotZero);
      }
      var pads := PadRun(cfg.padVal.value, cfg.chunkSize - counter, if cfg.addOuterDim then 2 else 1);
      output := output + pads;
    } else {
      assert output + [] == output;
    }
    r := Ok(output);
  }

  /** One step of the innermost split, spelled out for the loop above. */
  /** `ThenOutput` at position `i` of the whole input. */
  lemma ThenOutputAt<T>(output: seq<Elem<T>>, input: seq<Elem<T>>, i: nat, counter: nat, cfg: Config<T>)
    requires i < |input|
    ensures var c, x := counter + 1, input[i].v;
      Then(output, Chunked(input[i..], counter, cfg)) ==
        if input[i].Val? then
          if c == cfg.chunkSize then
            Then(output + [ValStop(x, if cfg.addOuterDim && i + 1 == |input| then 2 else 1)], Chunked(input[i + 1..], 0, cfg))
          else Then(output + [Val(x)], Chunked(input[i + 1..], c, cfg))
        else if c == cfg.chunkSize then Then(output + [ValStop(x, input[i].level + 1)], Chunked(input[i + 1..], 0, cfg))
        else if cfg.padVal.None? then Err(PadMissing)
        else if c > cfg.chunkSize then Err(Underflow)
        else Then(output + ([Val(x)] + Pad(cfg.padVal.value, cfg.chunkSize - c, input[i].level + 1)), Chunked(input[i + 1..], 0, cfg))
  {
    var rest := input[i..];
    assert rest[0] == input[i] && rest[1..] == input[i + 1..] && (|rest| == 1 <==> i + 1 == |input|);
    ThenOutput(output, rest, counter, cfg);
  }

  lemma AppendAssoc<T>(a: seq<T>, b: seq<T>, c: seq<T>)
    ensures (a + b) + c == a + (b + c)
  {
  }

  lemma ThenOutput<T>(output: seq<Elem<T>>, s: seq<Elem<T>>, counter: nat, cfg: Config<T>)
    requires s != []
    ensures var c, x := counter + 1, s[0].v;
      Then(output, Chunked(s, counter, cfg)) ==
        if s[0].Val? then
          if c == cfg.chunkSize then
            Then(output + [ValStop(x, if cfg.addOuterDim && |s| == 1 then 2 else 1)], Chunked(s[1..], 0, cfg))
          else Then(output + [Val(x)], Chunked(s[1..], c, cfg))
        else if c == cfg.chunkSize then Then(output + [ValStop(x, s[0].level + 1)], Chunked(s[1..], 0, cfg))
        else if cfg.padVal.None? then Err(PadMissing)
        else if c > cfg.chunkSize then Err(Underflow)
        else Then(output + ([Val(x)] + Pad(cfg.padVal.value, cfg.chunkSize - c, s[0].level + 1)), Chunked(s[1..], 0, cfg))
  {
    var c, x := counter + 1, s[0].v;
    if s[0].Val? {
      if c == cfg.chunkSize {
        ThenThen(output, [ValStop(x, if cfg.addOuterDim && |s| == 1 then 2 else 1)], Chunked(s[1..], 0, cfg));
      } else {
        ThenThen(output, [Val(x)], Chunked(s[1..], c, cfg));
      }
    } else if c == cfg.chunkSize {
      ThenThen(output, [ValStop(x, s[0].level + 1)], Chunked(s[1..], 0, cfg));
    } else if cfg.padVal.Some? && c <= cfg.chunkSize {
      ThenThen(output, [Val(x)] + Pad(cfg.padVal.value, cfg.chunkSize - c, s[0].level + 1), Chunked(s[1..], 0, cfg));
    }
  }

  method RunOuter<T>(input: seq<Elem<T>>, cfg: Config<T>) returns (output: seq<Elem<T>>)
    ensures output == Split(input, 0, cfg)
  {
    output := [];
    var counter: nat := 0;
    var i := 0;
    assert input[0..] == input;
    while i < |input|
      invariant 0 <= i <= |input|
      invariant Split(input, 0, cfg) == output + Split(input[i..], counter, cfg)
    {
      var rest := input[i..];
      assert rest[0] == input[i] && rest[1..] == input[i + 1..];
      SplitStep(output, rest, counter, cfg);
      match input[i] {
        case Val(x) =>
          output := output + [Val(x)];
        case ValStop(x, s) =>
          if s >= cfg.splitDim {
            counter := counter + 1;
          }
          if counter == cfg.chunkSize {
            counter := 0;
            output := output + [ValStop(x, s + 1)];
          } else {
            output := output + [ValStop(x, s)];
          }
      }
      i := i + 1;
    }
  }

  lemma SplitStep<T>(output: seq<Elem<T>>, s: seq<Elem<T>>, counter: nat, cfg: Config<T>)
    requires s != []
    ensures output + Split(s, counter, cfg) ==
      if s[0].Val? then (output + [s[0]]) + Split(s[1..], counter, cfg)
      else
        var step := SplitStop(s[0].level, counter, cfg.splitDim, cfg.chunkSize);
        (output + [ValStop(s[0].v, step.0)]) + Split(s[1..], step.1, cfg)
  {}

  /** `Reshape::run`. */
  method Run<T>(input: seq<Elem<T>>, cfg: Config<T>) returns (r: Result<seq<Elem<T>>>)
    ensures r == ReshapeStream(input, cfg)
  {
    if cfg.splitDim == 0 {
      r := RunInnermost(input, cfg);
    } else {
      var output := RunOuter(input, cfg);
      r := Ok(output);
    }
  }

  // ---------------------------------------------------------------------------------------------
  // Cutting a stream of plain values into vectors

  predicate AllVals<T>(s: seq<Elem<T>>) { forall i :: 0 <= i < |s| ==> s[i].Val? }


  /** Values that do not fill the open chunk pass unchanged and only advance the counter. */
  lemma {:induction false} PartialVals<T>(vals: seq<Elem<T>>, rest: seq<Elem<T>>, j: nat, cfg: Config<T>)
    requires AllVals(vals) && j + |vals| < cfg.chunkSize
    ensures Chunked(vals + rest, j, cfg) == Then(vals, Chunked(rest, j + |vals|, cfg))
    decreases |vals|
  {
    if vals == [] {
      assert vals + rest == rest;
      ThenNil(Chunked(rest, j, cfg));
    } else {
      var s := vals + rest;
      assert s[0] == vals[0] && s[1..] == vals[1..] + rest;
      PartialVals(vals[1..], rest, j + 1, cfg);
      ThenThen([vals[0]], vals[1..], Chunked(rest, j + |vals|, cfg));
      assert [vals[0]] + vals[1..] == vals;
    }
  }

  /** A chunk of values from an empty counter: its last value closes the vector (level 2 at the very end with an outer dimension). */
  lemma FullChunk<T>(vals: seq<Elem<T>>, rest: seq<Elem<T>>, cfg: Config<T>)
    requires AllVals(vals) && |vals| == cfg.chunkSize >= 1
    ensures Chunked(vals + rest, 0, cfg)
         == Then(vals[..|vals| - 1] + [ValStop(vals[|vals| - 1].v, if cfg.addOuterDim && rest == [] then 2 else 1)], Chunked(rest, 0, cfg))
  {
    var c := |vals|;
    var init, last := vals[..c - 1], vals[c - 1];
    assert vals + rest == init + ([last] + rest);
    PartialVals(init, [last] + rest, 0, cfg);
    var tail := [last] + rest;
    assert tail[0] == last && tail[1..] == rest;
    var closing := ValStop(last.v, if cfg.addOuterDim && rest == [] then 2 else 1);
    assert Chunked(tail, c - 1, cfg) == Then([closing], Chunked(rest, 0, cfg));
    ThenThen(init, [closing], Chunked(rest, 0, cfg));
  }

  /** Values that leave a chunk open at the end of the input are padded up to the chunk size. */
  lemma TailChunk<T>(vals: seq<Elem<T>>, cfg: Config<T>)
    requires AllVals(vals) && 0 < |vals| < cfg.chunkSize && cfg.padVal.Some? && cfg.inputStreamRank == 0
    ensures Chunked(vals, 0, cfg) == Ok(vals + Pad(cfg.padVal.value, cfg.chunkSize - |vals|, if cfg.addOuterDim then 2 else 1))
  {
    var none: seq<Elem<T>> := [];
    var pad := Pad(cfg.padVal.value, cfg.chunkSize - |vals|, if cfg.addOuterDim then 2 else 1);
    assert Chunked(none, |vals|, cfg) == Ok(pad);
    PartialVals(vals, none, 0, cfg);
    assert vals + none == vals;
  }

  /** The levels of `k` vectors, closed as one more dimension when `add` is set. */
  function VectorLevels(k: nat, add: bool): (r: seq<nat>)
    ensures |r| == k
  {
    if add then Row(0, k) else Zeros(k)
  }

  /**
   * `out` holds `k` vectors cut from `vals`: `k * chunk_size` entries whose values begin with
   * `vals` and continue with padding, closed as `VectorLevels(k, add)` expanded by the chunk size.
   */
  ghost predicate Vectors<T>(vals: seq<Elem<T>>, k: nat, cfg: Config<T>, out: Result<seq<Elem<T>>>)
  {
    out.Ok?
    && |out.value| == k * cfg.chunkSize
    && StopLevels(out.value) == ExpandRows(VectorLevels(k, cfg.addOuterDim), cfg.chunkSize)
    && |vals| <= |out.value|
    && Values(out.value)[..|vals|] == Values(vals)
    && (forall i :: |vals| <= i < |out.value| ==> cfg.padVal == Some(out.value[i].v))
  }

  lemma ModStep(n: nat, c: nat)
    requires c > 0 && n > c
    ensures (n - c) % c == n % c && DivCeil(n - c, c) + 1 == DivCeil(n, c)
  {
    DivMod(n - c, c);
    var q, r := (n - c) / c, (n - c) % c;
    RowStart(q, c);
    DivModUnique(n, c, q + 1, r);
  }

  lemma DivCeilSmall(n: nat, c: nat)
    requires 0 < n <= c
    ensures DivCeil(n, c) == 1
  {
    DivCeilUnique(n, c, 1);
  }

  /**
   * A stream of `n` plain values (a rank-0 input) becomes `ceil(n / chunk_size)` vectors of
   * `chunk_size` entries: the values in order, then padding. Without an outer dimension each vector
   * closes at level 1; with one, the last closes at level 2.
   */
  lemma {:induction false} VectorChunks<T>(vals: seq<Elem<T>>, cfg: Config<T>)
    requires AllVals(vals) && cfg.chunkSize >= 1
    requires |vals| % cfg.chunkSize != 0 ==> cfg.padVal.Some? && cfg.inputStreamRank == 0
    ensures Vectors(vals, DivCeil(|vals|, cfg.chunkSize), cfg, Chunked(vals, 0, cfg))
    decreases |vals|
  {
    var c, n := cfg.chunkSize, |vals|;
    if n == 0 {
      assert Chunked(vals, 0, cfg) == Ok([]);
      assert DivCeil(0, c) == 0;
      assert ExpandRows(VectorLevels(0, cfg.addOuterDim), c) == [];
    } else if n <= c {
      DivCeilSmall(n, c);
      VectorChunk(vals, cfg);
    } else {
      var first, rest := vals[..c], vals[c..];
      assert vals == first + rest;
      assert |rest| % c == n % c && DivCeil(|rest|, c) + 1 == DivCeil(n, c) by {
        ModStep(n, c);
      }
      FullChunk(first, rest, cfg);
      VectorChunks(rest, cfg);
      VectorsStep(first, rest, DivCeil(|rest|, c), cfg, Chunked(rest, 0, cfg));
    }
  }

  /** The input fits in one chunk. */
  lemma VectorChunk<T>(vals: seq<Elem<T>>, cfg: Config<T>)
    requires AllVals(vals) && 0 < |vals| <= cfg.chunkSize
    requires |vals| % cfg.chunkSize != 0 ==> cfg.padVal.Some? && cfg.inputStreamRank == 0
    ensures Vectors(vals, 1, cfg, Chunked(vals, 0, cfg))
  {
    var top := if cfg.addOuterDim then 2 else 1;
    assert VectorLevels(1, cfg.addOuterDim) == [top - 1];
    assert ExpandRows([top - 1], cfg.chunkSize) == Row(top - 1, cfg.chunkSize) + ExpandRows([], cfg.chunkSize);
    if |vals| == cfg.chunkSize {
      LoneFullChunk(vals, cfg, top);
    } else {
      assert |vals| % cfg.chunkSize == |vals| by { DivModUnique(|vals|, cfg.chunkSize, 0, |vals|); }
      LoneTailChunk(vals, cfg, top);
    }
  }

  lemma LoneFullChunk<T>(vals: seq<Elem<T>>, cfg: Config<T>, top: nat)
    requires AllVals(vals) && 0 < |vals| == cfg.chunkSize
    requires top == if cfg.addOuterDim then 2 else 1
    ensures var out := Chunked(vals, 0, cfg);
      out.Ok? && out.value == vals[..|vals| - 1] + [ValStop(vals[|vals| - 1].v, top)]
      && StopLevels(out.value) == Row(top - 1, cfg.chunkSize)
      && Values(out.value) == Values(vals)
  {
    var none: seq<Elem<T>> := [];
    FullChunk(vals, none, cfg);
    assert vals + none == vals;
    assert Chunked(none, 0, cfg) == Ok([]);
    var head := vals[..|vals| - 1] + [ValStop(vals[|vals| - 1].v, top)];
    assert head + [] == head;
    StreamAppend(vals[..|vals| - 1], [ValStop(vals[|vals| - 1].v, top)]);
    assert StopLevels(vals[..|vals| - 1]) == Zeros(|vals| - 1);
    StreamAppend(vals[..|vals| - 1], [vals[|vals| - 1]]);
    assert vals[..|vals| - 1] + [vals[|vals| - 1]] == vals;
  }

  lemma LoneTailChunk<T>(vals: seq<Elem<T>>, cfg: Config<T>, top: nat)
    requires AllVals(vals) && 0 < |vals| < cfg.chunkSize && cfg.padVal.Some? && cfg.inputStreamRank == 0
    requires top == if cfg.addOuterDim then 2 else 1
    ensures var out := Chunked(vals, 0, cfg);
      out.Ok? && |out.value| == cfg.chunkSize
      && StopLevels(out.value) == Row(top - 1, cfg.chunkSize)
      && Values(out.value)[..|vals|] == Values(vals)
      && (forall i :: |vals| <= i < |out.value| ==> cfg.padVal == Some(out.value[i].v))
  {
    TailChunk(vals, cfg);
    var pad := Pad(cfg.padVal.value, cfg.chunkSize - |vals|, top);
    StreamAppend(vals, pad);
    assert StopLevels(vals) == Zeros(|vals|);
    assert Zeros(|vals|) + StopLevels(pad) == Row(top - 1, cfg.chunkSize);
  }

  /** Closing the last entry of a stream keeps its values. */
  lemma CloseLast<T>(s: seq<Elem<T>>, level: nat)
    requires |s| > 0
    ensures Values(s[..|s| - 1] + [ValStop(s[|s| - 1].v, level)]) == Values(s)
  {
    var init := s[..|s| - 1];
    StreamAppend(init, [ValStop(s[|s| - 1].v, level)]);
    StreamAppend(init, [s[|s| - 1]]);
    assert init + [s[|s| - 1]] == s;
  }

  lemma StepLevels<T>(first: seq<Elem<T>>, tail: seq<Elem<T>>, k: nat, add: bool, c: nat)
    requires AllVals(first) && |first| == c >= 1 && k >= 1
    requires StopLevels(tail) == ExpandRows(VectorLevels(k, add), c)
    ensures StopLevels(first[..c - 1] + [ValStop(first[c - 1].v, 1)] + tail)
         == ExpandRows(VectorLevels(k + 1, add), c)
  {
    var head := first[..c - 1] + [ValStop(first[c - 1].v, 1)];
    StreamAppend(head, tail);
    StreamAppend(first[..c - 1], [ValStop(first[c - 1].v, 1)]);
    assert StopLevels(first[..c - 1]) == Zeros(c - 1);
    assert StopLevels(head) == Row(0, c);
    assert VectorLevels(k + 1, add) == [0] + VectorLevels(k, add);
    ExpandRowsAppend([0], VectorLevels(k, add), c);
    assert ExpandRows([0], c) == Row(0, c) + ExpandRows([], c);
  }

  lemma StepValues<T>(first: seq<Elem<T>>, rest: seq<Elem<T>>, tail: seq<Elem<T>>)
    requires |first| >= 1 && |rest| <= |tail| && Values(tail)[..|rest|] == Values(rest)
    ensures var out := first[..|first| - 1] + [ValStop(first[|first| - 1].v, 1)] + tail;
      |first + rest| <= |out| && Values(out)[..|first + rest|] == Values(first + rest)
  {
    var head := first[..|first| - 1] + [ValStop(first[|first| - 1].v, 1)];
    StreamAppend(head, tail);
    CloseLast(first, 1);
    StreamAppend(first, rest);
  }

  lemma PaddingShifts<T>(head: seq<Elem<T>>, tail: seq<Elem<T>>, m: nat, pad: Option<T>)
    requires forall i :: m <= i < |tail| ==> pad == Some(tail[i].v)
    ensures forall i :: |head| + m <= i < |head + tail| ==> pad == Some((head + tail)[i].v)
  {
    forall i | |head| + m <= i < |head + tail|
      ensures pad == Some((head + tail)[i].v)
    {
      assert (head + tail)[i] == tail[i - |head|];
    }
  }

  /** One full chunk in front of the remaining vectors. */
  lemma VectorsStep<T>(first: seq<Elem<T>>, rest: seq<Elem<T>>, k: nat, cfg: Config<T>, tail: Result<seq<Elem<T>>>)
    requires AllVals(first) && |first| == cfg.chunkSize >= 1 && k >= 1
    requires Vectors(rest, k, cfg, tail)
    ensures Vectors(first + rest, k + 1, cfg, Then(first[..|first| - 1] + [ValStop(first[|first| - 1].v, 1)], tail))
  {
    var c := cfg.chunkSize;
    var head := first[..c - 1] + [ValStop(first[c - 1].v, 1)];
    var out := head + tail.value;
    assert |out| == (k + 1) * c by {
      RowStart(k, c);
    }
    StepLevels(first, tail.value, k, cfg.addOuterDim, c);
    StepValues(first, rest, tail.value);
    PaddingShifts(head, tail.value, |rest|, cfg.padVal);
  }

  /** The unit-test case: nine values cut by four give twelve entries, closing at 4, 8 and 12, the last three padding. */
  lemma NineByFour<T>(vals: seq<Elem<T>>, pad: T)
    requires AllVals(vals) && |vals| == 9
    ensures var out := Chunked(vals, 0, Config(0, 4, Some(pad), 0, false));
      out.Ok? && |out.value| == 12
      && StopLevels(out.value) == [0, 0, 0, 1, 0, 0, 0, 1, 0, 0, 0, 1]
      && Values(out.value) == Values(vals) + [pad, pad, pad]
  {
    var cfg := Config(0, 4, Some(pad), 0, false);
    VectorChunks(vals, cfg);
    DivCeilUnique(9, 4, 3);
    var out := Chunked(vals, 0, cfg).value;
    assert Zeros(3) == [0, 0, 0];
    assert ExpandRows([0, 0, 0], 4) == Row(0, 4) + ExpandRows([0, 0], 4);
    assert ExpandRows([0, 0], 4) == Row(0, 4) + ExpandRows([0], 4);
    assert ExpandRows([0], 4) == Row(0, 4) + ExpandRows([], 4);
    assert Row(0, 4) == [0, 0, 0, 1];
    assert Values(out) == Values(out)[..9] + Values(out)[9..];
  }

  // ---------------------------------------------------------------------------------------------
  // Cutting the innermost dimension of a tensor stream

  /** A row opening with a zero is a zero in front of a shorter row. */
  lemma RowCons(l: nat, k: nat)
    requires k >= 2
    ensures Row(l, k) == [0] + Row(l, k - 1)
  {
    assert Row(l, k) == Zeros(k - 1) + [l + 1];
    assert Row(l, k - 1) == Zeros(k - 2) + [l + 1];
    assert Zeros(k - 1) == [0] + Zeros(k - 2);
  }

  /** The closing value of a row completes its chunk. */
  lemma ClosingCompletes<T>(init: seq<Elem<T>>, x: T, l: nat, rest: seq<Elem<T>>, cfg: Config<T>)
    requires AllVals(init) && |init| + 1 == cfg.chunkSize
    ensures Chunked(init + [ValStop(x, l + 1)] + rest, 0, cfg) == Then(init + [ValStop(x, l + 2)], Chunked(rest, 0, cfg))
    ensures StopLevels(init + [ValStop(x, l + 2)]) == Row(l + 1, cfg.chunkSize)
  {
    var tail := [ValStop(x, l + 1)] + rest;
    assert init + [ValStop(x, l + 1)] + rest == init + tail;
    assert tail[0] == ValStop(x, l + 1) && tail[1..] == rest;
    PartialVals(init, tail, 0, cfg);
    assert Chunked(tail, |init|, cfg) == Then([ValStop(x, l + 2)], Chunked(rest, 0, cfg));
    ThenThen(init, [ValStop(x, l + 2)], Chunked(rest, 0, cfg));
    StreamAppend(init, [ValStop(x, l + 2)]);
    assert StopLevels(init) == Zeros(|init|);
  }

  /** One step of the innermost split: a stop that leaves its chunk open is sent plain and followed by padding. */
  lemma StopPadded<T>(x: T, st: nat, rest: seq<Elem<T>>, counter: nat, cfg: Config<T>)
    requires counter + 1 < cfg.chunkSize && cfg.padVal.Some?
    ensures Chunked([ValStop(x, st)] + rest, counter, cfg)
         == Then([Val(x)] + Pad(cfg.padVal.value, cfg.chunkSize - counter - 1, st + 1), Chunked(rest, 0, cfg))
  {
    var s := [ValStop(x, st)] + rest;
    assert s[0] == ValStop(x, st) && s[1..] == rest;
  }

  /** The closing value of a row ends a partial chunk: it is sent plain and padding closes the chunk. */
  lemma ClosingPadded<T>(init: seq<Elem<T>>, x: T, l: nat, rest: seq<Elem<T>>, cfg: Config<T>)
    requires AllVals(init) && |init| + 1 < cfg.chunkSize && cfg.padVal.Some?
    ensures var closing := [Val(x)] + Pad(cfg.padVal.value, cfg.chunkSize - |init| - 1, l + 2);
      Chunked(init + [ValStop(x, l + 1)] + rest, 0, cfg) == Then(init + closing, Chunked(rest, 0, cfg))
      && StopLevels(init + closing) == Row(l + 1, cfg.chunkSize)
  {
    var pad := Pad(cfg.padVal.value, cfg.chunkSize - |init| - 1, l + 2);
    var closing := [Val(x)] + pad;
    var tail := [ValStop(x, l + 1)] + rest;
    assert init + [ValStop(x, l + 1)] + rest == init + tail;
    PartialVals(init, tail, 0, cfg);
    StopPadded(x, l + 1, rest, |init|, cfg);
    ThenThen(init, closing, Chunked(rest, 0, cfg));
    PaddedLevels(init, x, pad, l + 1, cfg.chunkSize);
  }

  lemma PaddedLevels<T>(init: seq<Elem<T>>, x: T, pad: seq<Elem<T>>, l: nat, c: nat)
    requires AllVals(init) && |init| + 1 + |pad| == c && |pad| >= 1
    requires StopLevels(pad) == seq(|pad| - 1, _ => 0) + [l + 1]
    ensures StopLevels(init + ([Val(x)] + pad)) == Row(l, c)
  {
    StreamAppend(init, [Val(x)] + pad);
    StreamAppend([Val(x)], pad);
    assert StopLevels([Val(x)]) == [0];
    assert StopLevels(init) == Zeros(|init|);
    PaddedRow(|init|, StopLevels(pad), l, c);
  }

  lemma PaddedRow(a: nat, padLevels: seq<nat>, l: nat, c: nat)
    requires a + 1 + |padLevels| == c && |padLevels| >= 1
    requires padLevels == seq(|padLevels| - 1, _ => 0) + [l + 1]
    ensures Zeros(a) + ([0] + padLevels) == Row(l, c)
  {
    var lhs := Zeros(a) + ([0] + padLevels);
    forall i | 0 <= i < c ensures lhs[i] == Row(l, c)[i] {
      if i < a {
      } else if i == a {
      } else {
        assert lhs[i] == padLevels[i - a - 1];
      }
    }
  }

  /** A row in a canonical stream: plain values closed by a stop one level above its outer level. */
  predicate IsRow<T>(row: seq<Elem<T>>, l: nat)
  {
    |row| >= 1 && AllVals(row[..|row| - 1]) && row[|row| - 1].ValStop? && row[|row| - 1].level == l + 1
  }

  /** A row longer than `c` starts with `c` plain values and goes on as a row. */
  lemma RowSplit<T>(row: seq<Elem<T>>, l: nat, c: nat)
    requires IsRow(row, l) && 1 <= c < |row|
    ensures AllVals(row[..c]) && IsRow(row[c..], l)
  {
    var n := |row|;
    forall i | 0 <= i < c ensures row[..c][i].Val? { assert row[..c][i] == row[..n - 1][i]; }
    assert row[c..][..n - c - 1] == row[..n - 1][c..];
  }

  /** A row that fits in one chunk. */
  lemma ShortRowOutput<T>(row: seq<Elem<T>>, l: nat, rest: seq<Elem<T>>, cfg: Config<T>) returns (o: seq<Elem<T>>)
    requires IsRow(row, l) && |row| <= cfg.chunkSize
    requires |row| % cfg.chunkSize != 0 ==> cfg.padVal.Some?
    ensures Chunked(row + rest, 0, cfg) == Then(o, Chunked(rest, 0, cfg))
    ensures StopLevels(o) == ExpandRows(Row(l, DivCeil(|row|, cfg.chunkSize)), cfg.chunkSize)
  {
    var c, n := cfg.chunkSize, |row|;
    var init, x := row[..n - 1], row[n - 1].v;
    assert row == init + [ValStop(x, l + 1)];
    if n < c {
      assert n % c == n by { DivModUnique(n, c, 0, n); }
      ClosingPadded(init, x, l, rest, cfg);
      o := init + ([Val(x)] + Pad(cfg.padVal.value, c - n, l + 2));
    } else {
      ClosingCompletes(init, x, l, rest, cfg);
      o := init + [ValStop(x, l + 2)];
    }
    DivCeilSmall(n, c);
    assert Row(l, 1) == [l + 1];
    assert ExpandRows([l + 1], c) == Row(l + 1, c) + ExpandRows([], c);
  }

  /** A full chunk of plain values in front of a row's output is one more row of `chunk_size` entries closing at level 1. */
  lemma RowStepLevels<T>(first: seq<Elem<T>>, o': seq<Elem<T>>, l: nat, k: nat, c: nat)
    requires AllVals(first) && |first| == c >= 1 && k >= 2
    requires StopLevels(o') == ExpandRows(Row(l, k - 1), c)
    ensures StopLevels(first[..c - 1] + [ValStop(first[c - 1].v, 1)] + o') == ExpandRows(Row(l, k), c)
  {
    var head := first[..c - 1] + [ValStop(first[c - 1].v, 1)];
    assert StopLevels(head) == Row(0, c) by {
      StreamAppend(first[..c - 1], [ValStop(first[c - 1].v, 1)]);
      assert StopLevels(first[..c - 1]) == Zeros(c - 1);
    }
    assert ExpandRows(Row(l, k), c) == Row(0, c) + ExpandRows(Row(l, k - 1), c) by {
      var r := Row(l, k);
      RowCons(l, k);
      assert r[0] == 0 && r[1..] == Row(l, k - 1);
    }
    StreamAppend(head, o');
  }

  /**
   * A row of `n` entries becomes `ceil(n / chunk_size)` rows of `chunk_size` entries; the last
   * carries the row's closing level one higher.
   */
  lemma {:induction false} RowOutput<T>(row: seq<Elem<T>>, l: nat, rest: seq<Elem<T>>, cfg: Config<T>) returns (o: seq<Elem<T>>)
    requires IsRow(row, l) && cfg.chunkSize >= 1
    requires |row| % cfg.chunkSize != 0 ==> cfg.padVal.Some?
    ensures Chunked(row + rest, 0, cfg) == Then(o, Chunked(rest, 0, cfg))
    ensures StopLevels(o) == ExpandRows(Row(l, DivCeil(|row|, cfg.chunkSize)), cfg.chunkSize)
    decreases |row|
  {
    var c, n := cfg.chunkSize, |row|;
    if n <= c {
      o := ShortRowOutput(row, l, rest, cfg);
    } else {
      var first, more := row[..c], row[c..];
      assert row + rest == first + (more + rest);
      RowSplit(row, l, c);
      var k := DivCeil(n, c);
      assert (n - c) % c == n % c && DivCeil(n - c, c) + 1 == k by { ModStep(n, c); }
      var head := first[..c - 1] + [ValStop(first[c - 1].v, 1)];
      FullChunk(first, more + rest, cfg);
      var o' := RowOutput(more, l, rest, cfg);
      ThenThen(head, o', Chunked(rest, 0, cfg));
      o := head + o';
      RowStepLevels(first, o', l, k, c);
    }
  }

  /**
   * Cutting the innermost dimension: a canonical stream of rows of `n` entries (levels
   * `ExpandRows(outer, n)`) becomes rows of `ceil(n / chunk_size)` vectors of `chunk_size` entries.
   */
  lemma {:induction false} RowsChunks<T>(s: seq<Elem<T>>, outer: seq<nat>, n: nat, cfg: Config<T>)
    requires Canonical(s) && StopLevels(s) == ExpandRows(outer, n)
    requires n >= 1 && cfg.chunkSize >= 1
    requires n % cfg.chunkSize != 0 ==> cfg.padVal.Some?
    ensures Chunked(s, 0, cfg).Ok?
    ensures StopLevels(Chunked(s, 0, cfg).value)
         == ExpandRows(ExpandRows(outer, DivCeil(n, cfg.chunkSize)), cfg.chunkSize)
    decreases |outer|
  {
    var c, k := cfg.chunkSize, DivCeil(n, cfg.chunkSize);
    if outer == [] {
      assert s == [];
      assert Chunked(s, 0, cfg) == Ok([]);
    } else {
      var row, rest := s[..n], s[n..];
      assert s == row + rest;
      assert StopLevels(s) == Row(outer[0], n) + ExpandRows(outer[1..], n);
      assert IsRow(row, outer[0]) by {
        forall i | 0 <= i < n - 1 ensures row[i].Val? {
          assert StopLevels(s)[i] == 0;
        }
        assert StopLevels(s)[n - 1] == outer[0] + 1;
      }
      assert Canonical(rest) && StopLevels(rest) == ExpandRows(outer[1..], n) by {
        assert StopLevels(rest) == StopLevels(s)[n..];
      }
      var o := RowOutput(row, outer[0], rest, cfg);
      RowsChunks(rest, outer[1..], n, cfg);
      assert StopLevels(Chunked(s, 0, cfg).value) == ExpandRows(ExpandRows(outer, k), c) by {
        StreamAppend(o, Chunked(rest, 0, cfg).value);
        assert ExpandRows(outer, k) == Row(outer[0], k) + ExpandRows(outer[1..], k);
        ExpandRowsAppend(Row(outer[0], k), ExpandRows(outer[1..], k), c);
      }
    }
  }

  /** On a tensor: splitting the innermost dimension `n` by `chunk_size` turns shape `outer + [n]` into `outer + [ceil(n / chunk_size), chunk_size]`. */
  lemma ReshapeTensor<T>(s: seq<Elem<T>>, outer: seq<nat>, n: nat, cfg: Config<T>)
    requires Canonical(s) && StopLevels(s) == ShapeLevels(outer + [n])
    requires n >= 1 && cfg.chunkSize >= 1 && cfg.splitDim == 0
    requires n % cfg.chunkSize != 0 ==> cfg.padVal.Some?
    ensures ReshapeStream(s, cfg).Ok?
    ensures StopLevels(ReshapeStream(s, cfg).value)
         == ShapeLevels(outer + [DivCeil(n, cfg.chunkSize), cfg.chunkSize])
  {
    ShapeLevelsSnoc(outer, n);
    RowsChunks(s, ShapeLevels(outer), n, cfg);
    ShapeLevelsPair(outer, DivCeil(n, cfg.chunkSize), cfg.chunkSize);
  }

  lemma ShapeLevelsPair(outer: seq<nat>, k: nat, c: nat)
    ensures ShapeLevels(outer + [k, c]) == ExpandRows(ExpandRows(ShapeLevels(outer), k), c)
  {
    var ok := outer + [k];
    assert ok + [c] == outer + [k, c];
    ShapeLevelsSnoc(ok, c);
    ShapeLevelsSnoc(outer, k);
  }

  // ---------------------------------------------------------------------------------------------
  // Splitting an outer dimension of a tensor stream

  /** The outer split on stop levels alone (a plain value is level 0). */
  function SplitLevels(levels: seq<nat>, counter: nat, k: nat, c: nat): (r: seq<nat>)
    ensures |r| == |levels|
  {
    if levels == [] then []
    else
      var step := SplitStop(levels[0], counter, k, c);
      [step.0] + SplitLevels(levels[1..], step.1, k, c)
  }

  /** The count of closings of `split_dim` carried on after `levels`. */
  function SplitCount(levels: seq<nat>, counter: nat, k: nat, c: nat): nat
  {
    if levels == [] then counter else SplitCount(levels[1..], SplitStop(levels[0], counter, k, c).1, k, c)
  }

  /** The outer split sends the first element with the level `SplitStop` gives it. */
  lemma SplitHead<T>(s: seq<Elem<T>>, counter: nat, cfg: Config<T>)
    requires s != [] && cfg.splitDim >= 1 && counter < cfg.chunkSize
    ensures var step := SplitStop(Level(s[0]), counter, cfg.splitDim, cfg.chunkSize);
      var h := if s[0].ValStop? then ValStop(s[0].v, step.0) else Val(s[0].v);
      step.1 < cfg.chunkSize && Level(h) == step.0 && Split(s, counter, cfg) == [h] + Split(s[1..], step.1, cfg)
  {}

  /** The outer split keeps every value and changes levels only as `SplitLevels` says. */
  lemma {:induction false} SplitLevelsOf<T>(s: seq<Elem<T>>, counter: nat, cfg: Config<T>)
    requires cfg.splitDim >= 1 && counter < cfg.chunkSize
    ensures Values(Split(s, counter, cfg)) == Values(s)
    ensures StopLevels(Split(s, counter, cfg)) == SplitLevels(StopLevels(s), counter, cfg.splitDim, cfg.chunkSize)
    decreases |s|
  {
    if s != [] {
      var step := SplitStop(Level(s[0]), counter, cfg.splitDim, cfg.chunkSize);
      SplitHead(s, counter, cfg);
      SplitLevelsOf(s[1..], step.1, cfg);
      assert s == [s[0]] + s[1..];
      StreamAppend([s[0]], s[1..]);
      var h := if s[0].ValStop? then ValStop(s[0].v, step.0) else Val(s[0].v);
      StreamAppend([h], Split(s[1..], step.1, cfg));
    }
  }

  /** The split of a concatenation: the second part starts with the count the first part leaves. */
  lemma {:induction false} SplitAppend(a: seq<nat>, b: seq<nat>, counter: nat, k: nat, c: nat)
    ensures SplitLevels(a + b, counter, k, c) == SplitLevels(a, counter, k, c) + SplitLevels(b, SplitCount(a, counter, k, c), k, c)
    ensures SplitCount(a + b, counter, k, c) == SplitCount(b, SplitCount(a, counter, k, c), k, c)
    decreases |a|
  {
    if a == [] {
      assert a + b == b;
    } else {
      assert (a + b)[0] == a[0] && (a + b)[1..] == a[1..] + b;
      SplitAppend(a[1..], b, SplitStop(a[0], counter, k, c).1, k, c);
    }
  }

  /** Plain values below `split_dim` pass unchanged and leave the count alone. */
  lemma {:induction false} SplitZerosAbove(n: nat, counter: nat, k: nat, c: nat)
    requires k >= 1 && counter < c
    ensures SplitLevels(Zeros(n), counter, k, c) == Zeros(n) && SplitCount(Zeros(n), counter, k, c) == counter
    decreases n
  {
    if n > 0 {
      assert Zeros(n)[1..] == Zeros(n - 1);
      SplitZerosAbove(n - 1, counter, k, c);
    }
  }

  /** Splitting the innermost dimension (`k = 0`), plain values count towards the chunk. */
  lemma {:induction false} SplitZerosInnermost(n: nat, counter: nat, c: nat)
    requires counter + n < c
    ensures SplitLevels(Zeros(n), counter, 0, c) == Zeros(n) && SplitCount(Zeros(n), counter, 0, c) == counter + n
    decreases n
  {
    if n > 0 {
      assert Zeros(n)[1..] == Zeros(n - 1);
      SplitZerosInnermost(n - 1, counter + 1, c);
    }
  }

  /** A chunk of `c` entries, split every `c` entries, closes with its own extra level. */
  lemma SplitChunk(l: nat, c: nat)
    requires c >= 1
    ensures SplitLevels(Zeros(c - 1) + [l], 0, 0, c) == Zeros(c - 1) + [l + 1]
    ensures SplitCount(Zeros(c - 1) + [l], 0, 0, c) == 0
  {
    SplitAppend(Zeros(c - 1), [l], 0, 0, c);
    SplitZerosInnermost(c - 1, 0, c);
  }

  /** A row of `c + n` entries is `c` plain values and a row of `n`. */
  lemma RowChunks(o: nat, c: nat, n: nat)
    requires c >= 1 && n >= 1
    ensures Row(o, c + n) == (Zeros(c - 1) + [0]) + Row(o, n)
  {
    ZerosAppend(c, n - 1);
    ZerosAppend(c - 1, 1);
  }

  lemma ExpandCons(x: nat, rest: seq<nat>, c: nat)
    ensures ExpandRows([x] + rest, c) == Row(x, c) + ExpandRows(rest, c)
  {
    assert ([x] + rest)[1..] == rest;
  }

  /** A row of `q * c` entries, split every `c` entries, is `q` rows of `c` entries. */
  lemma {:induction false} SplitRow(o: nat, q: nat, c: nat)
    requires c >= 1
    ensures SplitLevels(Row(o, q * c), 0, 0, c) == ExpandRows(Row(o, q), c)
    ensures SplitCount(Row(o, q * c), 0, 0, c) == 0
    decreases q
  {
    if q == 1 {
      SplitChunk(o + 1, c);
      assert ExpandRows(Row(o, 1), c) == Row(o + 1, c) + ExpandRows([], c);
    } else if q >= 2 {
      var n := (q - 1) * c;
      assert q * c == c + n && n >= 1 by { MulPred(q, c); MulPos(q - 1, c); }
      var z, rest := Zeros(c - 1) + [0], Row(o, n);
      RowChunks(o, c, n);
      SplitAppend(z, rest, 0, 0, c);
      SplitChunk(0, c);
      SplitRow(o, q - 1, c);
      RowCons(o, q);
      ExpandCons(0, Row(o, q - 1), c);
    }
  }

  /** Splitting the innermost dimension of rows of `q * c` entries gives rows of `q` rows of `c` entries. */
  lemma {:induction false} SplitRows(outer: seq<nat>, q: nat, c: nat)
    requires c >= 1
    ensures SplitLevels(ExpandRows(outer, q * c), 0, 0, c) == ExpandRows(ExpandRows(outer, q), c)
    ensures SplitCount(ExpandRows(outer, q * c), 0, 0, c) == 0
    decreases |outer|
  {
    if outer != [] {
      var row, rest := Row(outer[0], q * c), ExpandRows(outer[1..], q * c);
      assert ExpandRows(outer, q * c) == row + rest;
      SplitAppend(row, rest, 0, 0, c);
      SplitRow(outer[0], q, c);
      SplitRows(outer[1..], q, c);
      ExpandRowsAppend(Row(outer[0], q), ExpandRows(outer[1..], q), c);
    }
  }

  /** Splitting dimension `k + 1` of rows is splitting dimension `k` of the sequence the rows expand. */
  lemma {:induction false} SplitExpand(levels: seq<nat>, counter: nat, k: nat, c: nat, d: nat)
    requires counter < c && d >= 1
    ensures SplitLevels(ExpandRows(levels, d), counter, k + 1, c) == ExpandRows(SplitLevels(levels, counter, k, c), d)
    ensures SplitCount(ExpandRows(levels, d), counter, k + 1, c) == SplitCount(levels, counter, k, c)
    decreases |levels|
  {
    if levels != [] {
      var l := levels[0];
      var step := SplitStop(l, counter, k, c);
      var z, rest := Zeros(d - 1), ExpandRows(levels[1..], d);
      assert ExpandRows(levels, d) == z + [l + 1] + rest;
      SplitAppend(z + [l + 1], rest, counter, k + 1, c);
      SplitAppend(z, [l + 1], counter, k + 1, c);
      SplitZerosAbove(d - 1, counter, k + 1, c);
      assert SplitStop(l + 1, counter, k + 1, c) == (step.0 + 1, step.1);
      assert step.1 < c;
      SplitExpand(levels[1..], step.1, k, c, d);
      var split := SplitLevels(levels, counter, k, c);
      assert split[0] == step.0 && split[1..] == SplitLevels(levels[1..], step.1, k, c);
      assert ExpandRows(split, d) == Row(step.0, d) + ExpandRows(split[1..], d);
    }
  }

  /**
   * On levels: splitting dimension `|inner|` of shape `outer + [q * c] + inner` every `c` closings
   * gives the levels of shape `outer + [q, c] + inner`, and the count ends at zero.
   */
  lemma {:induction false} SplitShape(outer: seq<nat>, q: nat, c: nat, inner: seq<nat>)
    requires c >= 1
    ensures SplitLevels(ShapeLevels(outer + [q * c] + inner), 0, |inner|, c) == ShapeLevels(outer + [q, c] + inner)
    ensures SplitCount(ShapeLevels(outer + [q * c] + inner), 0, |inner|, c) == 0
    decreases |inner|
  {
    if inner == [] {
      assert outer + [q * c] + inner == outer + [q * c] && outer + [q, c] + inner == outer + [q, c];
      ShapeLevelsSnoc(outer, q * c);
      ShapeLevelsPair(outer, q, c);
      SplitRows(ShapeLevels(outer), q, c);
    } else {
      var init, d := inner[..|inner| - 1], inner[|inner| - 1];
      assert outer + [q * c] + inner == (outer + [q * c] + init) + [d];
      assert outer + [q, c] + inner == (outer + [q, c] + init) + [d];
      ShapeLevelsSnoc(outer + [q * c] + init, d);
      ShapeLevelsSnoc(outer + [q, c] + init, d);
      SplitShape(outer, q, c, init);
      if d >= 1 {
        SplitExpand(ShapeLevels(outer + [q * c] + init), 0, |init|, c, d);
      }
    }
  }

  /**
   * On a tensor: splitting dimension `split_dim` (counted from the innermost) of size `q * chunk_size`
   * turns shape `outer + [q * chunk_size] + inner` into `outer + [q, chunk_size] + inner`, values unchanged.
   */
  lemma SplitTensor<T>(s: seq<Elem<T>>, outer: seq<nat>, q: nat, inner: seq<nat>, cfg: Config<T>)
    requires cfg.splitDim == |inner| >= 1 && cfg.chunkSize >= 1
    requires StopLevels(s) == ShapeLevels(outer + [q * cfg.chunkSize] + inner)
    ensures ReshapeStream(s, cfg).Ok? && Values(ReshapeStream(s, cfg).value) == Values(s)
    ensures StopLevels(ReshapeStream(s, cfg).value) == ShapeLevels(outer + [q, cfg.chunkSize] + inner)
  {
    SplitLevelsOf(s, 0, cfg);
    SplitShape(outer, q, cfg.chunkSize, inner);
  }
}
