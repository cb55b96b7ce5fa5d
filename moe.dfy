/**
 * The MoE reference layer: the routed experts are split into equal contiguous ranges, one per
 * process; each process adds, for every token, the weighted outputs of the experts it owns among
 * the token's selected ones; the partial outputs are summed across processes and the shared
 * experts' output is added. Expert and shared transforms are abstract functions on real vectors.
 */
module MoE {
  import opened Wrappers
  import opened Vectors
  import opened Calc
  import opened Shapes

  /** An initialized process group: its size and this process's rank. */
  datatype Group = Group(size: nat, rank: nat)

  predicate ValidGroup(g: Option<Group>)
  {
    g.Some? ==> 0 < g.value.size && g.value.rank < g.value.size
  }

  /** Without a process group the layer runs as the only process, rank 0. */
  function WorldSize(g: Option<Group>): nat
  {
    if g.Some? then g.value.size else 1
  }

  function Rank(g: Option<Group>): nat
  {
    if g.Some? then g.value.rank else 0
  }

  const NotDivisible := "Number of experts must be divisible by world size"

  /** The experts `start <= i < end` a process owns. */
  datatype Range = Range(start: nat, end: nat)

  /** `MoE.__init__`: equal shares of the routed experts, rank `r` owning the `r`-th share. */
  function LocalExperts(nRouted: nat, g: Option<Group>): (r: Result<Range>)
    requires ValidGroup(g)
    ensures r.Ok? <==> nRouted % WorldSize(g) == 0
    ensures r.Ok? ==> r.value.end - r.value.start == nRouted / WorldSize(g) && r.value.end <= nRouted
  {
    var p := WorldSize(g);
    if nRouted % p != 0 then Err(NotDivisible)
    else
      var n := nRouted / p;
      ShareBound(nRouted, p, Rank(g));
      Ok(Range(Rank(g) * n, Rank(g) * n + n))
  }

  lemma ShareBound(nRouted: nat, p: nat, rank: nat)
    requires 0 < p && rank < p && nRouted % p == 0
    ensures rank * (nRouted / p) + nRouted / p <= nRouted
  {
    var n := nRouted / p;
    DivMod(nRouted, p);
    MulMono(rank + 1, p, n);
    assert (rank + 1) * n == rank * n + n;
    assert p * n == nRouted;
  }

  /** A single process owns every routed expert. */
  lemma SingleProcessOwnsAll(nRouted: nat)
    ensures LocalExperts(nRouted, None) == Ok(Range(0, nRouted))
  {}

  /** The share of rank `r` among `p` processes. */
  function Share(nRouted: nat, p: nat, r: nat): (rg: Range)
    requires 0 < p && r < p && nRouted % p == 0
  {
    ShareBound(nRouted, p, r);
    Range(r * (nRouted / p), r * (nRouted / p) + nRouted / p)
  }

  /** Every routed expert is owned by exactly one rank: the shares tile `[0, nRouted)`. */
  lemma OneOwner(nRouted: nat, p: nat, i: nat) returns (owner: nat)
    requires 0 < p && nRouted % p == 0 && i < nRouted
    ensures owner < p && Share(nRouted, p, owner).start <= i < Share(nRouted, p, owner).end
    ensures forall r :: 0 <= r < p && Share(nRouted, p, r).start <= i < Share(nRouted, p, r).end ==> r == owner
  {
    var n := nRouted / p;
    DivMod(nRouted, p);
    assert nRouted == p * n;
    if n == 0 {
      assert false;
    }
    var q, rem := Split(i, n);
    owner := q;
    DivBound(i, n, p);
    forall r | 0 <= r < p && Share(nRouted, p, r).start <= i < Share(nRouted, p, r).end
      ensures r == owner
    {
      DivModUnique(i, n, r, i - r * n);
    }
  }

  /** `self.experts`: an expert exactly at the owned positions, `None` elsewhere. */
  function ExpertSlots(nRouted: nat, rg: Range): (slots: seq<bool>)
    ensures |slots| == nRouted && forall i :: 0 <= i < nRouted ==> (slots[i] <==> rg.start <= i < rg.end)
  {
    seq(nRouted, i => rg.start <= i < rg.end)
  }

  // ---------------------------------------------------------------------------------------------
  // Dispatch and combine

  /** An expert keeps the model dimension: expert `i` maps a token vector to one of the same width. */
  ghost predicate KeepsWidth(expert: (nat, Vec) -> Vec)
  {
    forall i, v :: |expert(i, v)| == |v|
  }

  /** `x` holds `|x|` tokens of width `d`; each token has as many weights as selected expert ids. */
  predicate Routing(x: Mat, d: nat, weights: Mat, indices: seq<seq<nat>>)
  {
    Rect(x, |x|, d) && |weights| == |x| && |indices| == |x|
    && forall t :: 0 <= t < |x| ==> |weights[t]| == |indices[t]|
  }

  /** No token selects the same expert twice (what the index generator produces). */
  predicate DistinctRows(indices: seq<seq<nat>>)
  {
    forall t, s1, s2 :: 0 <= t < |indices| && 0 <= s1 < s2 < |indices[t]| ==> indices[t][s1] != indices[t][s2]
  }

  /** Expert `i`'s weighted output for one token, summed over the token's first `k` slots that name `i`. */
  function SlotSum(expert: (nat, Vec) -> Vec, i: nat, xt: Vec, ids: seq<nat>, ws: Vec, k: nat): (v: Vec)
    requires KeepsWidth(expert) && |ws| == |ids| && k <= |ids|
    ensures |v| == |xt|
  {
    if k == 0 then Zero(|xt|)
    else
      var prev := SlotSum(expert, i, xt, ids, ws, k - 1);
      if ids[k - 1] == i then Add(prev, Scale(expert(i, xt), ws[k - 1])) else prev
  }

  /** The experts `lo <= i < hi`'s weighted outputs for one token. */
  function ExpertSum(expert: (nat, Vec) -> Vec, xt: Vec, ids: seq<nat>, ws: Vec, lo: nat, hi: nat): (v: Vec)
    requires KeepsWidth(expert) && |ws| == |ids| && lo <= hi
    ensures |v| == |xt|
    decreases hi - lo
  {
    if hi == lo then Zero(|xt|)
    else Add(ExpertSum(expert, xt, ids, ws, lo, hi - 1), SlotSum(expert, hi - 1, xt, ids, ws, |ids|))
  }

  /** The output of the experts `lo <= i < hi` for every token: a process's `y` before the all-reduce. */
  function Partial(expert: (nat, Vec) -> Vec, x: Mat, d: nat, weights: Mat, indices: seq<seq<nat>>, lo: nat, hi: nat): (y: Mat)
    requires KeepsWidth(expert) && Routing(x, d, weights, indices) && lo <= hi
    ensures Rect(y, |x|, d)
  {
    seq(|x|, t requires 0 <= t < |x| => ExpertSum(expert, x[t], indices[t], weights[t], lo, hi))
  }

  /** `torch.bincount`'s entry for `i`: how often `i` is selected over all tokens. */
  function Count(indices: seq<seq<nat>>, i: nat): nat
  {
    if indices == [] then 0 else Count(indices[..|indices| - 1], i) + multiset(indices[|indices| - 1])[i]
  }

  /** An expert's count is zero exactly when no token selected it. */
  lemma {:induction false} CountZero(indices: seq<seq<nat>>, i: nat)
    ensures Count(indices, i) == 0 <==> forall t :: 0 <= t < |indices| ==> i !in indices[t]
    decreases |indices|
  {
    if indices != [] {
      var init := indices[..|indices| - 1];
      CountZero(init, i);
      assert forall t :: 0 <= t < |init| ==> init[t] == indices[t];
    }
  }

  /** A token that does not select `i` gets nothing from it. */
  lemma {:induction false} SlotSumAbsent(expert: (nat, Vec) -> Vec, i: nat, xt: Vec, ids: seq<nat>, ws: Vec, k: nat)
    requires KeepsWidth(expert) && |ws| == |ids| && k <= |ids| && forall s :: 0 <= s < k ==> ids[s] != i
    ensures SlotSum(expert, i, xt, ids, ws, k) == Zero(|xt|)
  {
    if k > 0 {
      SlotSumAbsent(expert, i, xt, ids, ws, k - 1);
    }
  }

  /** A token that selects `i` in exactly one slot `s` gets expert `i`'s output weighted by `ws[s]`. */
  lemma {:induction false} SlotSumOne(expert: (nat, Vec) -> Vec, i: nat, xt: Vec, ids: seq<nat>, ws: Vec, k: nat, s: nat)
    requires KeepsWidth(expert) && |ws| == |ids| && s < k <= |ids| && ids[s] == i
    requires forall s' :: 0 <= s' < |ids| && s' != s ==> ids[s'] != i
    ensures SlotSum(expert, i, xt, ids, ws, k) == Scale(expert(i, xt), ws[s])
  {
    if k - 1 == s {
      SlotSumAbsent(expert, i, xt, ids, ws, k - 1);
      AddZero(Scale(expert(i, xt), ws[s]));
    } else {
      SlotSumOne(expert, i, xt, ids, ws, k - 1, s);
    }
  }

  /** The slot of the first occurrence of `i` in `ids`. */
  method SlotOf(ids: seq<nat>, i: nat) returns (s: nat)
    requires i in ids
    ensures s < |ids| && ids[s] == i && forall s' :: 0 <= s' < s ==> ids[s'] != i
  {
    s := 0;
    while ids[s] != i
      invariant s < |ids| && i in ids[s..] && forall s' :: 0 <= s' < s ==> ids[s'] != i
      decreases |ids| - s
    {
      assert ids[s..] == [ids[s]] + ids[s + 1..];
      s := s + 1;
    }
  }

  /**
   * `MoE.forward`'s loop over the owned experts: an expert nobody selected is skipped; otherwise
   * every token that selected it gets the expert's output on the token, times the token's weight
   * for that slot. The result is this process's `y`.
   */
  method LocalForward(expert: (nat, Vec) -> Vec, x: Mat, d: nat, weights: Mat, indices: seq<seq<nat>>, rg: Range)
    returns (y: Mat)
    requires KeepsWidth(expert) && Routing(x, d, weights, indices) && DistinctRows(indices) && rg.start <= rg.end
    ensures y == Partial(expert, x, d, weights, indices, rg.start, rg.end)
  {
    y := ZeroM(|x|, d);
    var i: nat := rg.start;
    UpToStart(expert, x, d, weights, indices, rg.start, y);
    while i < rg.end
      invariant rg.start <= i <= rg.end
      invariant UpTo(expert, x, weights, indices, rg.start, i, y)
    {
      y := ExpertStep(expert, x, d, weights, indices, rg.start, i, y);
      i := i + 1;
    }
    UpToPartial(expert, x, d, weights, indices, rg.start, rg.end, y);
  }

  /** One turn of the loop: an expert nobody selected is skipped, any other one is applied. */
  method ExpertStep(expert: (nat, Vec) -> Vec, x: Mat, d: nat, weights: Mat, indices: seq<seq<nat>>, lo: nat, i: nat, y0: Mat)
    returns (y: Mat)
    requires KeepsWidth(expert) && Routing(x, d, weights, indices) && DistinctRows(indices) && lo <= i
    requires UpTo(expert, x, weights, indices, lo, i, y0)
    ensures UpTo(expert, x, weights, indices, lo, i + 1, y)
  {
    if Count(indices, i) == 0 {
      SkipExpert(expert, x, d, weights, indices, lo, i, y0);
      return y0;
    }
    y := AddExpert(expert, x, d, weights, indices, lo, i, y0);
  }

  /** The body of the loop for an expert some token selected: `y[idx] += expert(x[idx]) * weights[idx, top]`. */
  method AddExpert(expert: (nat, Vec) -> Vec, x: Mat, d: nat, weights: Mat, indices: seq<seq<nat>>, lo: nat, i: nat, y0: Mat)
    returns (y: Mat)
    requires KeepsWidth(expert) && Routing(x, d, weights, indices) && DistinctRows(indices) && lo <= i
    requires UpTo(expert, x, weights, indices, lo, i, y0)
    ensures UpTo(expert, x, weights, indices, lo, i + 1, y)
  {
    y := y0;
    var t: nat := 0;
    while t < |x|
      invariant t <= |x| && Front(expert, x, d, weights, indices, lo, i, t, y)
    {
      var ids, ws := indices[t], weights[t];
      assert Distinct(ids);
      var row: Vec;
      if i in ids {
        var s := SlotOf(ids, i);
        row := Add(y[t], Scale(expert(i, x[t]), ws[s]));
        TokenHit(expert, i, x[t], ids, ws, lo, y[t], s);
      } else {
        row := y[t];
        TokenMiss(expert, i, x[t], ids, ws, lo, y[t]);
      }
      FrontStep(expert, x, d, weights, indices, lo, i, t, y, row);
      y := y[t := row];
      t := t + 1;
    }
  }

  /** An expert no token selected adds nothing, so skipping it keeps `y`. */
  lemma SkipExpert(expert: (nat, Vec) -> Vec, x: Mat, d: nat, weights: Mat, indices: seq<seq<nat>>, lo: nat, i: nat, y: Mat)
    requires KeepsWidth(expert) && Routing(x, d, weights, indices) && lo <= i && Count(indices, i) == 0
    requires UpTo(expert, x, weights, indices, lo, i, y)
    ensures UpTo(expert, x, weights, indices, lo, i + 1, y)
  {
    CountZero(indices, i);
    forall u | 0 <= u < |x|
      ensures y[u] == ExpertSum(expert, x[u], indices[u], weights[u], lo, i + 1)
    {
      TokenMiss(expert, i, x[u], indices[u], weights[u], lo, y[u]);
    }
  }

  lemma UpToStart(expert: (nat, Vec) -> Vec, x: Mat, d: nat, weights: Mat, indices: seq<seq<nat>>, lo: nat, y: Mat)
    requires KeepsWidth(expert) && Routing(x, d, weights, indices) && y == ZeroM(|x|, d)
    ensures UpTo(expert, x, weights, indices, lo, lo, y)
  {}

  lemma UpToPartial(expert: (nat, Vec) -> Vec, x: Mat, d: nat, weights: Mat, indices: seq<seq<nat>>, lo: nat, hi: nat, y: Mat)
    requires KeepsWidth(expert) && Routing(x, d, weights, indices) && UpTo(expert, x, weights, indices, lo, hi, y)
    ensures y == Partial(expert, x, d, weights, indices, lo, hi)
  {}

  /** `y` holds, for every token, the output of the experts `lo <= i < hi`. */
  ghost predicate UpTo(expert: (nat, Vec) -> Vec, x: Mat, weights: Mat, indices: seq<seq<nat>>, lo: nat, hi: nat, y: Mat)
    requires KeepsWidth(expert) && |weights| == |indices| == |x| && forall t :: 0 <= t < |x| ==> |weights[t]| == |indices[t]|
  {
    lo <= hi && |y| == |x| && forall u :: 0 <= u < |x| ==> y[u] == ExpertSum(expert, x[u], indices[u], weights[u], lo, hi)
  }

  /** Tokens before `t` have expert `i`'s contribution added, the others not yet. */
  ghost predicate Front(expert: (nat, Vec) -> Vec, x: Mat, d: nat, weights: Mat, indices: seq<seq<nat>>, lo: nat, i: nat, t: nat, y: Mat)
    requires KeepsWidth(expert) && Routing(x, d, weights, indices) && lo <= i
  {
    t <= |x| == |y|
    && (forall u :: 0 <= u < t ==> y[u] == ExpertSum(expert, x[u], indices[u], weights[u], lo, i + 1))
    && (forall u :: t <= u < |x| ==> y[u] == ExpertSum(expert, x[u], indices[u], weights[u], lo, i))
  }

  lemma FrontStep(expert: (nat, Vec) -> Vec, x: Mat, d: nat, weights: Mat, indices: seq<seq<nat>>, lo: nat, i: nat, t: nat, y: Mat, row: Vec)
    requires KeepsWidth(expert) && Routing(x, d, weights, indices) && lo <= i && t < |x|
    requires Front(expert, x, d, weights, indices, lo, i, t, y)
    requires row == ExpertSum(expert, x[t], indices[t], weights[t], lo, i + 1)
    ensures Front(expert, x, d, weights, indices, lo, i, t + 1, y[t := row])
  {}

  predicate Distinct(ids: seq<nat>)
  {
    forall s1, s2 :: 0 <= s1 < s2 < |ids| ==> ids[s1] != ids[s2]
  }

  /** A token that selected expert `i` in slot `s` gets `i`'s output weighted by the slot's weight. */
  lemma TokenHit(expert: (nat, Vec) -> Vec, i: nat, xt: Vec, ids: seq<nat>, ws: Vec, lo: nat, row: Vec, s: nat)
    requires KeepsWidth(expert) && |ws| == |ids| && lo <= i && Distinct(ids) && s < |ids| && ids[s] == i
    requires row == ExpertSum(expert, xt, ids, ws, lo, i)
    ensures Add(row, Scale(expert(i, xt), ws[s])) == ExpertSum(expert, xt, ids, ws, lo, i + 1)
  {
    assert forall s' :: 0 <= s' < |ids| && s' != s ==> ids[s'] != i by {
      forall s' | 0 <= s' < |ids| && s' != s
        ensures ids[s'] != i
      {
        if s' < s { assert ids[s'] != ids[s]; } else { assert ids[s] != ids[s']; }
      }
    }
    SlotSumOne(expert, i, xt, ids, ws, |ids|, s);
  }

  /** A token that did not select expert `i` gets nothing from it. */
  lemma TokenMiss(expert: (nat, Vec) -> Vec, i: nat, xt: Vec, ids: seq<nat>, ws: Vec, lo: nat, row: Vec)
    requires KeepsWidth(expert) && |ws| == |ids| && lo <= i && i !in ids
    requires row == ExpertSum(expert, xt, ids, ws, lo, i)
    ensures row == ExpertSum(expert, xt, ids, ws, lo, i + 1)
  {
    SlotSumAbsent(expert, i, xt, ids, ws, |ids|);
    AddZero(row);
  }

  // ---------------------------------------------------------------------------------------------
  // Combining the processes

  /** `dist.all_reduce`: the elementwise sum of every process's matrix. */
  function AllReduce(parts: seq<Mat>, n: nat, d: nat): (s: Mat)
    requires forall r :: 0 <= r < |parts| ==> Rect(parts[r], n, d)
    ensures Rect(s, n, d)
  {
    if parts == [] then ZeroM(n, d)
    else
      var init := parts[..|parts| - 1];
      assert forall r :: 0 <= r < |init| ==> init[r] == parts[r];
      assert Rect(parts[|parts| - 1], n, d);
      AddM(AllReduce(init, n, d), parts[|parts| - 1])
  }

  /** `(y + z).view(shape)`: the all-reduced `y` when there are several processes, plus the shared experts' output. */
  function Combine(worldSize: nat, y: Mat, reduced: Mat, z: Mat): (out: Mat)
    requires |y| == |reduced| == |z| && forall t :: 0 <= t < |y| ==> |y[t]| == |reduced[t]| == |z[t]|
    ensures |out| == |z|
  {
    AddM(if worldSize > 1 then reduced else y, z)
  }

  /** `self.shared_experts(x)`, token by token. */
  function SharedOut(shared: Vec -> Vec, x: Mat): (z: Mat)
    requires forall v :: |shared(v)| == |v|
    ensures |z| == |x| && forall t :: 0 <= t < |x| ==> z[t] == shared(x[t])
  {
    seq(|x|, t requires 0 <= t < |x| => shared(x[t]))
  }

  /** Splitting the expert range in two splits each token's sum. */
  lemma {:induction false} ExpertSumSplit(expert: (nat, Vec) -> Vec, xt: Vec, ids: seq<nat>, ws: Vec, lo: nat, mid: nat, hi: nat)
    requires KeepsWidth(expert) && |ws| == |ids| && lo <= mid <= hi
    ensures ExpertSum(expert, xt, ids, ws, lo, hi)
         == Add(ExpertSum(expert, xt, ids, ws, lo, mid), ExpertSum(expert, xt, ids, ws, mid, hi))
    decreases hi - mid
  {
    if hi == mid {
      AddZero(ExpertSum(expert, xt, ids, ws, lo, mid));
    } else {
      ExpertSumSplit(expert, xt, ids, ws, lo, mid, hi - 1);
      AddAssoc(ExpertSum(expert, xt, ids, ws, lo, mid), ExpertSum(expert, xt, ids, ws, mid, hi - 1),
               SlotSum(expert, hi - 1, xt, ids, ws, |ids|));
    }
  }

  /** The partial outputs of the shares `0 .. q - 1`, as the processes of those ranks compute them. */
  function WorldParts(expert: (nat, Vec) -> Vec, x: Mat, d: nat, weights: Mat, indices: seq<seq<nat>>, n: nat, q: nat): (parts: seq<Mat>)
    requires KeepsWidth(expert) && Routing(x, d, weights, indices)
    ensures |parts| == q && forall r :: 0 <= r < q ==> Rect(parts[r], |x|, d)
  {
    seq(q, r requires 0 <= r < q => Partial(expert, x, d, weights, indices, r * n, r * n + n))
  }

  /** Summing the partial outputs of the first `q` shares of `n` experts gives the output of experts `0 .. q * n - 1`. */
  lemma {:induction false} ReduceShares(expert: (nat, Vec) -> Vec, x: Mat, d: nat, weights: Mat, indices: seq<seq<nat>>, n: nat, q: nat)
    requires KeepsWidth(expert) && Routing(x, d, weights, indices)
    ensures AllReduce(WorldParts(expert, x, d, weights, indices, n, q), |x|, d) == Partial(expert, x, d, weights, indices, 0, q * n)
    decreases q
  {
    var parts := WorldParts(expert, x, d, weights, indices, n, q);
    if q == 0 {
      assert parts == [];
    } else {
      var m := (q - 1) * n;
      ShareEnd(q, n, m);
      assert parts[..q - 1] == WorldParts(expert, x, d, weights, indices, n, q - 1);
      assert parts[q - 1] == Partial(expert, x, d, weights, indices, m, m + n);
      ReduceShares(expert, x, d, weights, indices, n, q - 1);
      PartialSplit(expert, x, d, weights, indices, m, m + n);
    }
  }

  lemma ShareEnd(q: nat, n: nat, m: nat)
    requires 0 < q && m == (q - 1) * n
    ensures m + n == q * n
  {
  }

  /** The output of experts `0 .. hi - 1` is that of experts `0 .. m - 1` plus that of experts `m .. hi - 1`. */
  lemma PartialSplit(expert: (nat, Vec) -> Vec, x: Mat, d: nat, weights: Mat, indices: seq<seq<nat>>, m: nat, hi: nat)
    requires KeepsWidth(expert) && Routing(x, d, weights, indices) && m <= hi
    ensures Partial(expert, x, d, weights, indices, 0, hi)
            == AddM(Partial(expert, x, d, weights, indices, 0, m), Partial(expert, x, d, weights, indices, m, hi))
  {
    forall t | 0 <= t < |x|
      ensures Partial(expert, x, d, weights, indices, 0, hi)[t]
           == Add(Partial(expert, x, d, weights, indices, 0, m)[t], Partial(expert, x, d, weights, indices, m, hi)[t])
    {
      ExpertSumSplit(expert, x[t], indices[t], weights[t], 0, m, hi);
    }
  }

  /**
   * Running the layer on `p` processes, each with its share, gives every process the output of the
   * single-process run: the all-reduced partial outputs are the single-process `y`.
   */
  lemma WorldMatchesSingle(expert: (nat, Vec) -> Vec, shared: Vec -> Vec, x: Mat, d: nat, weights: Mat,
                           indices: seq<seq<nat>>, nRouted: nat, p: nat)
    requires KeepsWidth(expert) && (forall v :: |shared(v)| == |v|) && Routing(x, d, weights, indices)
    requires 0 < p && nRouted % p == 0
    ensures var parts := WorldParts(expert, x, d, weights, indices, nRouted / p, p);
      var single := Partial(expert, x, d, weights, indices, 0, nRouted);
      forall r :: 0 <= r < p ==>
        Combine(p, parts[r], AllReduce(parts, |x|, d), SharedOut(shared, x)) == Combine(1, single, single, SharedOut(shared, x))
  {
    DivMod(nRouted, p);
    assert p * (nRouted / p) == nRouted;
    ReduceShares(expert, x, d, weights, indices, nRouted / p, p);
  }

  /** Each process of a `p`-process run computes exactly its share's partial output. */
  lemma ProcessComputesShare(nRouted: nat, p: nat, r: nat)
    requires 0 < p && r < p && nRouted % p == 0
    ensures LocalExperts(nRouted, Some(Group(p, r))) == Ok(Share(nRouted, p, r))
  {}
}
