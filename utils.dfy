/**
 * The inputs of the MoE reference: expert selection indices drawn from a target distribution, and
 * route scales that sum to 1 for every token. The random draws are parameters: `draw(p, k, i)` is
 * what `torch.multinomial(p, k, replacement=False)` returns for token `i`, and `rand` is the
 * matrix `torch.rand` returns.
 */
module RouteUtils {
  import opened Wrappers
  import opened Vectors
  import MoE

  const TooManySelected := "Cannot select more unique experts than there are experts"
  const BadDistribution := "invalid multinomial distribution"
  const NoSamples := "cannot sample n_sample <= 0 samples"
  const ZeroRow := "row of zeros: the division yields NaN"

  /** `expert_dist / expert_dist.sum()`. */
  function Normalize(dist: Vec): (p: Vec)
    requires Sum(dist) != 0.0
    ensures |p| == |dist|
  {
    Scale(dist, 1.0 / Sum(dist))
  }

  /** The normalized distribution sums to 1. */
  lemma NormalizeSumsToOne(dist: Vec)
    requires Sum(dist) != 0.0
    ensures Sum(Normalize(dist)) == 1.0
  {
    SumScale(dist, 1.0 / Sum(dist));
  }

  /** How many experts have a positive probability. */
  function Positive(p: Vec): (n: nat)
    ensures n <= |p|
  {
    if p == [] then 0 else Positive(p[..|p| - 1]) + (if p[|p| - 1] > 0.0 then 1 else 0)
  }

  /** What `torch.multinomial` accepts: no negative entry and a positive total. */
  predicate Samplable(p: Vec)
  {
    (forall e :: 0 <= e < |p| ==> p[e] >= 0.0) && Sum(p) > 0.0
  }

  /** Sampling `k` experts without replacement: `k` distinct ids of experts with positive probability. */
  predicate Draw(p: Vec, k: nat, row: seq<nat>)
  {
    |row| == k && MoE.Distinct(row) && forall s :: 0 <= s < k ==> row[s] < |p| && p[row[s]] > 0.0
  }

  /** The contract of `torch.multinomial(p, k, replacement=False)` for every token. */
  ghost predicate Sampler(draw: (Vec, nat, int) -> seq<nat>)
  {
    forall p: Vec, k: nat, i: int :: Samplable(p) && k <= Positive(p) ==> Draw(p, k, draw(p, k, i))
  }

  /**
   * When `create_indices` fails: too many experts asked for, no expert asked for (`torch.multinomial`
   * refuses to draw zero samples), or a distribution `torch.multinomial` rejects.
   */
  function IndicesError(dist: Vec, numSelected: nat): (e: Option<string>)
    ensures numSelected == 0 ==> e.Some?
    ensures e.None? ==> Sum(dist) != 0.0 && Samplable(Normalize(dist)) && 0 < numSelected <= Positive(Normalize(dist))
  {
    if numSelected > |dist| then Some(TooManySelected)
    else if numSelected == 0 then Some(NoSamples)
    else if Sum(dist) == 0.0 then Some(BadDistribution)
    else if !Samplable(Normalize(dist)) || numSelected > Positive(Normalize(dist)) then Some(BadDistribution)
    else None
  }

  /**
   * `create_indices`: fails with `ValueError` when more experts are asked for than exist;
   * otherwise normalizes the distribution and fills row `i` with the draw for token `i`. The
   * normalization itself never fails (a zero total gives NaN entries); only the draw rejects a
   * distribution or a count of zero experts, so with no tokens nothing is drawn and the result is empty.
   */
  method CreateIndices(dist: Vec, numTokens: nat, numSelected: nat, draw: (Vec, nat, int) -> seq<nat>)
    returns (r: Result<seq<seq<nat>>>)
    ensures numSelected > |dist| ==> r == Err(TooManySelected)
    ensures numSelected == 0 && numTokens > 0 ==> r == Err(NoSamples)
    ensures r.Ok? <==> numSelected <= |dist| && (numTokens == 0 || IndicesError(dist, numSelected).None?)
    ensures r.Ok? ==> |r.value| == numTokens
    ensures r.Ok? && numTokens > 0 ==> r.value == seq(numTokens, i => draw(Normalize(dist), numSelected, i))
  {
    if numSelected > |dist| {
      return Err(TooManySelected);
    }
    if numTokens == 0 {
      return Ok([]);
    }
    if numSelected == 0 {
      return Err(NoSamples);
    }
    if Sum(dist) == 0.0 {
      return Err(BadDistribution);
    }
    var p := Normalize(dist);
    if !Samplable(p) || numSelected > Positive(p) {
      return Err(BadDistribution);
    }
    var indices: seq<seq<nat>> := [];
    var i: nat := 0;
    while i < numTokens
      invariant i <= numTokens && indices == seq(i, j => draw(p, numSelected, j))
    {
      var selected := draw(p, numSelected, i);
      indices := indices + [selected];
      i := i + 1;
    }
    return Ok(indices);
  }

  /**
   * With a sampler that keeps its contract, every row of the result has `numSelected` distinct ids,
   * each below the number of experts: what `MoE.LocalForward` needs of its `indices`.
   */
  lemma IndicesShape(dist: Vec, numTokens: nat, numSelected: nat, draw: (Vec, nat, int) -> seq<nat>)
    requires Sampler(draw) && IndicesError(dist, numSelected).None?
    ensures var rows := seq(numTokens, i => draw(Normalize(dist), numSelected, i));
      |rows| == numTokens && MoE.DistinctRows(rows)
      && forall t :: 0 <= t < numTokens ==> |rows[t]| == numSelected && forall s :: 0 <= s < numSelected ==> rows[t][s] < |dist|
  {
    var p := Normalize(dist);
    forall i | 0 <= i < numTokens
      ensures Draw(p, numSelected, draw(p, numSelected, i))
    {}
  }

  /** One row divided by its sum; an empty row stays empty. */
  function RowScale(row: Vec): (r: Vec)
    requires row == [] || Sum(row) != 0.0
    ensures |r| == |row|
  {
    if row == [] then [] else Normalize(row)
  }

  /** A row whose division yields NaN: a non-empty row summing to zero. */
  predicate ZeroSum(row: Vec)
  {
    row != [] && Sum(row) == 0.0
  }

  /**
   * `create_route_scale`: each row of `rand` divided by its sum. A non-empty row of zeros yields
   * NaN entries, modelled as a failure; empty rows (no expert selected) stay empty.
   */
  function RouteScale(rand: Mat): (r: Result<Mat>)
    ensures r.Ok? <==> forall t :: 0 <= t < |rand| ==> !ZeroSum(rand[t])
    ensures r.Ok? ==> |r.value| == |rand| && forall t :: 0 <= t < |rand| ==> |r.value[t]| == |rand[t]|
  {
    if exists t :: 0 <= t < |rand| && ZeroSum(rand[t]) then Err(ZeroRow)
    else Ok(seq(|rand|, t requires 0 <= t < |rand| => RowScale(rand[t])))
  }

  /** Every non-empty row of the route scales sums to 1, and draws in `[0, 1)` give scales in `[0, 1]`. */
  lemma RouteScaleRows(rand: Mat, t: nat)
    requires RouteScale(rand).Ok? && t < |rand|
    requires forall k :: 0 <= k < |rand[t]| ==> 0.0 <= rand[t][k] < 1.0
    ensures rand[t] != [] ==> Sum(RouteScale(rand).value[t]) == 1.0
    ensures forall k :: 0 <= k < |rand[t]| ==> 0.0 <= RouteScale(rand).value[t][k] <= 1.0
  {
    var row := RouteScale(rand).value[t];
    if rand[t] != [] {
      NormalizeSumsToOne(rand[t]);
      forall k | 0 <= k < |rand[t]|
        ensures 0.0 <= row[k] <= 1.0
      {
        SumBounds(rand[t], k);
        DivideBounds(rand[t][k], Sum(rand[t]));
      }
    }
  }

  lemma DivideBounds(a: real, s: real)
    requires 0.0 <= a <= s && s != 0.0
    ensures 0.0 <= a * (1.0 / s) <= 1.0
  {
    assert a * (1.0 / s) == a / s;
  }
}
