/** Element-wise checked integer conversions (`to_usize_vec`, `to_u64_vec`). */
module Cast {
  import opened Wrappers

  /** One past the largest u64; usize is taken to be 64 bits wide. */
  const U64Bound: nat := 0x1_0000_0000_0000_0000

  predicate Fits(x: int, bound: nat) { 0 <= x < bound }

  /** Converts every element, in order; the first element that does not fit makes the whole conversion fail. */
  function CastAll(v: seq<int>, bound: nat): (r: Result<seq<nat>>)
    ensures r.Ok? <==> forall i :: 0 <= i < |v| ==> Fits(v[i], bound)
    ensures r.Ok? ==> |r.value| == |v| && forall i :: 0 <= i < |v| ==> r.value[i] == v[i]
  {
    if v == [] then Ok([])
    else if !Fits(v[0], bound) then Err("Conversion to usize failed")
    else
      var rest := CastAll(v[1..], bound);
      if rest.Err? then rest
      else
        assert forall i :: 1 <= i < |v| ==> v[i] == v[1..][i - 1];
        Ok([v[0] as nat] + rest.value)
  }

  function ToUsizeVec(v: seq<int>): (r: Result<seq<nat>>)
    ensures r.Ok? <==> forall i :: 0 <= i < |v| ==> 0 <= v[i] < U64Bound
    ensures r.Ok? ==> |r.value| == |v| && forall i :: 0 <= i < |v| ==> r.value[i] == v[i]
  {
    CastAll(v, U64Bound)
  }

  function ToU64Vec(v: seq<int>): (r: Result<seq<nat>>)
    ensures r.Ok? <==> forall i :: 0 <= i < |v| ==> 0 <= v[i] < U64Bound
    ensures r.Ok? ==> |r.value| == |v| && forall i :: 0 <= i < |v| ==> r.value[i] == v[i]
  {
    CastAll(v, U64Bound)
  }
}
