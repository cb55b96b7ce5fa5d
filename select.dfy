/**
 * Selectors: which output streams an element goes to, either as a multi-hot vector of flags or as a
 * list of optional stream indices, and their conversions to and from a list of selected indices.
 */
module Select {
  import opened Wrappers

  datatype MultiHot = MultiHot(underlying: seq<bool>, readFromMu: bool)

  datatype IndexN = IndexN(underlying: seq<Option<nat>>, readFromMu: bool)

  /** Bytes of one `bool` and of one `usize` on the 64-bit targets the simulator runs on. */
  const BoolBytes: nat := 1
  const UsizeBytes: nat := 8

  predicate StrictlyIncreasing(v: seq<nat>)
  {
    forall i, j :: 0 <= i < j < |v| ==> v[i] < v[j]
  }

  // ---------------------------------------------------------------------------------------------
  // Multi-hot vectors

  /** The positions of the set flags among the first `k`, in ascending order. */
  function TrueIndices(u: seq<bool>, k: nat): (v: seq<nat>)
    requires k <= |u|
    ensures StrictlyIncreasing(v)
    ensures forall j: nat :: j in v <==> j < k && u[j]
  {
    if k == 0 then []
    else
      var prev := TrueIndices(u, k - 1);
      assert forall i :: 0 <= i < |prev| ==> prev[i] < k - 1 by {
        forall i | 0 <= i < |prev| ensures prev[i] < k - 1 {
          assert prev[i] in prev;
        }
      }
      if u[k - 1] then prev + [k - 1] else prev
  }

  /** `MultiHotN::to_sel_vec`: a scan that appends the index of every set flag. */
  method MultiHotToSelVec(m: MultiHot) returns (res: seq<nat>)
    ensures res == TrueIndices(m.underlying, |m.underlying|)
    ensures StrictlyIncreasing(res) && forall j: nat :: j in res <==> j < |m.underlying| && m.underlying[j]
  {
    res := [];
    var idx := 0;
    while idx < |m.underlying|
      invariant idx <= |m.underlying|
      invariant res == TrueIndices(m.underlying, idx)
    {
      if m.underlying[idx] {
        res := res + [idx];
      }
      idx := idx + 1;
    }
  }

  /** The flags a list of indices sets in a vector of `size` flags. */
  function HotFlags(v: seq<nat>, size: nat): (u: seq<bool>)
    ensures |u| == size && forall j :: 0 <= j < size ==> (u[j] <==> j in v)
  {
    seq(size, j => j in v)
  }

  /**
   * `MultiHotN::from_sel_vec`: `size` cleared flags, then every listed index set in turn; an index
   * outside the vector stops the conversion with an out-of-bounds failure.
   */
  method MultiHotFromSelVec(v: seq<nat>, size: nat, readFromMu: bool) returns (r: Result<MultiHot>)
    ensures r.Ok? <==> forall i :: 0 <= i < |v| ==> v[i] < size
    ensures r.Ok? ==> r.value == MultiHot(HotFlags(v, size), readFromMu)
  {
    var underlying := seq(size, _ => false);
    var i := 0;
    while i < |v|
      invariant i <= |v| && |underlying| == size
      invariant forall k :: 0 <= k < i ==> v[k] < size
      invariant forall j :: 0 <= j < size ==> (underlying[j] <==> j in v[..i])
    {
      if v[i] >= size {
        return Err("index out of bounds");
      }
      underlying := underlying[v[i] := true];
      assert v[..i + 1] == v[..i] + [v[i]];
      i := i + 1;
    }
    assert v[..i] == v;
    return Ok(MultiHot(underlying, readFromMu));
  }

  /** The head of an ascending list is its least member. */
  lemma HeadIsLeast(a: seq<nat>, x: nat)
    requires StrictlyIncreasing(a) && x in a
    ensures a[0] <= x
  {
    var i :| 0 <= i < |a| && a[i] == x;
  }

  lemma HeadMember(a: seq<nat>)
    ensures a != [] ==> a[0] in a
  {}

  /** Two ascending lists with the same members are the same list. */
  lemma {:induction false} IncreasingUnique(a: seq<nat>, b: seq<nat>)
    requires StrictlyIncreasing(a) && StrictlyIncreasing(b)
    requires forall x :: x in a <==> x in b
    ensures a == b
    decreases |a|
  {
    HeadMember(a);
    HeadMember(b);
    if a != [] && b != [] {
      HeadIsLeast(a, b[0]);
      HeadIsLeast(b, a[0]);
      forall x | x in a[1..]
        ensures x in b[1..]
      {
        var i :| 0 <= i < |a[1..]| && a[1..][i] == x;
        assert a[0] < x;
        assert x in b;
      }
      forall x | x in b[1..]
        ensures x in a[1..]
      {
        var j :| 0 <= j < |b[1..]| && b[1..][j] == x;
        assert b[0] < x;
        assert x in a;
      }
      IncreasingUnique(a[1..], b[1..]);
      assert a == [a[0]] + a[1..] && b == [b[0]] + b[1..];
    }
  }

  /** `to_sel_vec(from_sel_vec(v, size)) == v` for an ascending list of indices below `size`. */
  lemma MultiHotRoundTrip(v: seq<nat>, size: nat)
    requires StrictlyIncreasing(v) && forall i :: 0 <= i < |v| ==> v[i] < size
    ensures TrueIndices(HotFlags(v, size), size) == v
  {
    var u := HotFlags(v, size);
    var back := TrueIndices(u, size);
    forall x
      ensures x in back <==> x in v
    {
      if x in v {
        var i :| 0 <= i < |v| && v[i] == x;
      }
    }
    IncreasingUnique(back, v);
  }

  /** The flags read back from the selected indices are the flags themselves. */
  lemma MultiHotRoundTripFlags(u: seq<bool>)
    ensures HotFlags(TrueIndices(u, |u|), |u|) == u
  {}

  // ---------------------------------------------------------------------------------------------
  // Index lists

  /** The present indices among the first `k` entries, in order. */
  function Present(u: seq<Option<nat>>, k: nat): (v: seq<nat>)
    requires k <= |u|
    ensures |v| <= k
    ensures forall x :: x in v <==> exists j :: 0 <= j < k && u[j] == Some(x)
  {
    if k == 0 then []
    else
      var prev := Present(u, k - 1);
      match u[k - 1]
      case Some(x) => prev + [x]
      case None => prev
  }

  /** `IndexN::to_sel_vec`: the `Some` entries in order, the `None` entries dropped. */
  method IndexToSelVec(m: IndexN) returns (res: seq<nat>)
    ensures res == Present(m.underlying, |m.underlying|)
  {
    res := [];
    var i := 0;
    while i < |m.underlying|
      invariant i <= |m.underlying|
      invariant res == Present(m.underlying, i)
    {
      match m.underlying[i] {
        case Some(x) =>
          res := res + [x];
        case None =>
      }
      i := i + 1;
    }
  }

  /** `IndexN::from_sel_vec`: one `Some` per index, in order, whatever `size` says. */
  method IndexFromSelVec(v: seq<nat>, size: nat, readFromMu: bool) returns (r: IndexN)
    ensures |r.underlying| == |v| && r.readFromMu == readFromMu
    ensures forall i :: 0 <= i < |v| ==> r.underlying[i] == Some(v[i])
  {
    var underlying: seq<Option<nat>> := seq(|v|, _ => None);
    var i := 0;
    while i < |v|
      invariant i <= |v| && |underlying| == |v|
      invariant forall k :: 0 <= k < i ==> underlying[k] == Some(v[k])
    {
      underlying := underlying[i := Some(v[i])];
      i := i + 1;
    }
    r := IndexN(underlying, readFromMu);
  }

  /** Any list of indices comes back from an index list built from it, in order and with repeats. */
  lemma {:induction false} IndexRoundTrip(v: seq<nat>, u: seq<Option<nat>>, k: nat)
    requires k <= |v| == |u| && forall i :: 0 <= i < |v| ==> u[i] == Some(v[i])
    ensures Present(u, k) == v[..k]
  {
    if k > 0 {
      IndexRoundTrip(v, u, k - 1);
      assert v[..k] == v[..k - 1] + [v[k - 1]];
    }
  }

  // ---------------------------------------------------------------------------------------------
  // Sizes and the read flag

  function MultiHotSize(m: MultiHot): nat { BoolBytes * |m.underlying| }

  function IndexSize(m: IndexN): nat { UsizeBytes * |m.underlying| }

  /** A vector built for `size` streams takes `size` bytes; an index list takes 8 bytes per index. */
  lemma SelectorSizes(v: seq<nat>, size: nat, readFromMu: bool)
    ensures MultiHotSize(MultiHot(HotFlags(v, size), readFromMu)) == size
    ensures IndexSize(IndexN(seq(|v|, i requires 0 <= i < |v| => Some(v[i])), readFromMu)) == 8 * |v|
  {}

  function MultiHotWithReadFromMu(m: MultiHot, readFromMu: bool): (r: MultiHot)
    ensures r.underlying == m.underlying && r.readFromMu == readFromMu
  {
    m.(readFromMu := readFromMu)
  }

  function IndexWithReadFromMu(m: IndexN, readFromMu: bool): (r: IndexN)
    ensures r.underlying == m.underlying && r.readFromMu == readFromMu
  {
    m.(readFromMu := readFromMu)
  }
}
