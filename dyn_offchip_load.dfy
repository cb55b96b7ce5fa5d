/**
 * `DynOffChipLoad`: the off-chip loader driven by a reference stream. Every element of the reference
 * streams the whole strided view once; a tile that closes every output dimension also closes the
 * dimensions the reference element closes, so the loaded stream nests the view inside the reference.
 */
module DynOffChipLoad {
  import opened Wrappers
  import opened Calc
  import opened Elems
  import opened Tiles
  import opened Shapes
  import opened RoundTrip
  import opened Nesting
  import opened OffChipLoad

  /** The level one tile carries in a pass for a reference element closing `refStop` levels, of `rank` output dimensions. */
  function Adjust(q: Request, refStop: Option<nat>, rank: nat): (e: Elem<Tile>)
    ensures e.v == q.tile && (e.Val? <==> q.stop.None?)
    ensures refStop.None? ==> e == Sent(q)
    ensures refStop.Some? && Level(Sent(q)) != rank ==> e == Sent(q)
    ensures refStop.Some? && q.stop.Some? && q.stop.value == rank ==> Level(e) == rank + refStop.value
  {
    match q.stop
    case None => Val(q.tile)
    case Some(level) =>
      var last := match refStop
        case Some(s) => if level == rank then s + level else level
        case None => level;
      ValStop(q.tile, last)
  }

  /** The stop a reference element passes on: `Some` exactly for a stop element. */
  function RefStop<R>(e: Elem<R>): (s: Option<nat>)
    ensures s.Some? <==> e.ValStop?
    ensures s.Some? ==> s.value == Level(e)
  {
    match e
    case Val(_) => None
    case ValStop(_, l) => Some(l)
  }

  /** The strides the view reads: one per output dimension, extra ones ignored. */
  function Fit(stride: seq<nat>, n: nat): (r: seq<nat>)
    ensures |r| == n
    ensures |stride| >= n ==> r == stride[..n]
  {
    if |stride| >= n then stride[..n] else stride + seq(n - |stride|, _ => 0)
  }

  /** The loader as its address loop sees it. */
  function View(l: Loader): (v: Loader)
    ensures Stored(l) ==> Stored(v)
    ensures |v.stride| == |v.outShape|
  {
    l.(stride := Fit(l.stride, |l.outShape|))
  }

  /** One pass's transfer: each request's address groups, and its tile with its adjusted stop. */
  function PassTransfer(reqs: seq<Request>, refStop: Option<nat>, rank: nat, p: nat): Transfer
    requires p > 0
    decreases |reqs|
  {
    if reqs == [] then Transfer([], [])
    else
      var n := |reqs| - 1;
      var prev := PassTransfer(reqs[..n], refStop, rank, p);
      Transfer(prev.requested + Chunks(reqs[n].addrs, p), prev.out + [Adjust(reqs[n], refStop, rank)])
  }

  /**
   * `stream_tiles`'s outcome: a stride too short for a non-empty view, a failed address generation,
   * a zero dispatch width with something to send, or the pass.
   */
  function PassOf(l: Loader, refStop: Option<nat>): Result<Transfer>
    requires Stored(l)
  {
    if |l.stride| < |l.outShape| && Product(l.outShape) > 0 then Err(NoSuchTile)
    else
      var g := Generated(View(l));
      if g.Err? then Err(g.msg)
      else if l.parDispatch == 0 then (if g.value == [] then Ok(Transfer([], [])) else Err(ZeroChunk))
      else Ok(PassTransfer(g.value, refStop, |l.outShape|, l.parDispatch))
  }

  /** `stream_tiles`: one pass over the view, the final tile's stop raised by the reference's. */
  method StreamTiles(l: Loader, refStop: Option<nat>) returns (r: Result<Transfer>)
    requires Stored(l)
    ensures r == PassOf(l, refStop)
  {
    if |l.stride| < |l.outShape| && Product(l.outShape) > 0 {
      return Err(NoSuchTile);
    }
    var g := GenerateAddr(View(l));
    if g.Err? {
      return Err(g.msg);
    }
    var reqs := g.value;
    if reqs != [] && l.parDispatch == 0 {
      return Err(ZeroChunk);
    }
    if l.parDispatch == 0 {
      return Ok(Transfer([], []));
    }
    var requested: seq<seq<nat>> := [];
    var out: seq<Elem<Tile>> := [];
    var k: nat := 0;
    while k < |reqs|
      invariant k <= |reqs|
      invariant Transfer(requested, out) == PassTransfer(reqs[..k], refStop, |l.outShape|, l.parDispatch)
    {
      assert reqs[..k + 1][..k] == reqs[..k];
      requested := requested + Chunks(reqs[k].addrs, l.parDispatch);
      out := out + [Adjust(reqs[k], refStop, |l.outShape|)];
      k := k + 1;
    }
    assert reqs[..k] == reqs;
    return Ok(Transfer(requested, out));
  }

  /** `run`'s outcome over a reference stream: the passes in order, or the first pass's failure. */
  function Ran<R>(l: Loader, refs: seq<Elem<R>>): (r: Result<Transfer>)
    requires Stored(l)
    decreases |refs|
  {
    if refs == [] then Ok(Transfer([], []))
    else
      var n := |refs| - 1;
      var prev := Ran(l, refs[..n]);
      if prev.Err? then prev
      else
        var pass := PassOf(l, RefStop(refs[n]));
        if pass.Err? then Err(pass.msg)
        else Ok(Transfer(prev.value.requested + pass.value.requested, prev.value.out + pass.value.out))
  }

  /** Once a prefix of the reference stream fails, the whole run fails the same way. */
  lemma {:induction false} RanSticky<R>(l: Loader, refs: seq<Elem<R>>, k: nat)
    requires Stored(l) && k <= |refs| && Ran(l, refs[..k]).Err?
    ensures Ran(l, refs) == Ran(l, refs[..k])
    decreases |refs|
  {
    if k < |refs| {
      var n := |refs| - 1;
      assert refs[..n][..k] == refs[..k];
      RanSticky(l, refs[..n], k);
    } else {
      assert refs[..k] == refs;
    }
  }

  /** `run`: one pass per reference element, until the reference stream closes. */
  method Run<R>(l: Loader, refs: seq<Elem<R>>) returns (r: Result<Transfer>)
    requires Stored(l)
    ensures r == Ran(l, refs)
  {
    var requested: seq<seq<nat>> := [];
    var out: seq<Elem<Tile>> := [];
    var k: nat := 0;
    while k < |refs|
      invariant k <= |refs|
      invariant Ran(l, refs[..k]) == Ok(Transfer(requested, out))
    {
      assert refs[..k + 1][..k] == refs[..k];
      var pass := StreamTiles(l, RefStop(refs[k]));
      if pass.Err? {
        RanSticky(l, refs, k + 1);
        return Err(pass.msg);
      }
      requested := requested + pass.value.requested;
      out := out + pass.value.out;
      k := k + 1;
    }
    assert refs[..k] == refs;
    return Ok(Transfer(requested, out));
  }

  // ---------------------------------------------------------------------------------------------
  // Levels

  /** A pass's levels are the view's, the last one raised by the reference's stop. */
  lemma {:induction false} PassLevels(reqs: seq<Request>, refStop: Option<nat>, rank: nat, p: nat, levels: seq<nat>)
    requires p > 0 && rank > 0 && |levels| == |reqs| && levels == StopLevels(Stream(reqs))
    requires forall k :: 0 <= k < |reqs| - 1 ==> levels[k] < rank
    requires reqs != [] ==> levels[|reqs| - 1] == rank
    ensures PassTransfer(reqs, refStop, rank, p).out
            == RaiseStream(Stream(reqs), if refStop.Some? then refStop.value else 0)
  {
    var e := if refStop.Some? then refStop.value else 0;
    var out := PassTransfer(reqs, refStop, rank, p).out;
    PassOut(reqs, refStop, rank, p);
    if reqs != [] {
      var n := |reqs| - 1;
      assert StopLevels(Stream(reqs))[n] == Level(Sent(reqs[n]));
      forall k | 0 <= k < |reqs| ensures out[k] == RaiseStream(Stream(reqs), e)[k]
      {
        assert StopLevels(Stream(reqs))[k] == Level(Sent(reqs[k]));
        if k == n {
          assert reqs[n].stop == Some(rank);
        }
      }
    }
  }

  /** Each tile of a pass is its request's tile with the adjusted stop. */
  lemma {:induction false} PassOut(reqs: seq<Request>, refStop: Option<nat>, rank: nat, p: nat)
    requires p > 0
    ensures |PassTransfer(reqs, refStop, rank, p).out| == |reqs|
    ensures forall k :: 0 <= k < |reqs| ==> PassTransfer(reqs, refStop, rank, p).out[k] == Adjust(reqs[k], refStop, rank)
    decreases |reqs|
  {
    if reqs != [] {
      var n := |reqs| - 1;
      PassOut(reqs[..n], refStop, rank, p);
    }
  }

  /** The conditions under which every pass streams the whole view. */
  predicate Streams(l: Loader)
  {
    Stored(l) && |l.stride| >= |l.outShape| && |l.outShape| > 0 && Emits(View(l)) && l.parDispatch > 0
  }

  /** Every pass streams the view's canonical stream, its last stop raised by the reference element's level. */
  lemma PassIsRaised(l: Loader, refStop: Option<nat>)
    requires Streams(l)
    ensures PassOf(l, refStop).Ok?
    ensures StopLevels(PassOf(l, refStop).value.out)
            == Raise(ShapeLevels(l.outShape), if refStop.Some? then refStop.value else 0)
  {
    var v := View(l);
    LoadLevels(v);
    var reqs := Generated(v).value;
    var levels := StopLevels(Stream(reqs));
    ProductPositiveInverse(l.outShape);
    LastLevel(l.outShape);
    forall k | 0 <= k < |reqs| - 1 ensures levels[k] < |l.outShape|
    {
      InnerLevel(l.outShape, k);
    }
    var e := if refStop.Some? then refStop.value else 0;
    PassLevels(reqs, refStop, |l.outShape|, l.parDispatch, levels);
    assert PassOf(l, refStop) == Ok(PassTransfer(reqs, refStop, |l.outShape|, l.parDispatch));
    assert StopLevels(RaiseStream(Stream(reqs), e)) == Raise(levels, e);
  }

  /**
   * A view with no output dimension sends one plain tile per pass: no tile closes every output
   * dimension as a stop, so the reference's stops are not passed on.
   */
  lemma ScalarViewDropsStops(l: Loader, refStop: Option<nat>)
    requires Stored(l) && |l.outShape| == 0 && Emits(View(l)) && l.parDispatch > 0
    ensures PassOf(l, refStop).Ok? && StopLevels(PassOf(l, refStop).value.out) == [0]
  {
    var v := View(l);
    LoadLevels(v);
    var reqs := Generated(v).value;
    assert StopLevels(Stream(reqs))[0] == Level(Sent(reqs[0]));
    assert PassOf(l, refStop) == Ok(PassTransfer(reqs, refStop, 0, l.parDispatch));
    PlainPass(reqs, refStop, l.parDispatch);
  }

  /** A pass of one stopless request sends one plain tile. */
  lemma PlainPass(reqs: seq<Request>, refStop: Option<nat>, p: nat)
    requires p > 0 && |reqs| == 1 && reqs[0].stop.None?
    ensures StopLevels(PassTransfer(reqs, refStop, 0, p).out) == [0]
  {
    PassOut(reqs, refStop, 0, p);
  }

  /**
   * The loaded stream nests the view inside the reference: one copy of the view's levels per reference
   * element, the last raised by that element's level.
   */
  lemma {:induction false} RunLevels<R>(l: Loader, refs: seq<Elem<R>>)
    requires Streams(l)
    ensures Ran(l, refs).Ok?
    ensures StopLevels(Ran(l, refs).value.out) == Nest(StopLevels(refs), ShapeLevels(l.outShape))
    decreases |refs|
  {
    if refs != [] {
      var n := |refs| - 1;
      RunLevels(l, refs[..n]);
      PassIsRaised(l, RefStop(refs[n]));
      var prev := Ran(l, refs[..n]).value;
      var pass := PassOf(l, RefStop(refs[n])).value;
      assert Ran(l, refs) == Ok(Transfer(prev.requested + pass.requested, prev.out + pass.out));
      LevelsSnoc(refs);
      NestStep(prev.out, pass.out, StopLevels(refs[..n]), Level(refs[n]), ShapeLevels(l.outShape));
    }
  }

  /** The levels of a non-empty stream are those of its prefix, then its last element's. */
  lemma LevelsSnoc<R>(refs: seq<Elem<R>>)
    requires refs != []
    ensures StopLevels(refs) == StopLevels(refs[..|refs| - 1]) + [Level(refs[|refs| - 1])]
  {
    var n := |refs| - 1;
    assert refs == refs[..n] + [refs[n]];
    StreamAppend(refs[..n], [refs[n]]);
  }

  /** Appending a pass raised by `x` to a nested stream nests one more outer entry. */
  lemma NestStep(prev: seq<Elem<Tile>>, pass: seq<Elem<Tile>>, outer: seq<nat>, x: nat, inner: seq<nat>)
    requires StopLevels(prev) == Nest(outer, inner) && StopLevels(pass) == Raise(inner, x)
    ensures StopLevels(prev + pass) == Nest(outer + [x], inner)
  {
    StreamAppend(prev, pass);
    NestSnoc(outer, x, inner);
  }

  /**
   * A reference stream that is itself the canonical stream of a shape `outer` makes the loaded
   * stream the canonical stream of `outer + outShape`.
   */
  lemma RunShape<R>(l: Loader, refs: seq<Elem<R>>, outer: seq<nat>)
    requires Streams(l) && StopLevels(refs) == ShapeLevels(outer)
    ensures Ran(l, refs).Ok? && StopLevels(Ran(l, refs).value.out) == ShapeLevels(outer + l.outShape)
  {
    RunLevels(l, refs);
    ProductPositiveInverse(l.outShape);
    NestShape(outer, l.outShape);
  }
}
