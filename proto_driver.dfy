/** The two pieces of the graph builder that are plain data: the depth of a channel and the element size. */
module ProtoDriver {
  import opened Wrappers

  /** `get_chan_depth`: a depth configured for channel `id` wins over `baseDepth`, which may be none. */
  function ChanDepth(custom: map<nat, nat>, id: nat, baseDepth: Option<nat>): (d: Option<nat>)
    ensures id in custom ==> d == Some(custom[id])
    ensures id !in custom ==> d == baseDepth
  {
    if id in custom then Some(custom[id]) else baseDepth
  }

  /** Looking the depth up again, with the first lookup as the base, changes nothing. */
  lemma ChanDepthIdempotent(custom: map<nat, nat>, id: nat, baseDepth: Option<nat>)
    ensures ChanDepth(custom, id, ChanDepth(custom, id, baseDepth)) == ChanDepth(custom, id, baseDepth)
  {}

  /** The byte width of a value: 2 when bfloat16 is mocked, the 4 of an `f32` otherwise. */
  function ElemBytes(mockBf16: bool): (n: nat)
    ensures n == 2 || n == 4
    ensures n == 2 <==> mockBf16
  {
    if mockBf16 then 2 else 4
  }
}
