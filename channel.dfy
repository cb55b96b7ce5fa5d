/**
 * `ChannelMap`: the table that pairs the two ends of a channel while the program graph is built.
 * The first node to ask for an end of channel `id` gets a freshly built channel's end and leaves
 * the opposite end in the table; the second node, asking for that opposite end, takes it out.
 * A node with several output streams uses a broadcast entry: one such pairing per stream index.
 */
module Channels {
  import opened Wrappers

  /** `DEFAULT_CHAN_SIZE`: the capacity of a channel built without an explicit one. */
  const DefaultChanSize: nat := 1024

  const WrongEntry := "Check whether your id or ChannelMap is correct"

  /** A channel of the simulation: the builder's serial number for it and its capacity. */
  datatype Chan = Chan(serial: nat, capacity: nat)

  datatype Side = Receiver | Sender

  function Opposite(s: Side): Side
  {
    if s == Receiver then Sender else Receiver
  }

  /** One end of a channel, as kept in the table until its owner asks for it. */
  datatype End = End(side: Side, chan: Chan)

  /** `ChannelMapEntry`: one unconnected end, or the unconnected ends of a broadcast node by stream index. */
  datatype Entry = Single(end: End) | Broadcast(ends: map<nat, End>)

  /** The capacity a request builds its channel with. */
  function Capacity(capacity: Option<nat>): (c: nat)
    ensures capacity.Some? ==> c == capacity.value
    ensures capacity.None? ==> c == DefaultChanSize
  {
    if capacity.Some? then capacity.value else DefaultChanSize
  }

  /** The outcome of one request: the end handed out, the table afterwards, and whether `novel` was built for it. */
  datatype Granted = Granted(chan: Chan, table: map<nat, Entry>, built: bool)

  /**
   * A request for the `want` end of channel `id` (stream `idx` of a broadcast node when `idx` is
   * given), where `novel` is the channel the builder would build for it.
   */
  function Request(table: map<nat, Entry>, want: Side, id: nat, idx: Option<nat>, novel: Chan): (r: Result<Granted>)
  {
    match idx
    case Some(s) =>
      if id !in table then Ok(Granted(novel, table[id := Broadcast(map[s := End(Opposite(want), novel)])], true))
      else if table[id].Single? then Err(WrongEntry)
      else
        var ends := table[id].ends;
        if s !in ends then Ok(Granted(novel, table[id := Broadcast(ends[s := End(Opposite(want), novel)])], true))
        else if ends[s].side == want then Ok(Granted(ends[s].chan, table[id := Broadcast(ends - {s})], false))
        else Err(WrongEntry)
    case None =>
      if id !in table then Ok(Granted(novel, table[id := Single(End(Opposite(want), novel))], true))
      else if table[id].Single? && table[id].end.side == want then Ok(Granted(table[id].end.chan, table - {id}, false))
      else Err(WrongEntry)
  }

  /** The `ProgramBuilder`'s part in pairing: it builds channels, numbered in the order they are built. */
  class Builder {
    /** The capacities of the channels built so far. */
    var built: seq<nat>

    constructor ()
      ensures built == []
    {
      built := [];
    }

    /** `bounded`: a new channel of capacity `cap`. */
    method Bounded(cap: nat) returns (c: Chan)
      modifies this
      ensures built == old(built) + [cap]
      ensures c == Chan(|old(built)|, cap)
    {
      c := Chan(|built|, cap);
      built := built + [cap];
    }
  }

  /** The table of unconnected ends; `None` until the first request. */
  function Table(m: Option<map<nat, Entry>>): map<nat, Entry>
  {
    if m.Some? then m.value else map[]
  }

  class ChannelMap {
    var table: Option<map<nat, Entry>>

    /** `ChannelMap::default`: no table yet. */
    constructor ()
      ensures table.None?
    {
      table := None;
    }

    /** `instantiate`: an empty table. */
    method Instantiate()
      modifies this
      ensures table == Some(map[])
    {
      table := Some(map[]);
    }

    /** `get_receiver`. */
    method GetReceiver(id: nat, idx: Option<nat>, builder: Builder, capacity: Option<nat>) returns (r: Result<Chan>)
      modifies this, builder
      ensures var novel := Chan(|old(builder.built)|, Capacity(capacity));
              var g := Request(Table(old(table)), Receiver, id, idx, novel);
              (g.Err? <==> r.Err?)
              && (g.Ok? ==> r == Ok(g.value.chan) && table == Some(g.value.table)
                            && builder.built == old(builder.built) + if g.value.built then [novel.capacity] else [])
    {
      r := Connect(Receiver, id, idx, builder, capacity);
    }

    /** `get_sender`: the same pairing for the sending end. */
    method GetSender(id: nat, idx: Option<nat>, builder: Builder, capacity: Option<nat>) returns (r: Result<Chan>)
      modifies this, builder
      ensures var novel := Chan(|old(builder.built)|, Capacity(capacity));
              var g := Request(Table(old(table)), Sender, id, idx, novel);
              (g.Err? <==> r.Err?)
              && (g.Ok? ==> r == Ok(g.value.chan) && table == Some(g.value.table)
                            && builder.built == old(builder.built) + if g.value.built then [novel.capacity] else [])
    {
      r := Connect(Sender, id, idx, builder, capacity);
    }

    /** The body shared by `get_receiver` and `get_sender`, which differ only in the end they want. */
    method Connect(want: Side, id: nat, idx: Option<nat>, builder: Builder, capacity: Option<nat>) returns (r: Result<Chan>)
      modifies this, builder
      ensures var novel := Chan(|old(builder.built)|, Capacity(capacity));
              var g := Request(Table(old(table)), want, id, idx, novel);
              (g.Err? <==> r.Err?)
              && (g.Ok? ==> r == Ok(g.value.chan) && table == Some(g.value.table)
                            && builder.built == old(builder.built) + if g.value.built then [novel.capacity] else [])
    {
      if table.None? {
        Instantiate();
      }
      var m := table.value;
      var cap := if capacity.Some? then capacity.value else DefaultChanSize;
      match idx {
        case Some(s) =>
          if id !in m {
            var c := builder.Bounded(cap);
            table := Some(m[id := Broadcast(map[s := End(Opposite(want), c)])]);
            return Ok(c);
          }
          match m[id] {
            case Single(_) =>
              return Err(WrongEntry);
            case Broadcast(ends) =>
              if s !in ends {
                var c := builder.Bounded(cap);
                table := Some(m[id := Broadcast(ends[s := End(Opposite(want), c)])]);
                return Ok(c);
              }
              if ends[s].side != want {
                return Err(WrongEntry);
              }
              table := Some(m[id := Broadcast(ends - {s})]);
              return Ok(ends[s].chan);
          }
        case None =>
          if id !in m {
            var c := builder.Bounded(cap);
            table := Some(m[id := Single(End(Opposite(want), c))]);
            return Ok(c);
          }
          var entry := m[id];
          table := Some(m - {id});
          if !(entry.Single? && entry.end.side == want) {
            return Err(WrongEntry);
          }
          return Ok(entry.end.chan);
      }
    }
  }

  // ---------------------------------------------------------------------------------------------
  // Pairing

  /**
   * Two complementary requests for a single channel pair up: the second gets the channel built for
   * the first, and the table is back as it was, without an entry for `id`.
   */
  lemma SinglePairs(table: map<nat, Entry>, first: Side, id: nat, novel: Chan, other: Chan)
    requires id !in table
    ensures var g := Request(table, first, id, None, novel);
      g.Ok? && g.value.chan == novel && g.value.built && id in g.value.table
      && var h := Request(g.value.table, Opposite(first), id, None, other);
         h == Ok(Granted(novel, table, false))
  {
    var g := Request(table, first, id, None, novel);
    assert Opposite(Opposite(first)) == first;
    assert g.value.table - {id} == table;
  }

  /** Asking twice for the same end of a single channel fails. */
  lemma SingleSameSideFails(table: map<nat, Entry>, want: Side, id: nat, novel: Chan, other: Chan)
    requires id !in table
    ensures var g := Request(table, want, id, None, novel);
      g.Ok? && Request(g.value.table, want, id, None, other).Err?
  {
    assert Opposite(want) != want;
  }

  /**
   * Stream `s` of a broadcast node pairs like a single channel: the complementary request gets the
   * channel built for the first, and every other stream index, and every other id, is untouched.
   */
  lemma BroadcastPairs(table: map<nat, Entry>, first: Side, id: nat, s: nat, novel: Chan, other: Chan)
    requires id in table ==> table[id].Broadcast? && s !in table[id].ends
    ensures var g := Request(table, first, id, Some(s), novel);
      g.Ok? && g.value.chan == novel && g.value.built
      && var h := Request(g.value.table, Opposite(first), id, Some(s), other);
         h.Ok? && h.value.chan == novel && !h.value.built
         && h.value.table.Keys == table.Keys + {id}
         && (forall k :: k in table && k != id ==> h.value.table[k] == table[k])
         && h.value.table[id].Broadcast?
         && (id in table ==> h.value.table[id].ends == table[id].ends)
         && (id !in table ==> h.value.table[id].ends == map[])
  {
    var g := Request(table, first, id, Some(s), novel);
    assert Opposite(Opposite(first)) == first;
    if id in table {
      assert g.value.table[id].ends - {s} == table[id].ends;
    } else {
      assert g.value.table[id].ends - {s} == map[];
    }
  }

  /** A request on one stream index leaves the other stream indices of the broadcast entry as they were. */
  lemma BroadcastOthersUntouched(table: map<nat, Entry>, want: Side, id: nat, s: nat, t: nat, novel: Chan)
    requires s != t && id in table && table[id].Broadcast?
    ensures var g := Request(table, want, id, Some(s), novel);
      g.Ok? ==> g.value.table[id].Broadcast?
                && (t in table[id].ends <==> t in g.value.table[id].ends)
                && (t in table[id].ends ==> g.value.table[id].ends[t] == table[id].ends[t])
  {}

  /** One id is used either by a single channel or by a broadcast node: a request of the other kind fails. */
  lemma MixedUseFails(table: map<nat, Entry>, want: Side, id: nat, s: nat, novel: Chan)
    requires id in table
    ensures table[id].Single? ==> Request(table, want, id, Some(s), novel).Err?
    ensures table[id].Broadcast? ==> Request(table, want, id, None, novel).Err?
  {}

  /** A request builds a channel exactly when it finds no end to take, and then hands out that channel. */
  lemma BuildsOnlyWhenUnpaired(table: map<nat, Entry>, want: Side, id: nat, idx: Option<nat>, novel: Chan)
    ensures var g := Request(table, want, id, idx, novel);
      g.Ok? ==> (g.value.built <==> (id !in table || (idx.Some? && idx.value !in table[id].ends)))
                && (g.value.built ==> g.value.chan == novel)
  {}

  /** The lazily created table: a request on a map that was never instantiated acts on an empty table. */
  method LazyTable(id: nat, want: Side) returns (r: Result<Chan>, m: ChannelMap, b: Builder)
    ensures r == Ok(Chan(0, DefaultChanSize)) && b.built == [DefaultChanSize]
    ensures m.table == Some(map[id := Single(End(Opposite(want), Chan(0, DefaultChanSize)))])
  {
    m := new ChannelMap();
    b := new Builder();
    r := m.Connect(want, id, None, b, None);
  }
}
