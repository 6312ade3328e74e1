/**
 * Terminal output buffers, as values: what each operation does to the pending and history queues,
 * the carried-over scrollback and the set of sessions whose history has been fed. The buffers never
 * look inside a chunk, so its type `C` is left open.
 */
module Buffers {
  import opened Prelude

  const MAX_HISTORY_CHUNKS: nat := 800
  const MAX_PENDING_CHUNKS: nat := 800

  datatype Bufs<C> = Bufs(
    pending: map<Id, seq<C>>,
    history: map<Id, seq<C>>,
    carryover: map<Id, seq<C>>,
    fed: set<Id>)

  function NoOutput<C>(): Bufs<C> {
    Bufs(map[], map[], map[], {})
  }

  /** The chunks stored for a session; an absent entry reads as an empty queue. */
  function Chunks<C>(m: map<Id, seq<C>>, id: Id): seq<C> {
    if id in m then m[id] else []
  }

  /** The newest `n` elements, or all of them when there are fewer. */
  function Tail<T>(s: seq<T>, n: nat): seq<T> {
    if |s| <= n then s else s[|s| - n..]
  }

  // ---------------------------------------------------------------- operations

  /** A chunk arrives from the backend. */
  function Output<C>(b: Bufs<C>, id: Id, chunk: C): Bufs<C> {
    b.(pending := b.pending[id := Tail(Chunks(b.pending, id) + [chunk], MAX_PENDING_CHUNKS)],
       history := b.history[id := Tail(Chunks(b.history, id) + [chunk], MAX_HISTORY_CHUNKS)])
  }

  function Consumed<C>(b: Bufs<C>, id: Id): seq<C> {
    Chunks(b.pending, id)
  }

  function Consume<C>(b: Bufs<C>, id: Id): Bufs<C> {
    if Chunks(b.pending, id) == [] then b else b.(pending := b.pending[id := []])
  }

  /** Feeding does something: once per session, with history to feed and nothing pending. */
  predicate CanFeed<C>(b: Bufs<C>, id: Id) {
    id !in b.fed && Chunks(b.history, id) != [] && Chunks(b.pending, id) == []
  }

  function FeedHistory<C>(b: Bufs<C>, id: Id): Bufs<C> {
    if !CanFeed(b, id) then b
    else b.(pending := b.pending[id := b.history[id]], fed := b.fed + {id})
  }

  function Clear<C>(b: Bufs<C>, id: Id): Bufs<C> {
    Bufs(b.pending - {id}, b.history - {id}, b.carryover - {id}, b.fed - {id})
  }

  /** What a reconnect hands over: the retained history, then whatever was still pending. */
  function Carried<C>(b: Bufs<C>, id: Id): seq<C> {
    Chunks(b.history, id) + Chunks(b.pending, id)
  }

  function Stash<C>(b: Bufs<C>, oldId: Id, newId: Id): Bufs<C> {
    if oldId == newId then b
    else
      var carry := Carried(b, oldId);
      b.(carryover := if carry == [] then b.carryover else b.carryover[newId := carry],
         pending := b.pending - {oldId},
         history := b.history - {oldId})
  }

  function Taken<C>(b: Bufs<C>, id: Id): seq<C> {
    Chunks(b.carryover, id)
  }

  function Take<C>(b: Bufs<C>, id: Id): Bufs<C> {
    b.(carryover := b.carryover - {id})
  }
}
