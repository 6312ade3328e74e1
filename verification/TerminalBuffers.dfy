/** The terminal buffers as the program holds them: maps of growable arrays, changed in place. */
module TerminalOutput {
  import opened Prelude
  import opened Buffers
  import opened BufferTheorems

  /** A growable array of chunks. */
  class ChunkList<C> {
    var items: seq<C>

    constructor (items: seq<C>)
      ensures this.items == items
    {
      this.items := items;
    }

    /** Appends a chunk, then drops the oldest ones beyond the limit. */
    method PushBounded(chunk: C, limit: nat)
      modifies this
      ensures items == Tail(old(items) + [chunk], limit)
    {
      items := items + [chunk];
      if |items| > limit {
        DropFront(|items| - limit);
      }
    }

    method PushAll(chunks: seq<C>)
      modifies this
      ensures items == old(items) + chunks
    {
      items := items + chunks;
    }

    /** Removes the first `n` elements. */
    method DropFront(n: nat)
      requires n <= |items|
      modifies this
      ensures items == old(items)[n..]
    {
      items := items[n..];
    }

    /** Puts the given elements before the present ones. */
    method Unshift(front: seq<C>)
      modifies this
      ensures items == front + old(items)
    {
      items := front + items;
    }
  }

  /** A map from session ids to arrays, each array owned by one entry. */
  class ChunkMap<C> {
    var entries: map<Id, ChunkList<C>>
    ghost var Contents: map<Id, seq<C>>
    ghost var Repr: set<object>

    /** No two sessions share an array, and `Contents` is what the arrays hold. */
    ghost predicate Valid()
      reads this, Repr
      ensures Valid() ==> this in Repr
    {
      && this in Repr
      && entries.Keys == Contents.Keys
      && (forall id :: id in entries ==> entries[id] in Repr && entries[id].items == Contents[id])
      && (forall a, b :: a in entries && b in entries && a != b ==> entries[a] != entries[b])
    }

    constructor ()
      ensures Valid() && fresh(Repr) && Contents == map[]
    {
      entries := map[];
      Contents := map[];
      Repr := {this};
    }

    /** Lets an entry hold the given array; the map gives up the array it held before. */
    method Set(id: Id, list: ChunkList<C>)
      requires Valid() && list !in Repr
      modifies this
      ensures Valid() && Contents == old(Contents)[id := list.items]
      ensures Repr == if id in old(entries) then old(Repr) - {old(entries)[id]} + {list} else old(Repr) + {list}
    {
      if id in entries { Repr := Repr - {entries[id]}; }
      Repr := Repr + {list};
      entries := entries[id := list];
      Contents := Contents[id := list.items];
    }

    method Delete(id: Id)
      requires Valid()
      modifies this
      ensures Valid() && Contents == old(Contents) - {id}
      ensures Repr == if id in old(entries) then old(Repr) - {old(entries)[id]} else old(Repr)
    {
      if id in entries { Repr := Repr - {entries[id]}; }
      entries := entries - {id};
      Contents := Contents - {id};
    }

    /** The entry for a session, created empty when there is none. */
    method GetOrCreate(id: Id) returns (list: ChunkList<C>)
      requires Valid()
      modifies this
      ensures Valid() && fresh(Repr - old(Repr))
      ensures id in entries && entries[id] == list
      ensures Contents == old(Contents)[id := Chunks(old(Contents), id)]
    {
      if id !in entries {
        list := new ChunkList<C>([]);
        Set(id, list);
      }
      list := entries[id];
    }

    /** Appends to the array of an entry, keeping the newest `limit` elements. */
    method PushBounded(id: Id, chunk: C, limit: nat)
      requires Valid()
      modifies Repr
      ensures Valid() && fresh(Repr - old(Repr))
      ensures Contents == old(Contents)[id := Tail(Chunks(old(Contents), id) + [chunk], limit)]
    {
      var list := GetOrCreate(id);
      list.PushBounded(chunk, limit);
      Contents := Contents[id := list.items];
    }

    /** Puts elements before those of an entry. */
    method PutBefore(id: Id, front: seq<C>)
      requires Valid()
      modifies Repr
      ensures Valid() && fresh(Repr - old(Repr))
      ensures Contents == old(Contents)[id := front + Chunks(old(Contents), id)]
    {
      var list := GetOrCreate(id);
      list.Unshift(front);
      Contents := Contents[id := list.items];
    }
  }

  class TerminalBuffers<C> {
    const pending: ChunkMap<C>
    const history: ChunkMap<C>
    const carryover: ChunkMap<C>
    var fed: set<Id>
    ghost var Repr: set<object>

    /** No array is owned twice: not by two sessions, and not by two of the three maps. */
    ghost predicate Valid()
      reads this, Repr
      ensures Valid() ==> this in Repr
    {
      && this in Repr
      && pending in Repr && pending.Repr <= Repr && pending.Valid()
      && history in Repr && history.Repr <= Repr && history.Valid()
      && carryover in Repr && carryover.Repr <= Repr && carryover.Valid()
      && {this} !! pending.Repr !! history.Repr !! carryover.Repr
    }

    /** The value the operations are specified on. */
    ghost function View(): Bufs<C>
      reads this, pending, history, carryover
    {
      Bufs(pending.Contents, history.Contents, carryover.Contents, fed)
    }

    constructor ()
      ensures Valid() && fresh(Repr) && View() == NoOutput()
    {
      pending := new ChunkMap();
      history := new ChunkMap();
      carryover := new ChunkMap();
      fed := {};
      new;
      Repr := {this} + pending.Repr + history.Repr + carryover.Repr;
    }

    /** The body of the output listener. */
    method OnOutput(id: Id, chunk: C)
      requires Valid()
      modifies Repr
      ensures Valid() && fresh(Repr - old(Repr))
      ensures View() == Output(old(View()), id, chunk)
    {
      PushPending(id, chunk);
      PushHistory(id, chunk);
    }

    method PushPending(id: Id, chunk: C)
      requires Valid()
      modifies this, pending.Repr
      ensures Valid() && fresh(Repr - old(Repr)) && history.Repr == old(history.Repr)
      ensures var b := old(View());
              View() == b.(pending := b.pending[id := Tail(Chunks(b.pending, id) + [chunk], MAX_PENDING_CHUNKS)])
    {
      pending.PushBounded(id, chunk, MAX_PENDING_CHUNKS);
      Repr := Repr + pending.Repr;
    }

    method PushHistory(id: Id, chunk: C)
      requires Valid()
      modifies this, history.Repr
      ensures Valid() && fresh(Repr - old(Repr))
      ensures var b := old(View());
              View() == b.(history := b.history[id := Tail(Chunks(b.history, id) + [chunk], MAX_HISTORY_CHUNKS)])
    {
      history.PushBounded(id, chunk, MAX_HISTORY_CHUNKS);
      Repr := Repr + history.Repr;
    }

    /** Hands the pending array itself to the caller; the buffers give up ownership of it. */
    method ConsumeTerminalOutput(id: Id) returns (list: ChunkList<C>)
      requires Valid()
      modifies this, pending
      ensures Valid() && fresh(Repr - old(Repr))
      ensures View() == Consume(old(View()), id)
      ensures list.items == Consumed(old(View()), id) && list !in Repr
    {
      if id !in pending.entries || |pending.entries[id].items| == 0 {
        list := new ChunkList<C>([]);
        return;
      }
      list := pending.entries[id];
      var emptied := new ChunkList<C>([]);
      pending.Set(id, emptied);
      Repr := Repr - {list} + {emptied};
    }

    /** A copy of the history; the buffers keep theirs. */
    method ReplayTerminalHistory(id: Id) returns (list: ChunkList<C>)
      requires Valid()
      ensures fresh(list) && list.items == Chunks(View().history, id)
    {
      if id !in history.entries || |history.entries[id].items| == 0 {
        list := new ChunkList<C>([]);
        return;
      }
      list := new ChunkList<C>(history.entries[id].items);
    }

    method FeedHistoryToPending(id: Id)
      requires Valid()
      modifies Repr
      ensures Valid() && fresh(Repr - old(Repr))
      ensures View() == FeedHistory(old(View()), id)
    {
      if id in fed { return; }
      if id !in history.entries || |history.entries[id].items| == 0 { return; }
      if id in pending.entries && |pending.entries[id].items| > 0 { return; }
      var h := history.entries[id].items;
      assert h + [] == h;
      pending.PutBefore(id, h);
      fed := fed + {id};
      Repr := Repr + pending.Repr;
    }

    method ClearTerminalBuffers(id: Id)
      requires Valid()
      modifies this, pending, history, carryover
      ensures Valid() && Repr == old(Repr)
      ensures View() == Clear(old(View()), id)
    {
      fed := fed - {id};
      DropQueues(id);
      carryover.Delete(id);
    }

    /** Forgets the pending and history arrays of a session. */
    method DropQueues(id: Id)
      requires Valid()
      modifies pending, history
      ensures Valid()
      ensures View() == old(View()).(pending := old(View()).pending - {id}, history := old(View()).history - {id})
    {
      pending.Delete(id);
      history.Delete(id);
    }

    /** A new array holding a session's history followed by its pending chunks. */
    method CopyScrollback(id: Id) returns (carry: ChunkList<C>)
      requires Valid()
      ensures fresh(carry) && carry.items == Carried(View(), id)
    {
      carry := new ChunkList<C>([]);
      if id in history.entries { carry.PushAll(history.entries[id].items); }
      if id in pending.entries { carry.PushAll(pending.entries[id].items); }
    }

    method StashScrollback(oldId: Id, newId: Id)
      requires Valid()
      modifies this, pending, history, carryover
      ensures Valid() && fresh(Repr - old(Repr))
      ensures View() == Stash(old(View()), oldId, newId)
    {
      if oldId == newId { return; }
      var carry := CopyScrollback(oldId);
      if |carry.items| > 0 { Carry(newId, carry); }
      DropQueues(oldId);
    }

    /** Takes ownership of an array as the scrollback carried to a session. */
    method Carry(id: Id, carry: ChunkList<C>)
      requires Valid() && carry !in Repr
      modifies this, carryover
      ensures Valid() && Repr <= old(Repr) + {carry}
      ensures View() == old(View()).(carryover := old(View()).carryover[id := carry.items])
    {
      carryover.Set(id, carry);
      Repr := Repr + {carry};
    }

    /** Hands the carried-over array to the caller, once. */
    method TakeCarryover(id: Id) returns (list: ChunkList<C>)
      requires Valid()
      modifies this, carryover
      ensures Valid() && Repr <= old(Repr)
      ensures View() == Take(old(View()), id)
      ensures list.items == Taken(old(View()), id) && list !in Repr
      ensures fresh(list) || list in old(Repr)
    {
      if id !in carryover.entries {
        list := new ChunkList<C>([]);
        return;
      }
      list := carryover.entries[id];
      carryover.Delete(id);
      Repr := Repr - {list};
    }
  }

  // ---------------------------------------------------------------- any run of operations

  /** One operation, whatever it is; what it would return to the caller is let go. */
  method Perform<C>(b: TerminalBuffers<C>, op: BufferOp<C>)
    requires b.Valid()
    modifies b.Repr
    ensures b.Valid() && fresh(b.Repr - old(b.Repr))
    ensures b.View() == Apply(old(b.View()), op)
  {
    match op {
      case OpOutput(id, chunk) => b.OnOutput(id, chunk);
      case OpConsume(id) => var _ := b.ConsumeTerminalOutput(id);
      case OpFeed(id) => b.FeedHistoryToPending(id);
      case OpClear(id) => b.ClearTerminalBuffers(id);
      case OpStash(oldId, newId) => b.StashScrollback(oldId, newId);
      case OpTake(id) => var _ := b.TakeCarryover(id);
    }
  }

  method PerformAll<C>(b: TerminalBuffers<C>, ops: seq<BufferOp<C>>)
    requires b.Valid()
    modifies b.Repr
    ensures b.Valid() && fresh(b.Repr - old(b.Repr))
    ensures b.View() == ApplyAll(old(b.View()), ops)
  {
    for i := 0 to |ops|
      invariant b.Valid() && fresh(b.Repr - old(b.Repr))
      invariant ApplyAll(b.View(), ops[i..]) == ApplyAll(old(b.View()), ops)
    {
      assert ops[i..][1..] == ops[i + 1..];
      Perform(b, ops[i]);
    }
  }

  /**
   * The arrays that consume, replay and take return are the caller's, and three different ones: no run
   * of operations, on the same sessions or others, changes any of them afterwards.
   */
  method HandedOutStaysPut<C>(b: TerminalBuffers<C>, id: Id, other: Id, third: Id, ops: seq<BufferOp<C>>)
    returns (batch: ChunkList<C>, replayed: ChunkList<C>, carried: ChunkList<C>)
    requires b.Valid()
    modifies b.Repr
    ensures b.Valid() && {batch, replayed, carried} !! b.Repr
    ensures batch != replayed && batch != carried && replayed != carried
    ensures batch.items == old(Consumed(b.View(), id))
    ensures replayed.items == old(Chunks(b.View().history, other))
    ensures carried.items == old(Taken(b.View(), third))
    ensures b.View() == ApplyAll(old(b.View()), [OpConsume(id), OpTake(third)] + ops)
  {
    batch, replayed, carried := HandOutAll(b, id, other, third);
    AppliedInTurn(b.View(), old(b.View()), OpConsume(id), OpTake(third), ops);
    PerformAll(b, ops);
  }

  lemma AppliedInTurn<C>(after: Bufs<C>, before: Bufs<C>,
                         first: BufferOp<C>, second: BufferOp<C>, ops: seq<BufferOp<C>>)
    requires after == Apply(Apply(before, first), second)
    ensures ApplyAll(before, [first, second] + ops) == ApplyAll(after, ops)
  {
    assert ([first, second] + ops)[1..] == [second] + ops;
    assert ([second] + ops)[1..] == ops;
  }

  /** One array of each kind. */
  method HandOutAll<C>(b: TerminalBuffers<C>, id: Id, other: Id, third: Id)
    returns (batch: ChunkList<C>, replayed: ChunkList<C>, carried: ChunkList<C>)
    requires b.Valid()
    modifies b.Repr
    ensures b.Valid() && fresh(b.Repr - old(b.Repr)) && {batch, replayed, carried} !! b.Repr
    ensures batch != replayed && batch != carried && replayed != carried
    ensures batch.items == old(Consumed(b.View(), id))
    ensures replayed.items == old(Chunks(b.View().history, other))
    ensures carried.items == old(Taken(b.View(), third))
    ensures b.View() == Apply(Apply(old(b.View()), OpConsume(id)), OpTake(third))
  {
    batch := b.ConsumeTerminalOutput(id);
    replayed := b.ReplayTerminalHistory(other);
    carried := b.TakeCarryover(third);
  }
}
