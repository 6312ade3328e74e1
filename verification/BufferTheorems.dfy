/**
 * What the bounded terminal buffers guarantee over whole runs, measured against the unbounded stream
 * of chunks each session has received.
 */
module BufferTheorems {
  import opened Prelude
  import opened Buffers

  datatype BufferOp<C> =
    | OpOutput(id: Id, chunk: C)
    | OpConsume(id: Id)
    | OpFeed(id: Id)
    | OpClear(id: Id)
    | OpStash(oldId: Id, newId: Id)
    | OpTake(id: Id)

  function Apply<C>(b: Bufs<C>, op: BufferOp<C>): Bufs<C> {
    match op
    case OpOutput(id, chunk) => Output(b, id, chunk)
    case OpConsume(id) => Consume(b, id)
    case OpFeed(id) => FeedHistory(b, id)
    case OpClear(id) => Clear(b, id)
    case OpStash(o, n) => Stash(b, o, n)
    case OpTake(id) => Take(b, id)
  }

  function ApplyAll<C>(b: Bufs<C>, ops: seq<BufferOp<C>>): Bufs<C>
    decreases |ops|
  {
    if ops == [] then b else ApplyAll(Apply(b, ops[0]), ops[1..])
  }

  // ---------------------------------------------------------------- an observer of the run

  /**
   * What an observer notes of one session since its buffers were last dropped: everything received,
   * everything consumed, how many chunks were trimmed off the backlog and how many were fed back.
   */
  datatype Watch<C> = Watch(stream: seq<C>, consumed: seq<C>, dropped: nat, refed: nat)

  /** The buffers with their observer; `source` and `delivered` are never reset. */
  datatype Watched<C(==)> = Watched(
    bufs: Bufs<C>,
    watches: map<Id, Watch<C>>,
    source: map<C, Id>,
    delivered: multiset<C>)

  function Start<C(==)>(): Watched<C> {
    Watched(NoOutput(), map[], map[], multiset{})
  }

  function WatchOf<C(==)>(w: Watched<C>, id: Id): Watch<C> {
    if id in w.watches then w.watches[id] else Watch([], [], 0, 0)
  }

  function Observe<C(==)>(w: Watched<C>, op: BufferOp<C>): Watched<C> {
    var after := w.(bufs := Apply(w.bufs, op));
    match op
    case OpOutput(id, chunk) =>
      var v := WatchOf(w, id);
      var full := |Chunks(w.bufs.pending, id)| == MAX_PENDING_CHUNKS;
      after.(watches := w.watches[id := v.(stream := v.stream + [chunk],
                                           dropped := v.dropped + if full then 1 else 0)],
             source := w.source[chunk := id])
    case OpConsume(id) =>
      var v := WatchOf(w, id);
      var out := Consumed(w.bufs, id);
      after.(watches := w.watches[id := v.(consumed := v.consumed + out)],
             delivered := w.delivered + multiset(out))
    case OpFeed(id) =>
      var v := WatchOf(w, id);
      if !CanFeed(w.bufs, id) then after
      else after.(watches := w.watches[id := v.(refed := v.refed + |w.bufs.history[id]|)])
    case OpClear(id) => after.(watches := w.watches - {id})
    case OpStash(o, n) => if o == n then after else after.(watches := w.watches - {o})
    case OpTake(id) => after
  }

  /** Every event decodes into a new chunk object, so no chunk arrives twice. */
  ghost predicate Possible<C>(w: Watched<C>, op: BufferOp<C>) {
    op.OpOutput? ==> op.chunk !in w.source
  }

  ghost predicate AllPossible<C>(w: Watched<C>, ops: seq<BufferOp<C>>)
    decreases |ops|
  {
    ops != [] ==> Possible(w, ops[0]) && AllPossible(Observe(w, ops[0]), ops[1..])
  }

  function ObserveAll<C(==)>(w: Watched<C>, ops: seq<BufferOp<C>>): Watched<C>
    decreases |ops|
  {
    if ops == [] then w else ObserveAll(Observe(w, ops[0]), ops[1..])
  }

  // ---------------------------------------------------------------- agreement with the stream

  ghost predicate NoDuplicates<C>(s: seq<C>) {
    forall i, j :: 0 <= i < j < |s| ==> s[i] != s[j]
  }

  /** One session's queues against its stream. */
  ghost predicate QueuesAgree<C>(v: Watch<C>, pending: seq<C>, history: seq<C>) {
    && history == Tail(v.stream, MAX_HISTORY_CHUNKS)
    && |pending| <= MAX_PENDING_CHUNKS && |pending| <= |v.stream|
    && pending == Tail(v.stream, |pending|)
    && NoDuplicates(v.stream)
  }

  /** Nothing in the retained window is lost, and without trimming nothing is lost at all. */
  ghost predicate NothingForgotten<C>(v: Watch<C>, pending: seq<C>) {
    forall i :: 0 <= i < |v.stream| - |pending| && (|v.stream| - MAX_PENDING_CHUNKS <= i || v.dropped == 0)
           ==> v.stream[i] in v.consumed
  }

  /** Chunks are conserved; with no trimming and no feed the queue is a plain FIFO. */
  ghost predicate Conserved<C>(v: Watch<C>, pending: seq<C>) {
    && |v.consumed| + |pending| + v.dropped == |v.stream| + v.refed
    && (v.dropped == 0 && v.refed == 0 ==> v.consumed + pending == v.stream)
  }

  ghost predicate SessionAgrees<C>(w: Watched<C>, id: Id) {
    var v, p, h := WatchOf(w, id), Chunks(w.bufs.pending, id), Chunks(w.bufs.history, id);
    && QueuesAgree(v, p, h)
    && NothingForgotten(v, p)
    && Conserved(v, p)
    && (v.refed > 0 ==> id in w.bufs.fed)
    && (forall c :: c in v.stream ==> c in w.source && w.source[c] == id)
  }

  /** How often a chunk has been returned, and may still be: live once, and once by the feed. */
  ghost function Potential<C>(w: Watched<C>, c: C): nat
    requires c in w.source
  {
    var id := w.source[c];
    w.delivered[c]
    + (if c in Chunks(w.bufs.pending, id) then 1 else 0)
    + (if c in Chunks(w.bufs.history, id) && id !in w.bufs.fed then 1 else 0)
  }

  ghost predicate DeliveriesBounded<C>(w: Watched<C>) {
    && (forall c :: c in w.source ==> Potential(w, c) <= 2)
    && (forall c :: c in w.delivered ==> c in w.source)
  }

  ghost predicate Agrees<C>(w: Watched<C>) {
    (forall id: Id :: SessionAgrees(w, id)) && DeliveriesBounded(w)
  }

  // ---------------------------------------------------------------- lemmas about queues

  lemma TailExtends<C>(s: seq<C>, k: nat, c: C, limit: nat)
    requires k <= |s| && 0 < limit && k <= limit
    ensures Tail(Tail(s, k) + [c], limit) == Tail(s + [c], if k < limit then k + 1 else limit)
  {
  }

  lemma TailOfTail<C>(s: seq<C>, c: C, limit: nat)
    requires 0 < limit
    ensures Tail(Tail(s, limit) + [c], limit) == Tail(s + [c], limit)
  {
  }

  lemma TailDistinct<C>(s: seq<C>, k: nat)
    requires NoDuplicates(s)
    ensures NoDuplicates(Tail(s, k))
  {
  }

  lemma {:induction false} DistinctMultiplicity<C>(s: seq<C>, c: C)
    requires NoDuplicates(s)
    ensures multiset(s)[c] == if c in s then 1 else 0
  {
    if s != [] {
      assert s == s[..|s| - 1] + [s[|s| - 1]];
      DistinctMultiplicity(s[..|s| - 1], c);
    }
  }

  /** A session the operation does not mention. */
  predicate Mentions<C>(op: BufferOp<C>, id: Id) {
    match op
    case OpStash(o, n) => id == o || id == n
    case _ => id == op.id
  }

  /** Operations on one session leave every other session's queues, scrollback and mark alone. */
  lemma OthersUntouched<C>(b: Bufs<C>, op: BufferOp<C>, id: Id)
    requires !Mentions(op, id)
    ensures var a := Apply(b, op);
            && Chunks(a.pending, id) == Chunks(b.pending, id)
            && Chunks(a.history, id) == Chunks(b.history, id)
            && Chunks(a.carryover, id) == Chunks(b.carryover, id)
            && (id in a.fed <==> id in b.fed)
  {
  }

  /** Over any run: what no operation mentions is as it was. */
  lemma {:induction false} RunElsewhere<C>(b: Bufs<C>, ops: seq<BufferOp<C>>, id: Id)
    requires forall i :: 0 <= i < |ops| ==> !Mentions(ops[i], id)
    ensures var a := ApplyAll(b, ops);
            && Chunks(a.pending, id) == Chunks(b.pending, id)
            && Chunks(a.history, id) == Chunks(b.history, id)
            && Chunks(a.carryover, id) == Chunks(b.carryover, id)
            && (id in a.fed <==> id in b.fed)
    decreases |ops|
  {
    if ops != [] {
      OthersUntouched(b, ops[0], id);
      RunElsewhere(Apply(b, ops[0]), ops[1..], id);
    }
  }

  /** A history once fed is not fed again in any run that does not clear the session's buffers. */
  lemma {:induction false} FedOnceUntilCleared<C>(b: Bufs<C>, ops: seq<BufferOp<C>>, id: Id)
    requires id in b.fed && forall i :: 0 <= i < |ops| ==> !(ops[i].OpClear? && ops[i].id == id)
    ensures id in ApplyAll(b, ops).fed && FeedHistory(ApplyAll(b, ops), id) == ApplyAll(b, ops)
    decreases |ops|
  {
    if ops != [] { FedOnceUntilCleared(Apply(b, ops[0]), ops[1..], id); }
  }

  /** The operations that touch what has been handed to a session: taking, dropping and handing over. */
  predicate TouchesCarryover<C>(op: BufferOp<C>, id: Id) {
    match op
    case OpTake(x) => x == id
    case OpClear(x) => x == id
    case OpStash(o, n) => n == id && o != n
    case _ => false
  }

  /** What is handed to a session waits, through any run without one of those. */
  lemma {:induction false} CarryoverWaits<C>(b: Bufs<C>, ops: seq<BufferOp<C>>, id: Id)
    requires forall i :: 0 <= i < |ops| ==> !TouchesCarryover(ops[i], id)
    ensures Taken(ApplyAll(b, ops), id) == Taken(b, id)
    decreases |ops|
  {
    if ops != [] { CarryoverWaits(Apply(b, ops[0]), ops[1..], id); }
  }

  /** Either queue grows by the chunk, and gives up its oldest one when it held 800. */
  lemma OutputReach<C>(b: Bufs<C>, id: Id, c: C)
    ensures var (a, p, h) := (Output(b, id, c), Chunks(b.pending, id), Chunks(b.history, id));
            && a.carryover == b.carryover && a.fed == b.fed
            && (|p| < 800 ==> Chunks(a.pending, id) == p + [c])
            && (|p| == 800 ==> Chunks(a.pending, id) == p[1..] + [c])
            && (|h| < 800 ==> Chunks(a.history, id) == h + [c])
            && (|h| == 800 ==> Chunks(a.history, id) == h[1..] + [c])
  {
    var (p, h) := (Chunks(b.pending, id), Chunks(b.history, id));
    if |p| == 800 { assert (p + [c])[1..] == p[1..] + [c]; }
    if |h| == 800 { assert (h + [c])[1..] == h[1..] + [c]; }
  }

  /** The feed happens once, with history to feed and nothing pending; otherwise it leaves no trace. */
  lemma FeedReach<C>(b: Bufs<C>, id: Id)
    ensures var (a, p, h) := (FeedHistory(b, id), Chunks(b.pending, id), Chunks(b.history, id));
            if id in b.fed || h == [] || p != [] then a == b
            else a.pending == b.pending[id := h] && a.history == b.history && a.carryover == b.carryover
                 && a.fed == b.fed + {id}
  {
  }

  // ---------------------------------------------------------------- agreement is kept

  lemma OutputQueues<C>(v: Watch<C>, p: seq<C>, h: seq<C>, c: C)
    requires QueuesAgree(v, p, h) && NothingForgotten(v, p) && Conserved(v, p) && c !in v.stream
    ensures var full := |p| == MAX_PENDING_CHUNKS;
            var v' := v.(stream := v.stream + [c], dropped := v.dropped + if full then 1 else 0);
            var p' := Tail(p + [c], MAX_PENDING_CHUNKS);
            QueuesAgree(v', p', Tail(h + [c], MAX_HISTORY_CHUNKS)) && NothingForgotten(v', p') && Conserved(v', p')
  {
    TailExtends(v.stream, |p|, c, MAX_PENDING_CHUNKS);
    TailOfTail(v.stream, c, MAX_HISTORY_CHUNKS);
    var v' := v.(stream := v.stream + [c]);
    var p' := Tail(p + [c], MAX_PENDING_CHUNKS);
    if |p| < MAX_PENDING_CHUNKS {
      assert p' == p + [c];
      assert v.consumed + p' == v.consumed + p + [c];
    }
  }

  lemma ConsumeQueues<C>(v: Watch<C>, p: seq<C>, h: seq<C>)
    requires QueuesAgree(v, p, h) && NothingForgotten(v, p) && Conserved(v, p)
    ensures var v' := v.(consumed := v.consumed + p);
            QueuesAgree(v', [], h) && NothingForgotten(v', []) && Conserved(v', [])
  {
  }

  /** A session's record is about that session only, so an operation elsewhere keeps it. */
  lemma OtherSessionAgrees<C>(w: Watched<C>, op: BufferOp<C>, id: Id)
    requires SessionAgrees(w, id) && Possible(w, op)
    requires !Mentions(op, id) || op.OpTake? || (op.OpStash? && (op.oldId != id || op.oldId == op.newId))
    ensures SessionAgrees(Observe(w, op), id)
  {
    ObservedElsewhere(w, op, id);
    assert WatchOf(Observe(w, op), id) == WatchOf(w, id);
  }

  lemma ObservedElsewhere<C>(w: Watched<C>, op: BufferOp<C>, id: Id)
    requires !Mentions(op, id) || op.OpTake? || (op.OpStash? && (op.oldId != id || op.oldId == op.newId))
    ensures var a := Observe(w, op);
            && WatchOf(a, id) == WatchOf(w, id)
            && Chunks(a.bufs.pending, id) == Chunks(w.bufs.pending, id)
            && Chunks(a.bufs.history, id) == Chunks(w.bufs.history, id)
            && (id in a.bufs.fed <==> id in w.bufs.fed)
            && a.source == if op.OpOutput? then w.source[op.chunk := op.id] else w.source
  {
  }

  lemma OutputAgrees<C>(w: Watched<C>, id: Id, chunk: C)
    requires SessionAgrees(w, id) && chunk !in w.source
    ensures SessionAgrees(Observe(w, OpOutput(id, chunk)), id)
  {
    OutputQueues(WatchOf(w, id), Chunks(w.bufs.pending, id), Chunks(w.bufs.history, id), chunk);
  }

  lemma ConsumeAgrees<C>(w: Watched<C>, id: Id)
    requires SessionAgrees(w, id)
    ensures SessionAgrees(Observe(w, OpConsume(id)), id)
  {
    ConsumeQueues(WatchOf(w, id), Chunks(w.bufs.pending, id), Chunks(w.bufs.history, id));
  }

  lemma FeedAgrees<C>(w: Watched<C>, id: Id)
    requires SessionAgrees(w, id)
    ensures SessionAgrees(Observe(w, OpFeed(id)), id)
  {
  }

  lemma SessionStillAgrees<C>(w: Watched<C>, op: BufferOp<C>, id: Id)
    requires SessionAgrees(w, id) && Possible(w, op)
    ensures SessionAgrees(Observe(w, op), id)
  {
    if op.OpOutput? && op.id == id {
      OutputAgrees(w, id, op.chunk);
    } else if op.OpConsume? && op.id == id {
      ConsumeAgrees(w, id);
    } else if op.OpFeed? && op.id == id {
      FeedAgrees(w, id);
    } else if op.OpClear? && op.id == id {
    } else if op.OpStash? && op.oldId == id && op.newId != id {
    } else {
      OtherSessionAgrees(w, op, id);
    }
  }

  /** Consuming returns each pending chunk of the session once, and no other chunk. */
  lemma ConsumeDelivers<C>(w: Watched<C>, id: Id, c: C)
    requires SessionAgrees(w, id)
    ensures Observe(w, OpConsume(id)).delivered[c]
         == w.delivered[c] + if c in Chunks(w.bufs.pending, id) then 1 else 0
    ensures c in Chunks(w.bufs.pending, id) ==> c in w.source && w.source[c] == id
  {
    var p := Chunks(w.bufs.pending, id);
    TailDistinct(WatchOf(w, id).stream, |p|);
    DistinctMultiplicity(p, c);
    if c in p { assert c in WatchOf(w, id).stream; }
  }

  lemma PotentialElsewhere<C>(w: Watched<C>, op: BufferOp<C>, c: C)
    requires Agrees(w) && Possible(w, op) && c in w.source && !Mentions(op, w.source[c])
    ensures c in Observe(w, op).source && Potential(Observe(w, op), c) == Potential(w, c)
  {
    OthersUntouched(w.bufs, op, w.source[c]);
    if op.OpConsume? {
      assert SessionAgrees(w, op.id);
      ConsumeDelivers(w, op.id, c);
    }
  }

  lemma PotentialNeverGrows<C>(w: Watched<C>, op: BufferOp<C>, c: C)
    requires Agrees(w) && Possible(w, op) && c in w.source
    ensures c in Observe(w, op).source && Potential(Observe(w, op), c) <= Potential(w, c)
  {
    var id := w.source[c];
    if !Mentions(op, id) {
      PotentialElsewhere(w, op, c);
    } else if op.OpConsume? {
      assert SessionAgrees(w, id);
      ConsumeDelivers(w, id, c);
    } else if op.OpOutput? {
      OutputAddsNoOld(w.bufs, id, op.chunk, c);
    }
  }

  lemma OutputAddsNoOld<C>(b: Bufs<C>, id: Id, chunk: C, c: C)
    requires c != chunk
    ensures c in Chunks(Output(b, id, chunk).pending, id) ==> c in Chunks(b.pending, id)
    ensures c in Chunks(Output(b, id, chunk).history, id) ==> c in Chunks(b.history, id)
  {
    InTail(Chunks(b.pending, id) + [chunk], MAX_PENDING_CHUNKS, c);
    InTail(Chunks(b.history, id) + [chunk], MAX_HISTORY_CHUNKS, c);
  }

  lemma InTail<C>(s: seq<C>, k: nat, c: C)
    ensures c in Tail(s, k) ==> c in s
  {
  }

  lemma DeliveriesStayBounded<C>(w: Watched<C>, op: BufferOp<C>)
    requires Agrees(w) && Possible(w, op)
    ensures DeliveriesBounded(Observe(w, op))
  {
    var a := Observe(w, op);
    forall c | c in a.source ensures Potential(a, c) <= 2 {
      if c in w.source {
        PotentialNeverGrows(w, op, c);
      }
    }
    forall c | c in a.delivered ensures c in a.source {
      if op.OpConsume? && c !in w.delivered {
        assert SessionAgrees(w, op.id);
        assert c in Consumed(w.bufs, op.id) && c in WatchOf(w, op.id).stream;
      }
    }
  }

  lemma AgreementKept<C>(w: Watched<C>, op: BufferOp<C>)
    requires Agrees(w) && Possible(w, op)
    ensures Agrees(Observe(w, op))
  {
    forall id: Id ensures SessionAgrees(Observe(w, op), id) {
      SessionStillAgrees(w, op, id);
    }
    DeliveriesStayBounded(w, op);
  }

  lemma {:induction false} EveryRunFrom<C>(w: Watched<C>, ops: seq<BufferOp<C>>)
    requires Agrees(w) && AllPossible(w, ops)
    ensures Agrees(ObserveAll(w, ops))
    decreases |ops|
  {
    if ops != [] {
      AgreementKept(w, ops[0]);
      EveryRunFrom(Observe(w, ops[0]), ops[1..]);
    }
  }

  // ---------------------------------------------------------------- main results

  /**
   * After any run: history is the last 800 chunks received, pending is a tail of that, every chunk
   * of the window has been consumed or is pending, and chunks are conserved.
   */
  lemma EveryRunAgrees<C>(ops: seq<BufferOp<C>>, id: Id)
    requires AllPossible(Start<C>(), ops)
    ensures SessionAgrees(ObserveAll(Start<C>(), ops), id)
  {
    EveryRunFrom(Start<C>(), ops);
  }

  /** The limits: of n chunks received the last min(n, 800) are kept, and at most 800 wait. */
  lemma EveryRunBounded<C>(ops: seq<BufferOp<C>>, id: Id)
    requires AllPossible(Start<C>(), ops)
    ensures var w := ObserveAll(Start<C>(), ops);
            var n := |WatchOf(w, id).stream|;
            && |Chunks(w.bufs.history, id)| == (if n < 800 then n else 800)
            && |Chunks(w.bufs.pending, id)| <= 800
  {
    EveryRunAgrees(ops, id);
  }

  /** Over any run, whatever is cleared or stashed in between, a chunk is consumed at most twice. */
  lemma DeliveredAtMostTwice<C>(ops: seq<BufferOp<C>>, c: C)
    requires AllPossible(Start<C>(), ops)
    ensures ObserveAll(Start<C>(), ops).delivered[c] <= 2
  {
    EveryRunFrom(Start<C>(), ops);
    var w := ObserveAll(Start<C>(), ops);
    if c in w.source { assert Potential(w, c) <= 2; }
  }

  /** A bounded queue that never overflowed and was never fed is an unbounded FIFO. */
  lemma RefinesFifo<C>(ops: seq<BufferOp<C>>, id: Id)
    requires AllPossible(Start<C>(), ops)
    ensures var w := ObserveAll(Start<C>(), ops);
            WatchOf(w, id).dropped == 0 && WatchOf(w, id).refed == 0
            ==> WatchOf(w, id).consumed + Chunks(w.bufs.pending, id) == WatchOf(w, id).stream
  {
    EveryRunAgrees(ops, id);
  }

  /** Received, but neither consumed nor pending any more. */
  ghost predicate Lost<C>(w: Watched<C>, id: Id, c: C) {
    c in WatchOf(w, id).stream && c !in WatchOf(w, id).consumed && c !in Chunks(w.bufs.pending, id)
  }

  /** What one more chunk pushes out of the backlog: the head of a full queue, and nothing else. */
  lemma PushedOut<C>(p: seq<C>, chunk: C, c: C)
    requires |p| <= MAX_PENDING_CHUNKS && NoDuplicates(p) && c != chunk
    ensures c in Tail(p + [chunk], MAX_PENDING_CHUNKS)
       <==> c in p && !(|p| == MAX_PENDING_CHUNKS && c == p[0])
  {
    if |p| == MAX_PENDING_CHUNKS {
      assert Tail(p + [chunk], MAX_PENDING_CHUNKS) == p[1..] + [chunk];
      assert p == [p[0]] + p[1..];
      if c in p[1..] {
        var i :| 0 <= i < |p[1..]| && p[1..][i] == c;
        assert p[0] != p[i + 1];
      }
    }
  }

  /** The one way to lose a chunk: it heads a full backlog, was never consumed, and more arrives. */
  lemma LostIff<C>(w: Watched<C>, op: BufferOp<C>, id: Id, c: C)
    requires Agrees(w) && Possible(w, op) && !Lost(w, id, c)
    ensures Lost(Observe(w, op), id, c)
       <==> op.OpOutput? && op.id == id
            && |Chunks(w.bufs.pending, id)| == MAX_PENDING_CHUNKS
            && c == Chunks(w.bufs.pending, id)[0] && c !in WatchOf(w, id).consumed
  {
    assert SessionAgrees(w, id);
    var p, v := Chunks(w.bufs.pending, id), WatchOf(w, id);
    TailDistinct(v.stream, |p|);
    if op.OpOutput? && op.id == id {
      assert op.chunk !in v.stream;
      if c == op.chunk {
        var q := Tail(p + [c], MAX_PENDING_CHUNKS);
        assert q[|q| - 1] == c;
        InTail(v.stream, |p|, c);
      } else {
        PushedOut(p, op.chunk, c);
        InTail(v.stream, |p|, c);
      }
    } else {
      LostOnlyByOutput(w, op, id, c);
    }
  }

  lemma LostOnlyByOutput<C>(w: Watched<C>, op: BufferOp<C>, id: Id, c: C)
    requires Agrees(w) && !Lost(w, id, c) && !(op.OpOutput? && op.id == id)
    ensures !Lost(Observe(w, op), id, c)
  {
    if op.OpConsume? && op.id == id {
      assert forall x :: x in WatchOf(w, id).consumed + Consumed(w.bufs, id)
               <==> x in WatchOf(w, id).consumed || x in Consumed(w.bufs, id);
    }
  }

  /**
   * A terminal mounted anew, when all output had been consumed: the feed hands it the retained history
   * the first time, nothing from then on, and once more after the buffers were cleared and filled.
   */
  lemma RemountReplaysOnce<C>(b: Bufs<C>, id: Id)
    ensures var drained := Consume(b, id);
            var first := FeedHistory(drained, id);
            var again := FeedHistory(Consume(first, id), id);
            && Consumed(first, id) == (if id in b.fed then [] else Chunks(b.history, id))
            && (Chunks(b.history, id) != [] ==> Consumed(again, id) == [])
            && Chunks(again.history, id) == Chunks(b.history, id)
            && forall c :: Consumed(FeedHistory(Consume(Output(Clear(b, id), id, c), id), id), id) == [c]
  {
    assert Consumed(Consume(b, id), id) == [];
  }

  // ---------------------------------------------------------------- scrollback across a reconnect

  /**
   * Handing over the scrollback: the new session's own queues are untouched, the old one's are gone,
   * and the carried chunks are the old history followed by the old backlog.
   */
  lemma HandOver<C>(b: Bufs<C>, oldId: Id, newId: Id)
    requires oldId != newId
    ensures var a := Stash(b, oldId, newId);
            && oldId !in a.pending && oldId !in a.history
            && a.pending == b.pending - {oldId} && a.history == b.history - {oldId} && a.fed == b.fed
            && (Carried(b, oldId) != [] ==> Taken(a, newId) == Carried(b, oldId))
            && (Carried(b, oldId) == [] ==> Taken(a, newId) == Taken(b, newId))
            && Taken(Take(a, newId), newId) == []
  {
  }

  /** Every chunk carried is one of the last 800 received, in order, and at most 1600 are carried. */
  lemma CarriedIsRetained<C>(w: Watched<C>, id: Id)
    requires Agrees(w)
    ensures var stream := WatchOf(w, id).stream;
            var p := Chunks(w.bufs.pending, id);
            && Carried(w.bufs, id) == Tail(stream, MAX_HISTORY_CHUNKS) + Tail(stream, |p|)
            && |Carried(w.bufs, id)| <= MAX_HISTORY_CHUNKS + MAX_PENDING_CHUNKS
            && forall c :: c in Carried(w.bufs, id) <==> c in Tail(stream, MAX_HISTORY_CHUNKS)
  {
    assert SessionAgrees(w, id);
  }

  /** The carried scrollback repeats a chunk exactly when output was still pending. */
  lemma CarriedRepeatsIff<C>(w: Watched<C>, id: Id)
    requires Agrees(w)
    ensures NoDuplicates(Carried(w.bufs, id)) <==> Chunks(w.bufs.pending, id) == []
  {
    assert SessionAgrees(w, id);
    var h, p := Chunks(w.bufs.history, id), Chunks(w.bufs.pending, id);
    TailDistinct(WatchOf(w, id).stream, MAX_HISTORY_CHUNKS);
    if p == [] {
      assert Carried(w.bufs, id) == h;
    } else {
      var carried := Carried(w.bufs, id);
      var last := p[|p| - 1];
      assert last == WatchOf(w, id).stream[|WatchOf(w, id).stream| - 1] == h[|h| - 1];
      assert carried[|h| - 1] == carried[|carried| - 1];
    }
  }
}
