/**
 * The session lifecycle as a step machine. Each step is one stretch of code that runs without an
 * await; a suspended async call is a record in one of the maps of calls in flight.
 */
module Sessions {
  import opened Prelude
  import Ed = EditorTabs
  import Ops = EditorTheorems
  import Bu = Buffers
  import BuOps = BufferTheorems

  datatype Tab = Tab(
    sessionId: Id,
    connectionId: Id,
    channelId: Id,
    name: string,
    connecting: bool,
    disconnected: bool,
    reconnecting: bool,
    disconnectReason: Option<string>,
    synced: bool)

  /** What the backend returns when it has opened a session. */
  datatype OpenResult = OpenResult(sessionId: Id, connectionId: Id, terminalChannelId: Id, name: string)

  /** What a call that is to yield a session is waiting for. */
  datatype Phase =
    | AwaitReconnect    // the backend's reconnect command
    | AwaitOpen         // opening by connection, after the reconnect command failed
    | AwaitPlaceholder  // the open behind a placeholder tab
    | AwaitOrphanClose  // closing a session that arrived after its tab had gone

  /** A call that was issued for the tab `sid`; `loop` is the auto-reconnect loop awaiting it, if any. */
  datatype Job = Job(sid: Id, connectionId: Id, phase: Phase, loop: Option<nat>)

  datatype LoopPhase = Sleeping | Attempting | Settled(ok: bool)

  /**
   * A running auto-reconnect loop. `attempts` counts the reconnects it has begun, `slept` the
   * milliseconds of all its sleeps and `skipped` those of the sleeps that ended in no attempt.
   */
  datatype Loop = Loop(sid: Id, delayMs: nat, phase: LoopPhase, attempts: nat, slept: nat, skipped: nat)

  /** The stores, the calls in flight, and a record of the ids that have passed by. */
  datatype State = State(
    tabs: seq<Tab>,
    active: Option<Id>,
    openError: Option<string>,
    loopSet: set<Id>,            // the set autoReconnectLoops
    ui: Ed.Editors,
    bufs: Bu.Bufs<Chunk>,
    loops: map<nat, Loop>,
    jobs: map<nat, Job>,
    closes: map<nat, Id>,        // closeTab calls awaiting the backend
    next: nat,                   // the next unused key of the three maps above
    known: set<Id>,              // ids that have named a session
    obtained: set<Id>,           // ids the backend returned
    closeSent: set<Id>,          // ids passed to the backend's close command
    reconnectSent: set<Id>,      // ids passed to the backend's reconnect command
    starts: multiset<Id>)        // ids for which an auto-reconnect loop was started

  const INCOMPLETE_RESULT := "incomplete open result"

  // ---------------------------------------------------------------- tab lists

  /** The tab of a session, if it has one. */
  function Lookup(tabs: seq<Tab>, sid: Id): (r: Option<Tab>)
    ensures r.Some? ==> r.value in tabs && r.value.sessionId == sid
    ensures r.None? <==> forall i :: 0 <= i < |tabs| ==> tabs[i].sessionId != sid
  {
    if tabs == [] then None
    else if tabs[0].sessionId == sid then Some(tabs[0])
    else Lookup(tabs[1..], sid)
  }

  function Without(tabs: seq<Tab>, sid: Id): seq<Tab> {
    if tabs == [] then []
    else (if tabs[0].sessionId != sid then [tabs[0]] else []) + Without(tabs[1..], sid)
  }

  /** Replaces every tab of a session by `update` of it. */
  function Mapped(tabs: seq<Tab>, sid: Id, update: Tab -> Tab): seq<Tab> {
    if tabs == [] then []
    else [if tabs[0].sessionId == sid then update(tabs[0]) else tabs[0]] + Mapped(tabs[1..], sid, update)
  }

  function LastSession(tabs: seq<Tab>): Option<Id> {
    if tabs == [] then None else Some(tabs[|tabs| - 1].sessionId)
  }

  function MarkReconnecting(): Tab -> Tab {
    (t: Tab) => t.(reconnecting := true)
  }

  function MarkLost(reason: Option<string>): Tab -> Tab {
    (t: Tab) => t.(disconnected := true, reconnecting := false,
                   disconnectReason := if reason.Some? then reason else t.disconnectReason)
  }

  function MarkReason(reason: string): Tab -> Tab {
    (t: Tab) => t.(disconnectReason := Some(reason))
  }

  function MarkFailed(message: string): Tab -> Tab {
    (t: Tab) => t.(reconnecting := false, disconnected := true, disconnectReason := Some(message))
  }

  function ToggleSynced(): Tab -> Tab {
    (t: Tab) => t.(synced := !t.synced)
  }

  function Reconnected(r: OpenResult): Tab -> Tab {
    (t: Tab) => Tab(r.sessionId, r.connectionId, r.terminalChannelId, r.name, false, false, false, None, t.synced)
  }

  // ---------------------------------------------------------------- parts of steps

  function StartLoop(s: State, sid: Id): State {
    if sid in s.loopSet then s
    else s.(loopSet := s.loopSet + {sid},
            loops := s.loops[s.next := Loop(sid, FIRST_DELAY, Sleeping, 0, FIRST_DELAY, 0)],
            next := s.next + 1,
            starts := s.starts + multiset{sid})
  }

  const FIRST_DELAY: nat := 1000
  const MAX_DELAY: nat := 30000

  function NextDelay(delayMs: nat): nat {
    if delayMs * 2 <= MAX_DELAY then delayMs * 2 else MAX_DELAY
  }

  /** The loop returns, and its `finally` takes its id out of the shared set. */
  function FinishLoop(s: State, l: nat): State
    requires l in s.loops
  {
    s.(loops := s.loops - {l}, loopSet := s.loopSet - {s.loops[l].sid})
  }

  /** The loop tests its condition again, with the record `p`, and sleeps or ends. */
  function ContinueLoop(s: State, l: nat, p: Loop): State
    requires l in s.loops
  {
    if p.sid in s.loopSet then s.(loops := s.loops[l := p.(phase := Sleeping, slept := p.slept + p.delayMs)])
    else FinishLoop(s, l)
  }

  /** A reconnect begins: the tab is marked and the command goes out. */
  function BeginReconnect(s: State, tab: Tab, loop: Option<nat>): State {
    s.(tabs := Mapped(s.tabs, tab.sessionId, MarkReconnecting()),
       jobs := s.jobs[s.next := Job(tab.sessionId, tab.connectionId, AwaitReconnect, loop)],
       next := s.next + 1,
       reconnectSent := s.reconnectSent + {tab.sessionId})
  }

  /** A call is over; the loop awaiting it, if any, is due to resume. */
  function FinishJob(s: State, k: nat, ok: bool): State
    requires k in s.jobs
  {
    var j := s.jobs[k];
    var t := s.(jobs := s.jobs - {k});
    if j.loop.Some? && j.loop.value in s.loops then
      t.(loops := s.loops[j.loop.value := s.loops[j.loop.value].(phase := Settled(ok))])
    else t
  }

  function RemoveTabLocal(s: State, sid: Id): State {
    var tabs := Without(s.tabs, sid);
    s.(loopSet := s.loopSet - {sid},
       bufs := Bu.Clear(s.bufs, sid),
       ui := Ed.CloseForSession(s.ui, sid),
       tabs := tabs,
       active := if s.active == Some(sid) then LastSession(tabs) else s.active)
  }

  function MarkConnected(s: State, oldId: Id, r: OpenResult): State {
    var newId := r.sessionId;
    s.(ui := if newId != oldId then Ed.Rebind(s.ui, oldId, newId) else s.ui,
       bufs := if newId != oldId then Bu.Stash(s.bufs, oldId, newId) else s.bufs,
       tabs := Mapped(s.tabs, oldId, Reconnected(r)),
       active := if s.active == Some(oldId) then Some(newId) else s.active,
       openError := None,
       loopSet := s.loopSet - {oldId})
  }

  // ---------------------------------------------------------------- steps

  function AddTab(s: State, r: OpenResult): State {
    if r.sessionId == "" || r.terminalChannelId == "" then s.(openError := Some(INCOMPLETE_RESULT))
    else
      var name := if r.name == "" then "session" else r.name;
      var tab := Tab(r.sessionId, r.connectionId, r.terminalChannelId, name, false, false, false, None, false);
      s.(tabs := Without(s.tabs, tab.sessionId) + [tab],
         active := Some(tab.sessionId),
         openError := None,
         known := s.known + {tab.sessionId},
         obtained := s.obtained + {tab.sessionId})
  }

  /** A tab shown at once, while its session is still being opened under a client-made id. */
  function OpenPlaceholder(s: State, id: Id, connectionId: Id, name: string): State {
    s.(tabs := s.tabs + [Tab(id, connectionId, id, name, true, false, false, None, false)],
       active := Some(id),
       openError := None,
       jobs := s.jobs[s.next := Job(id, connectionId, AwaitPlaceholder, None)],
       next := s.next + 1,
       known := s.known + {id})
  }

  function FailPlaceholder(s: State, k: nat): State
    requires k in s.jobs
  {
    FinishJob(RemoveTabLocal(s, s.jobs[k].sid), k, false)
  }

  function BeginClose(s: State, sid: Id): State {
    s.(loopSet := s.loopSet - {sid},
       bufs := Bu.Clear(s.bufs, sid),
       ui := Ed.CloseForSession(s.ui, sid),
       closes := s.closes[s.next := sid],
       next := s.next + 1,
       closeSent := s.closeSent + {sid})
  }

  /** The backend has answered, or failed to; the tab goes either way. */
  function EndClose(s: State, k: nat): State
    requires k in s.closes
  {
    RemoveTabLocal(s, s.closes[k]).(closes := s.closes - {k})
  }

  function MarkDisconnected(s: State, sid: Id, reason: Option<string>, autoReconnect: bool): State {
    match Lookup(s.tabs, sid)
    case None => s
    case Some(tab) =>
      if tab.disconnected then
        if reason.Some? && reason.value != "" then s.(tabs := Mapped(s.tabs, sid, MarkReason(reason.value))) else s
      else
        var lost := s.(tabs := Mapped(s.tabs, sid, MarkLost(reason)));
        if autoReconnect then StartLoop(lost, sid) else lost
  }

  /** A reconnect the user asks for. */
  function RequestReconnect(s: State, sid: Id): State {
    match Lookup(s.tabs, sid)
    case None => s
    case Some(tab) => if tab.reconnecting then s else BeginReconnect(s, tab, None)
  }

  /** The reconnect command failed; the session is opened by its connection instead. */
  function FallBackToOpen(s: State, k: nat): State
    requires k in s.jobs
  {
    s.(jobs := s.jobs[k := s.jobs[k].(phase := AwaitOpen)])
  }

  /** The backend returns a session: it replaces the tab's, or is closed if the tab has gone. */
  function SettleOpened(s: State, k: nat, r: OpenResult): State
    requires k in s.jobs
  {
    var j := s.jobs[k];
    var t := s.(known := s.known + {r.sessionId}, obtained := s.obtained + {r.sessionId});
    if Lookup(s.tabs, j.sid).Some? then FinishJob(MarkConnected(t, j.sid, r), k, true)
    else
      var closing := t.(closeSent := s.closeSent + {r.sessionId});
      if j.phase == AwaitPlaceholder then FinishJob(closing, k, true)
      else closing.(jobs := s.jobs[k := j.(phase := AwaitOrphanClose)])
  }

  /** Opening failed too: the reconnect call throws. */
  function SettleFailed(s: State, k: nat, message: string): State
    requires k in s.jobs
  {
    FinishJob(s.(tabs := Mapped(s.tabs, s.jobs[k].sid, MarkFailed(message))), k, false)
  }

  /** The loop begins one more attempt and awaits it. */
  function AttemptReconnect(s: State, l: nat, tab: Tab): State
    requires l in s.loops
  {
    var p := s.loops[l];
    BeginReconnect(s.(loops := s.loops[l := p.(phase := Attempting, attempts := p.attempts + 1)]), tab, Some(l))
  }

  /** Somebody else is reconnecting the tab; the loop goes round without an attempt. */
  function SkipAttempt(s: State, l: nat): State
    requires l in s.loops
  {
    var p := s.loops[l];
    ContinueLoop(s, l, p.(skipped := p.skipped + p.delayMs))
  }

  /** A loop's sleep is over. */
  function WakeLoop(s: State, l: nat): State
    requires l in s.loops
  {
    match Lookup(s.tabs, s.loops[l].sid)
    case None => FinishLoop(s, l)
    case Some(tab) =>
      if !tab.disconnected then FinishLoop(s, l)
      else if tab.reconnecting then SkipAttempt(s, l)
      else AttemptReconnect(s, l, tab)
  }

  /** A loop resumes after its attempt settled. */
  function ResumeLoop(s: State, l: nat): State
    requires l in s.loops && s.loops[l].phase.Settled?
  {
    var p := s.loops[l];
    if p.phase.ok then FinishLoop(s, l)
    else ContinueLoop(s, l, p.(delayMs := NextDelay(p.delayMs)))
  }

  datatype Step =
    | AddTabStep(result: OpenResult)
    | SetActiveStep(sid: Id)
    | ToggleSyncStep(sid: Id)
    | PlaceholderStep(id: Id, connectionId: Id, name: string)
    | PlaceholderFailedStep(job: nat)
    | BeginCloseStep(sid: Id)
    | EndCloseStep(close: nat)
    | DisconnectStep(sid: Id, reason: Option<string>, autoReconnect: bool)
    | RequestReconnectStep(sid: Id)
    | FallBackStep(job: nat)
    | OpenedStep(job: nat, result: OpenResult)
    | FailedStep(job: nat, message: string)
    | OrphanClosedStep(job: nat)
    | WakeStep(loop: nat)
    | ResumeStep(loop: nat)
    | EditorStep(edit: Ops.EditorOp)
    | BufferStep(op: BuOps.BufferOp<Chunk>)

  /** An id the backend or the client makes: a UUID that has never been seen before. */
  predicate Fresh(s: State, id: Id) {
    id != "" && ColonFree(id) && id !in s.known
  }

  predicate CanAdd(s: State, r: OpenResult) {
    r.sessionId == "" || Fresh(s, r.sessionId)
  }

  predicate CanArrive(s: State, k: nat, r: OpenResult) {
    k in s.jobs && s.jobs[k].phase != AwaitOrphanClose && Fresh(s, r.sessionId)
  }

  predicate CanEdit(s: State, edit: Ops.EditorOp) {
    !edit.OpRebind? && (edit.OpOpen? ==> Lookup(s.tabs, edit.sessionId).Some?)
  }

  /**
   * When a step can happen. Calls settle while in flight and loops wake while asleep; ids returned by
   * the backend are fresh; the interface acts on sessions it has seen, and opens files and moves the
   * focus only to sessions that are open. Nothing else is asked of the environment.
   */
  predicate Enabled(s: State, step: Step) {
    match step
    case AddTabStep(r) => CanAdd(s, r)
    case SetActiveStep(sid) => Lookup(s.tabs, sid).Some?
    case ToggleSyncStep(_) => true
    case PlaceholderStep(id, _, _) => Fresh(s, id)
    case PlaceholderFailedStep(k) => k in s.jobs && s.jobs[k].phase == AwaitPlaceholder
    case BeginCloseStep(sid) => sid in s.known
    case EndCloseStep(k) => k in s.closes
    case DisconnectStep(_, _, _) => true
    case RequestReconnectStep(_) => true
    case FallBackStep(k) => k in s.jobs && s.jobs[k].phase == AwaitReconnect
    case OpenedStep(k, r) => CanArrive(s, k, r)
    case FailedStep(k, _) => k in s.jobs && s.jobs[k].phase == AwaitOpen
    case OrphanClosedStep(k) => k in s.jobs && s.jobs[k].phase == AwaitOrphanClose
    case WakeStep(l) => l in s.loops && s.loops[l].phase == Sleeping
    case ResumeStep(l) => l in s.loops && s.loops[l].phase.Settled?
    case EditorStep(edit) => CanEdit(s, edit)
    case BufferStep(op) => !op.OpStash? && !op.OpClear?
  }

  function Next(s: State, step: Step): State
    requires Enabled(s, step)
  {
    match step
    case AddTabStep(r) => AddTab(s, r)
    case SetActiveStep(sid) => s.(active := Some(sid))
    case ToggleSyncStep(sid) => s.(tabs := Mapped(s.tabs, sid, ToggleSynced()))
    case PlaceholderStep(id, connectionId, name) => OpenPlaceholder(s, id, connectionId, name)
    case PlaceholderFailedStep(k) => FailPlaceholder(s, k)
    case BeginCloseStep(sid) => BeginClose(s, sid)
    case EndCloseStep(k) => EndClose(s, k)
    case DisconnectStep(sid, reason, autoReconnect) => MarkDisconnected(s, sid, reason, autoReconnect)
    case RequestReconnectStep(sid) => RequestReconnect(s, sid)
    case FallBackStep(k) => FallBackToOpen(s, k)
    case OpenedStep(k, r) => SettleOpened(s, k, r)
    case FailedStep(k, message) => SettleFailed(s, k, message)
    case OrphanClosedStep(k) => FinishJob(s, k, true)
    case WakeStep(l) => WakeLoop(s, l)
    case ResumeStep(l) => ResumeLoop(s, l)
    case EditorStep(edit) => s.(ui := Ops.Apply(s.ui, edit))
    case BufferStep(op) => s.(bufs := BuOps.Apply(s.bufs, op))
  }

  function Initial(): State {
    State([], None, None, {}, Ed.NO_EDITORS, Bu.NoOutput(), map[], map[], map[], 0, {}, {}, {}, {}, multiset{})
  }
}
