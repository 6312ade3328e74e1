/**
 * What each step of the session machine changes, field by field, and that it changes nothing else. A
 * frame `t == s.(...)` names the parts of the state a step may touch at all.
 */
module SessionReach {
  import opened Prelude
  import opened Sessions
  import opened SessionInvariant
  import opened SessionSteps
  import Ed = EditorTabs
  import Er = EditorReach
  import Bu = Buffers

  // ---------------------------------------------------------------- one tab updated

  /** The same tabs in the same places, the session's own tab aside. */
  ghost predicate OthersSame(before: seq<Tab>, after: seq<Tab>, sid: Id) {
    && |after| == |before|
    && forall i :: 0 <= i < |before| ==>
         after[i].sessionId == before[i].sessionId && (before[i].sessionId != sid ==> after[i] == before[i])
  }

  /** What a tab is of: these stay as long as it shows the session. */
  predicate SameIdentity(a: Tab, b: Tab) {
    b.sessionId == a.sessionId && b.connectionId == a.connectionId && b.channelId == a.channelId && b.name == a.name
  }

  /** The session's tab, wherever it is. */
  ghost predicate IsTabOf(tabs: seq<Tab>, i: int, sid: Id) {
    0 <= i < |tabs| && tabs[i].sessionId == sid
  }

  lemma TabFound(tabs: seq<Tab>, i: int, sid: Id)
    requires Distinct(tabs) && IsTabOf(tabs, i, sid)
    ensures Lookup(tabs, sid) == Some(tabs[i])
  {
    DistinctOnly(tabs, tabs[i]);
  }

  lemma NoTabFound(tabs: seq<Tab>, sid: Id)
    requires forall i :: !IsTabOf(tabs, i, sid)
    ensures Lookup(tabs, sid).None?
  {
    forall i | 0 <= i < |tabs| ensures tabs[i].sessionId != sid {
      assert !IsTabOf(tabs, i, sid);
    }
  }

  /** Toggling flips the session's flag. */
  lemma ToggleReach(tabs: seq<Tab>, sid: Id)
    ensures var after := Mapped(tabs, sid, ToggleSynced());
            && OthersSame(tabs, after, sid)
            && forall i :: IsTabOf(tabs, i, sid) ==>
                 after[i].synced == !tabs[i].synced && SameIdentity(tabs[i], after[i])
                 && after[i].connecting == tabs[i].connecting && after[i].disconnected == tabs[i].disconnected
                 && after[i].reconnecting == tabs[i].reconnecting
                 && after[i].disconnectReason == tabs[i].disconnectReason
  {
    MappedAt(tabs, sid, ToggleSynced());
  }

  /** A disconnect of a session that has no tab is ignored. */
  lemma UnknownDisconnect(s: State, sid: Id, reason: Option<string>, autoReconnect: bool)
    requires forall i :: !IsTabOf(s.tabs, i, sid)
    ensures MarkDisconnected(s, sid, reason, autoReconnect) == s
  {
    NoTabFound(s.tabs, sid);
  }

  /**
   * A connected tab becomes disconnected and gives up its mark, with the reason if one is given, and a
   * loop starts, sleeping 1000 ms, if it is to and none is listed.
   */
  lemma NewDisconnectReach(s: State, i: int, sid: Id, reason: Option<string>, autoReconnect: bool)
    requires Distinct(s.tabs) && IsTabOf(s.tabs, i, sid) && !s.tabs[i].disconnected
    ensures var t := MarkDisconnected(s, sid, reason, autoReconnect);
            && t == s.(tabs := t.tabs, loopSet := t.loopSet, loops := t.loops, next := t.next, starts := t.starts)
            && OthersSame(s.tabs, t.tabs, sid) && SameIdentity(s.tabs[i], t.tabs[i])
            && t.tabs[i].connecting == s.tabs[i].connecting && t.tabs[i].synced == s.tabs[i].synced
            && t.tabs[i].disconnected && !t.tabs[i].reconnecting
            && t.tabs[i].disconnectReason == (if reason.Some? then reason else s.tabs[i].disconnectReason)
            && (if autoReconnect && sid !in s.loopSet
                then t.loopSet == s.loopSet + {sid}
                     && t.loops == s.loops[s.next := Loop(sid, 1000, Sleeping, 0, 1000, 0)]
                else t.loopSet == s.loopSet && t.loops == s.loops)
  {
    TabFound(s.tabs, i, sid);
    MappedAt(s.tabs, sid, MarkLost(reason));
  }

  /** A tab disconnected before only takes over a reason that says something. */
  lemma RepeatedDisconnectReach(s: State, i: int, sid: Id, reason: Option<string>, autoReconnect: bool)
    requires Distinct(s.tabs) && IsTabOf(s.tabs, i, sid) && s.tabs[i].disconnected
    ensures var t := MarkDisconnected(s, sid, reason, autoReconnect);
            && t == s.(tabs := t.tabs)
            && OthersSame(s.tabs, t.tabs, sid) && SameIdentity(s.tabs[i], t.tabs[i])
            && t.tabs[i].connecting == s.tabs[i].connecting && t.tabs[i].synced == s.tabs[i].synced
            && t.tabs[i].disconnected && t.tabs[i].reconnecting == s.tabs[i].reconnecting
            && t.tabs[i].disconnectReason
               == (if reason.Some? && reason.value != "" then reason else s.tabs[i].disconnectReason)
  {
    TabFound(s.tabs, i, sid);
    if reason.Some? { MappedAt(s.tabs, sid, MarkReason(reason.value)); }
  }

  // ---------------------------------------------------------------- reconnects

  /** A reconnect is sent, for the tab's own connection, and the tab marked; a marked tab is left alone. */
  lemma RequestReach(s: State, i: int, sid: Id)
    requires Distinct(s.tabs) && IsTabOf(s.tabs, i, sid)
    ensures var t := RequestReconnect(s, sid);
            if s.tabs[i].reconnecting then t == s
            else
              && t == s.(tabs := t.tabs, jobs := t.jobs, next := s.next + 1, reconnectSent := s.reconnectSent + {sid})
              && OthersSame(s.tabs, t.tabs, sid) && t.tabs[i] == s.tabs[i].(reconnecting := true)
              && t.jobs == s.jobs[s.next := Job(sid, s.tabs[i].connectionId, AwaitReconnect, None)]
  {
    TabFound(s.tabs, i, sid);
    MappedAt(s.tabs, sid, MarkReconnecting());
  }

  lemma UnknownRequest(s: State, sid: Id)
    requires forall i :: !IsTabOf(s.tabs, i, sid)
    ensures RequestReconnect(s, sid) == s
  {
    NoTabFound(s.tabs, sid);
  }

  /** The open that follows a rejected reconnect is of the connection the tab had when it was sent. */
  lemma FallBackReach(s: State, k: nat)
    requires k in s.jobs
    ensures var t := FallBackToOpen(s, k);
            && t == s.(jobs := t.jobs) && t.jobs.Keys == s.jobs.Keys
            && (forall m :: m in s.jobs && m != k ==> t.jobs[m] == s.jobs[m])
            && t.jobs[k] == Job(s.jobs[k].sid, s.jobs[k].connectionId, AwaitOpen, s.jobs[k].loop)
  {
  }

  /** The end of a call: it is in flight no more, and the loop awaiting it, if any, learns how it ended. */
  ghost predicate CallEnded(s: State, t: State, k: nat, ok: bool)
    requires k in s.jobs
  {
    && t.jobs == s.jobs - {k}
    && t.loops.Keys == s.loops.Keys
    && forall l :: l in s.loops ==>
         t.loops[l] == if s.jobs[k].loop == Some(l) then s.loops[l].(phase := Settled(ok)) else s.loops[l]
  }

  lemma CallEnds(s: State, k: nat, ok: bool)
    requires k in s.jobs
    ensures CallEnded(s, FinishJob(s, k, ok), k, ok)
    ensures FinishJob(s, k, ok) == s.(jobs := s.jobs - {k}, loops := FinishJob(s, k, ok).loops)
  {
  }

  /** A failed reconnect leaves its tab disconnected, with the error for a reason whatever it was before. */
  lemma FailureReach(s: State, k: nat, message: string)
    requires k in s.jobs
    ensures var t, sid := SettleFailed(s, k, message), s.jobs[k].sid;
            && t == s.(tabs := t.tabs, jobs := t.jobs, loops := t.loops)
            && OthersSame(s.tabs, t.tabs, sid) && CallEnded(s, t, k, false)
            && forall i :: IsTabOf(s.tabs, i, sid) ==>
                 SameIdentity(s.tabs[i], t.tabs[i])
                 && t.tabs[i].connecting == s.tabs[i].connecting && t.tabs[i].synced == s.tabs[i].synced
                 && t.tabs[i].disconnected && !t.tabs[i].reconnecting && t.tabs[i].disconnectReason == Some(message)
  {
    MappedAt(s.tabs, s.jobs[k].sid, MarkFailed(message));
  }

  /** A session that arrives for a tab that has gone touches no store; it is closed again. */
  lemma OrphanReach(s: State, k: nat, r: OpenResult)
    requires k in s.jobs && forall i :: !IsTabOf(s.tabs, i, s.jobs[k].sid)
    ensures var t := SettleOpened(s, k, r);
            && t == s.(jobs := t.jobs, loops := t.loops, known := s.known + {r.sessionId},
                       obtained := s.obtained + {r.sessionId}, closeSent := s.closeSent + {r.sessionId})
            && (if s.jobs[k].phase == AwaitPlaceholder then CallEnded(s, t, k, true)
                else t.loops == s.loops && t.jobs == s.jobs[k := s.jobs[k].(phase := AwaitOrphanClose)])
  {
    NoTabFound(s.tabs, s.jobs[k].sid);
  }

  /** One that arrives for a tab still there ends the call and takes the old id out of the loop set. */
  lemma InstallReach(s: State, i: int, k: nat, r: OpenResult)
    requires k in s.jobs && Distinct(s.tabs) && IsTabOf(s.tabs, i, s.jobs[k].sid)
    ensures var t := SettleOpened(s, k, r);
            && t == s.(tabs := t.tabs, active := t.active, ui := t.ui, bufs := t.bufs, openError := None,
                       loopSet := s.loopSet - {s.jobs[k].sid}, jobs := t.jobs, loops := t.loops,
                       known := s.known + {r.sessionId}, obtained := s.obtained + {r.sessionId})
            && CallEnded(s, t, k, true)
  {
    TabFound(s.tabs, i, s.jobs[k].sid);
    var u := s.(known := s.known + {r.sessionId}, obtained := s.obtained + {r.sessionId});
    assert SettleOpened(s, k, r) == FinishJob(MarkConnected(u, s.jobs[k].sid, r), k, true);
    CallEnds(MarkConnected(u, s.jobs[k].sid, r), k, true);
  }

  // ---------------------------------------------------------------- loops

  /** A wake that finds a disconnected tab nobody is reconnecting sends a reconnect for its connection. */
  lemma AttemptReach(s: State, l: nat, i: int)
    requires l in s.loops && Distinct(s.tabs) && IsTabOf(s.tabs, i, s.loops[l].sid)
    requires s.tabs[i].disconnected && !s.tabs[i].reconnecting
    ensures var t, sid := WakeLoop(s, l), s.loops[l].sid;
            && t == s.(tabs := t.tabs, jobs := t.jobs, loops := t.loops, next := s.next + 1,
                       reconnectSent := s.reconnectSent + {sid})
            && OthersSame(s.tabs, t.tabs, sid) && t.tabs[i] == s.tabs[i].(reconnecting := true)
            && t.jobs == s.jobs[s.next := Job(sid, s.tabs[i].connectionId, AwaitReconnect, Some(l))]
            && t.loops == s.loops[l := s.loops[l].(phase := Attempting, attempts := s.loops[l].attempts + 1)]
  {
    TabFound(s.tabs, i, s.loops[l].sid);
    MappedAt(s.tabs, s.loops[l].sid, MarkReconnecting());
  }

  /** The loop is gone, and its id is out of the set; nothing else changes. */
  ghost predicate LoopEnded(s: State, t: State, l: nat)
    requires l in s.loops
  {
    t == s.(loops := s.loops - {l}, loopSet := s.loopSet - {s.loops[l].sid})
  }

  /** The loop sleeps again, that long. */
  ghost predicate SleepsAgain(s: State, t: State, l: nat, delayMs: nat)
    requires l in s.loops
  {
    && t == s.(loops := t.loops) && t.loops.Keys == s.loops.Keys
    && (forall m :: m in s.loops && m != l ==> t.loops[m] == s.loops[m])
    && t.loops[l].sid == s.loops[l].sid && t.loops[l].phase == Sleeping && t.loops[l].delayMs == delayMs
    && t.loops[l].attempts == s.loops[l].attempts && t.loops[l].slept == s.loops[l].slept + delayMs
  }

  /** Finding no tab, or a connected one, the loop ends; finding it busy it sleeps as long as before. */
  lemma IdleWakeReach(s: State, l: nat)
    requires l in s.loops && Distinct(s.tabs)
    ensures (forall i :: !IsTabOf(s.tabs, i, s.loops[l].sid)) ==> LoopEnded(s, WakeLoop(s, l), l)
    ensures forall i :: IsTabOf(s.tabs, i, s.loops[l].sid) && !s.tabs[i].disconnected
              ==> LoopEnded(s, WakeLoop(s, l), l)
    ensures forall i :: IsTabOf(s.tabs, i, s.loops[l].sid) && s.tabs[i].disconnected && s.tabs[i].reconnecting
              ==> if s.loops[l].sid in s.loopSet then SleepsAgain(s, WakeLoop(s, l), l, s.loops[l].delayMs)
                  else LoopEnded(s, WakeLoop(s, l), l)
  {
    if forall i :: !IsTabOf(s.tabs, i, s.loops[l].sid) { NoTabFound(s.tabs, s.loops[l].sid); }
    forall i | IsTabOf(s.tabs, i, s.loops[l].sid)
      ensures Lookup(s.tabs, s.loops[l].sid) == Some(s.tabs[i])
    {
      TabFound(s.tabs, i, s.loops[l].sid);
    }
  }

  /** After a success the loop ends; after a failure it sleeps twice as long, up to 30 s, while it is listed. */
  lemma ResumeReach(s: State, l: nat)
    requires l in s.loops && s.loops[l].phase.Settled?
    ensures var t, d := ResumeLoop(s, l), 2 * s.loops[l].delayMs;
            if s.loops[l].phase.ok || s.loops[l].sid !in s.loopSet then LoopEnded(s, t, l)
            else SleepsAgain(s, t, l, if d <= 30000 then d else 30000)
  {
  }

  // ---------------------------------------------------------------- adding and placeholders

  /** A new session's tab comes last and takes the focus; nothing else changes. */
  lemma AddingReach(s: State, r: OpenResult)
    requires Inv(s) && Fresh(s, r.sessionId) && r.terminalChannelId != ""
    ensures var t, name := AddTab(s, r), if r.name == "" then "session" else r.name;
            && t == s.(tabs := t.tabs, active := Some(r.sessionId), openError := None,
                       known := s.known + {r.sessionId}, obtained := s.obtained + {r.sessionId})
            && t.tabs == s.tabs + [Tab(r.sessionId, r.connectionId, r.terminalChannelId, name,
                                       false, false, false, None, false)]
  {
    LookupOpen(s.tabs, r.sessionId);
    WithoutAbsent(s.tabs, r.sessionId);
  }

  /** An incomplete result is only reported. */
  lemma IncompleteReach(s: State, r: OpenResult)
    requires r.sessionId == "" || r.terminalChannelId == ""
    ensures AddTab(s, r).openError.Some? && AddTab(s, r) == s.(openError := AddTab(s, r).openError)
  {
  }

  /** The placeholder comes last and takes the focus, and its open is in flight for its connection. */
  lemma PlaceholderReach(s: State, id: Id, connectionId: Id, name: string)
    ensures var t := OpenPlaceholder(s, id, connectionId, name);
            && t == s.(tabs := t.tabs, active := Some(id), openError := None, jobs := t.jobs, next := s.next + 1,
                       known := s.known + {id})
            && t.tabs == s.tabs + [Tab(id, connectionId, id, name, true, false, false, None, false)]
            && t.jobs == s.jobs[s.next := Job(id, connectionId, AwaitPlaceholder, None)]
  {
  }

  // ---------------------------------------------------------------- removing

  lemma {:induction false} TabsFiltered(tabs: seq<Tab>, sid: Id)
    ensures Filtered(tabs, Without(tabs, sid), (t: Tab) => t.sessionId != sid)
  {
    if tabs != [] {
      var rest := Without(tabs[1..], sid);
      TabsFiltered(tabs[1..], sid);
      FilteredCons(tabs[0], tabs[1..], rest, (t: Tab) => t.sessionId != sid);
      assert tabs == [tabs[0]] + tabs[1..];
      assert Without(tabs, sid) == (if tabs[0].sessionId != sid then [tabs[0]] else []) + rest;
    }
  }

  /** No editor, output, scrollback or loop entry of the session is left; all of the others' are. */
  ghost predicate Released(s: State, t: State, sid: Id) {
    && Filtered(s.ui.tabs, t.ui.tabs, (e: Ed.EditorTab) => e.sessionId != sid)
    && (Ed.Valid(s.ui) ==> Er.FocusLeaves(s.ui, t.ui, sid))
    && sid !in t.loopSet && t.loopSet + {sid} == s.loopSet + {sid}
    && sid !in t.bufs.fed && sid !in t.bufs.pending && sid !in t.bufs.history && sid !in t.bufs.carryover
    && (forall x :: x != sid ==>
          && Bu.Chunks(t.bufs.pending, x) == Bu.Chunks(s.bufs.pending, x)
          && Bu.Chunks(t.bufs.history, x) == Bu.Chunks(s.bufs.history, x)
          && Bu.Chunks(t.bufs.carryover, x) == Bu.Chunks(s.bufs.carryover, x)
          && (x in t.bufs.fed <==> x in s.bufs.fed))
  }

  /** closeTab cleans up before it awaits the backend: only the tab itself is still there. */
  lemma ClosingReach(s: State, sid: Id)
    ensures var t := BeginClose(s, sid);
            && t == s.(loopSet := t.loopSet, bufs := t.bufs, ui := t.ui, closes := t.closes, next := s.next + 1,
                       closeSent := s.closeSent + {sid})
            && Released(s, t, sid)
            && t.closes == s.closes[s.next := sid]
  {
    Er.CloseForSessionReach(s.ui, sid);
  }

  /**
   * Removing a session leaves no trace of it in any of the three stores, touches nothing of any other
   * session, and moves the focus, to the last tab, only if it was here.
   */
  lemma RemovalReach(s: State, sid: Id)
    ensures var t := RemoveTabLocal(s, sid);
            && t == s.(tabs := t.tabs, active := t.active, loopSet := t.loopSet, bufs := t.bufs, ui := t.ui)
            && Filtered(s.tabs, t.tabs, (x: Tab) => x.sessionId != sid)
            && Released(s, t, sid)
            && (s.active != Some(sid) ==> t.active == s.active)
            && (s.active == Some(sid) && t.tabs != [] ==> t.active == Some(t.tabs[|t.tabs| - 1].sessionId))
            && (s.active == Some(sid) && t.tabs == [] ==> t.active.None?)
  {
    TabsFiltered(s.tabs, sid);
    Er.CloseForSessionReach(s.ui, sid);
  }

  /** The end of a close, and the failure of a placeholder's open, remove the session and end their call. */
  lemma EndsReach(s: State, k: nat)
    ensures k in s.closes ==> EndClose(s, k) == RemoveTabLocal(s, s.closes[k]).(closes := s.closes - {k})
    ensures k in s.jobs ==> CallEnded(s, FailPlaceholder(s, k), k, false)
    ensures k in s.jobs ==>
              FailPlaceholder(s, k)
              == RemoveTabLocal(s, s.jobs[k].sid).(jobs := s.jobs - {k}, loops := FailPlaceholder(s, k).loops)
  {
    if k in s.jobs { CallEnds(RemoveTabLocal(s, s.jobs[k].sid), k, false); }
  }
}
