/** Every step of the session machine keeps its invariant. */
module SessionSteps {
  import opened Prelude
  import opened Sessions
  import opened SessionInvariant
  import Ed = EditorTabs
  import Ops = EditorTheorems
  import Bu = Buffers

  // ---------------------------------------------------------------- loops and jobs as maps

  lemma LoopAdded(loops: map<nat, Loop>, l: nat, p: Loop)
    requires l !in loops || loops[l].sid == p.sid
    ensures LoopSessions(loops[l := p]) == LoopSessions(loops) + {p.sid}
  {
    var after := loops[l := p];
    assert l in after && after[l].sid == p.sid;
    forall m | m in loops ensures loops[m].sid in LoopSessions(after) {
      assert m in after && after[m].sid == loops[m].sid;
    }
  }

  lemma LoopRemoved(loops: map<nat, Loop>, l: nat)
    requires l in loops
    requires forall i, m :: i in loops && m in loops && loops[i].sid == loops[m].sid ==> i == m
    ensures LoopSessions(loops - {l}) == LoopSessions(loops) - {loops[l].sid}
  {
    var after := loops - {l};
    forall x | x in LoopSessions(loops) && x != loops[l].sid ensures x in LoopSessions(after) {
      var m :| m in loops && loops[m].sid == x;
      assert m in after && after[m].sid == x;
    }
  }

  lemma JobAdded(jobs: map<nat, Job>, k: nat, j: Job)
    requires k !in jobs
    ensures JobSessions(jobs[k := j]) == JobSessions(jobs) + {j.sid}
    ensures InFlight(jobs[k := j]) == InFlight(jobs) + (if Unsettled(j) then {j.sid} else {})
  {
    var after := jobs[k := j];
    assert k in after && after[k] == j;
    forall m | m in jobs ensures jobs[m].sid in JobSessions(after) {
      assert m in after && after[m] == jobs[m];
    }
    forall m | m in jobs && Unsettled(jobs[m]) ensures jobs[m].sid in InFlight(after) {
      assert m in after && after[m] == jobs[m];
    }
  }

  /** Moving a job to another phase, or dropping it, matters to its own session only. */
  lemma JobChanged(jobs: map<nat, Job>, after: map<nat, Job>, k: nat)
    requires k in jobs
    requires after == jobs - {k} || (k in after && after == jobs[k := after[k]] && after[k].sid == jobs[k].sid)
    ensures JobSessions(after) <= JobSessions(jobs)
    ensures InFlight(jobs) - {jobs[k].sid} <= InFlight(after)
    ensures k in after && Unsettled(after[k]) ==> InFlight(jobs) <= InFlight(after)
  {
    forall x | x in InFlight(jobs) && x != jobs[k].sid ensures x in InFlight(after) {
      var m :| m in jobs && Unsettled(jobs[m]) && jobs[m].sid == x;
      assert m in after && after[m] == jobs[m];
    }
    forall x | x in JobSessions(after) ensures x in JobSessions(jobs) {
      var m :| m in after && after[m].sid == x;
      assert m in jobs && jobs[m].sid == x;
    }
    if k in after && Unsettled(after[k]) {
      assert after[k].sid in InFlight(after);
    }
  }

  /** A loop that awaits nothing comes, changes or goes. */
  lemma AwaitUnaffected(loops: map<nat, Loop>, after: map<nat, Loop>, jobs: map<nat, Job>, l: nat)
    requires LoopsAwait(loops, jobs)
    requires l in loops ==> loops[l].phase != Attempting
    requires after == loops - {l} || (l in after && after == loops[l := after[l]] && after[l].phase != Attempting)
    ensures LoopsAwait(after, jobs)
  {
  }

  /** A job awaited by no loop comes. */
  lemma AwaitWithJob(loops: map<nat, Loop>, jobs: map<nat, Job>, k: nat, j: Job)
    requires LoopsAwait(loops, jobs) && k !in jobs && j.loop.None?
    ensures LoopsAwait(loops, jobs[k := j])
  {
    var after := jobs[k := j];
    forall m | m in loops && loops[m].phase == Attempting ensures exists i :: AwaitedBy(after, i, m) {
      var i :| AwaitedBy(jobs, i, m);
      assert AwaitedBy(after, i, m);
    }
    assert forall i, m :: AwaitedBy(after, i, m) ==> AwaitedBy(jobs, i, m);
  }

  /** A loop begins an attempt and awaits a new job. */
  lemma AwaitBegins(loops: map<nat, Loop>, jobs: map<nat, Job>, l: nat, p: Loop, k: nat, j: Job)
    requires LoopsAwait(loops, jobs) && l in loops && loops[l].phase != Attempting
    requires k !in jobs && j.loop == Some(l) && j.sid == p.sid && p.phase == Attempting && j.phase == AwaitReconnect
    ensures LoopsAwait(loops[l := p], jobs[k := j])
  {
    var ls, js := loops[l := p], jobs[k := j];
    assert AwaitedBy(js, k, l);
    forall m | m in ls && ls[m].phase == Attempting ensures exists i :: AwaitedBy(js, i, m) {
      if m != l {
        var i :| AwaitedBy(jobs, i, m);
        assert AwaitedBy(js, i, m);
      }
    }
    assert forall i, m :: AwaitedBy(js, i, m) ==> (i == k && m == l) || AwaitedBy(jobs, i, m);
  }

  /** A job moves to another phase. */
  lemma AwaitPhase(loops: map<nat, Loop>, jobs: map<nat, Job>, k: nat, phase: Phase)
    requires LoopsAwait(loops, jobs) && k in jobs && phase != AwaitPlaceholder
    ensures LoopsAwait(loops, jobs[k := jobs[k].(phase := phase)])
  {
    var js := jobs[k := jobs[k].(phase := phase)];
    assert forall i, m :: AwaitedBy(js, i, m) <==> AwaitedBy(jobs, i, m);
  }

  /** A job ends and the loop awaiting it, if any, is settled. */
  lemma AwaitEnds(s: State, k: nat, ok: bool)
    requires LoopsAwait(s.loops, s.jobs) && k in s.jobs
    ensures LoopsAwait(FinishJob(s, k, ok).loops, FinishJob(s, k, ok).jobs)
  {
    var t := FinishJob(s, k, ok);
    if s.jobs[k].loop.Some? { assert AwaitedBy(s.jobs, k, s.jobs[k].loop.value); }
    assert forall i, m :: AwaitedBy(t.jobs, i, m) <==> i != k && AwaitedBy(s.jobs, i, m);
    forall m | m in t.loops && t.loops[m].phase == Attempting ensures exists i :: AwaitedBy(t.jobs, i, m) {
      var i :| AwaitedBy(s.jobs, i, m);
      assert AwaitedBy(t.jobs, i, m);
    }
  }

  lemma UniqueStarted(loops: map<nat, Loop>, starts: multiset<Id>, l: nat, p: Loop)
    requires LoopsUnique(loops, starts) && l !in loops && p.sid !in starts
    ensures LoopsUnique(loops[l := p], starts + multiset{p.sid})
  {
  }

  lemma UniqueUpdated(loops: map<nat, Loop>, starts: multiset<Id>, l: nat, p: Loop)
    requires LoopsUnique(loops, starts) && l in loops && p.sid == loops[l].sid
    ensures LoopsUnique(loops[l := p], starts)
    ensures LoopSessions(loops[l := p]) == LoopSessions(loops)
  {
    LoopAdded(loops, l, p);
    assert loops[l].sid in LoopSessions(loops);
  }

  // ---------------------------------------------------------------- building blocks

  /** New flags for open tabs, none of them back from being disconnected. */
  lemma RetabKeepsInv(s: State, after: seq<Tab>)
    requires Inv(s) && Distinct(after) && (after == [] <==> s.tabs == [])
    requires Open(after) == Open(s.tabs) && Lost(s.tabs) <= Lost(after) && Busy(after) <= InFlight(s.jobs)
    ensures Inv(s.(tabs := after))
  {
  }

  lemma NotStartedNotInSet(s: State, sid: Id)
    requires LoopsInv(s) && sid !in s.starts
    ensures sid !in s.loopSet
  {
  }

  lemma StartLoopKeepsInv(s: State, sid: Id)
    requires Inv(s) && sid in Lost(s.tabs) && sid in Open(s.tabs) && sid !in s.starts
    ensures Inv(StartLoop(s, sid))
  {
    if sid !in s.loopSet {
      StartLoopKeepsStores(s, sid);
      StartLoopKeepsLoops(s, sid);
    }
  }

  lemma StartLoopKeepsStores(s: State, sid: Id)
    requires StoresInv(s) && sid in Open(s.tabs) && sid !in s.loopSet
    ensures StoresInv(StartLoop(s, sid))
  {
  }

  lemma StartLoopKeepsLoops(s: State, sid: Id)
    requires LoopsInv(s) && s.next !in s.loops
    requires sid in Lost(s.tabs) && sid in Open(s.tabs) && sid !in s.starts && sid !in s.loopSet
    ensures LoopsInv(StartLoop(s, sid))
  {
    var t := StartLoop(s, sid);
    LoopAdded(s.loops, s.next, t.loops[s.next]);
    UniqueStarted(s.loops, s.starts, s.next, t.loops[s.next]);
    AwaitUnaffected(s.loops, t.loops, s.jobs, s.next);
  }

  lemma FinishLoopKeepsInv(s: State, l: nat)
    requires Inv(s) && l in s.loops && s.loops[l].phase != Attempting
    requires s.loops[l].sid !in Open(s.tabs) || s.loops[l].sid !in s.loopSet
    ensures Inv(FinishLoop(s, l))
  {
    var t := FinishLoop(s, l);
    LoopRemoved(s.loops, l);
    AwaitUnaffected(s.loops, t.loops, s.jobs, l);
  }

  lemma UpdateLoopKeepsInv(s: State, l: nat, p: Loop)
    requires Inv(s) && l in s.loops && s.loops[l].phase != Attempting
    requires p.sid == s.loops[l].sid && p.phase == Sleeping
    ensures Inv(s.(loops := s.loops[l := p]))
  {
    UniqueUpdated(s.loops, s.starts, l, p);
    AwaitUnaffected(s.loops, s.loops[l := p], s.jobs, l);
  }

  lemma ContinueLoopKeepsInv(s: State, l: nat, p: Loop)
    requires Inv(s) && l in s.loops && s.loops[l].phase != Attempting && p.sid == s.loops[l].sid
    ensures Inv(ContinueLoop(s, l, p))
  {
    if p.sid in s.loopSet {
      var q := p.(phase := Sleeping, slept := p.slept + p.delayMs);
      assert ContinueLoop(s, l, p) == s.(loops := s.loops[l := q]);
      UpdateLoopKeepsInv(s, l, q);
    } else {
      assert ContinueLoop(s, l, p) == FinishLoop(s, l);
      FinishLoopKeepsInv(s, l);
    }
  }

  lemma FinishJobKeepsLoops(s: State, k: nat, ok: bool)
    requires LoopsInv(s) && k in s.jobs
    requires ok ==> s.jobs[k].sid !in Open(s.tabs)
    ensures LoopsInv(FinishJob(s, k, ok))
    ensures LoopSessions(FinishJob(s, k, ok).loops) == LoopSessions(s.loops)
    ensures FinishJob(s, k, ok).loops.Keys == s.loops.Keys
  {
    var t := FinishJob(s, k, ok);
    var j := s.jobs[k];
    AwaitEnds(s, k, ok);
    if j.loop.Some? {
      assert AwaitedBy(s.jobs, k, j.loop.value);
      UniqueUpdated(s.loops, s.starts, j.loop.value, t.loops[j.loop.value]);
    }
  }

  /** A call may end once no tab depends on it. */
  lemma FinishJobKeepsInv(s: State, k: nat, ok: bool)
    requires Inv(s) && k in s.jobs
    requires ok ==> s.jobs[k].sid !in Open(s.tabs)
    requires s.jobs[k].sid !in Busy(s.tabs)
    ensures Inv(FinishJob(s, k, ok))
  {
    var t := FinishJob(s, k, ok);
    JobChanged(s.jobs, t.jobs, k);
    FinishJobKeepsLoops(s, k, ok);
    assert StoresInv(t);
  }

  lemma RemoveKeepsTidy(tabs: seq<Tab>, active: Option<Id>, sid: Id)
    requires Tidy(tabs, active)
    ensures Tidy(Without(tabs, sid), if active == Some(sid) then LastSession(Without(tabs, sid)) else active)
  {
    WithoutSets(tabs, sid);
    var after := Without(tabs, sid);
    if after != [] { LookupOpen(after, after[|after| - 1].sessionId); }
  }

  lemma RemoveKeepsInv(s: State, sid: Id)
    requires Inv(s)
    requires sid in s.obtained ==> sid in s.closeSent || sid in s.reconnectSent
    ensures Inv(RemoveTabLocal(s, sid))
    ensures sid !in Open(RemoveTabLocal(s, sid).tabs)
  {
    var t := RemoveTabLocal(s, sid);
    WithoutSets(s.tabs, sid);
    RemoveKeepsTidy(s.tabs, s.active, sid);
    Ops.CloseForSessionKeepsValid(s.ui, sid);
    assert StoresInv(t);
    assert LoopsInv(t);
  }

  /** The state in which a reconnect or an open has installed the session it obtained. */
  function Installed(s: State, oldId: Id, r: OpenResult): State {
    MarkConnected(s.(known := s.known + {r.sessionId}, obtained := s.obtained + {r.sessionId}), oldId, r)
  }

  lemma InstallKeepsInv(s: State, oldId: Id, r: OpenResult)
    requires Inv(s) && Fresh(s, r.sessionId) && Lookup(s.tabs, oldId).Some?
    requires oldId in s.obtained ==> oldId in s.reconnectSent
    ensures Inv(Installed(s, oldId, r))
    ensures Open(Installed(s, oldId, r).tabs) == Open(s.tabs) - {oldId} + {r.sessionId}
    ensures Busy(Installed(s, oldId, r).tabs) == Busy(s.tabs) - {oldId}
  {
    var t := Installed(s, oldId, r);
    LookupOpen(s.tabs, oldId);
    RenamedSets(s.tabs, oldId, r);
    ReboundHoused(s.ui, Open(s.tabs), oldId, r.sessionId, s.known);
    InstallKeepsJobs(s.jobs, s.known, s.obtained, s.reconnectSent, r.sessionId);
    assert StoresInv(t);
    InstallKeepsLoops(s, oldId, r);
  }

  /** A fresh id is in no job yet. */
  lemma InstallKeepsJobs(jobs: map<nat, Job>, known: set<Id>, obtained: set<Id>, reconnectSent: set<Id>, newId: Id)
    requires JobsSent(jobs, obtained, reconnectSent) && JobSessions(jobs) <= known && newId !in known
    ensures JobsSent(jobs, obtained + {newId}, reconnectSent)
  {
  }

  lemma InstallKeepsLoops(s: State, oldId: Id, r: OpenResult)
    requires LoopsInv(s) && Recorded(s) && Distinct(s.tabs) && Fresh(s, r.sessionId) && Lookup(s.tabs, oldId).Some?
    ensures LoopsInv(Installed(s, oldId, r))
  {
    LookupOpen(s.tabs, oldId);
    RenamedSets(s.tabs, oldId, r);
    RenamedLoops(s, oldId, r.sessionId);
  }

  /** The loops of the other sessions are as they were, and the renamed session leaves the set. */
  lemma RenamedLoops(s: State, oldId: Id, newId: Id)
    requires LoopsInv(s) && Recorded(s) && newId !in s.known && oldId in Open(s.tabs)
    ensures var open := Open(s.tabs) - {oldId} + {newId};
            && s.loopSet - {oldId} <= open * LoopSessions(s.loops)
            && LoopsKept(s.starts, open, Lost(s.tabs) - {oldId}, Closing(s.closes), s.loopSet - {oldId})
            && JobsGone(s.jobs, open) && LoopsGone(s.loops, open)
  {
    assert forall k :: k in s.jobs ==> s.jobs[k].sid in JobSessions(s.jobs);
    assert forall l :: l in s.loops ==> s.loops[l].sid in LoopSessions(s.loops);
  }

  lemma ReboundHoused(ui: Ed.Editors, open: set<Id>, oldId: Id, newId: Id, known: set<Id>)
    requires EditorsHoused(ui, open) && open <= known && newId !in known && ColonFree(newId)
    requires forall sid :: sid in known ==> ColonFree(sid)
    ensures EditorsHoused(Ed.Rebind(ui, oldId, newId), open - {oldId} + {newId})
  {
    Ops.NotShared(ui.tabs, oldId, newId);
    Ops.RebindValidIff(ui, oldId, newId);
    ReboundSessions(ui.tabs, open, oldId, newId);
  }

  lemma ReboundSessions(tabs: seq<Ed.EditorTab>, open: set<Id>, oldId: Id, newId: Id)
    requires forall e :: e in tabs ==> e.sessionId in open
    ensures forall e :: e in Ed.RebindTabs(tabs, oldId, newId) ==> e.sessionId in open - {oldId} + {newId}
  {
  }

  // ---------------------------------------------------------------- steps

  lemma AddTabKeepsInv(s: State, r: OpenResult)
    requires Inv(s) && CanAdd(s, r)
    ensures Inv(AddTab(s, r))
  {
    if r.sessionId != "" && r.terminalChannelId != "" {
      AddTabKeepsStores(s, r);
      AddTabKeepsLoops(s, r);
    }
  }

  lemma AddTabKeepsStores(s: State, r: OpenResult)
    requires StoresInv(s) && Fresh(s, r.sessionId) && r.terminalChannelId != ""
    ensures StoresInv(AddTab(s, r))
  {
    var t := AddTab(s, r);
    LookupOpen(s.tabs, r.sessionId);
    WithoutAbsent(s.tabs, r.sessionId);
    AppendedFlags(s.tabs, t.tabs[|t.tabs| - 1]);
    InstallKeepsJobs(s.jobs, s.known, s.obtained, s.reconnectSent, r.sessionId);
  }

  lemma AddTabKeepsLoops(s: State, r: OpenResult)
    requires LoopsInv(s) && Recorded(s) && Fresh(s, r.sessionId) && r.terminalChannelId != ""
    ensures LoopsInv(AddTab(s, r))
  {
    var t := AddTab(s, r);
    LookupOpen(s.tabs, r.sessionId);
    WithoutAbsent(s.tabs, r.sessionId);
    AppendedFlags(s.tabs, t.tabs[|t.tabs| - 1]);
    assert forall k :: k in s.jobs ==> s.jobs[k].sid in JobSessions(s.jobs);
    assert forall l :: l in s.loops ==> s.loops[l].sid in LoopSessions(s.loops);
  }

  lemma PlaceholderKeepsStores(s: State, id: Id, connectionId: Id, name: string)
    requires StoresInv(s) && Fresh(s, id)
    ensures StoresInv(OpenPlaceholder(s, id, connectionId, name))
  {
    var t := OpenPlaceholder(s, id, connectionId, name);
    LookupOpen(s.tabs, id);
    AppendedFlags(s.tabs, t.tabs[|t.tabs| - 1]);
    JobAdded(s.jobs, s.next, t.jobs[s.next]);
  }

  lemma PlaceholderKeepsLoops(s: State, id: Id, connectionId: Id, name: string)
    requires Inv(s) && Fresh(s, id)
    ensures LoopsInv(OpenPlaceholder(s, id, connectionId, name))
  {
    var t := OpenPlaceholder(s, id, connectionId, name);
    AppendedFlags(s.tabs, t.tabs[|t.tabs| - 1]);
    AwaitWithJob(s.loops, s.jobs, s.next, t.jobs[s.next]);
    assert forall k :: k in s.jobs ==> s.jobs[k].sid in JobSessions(s.jobs);
    assert forall l :: l in s.loops ==> s.loops[l].sid in LoopSessions(s.loops);
  }

  lemma FailPlaceholderKeepsInv(s: State, k: nat)
    requires Inv(s) && k in s.jobs && s.jobs[k].phase == AwaitPlaceholder
    ensures Inv(FailPlaceholder(s, k))
  {
    var t := RemoveTabLocal(s, s.jobs[k].sid);
    RemoveKeepsInv(s, s.jobs[k].sid);
    FlagsOpen(t.tabs);
    FinishJobKeepsInv(t, k, false);
  }

  lemma CloseAdded(closes: map<nat, Id>, k: nat, sid: Id)
    requires k !in closes
    ensures Closing(closes[k := sid]) == Closing(closes) + {sid}
  {
    var after := closes[k := sid];
    assert after[k] == sid;
    forall x | x in Closing(closes) ensures x in Closing(after) {
      var i :| i in closes && closes[i] == x;
      assert after[i] == x;
    }
  }

  lemma BeginCloseKeepsInv(s: State, sid: Id)
    requires Inv(s) && sid in s.known
    ensures Inv(BeginClose(s, sid))
  {
    var t := BeginClose(s, sid);
    Ops.CloseForSessionKeepsValid(s.ui, sid);
    CloseAdded(s.closes, s.next, sid);
    assert StoresInv(t);
    assert LoopsInv(t);
  }

  lemma EndCloseKeepsInv(s: State, k: nat)
    requires Inv(s) && k in s.closes
    ensures Inv(EndClose(s, k))
  {
    var sid := s.closes[k];
    assert sid in Closing(s.closes);
    RemoveKeepsInv(s, sid);
    var after := s.closes - {k};
    forall x | x in Closing(s.closes) && x != sid ensures x in Closing(after) {
      var i :| i in s.closes && s.closes[i] == x;
      assert i in after && after[i] == x;
    }
  }

  lemma DisconnectKeepsInv(s: State, sid: Id, reason: Option<string>, autoReconnect: bool)
    requires Inv(s)
    ensures Inv(MarkDisconnected(s, sid, reason, autoReconnect))
  {
    var tab := Lookup(s.tabs, sid);
    if tab.Some? {
      if tab.value.disconnected { KnownLossKeepsInv(s, sid, reason, autoReconnect); }
      else { NewLossKeepsInv(s, sid, reason, autoReconnect); }
    }
  }

  lemma KnownLossKeepsInv(s: State, sid: Id, reason: Option<string>, autoReconnect: bool)
    requires Inv(s) && Lookup(s.tabs, sid).Some? && Lookup(s.tabs, sid).value.disconnected
    ensures Inv(MarkDisconnected(s, sid, reason, autoReconnect))
  {
    LookupFlags(s.tabs, sid);
    if reason.Some? {
      MappedSets(s.tabs, sid, MarkReason(reason.value));
      RetabKeepsInv(s, Mapped(s.tabs, sid, MarkReason(reason.value)));
    }
  }

  /** The tab list with the session's tab lost. */
  lemma LossKeepsInv(s: State, sid: Id, reason: Option<string>)
    requires Inv(s) && Lookup(s.tabs, sid).Some? && !Lookup(s.tabs, sid).value.disconnected
    ensures var t := s.(tabs := Mapped(s.tabs, sid, MarkLost(reason)));
            Inv(t) && sid in Lost(t.tabs) && sid in Open(t.tabs) && sid !in t.starts && sid !in t.loopSet
  {
    LookupFlags(s.tabs, sid);
    MappedSets(s.tabs, sid, MarkLost(reason));
    RetabKeepsInv(s, Mapped(s.tabs, sid, MarkLost(reason)));
    NotStartedNotInSet(s, sid);
  }

  lemma NewLossKeepsInv(s: State, sid: Id, reason: Option<string>, autoReconnect: bool)
    requires Inv(s) && Lookup(s.tabs, sid).Some? && !Lookup(s.tabs, sid).value.disconnected
    ensures Inv(MarkDisconnected(s, sid, reason, autoReconnect))
  {
    var lost := s.(tabs := Mapped(s.tabs, sid, MarkLost(reason)));
    LossKeepsInv(s, sid, reason);
    if autoReconnect {
      StartLoopKeepsInv(lost, sid);
      assert MarkDisconnected(s, sid, reason, autoReconnect) == StartLoop(lost, sid);
    } else {
      assert MarkDisconnected(s, sid, reason, autoReconnect) == lost;
    }
  }

  lemma BeginReconnectKeepsStores(s: State, tab: Tab, loop: Option<nat>)
    requires StoresInv(s) && Lookup(s.tabs, tab.sessionId) == Some(tab)
    ensures StoresInv(BeginReconnect(s, tab, loop))
    ensures Open(BeginReconnect(s, tab, loop).tabs) == Open(s.tabs)
    ensures Lost(BeginReconnect(s, tab, loop).tabs) == Lost(s.tabs)
  {
    var t := BeginReconnect(s, tab, loop);
    LookupFlags(s.tabs, tab.sessionId);
    MappedSets(s.tabs, tab.sessionId, MarkReconnecting());
    JobAdded(s.jobs, s.next, t.jobs[s.next]);
  }

  lemma RequestReconnectKeepsInv(s: State, sid: Id)
    requires Inv(s)
    ensures Inv(RequestReconnect(s, sid))
  {
    if Lookup(s.tabs, sid).Some? && !Lookup(s.tabs, sid).value.reconnecting {
      var t := RequestReconnect(s, sid);
      LookupOpen(s.tabs, sid);
      BeginReconnectKeepsStores(s, Lookup(s.tabs, sid).value, None);
      AwaitWithJob(s.loops, s.jobs, s.next, t.jobs[s.next]);
      assert LoopsInv(t);
    }
  }

  lemma FallBackKeepsInv(s: State, k: nat)
    requires Inv(s) && k in s.jobs && s.jobs[k].phase == AwaitReconnect
    ensures Inv(FallBackToOpen(s, k))
  {
    var t := FallBackToOpen(s, k);
    JobChanged(s.jobs, t.jobs, k);
    AwaitPhase(s.loops, s.jobs, k, AwaitOpen);
  }

  // What an arriving session does, part by part.

  /** It ends the call for it, or turns it into one that only closes, and its tab comes up, if it is there. */
  lemma SettledJobs(s: State, k: nat, r: OpenResult)
    requires k in s.jobs
    ensures SettleOpened(s, k, r).jobs
         == if Lookup(s.tabs, s.jobs[k].sid).Some? || s.jobs[k].phase == AwaitPlaceholder then s.jobs - {k}
            else s.jobs[k := s.jobs[k].(phase := AwaitOrphanClose)]
    ensures SettleOpened(s, k, r).tabs
         == if Lookup(s.tabs, s.jobs[k].sid).Some? then Mapped(s.tabs, s.jobs[k].sid, Reconnected(r)) else s.tabs
  {
    var t := s.(known := s.known + {r.sessionId}, obtained := s.obtained + {r.sessionId});
    if Lookup(s.tabs, s.jobs[k].sid).Some? {
      assert SettleOpened(s, k, r) == FinishJob(MarkConnected(t, s.jobs[k].sid, r), k, true);
    }
  }

  /** The buffers are handed over, if the tab is still there, and the id is recorded. */
  lemma SettledBuffers(s: State, k: nat, r: OpenResult)
    requires k in s.jobs
    ensures SettleOpened(s, k, r).bufs
         == if Lookup(s.tabs, s.jobs[k].sid).Some? then Bu.Stash(s.bufs, s.jobs[k].sid, r.sessionId) else s.bufs
    ensures SettleOpened(s, k, r).known == s.known + {r.sessionId}
    ensures SettleOpened(s, k, r).starts == s.starts
  {
  }

  /** The id counts as obtained, and is sent back to be closed if the tab has gone. */
  lemma SettledIds(s: State, k: nat, r: OpenResult)
    requires k in s.jobs
    ensures SettleOpened(s, k, r).obtained == s.obtained + {r.sessionId}
    ensures SettleOpened(s, k, r).reconnectSent == s.reconnectSent
    ensures SettleOpened(s, k, r).closeSent
         == if Lookup(s.tabs, s.jobs[k].sid).Some? then s.closeSent else s.closeSent + {r.sessionId}
  {
  }

  /** The session obtained for a tab that has gone, noted and on its way to be closed. */
  function Orphaned(s: State, r: OpenResult): State {
    s.(known := s.known + {r.sessionId},
       obtained := s.obtained + {r.sessionId},
       closeSent := s.closeSent + {r.sessionId})
  }

  lemma OrphanedKeepsInv(s: State, r: OpenResult)
    requires Inv(s) && Fresh(s, r.sessionId)
    ensures Inv(Orphaned(s, r))
  {
    InstallKeepsJobs(s.jobs, s.known, s.obtained, s.reconnectSent, r.sessionId);
  }

  lemma OrphanKeepsInv(s: State, k: nat, r: OpenResult)
    requires Inv(s) && CanArrive(s, k, r) && Lookup(s.tabs, s.jobs[k].sid).None?
    ensures Inv(SettleOpened(s, k, r))
  {
    var j := s.jobs[k];
    var t := Orphaned(s, r);
    LookupOpen(s.tabs, j.sid);
    FlagsOpen(s.tabs);
    OrphanedKeepsInv(s, r);
    if j.phase == AwaitPlaceholder {
      FinishJobKeepsInv(t, k, true);
    } else {
      ToOrphanClose(t, k);
      assert SettleOpened(s, k, r) == t.(jobs := t.jobs[k := j.(phase := AwaitOrphanClose)]);
    }
  }

  lemma ToOrphanClose(s: State, k: nat)
    requires Inv(s) && k in s.jobs && s.jobs[k].sid !in Open(s.tabs) && s.jobs[k].phase != AwaitPlaceholder
    ensures Inv(s.(jobs := s.jobs[k := s.jobs[k].(phase := AwaitOrphanClose)]))
  {
    var after := s.jobs[k := s.jobs[k].(phase := AwaitOrphanClose)];
    FlagsOpen(s.tabs);
    JobChanged(s.jobs, after, k);
    AwaitPhase(s.loops, s.jobs, k, AwaitOrphanClose);
  }

  lemma OpenedKeepsInv(s: State, k: nat, r: OpenResult)
    requires Inv(s) && CanArrive(s, k, r)
    ensures Inv(SettleOpened(s, k, r))
  {
    var sid := s.jobs[k].sid;
    if Lookup(s.tabs, sid).Some? {
      LookupOpen(s.tabs, sid);
      assert sid in JobSessions(s.jobs);
      InstallKeepsInv(s, sid, r);
      FinishJobKeepsInv(Installed(s, sid, r), k, true);
    } else {
      OrphanKeepsInv(s, k, r);
    }
  }

  lemma FailedKeepsInv(s: State, k: nat, message: string)
    requires Inv(s) && k in s.jobs && s.jobs[k].phase == AwaitOpen
    ensures Inv(SettleFailed(s, k, message))
  {
    var sid := s.jobs[k].sid;
    LookupOpen(s.tabs, sid);
    FlagsOpen(s.tabs);
    if Lookup(s.tabs, sid).Some? {
      var after := Mapped(s.tabs, sid, MarkFailed(message));
      MappedSets(s.tabs, sid, MarkFailed(message));
      RetabKeepsInv(s, after);
      FinishJobKeepsInv(s.(tabs := after), k, false);
    } else {
      UnmappedSame(s.tabs, sid, MarkFailed(message));
      FinishJobKeepsInv(s, k, false);
    }
  }

  lemma AttemptKeepsLoops(s: State, l: nat, tab: Tab)
    requires LoopsInv(s) && Distinct(s.tabs) && s.next !in s.jobs
    requires l in s.loops && s.loops[l].phase == Sleeping && Lookup(s.tabs, s.loops[l].sid) == Some(tab)
    ensures LoopsInv(AttemptReconnect(s, l, tab))
  {
    var t := AttemptReconnect(s, l, tab);
    LookupFlags(s.tabs, tab.sessionId);
    MappedSets(s.tabs, tab.sessionId, MarkReconnecting());
    UniqueUpdated(s.loops, s.starts, l, t.loops[l]);
    AwaitBegins(s.loops, s.jobs, l, t.loops[l], s.next, t.jobs[s.next]);
  }

  lemma AttemptKeepsStores(s: State, l: nat, tab: Tab)
    requires Inv(s) && l in s.loops && s.loops[l].phase == Sleeping && Lookup(s.tabs, s.loops[l].sid) == Some(tab)
    ensures StoresInv(AttemptReconnect(s, l, tab))
  {
    var q := AttemptReconnect(s, l, tab).loops[l];
    UniqueUpdated(s.loops, s.starts, l, q);
    BeginReconnectKeepsStores(s.(loops := s.loops[l := q]), tab, Some(l));
  }

  lemma SkipKeepsInv(s: State, l: nat)
    requires Inv(s) && l in s.loops && s.loops[l].phase == Sleeping
    ensures Inv(SkipAttempt(s, l))
  {
    var p := s.loops[l];
    var q := p.(skipped := p.skipped + p.delayMs);
    assert SkipAttempt(s, l) == ContinueLoop(s, l, q);
    ContinueLoopKeepsInv(s, l, q);
  }

  lemma WakeKeepsInv(s: State, l: nat)
    requires Inv(s) && l in s.loops && s.loops[l].phase == Sleeping
    ensures Inv(WakeLoop(s, l))
  {
    var p := s.loops[l];
    LookupFlags(s.tabs, p.sid);
    match Lookup(s.tabs, p.sid) {
      case None => FinishLoopKeepsInv(s, l);
      case Some(tab) =>
        if !tab.disconnected {
          FinishLoopKeepsInv(s, l);
        } else if tab.reconnecting {
          SkipKeepsInv(s, l);
        } else {
          AttemptKeepsStores(s, l, tab);
          AttemptKeepsLoops(s, l, tab);
        }
    }
  }

  lemma ResumeKeepsInv(s: State, l: nat)
    requires Inv(s) && l in s.loops && s.loops[l].phase.Settled?
    ensures Inv(ResumeLoop(s, l))
  {
    if s.loops[l].phase.ok {
      FinishLoopKeepsInv(s, l);
    } else {
      ContinueLoopKeepsInv(s, l, s.loops[l].(delayMs := NextDelay(s.loops[l].delayMs)));
    }
  }

  lemma EditorKeepsInv(s: State, edit: Ops.EditorOp)
    requires Inv(s) && CanEdit(s, edit)
    ensures Inv(s.(ui := Ops.Apply(s.ui, edit)))
  {
    if edit.OpOpen? { LookupOpen(s.tabs, edit.sessionId); }
    Ops.ApplyKeepsValid(s.ui, edit);
    EditsHoused(s.ui, edit, Open(s.tabs));
  }

  lemma EditsHoused(ui: Ed.Editors, edit: Ops.EditorOp, open: set<Id>)
    requires forall t :: t in ui.tabs ==> t.sessionId in open
    requires !edit.OpRebind? && (edit.OpOpen? ==> edit.sessionId in open)
    ensures forall t :: t in Ops.Apply(ui, edit).tabs ==> t.sessionId in open
  {
  }

  lemma ToggleSyncKeepsInv(s: State, sid: Id)
    requires Inv(s)
    ensures Inv(s.(tabs := Mapped(s.tabs, sid, ToggleSynced())))
  {
    LookupFlags(s.tabs, sid);
    if Lookup(s.tabs, sid).Some? {
      MappedSets(s.tabs, sid, ToggleSynced());
      RetabKeepsInv(s, Mapped(s.tabs, sid, ToggleSynced()));
    } else {
      UnmappedSame(s.tabs, sid, ToggleSynced());
    }
  }

  /** The actions on tabs that are not part of a call for a session: neither its settling nor a loop. */
  predicate IsTabAction(step: Step) {
    step.AddTabStep? || step.SetActiveStep? || step.ToggleSyncStep? || step.PlaceholderStep? || step.BeginCloseStep?
    || step.EndCloseStep? || step.DisconnectStep? || step.RequestReconnectStep?
  }

  lemma TabStepKeepsInv(s: State, step: Step)
    requires Inv(s) && Enabled(s, step) && IsTabAction(step)
    ensures Inv(Next(s, step))
  {
    match step {
      case AddTabStep(r) => AddTabKeepsInv(s, r);
      case SetActiveStep(sid) => LookupOpen(s.tabs, sid);
      case ToggleSyncStep(sid) => ToggleSyncKeepsInv(s, sid);
      case PlaceholderStep(id, connectionId, name) =>
        PlaceholderKeepsStores(s, id, connectionId, name);
        PlaceholderKeepsLoops(s, id, connectionId, name);
      case BeginCloseStep(sid) => BeginCloseKeepsInv(s, sid);
      case EndCloseStep(k) => EndCloseKeepsInv(s, k);
      case DisconnectStep(sid, reason, autoReconnect) => DisconnectKeepsInv(s, sid, reason, autoReconnect);
      case RequestReconnectStep(sid) => RequestReconnectKeepsInv(s, sid);
    }
  }

  predicate SettlesJob(step: Step) {
    step.PlaceholderFailedStep? || step.FallBackStep? || step.OpenedStep? || step.FailedStep? || step.OrphanClosedStep?
  }

  lemma JobStepKeepsInv(s: State, step: Step)
    requires Inv(s) && Enabled(s, step) && SettlesJob(step)
    ensures Inv(Next(s, step))
  {
    match step {
      case PlaceholderFailedStep(k) => FailPlaceholderKeepsInv(s, k);
      case FallBackStep(k) => FallBackKeepsInv(s, k);
      case OpenedStep(k, r) => OpenedKeepsInv(s, k, r);
      case FailedStep(k, message) => FailedKeepsInv(s, k, message);
      case OrphanClosedStep(k) => FlagsOpen(s.tabs); FinishJobKeepsInv(s, k, true);
    }
  }

  lemma OtherStepKeepsInv(s: State, step: Step)
    requires Inv(s) && Enabled(s, step) && !IsTabAction(step) && !SettlesJob(step)
    ensures Inv(Next(s, step))
  {
    match step {
      case WakeStep(l) => WakeKeepsInv(s, l);
      case ResumeStep(l) => ResumeKeepsInv(s, l);
      case EditorStep(edit) => EditorKeepsInv(s, edit);
      case BufferStep(op) =>
    }
  }

  /** The invariant is inductive. */
  lemma StepKeepsInv(s: State, step: Step)
    requires Inv(s) && Enabled(s, step)
    ensures Inv(Next(s, step))
  {
    if IsTabAction(step) { TabStepKeepsInv(s, step); }
    else if SettlesJob(step) { JobStepKeepsInv(s, step); }
    else { OtherStepKeepsInv(s, step); }
  }
}
