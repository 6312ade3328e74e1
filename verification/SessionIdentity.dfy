/**
 * What stays fixed over a run: which connection, channel and name a session's tab shows for as long as
 * it has one, and which connection a call in flight is for.
 */
module SessionIdentity {
  import opened Prelude
  import opened Sessions
  import opened SessionInvariant
  import opened SessionSteps
  import opened SessionTheorems
  import opened SessionLoops
  import opened SessionConservation
  import opened SessionReach

  // ---------------------------------------------------------------- tabs

  /** A tab of a session that was open before is of the same connection, channel and name. */
  ghost predicate TabsKept(before: seq<Tab>, after: seq<Tab>) {
    forall b :: b in after && b.sessionId in Open(before) ==> exists a :: a in before && SameIdentity(a, b)
  }

  ghost predicate KeepsIdentity(update: Tab -> Tab) {
    forall t: Tab :: SameIdentity(t, update(t))
  }

  lemma MappedKept(tabs: seq<Tab>, sid: Id, update: Tab -> Tab)
    requires KeepsIdentity(update)
    ensures TabsKept(tabs, Mapped(tabs, sid, update))
  {
    var after := Mapped(tabs, sid, update);
    MappedAt(tabs, sid, update);
    forall b | b in after ensures exists a :: a in tabs && SameIdentity(a, b) {
      var i :| 0 <= i < |after| && after[i] == b;
      assert tabs[i] in tabs && SameIdentity(tabs[i], b);
    }
  }

  lemma WithoutKept(tabs: seq<Tab>, sid: Id)
    ensures TabsKept(tabs, Without(tabs, sid))
  {
    TabsFiltered(tabs, sid);
  }

  lemma AppendedKept(tabs: seq<Tab>, t: Tab)
    requires t.sessionId !in Open(tabs)
    ensures TabsKept(tabs, tabs + [t])
  {
  }

  lemma RenamedKept(tabs: seq<Tab>, oldId: Id, r: OpenResult)
    requires r.sessionId !in Open(tabs)
    ensures TabsKept(tabs, Mapped(tabs, oldId, Reconnected(r)))
  {
    var after := Mapped(tabs, oldId, Reconnected(r));
    MappedAt(tabs, oldId, Reconnected(r));
    forall b | b in after && b.sessionId in Open(tabs) ensures exists a :: a in tabs && SameIdentity(a, b) {
      var i :| 0 <= i < |after| && after[i] == b;
      assert tabs[i] in tabs && SameIdentity(tabs[i], b);
    }
  }

  lemma ActionKeepsTabs(s: State, step: Step)
    requires StoresInv(s) && Enabled(s, step) && IsTabAction(step)
    ensures TabsKept(s.tabs, Next(s, step).tabs)
  {
    match step {
      case AddTabStep(r) => AddingKeepsTabs(s, r);
      case ToggleSyncStep(sid) => MappedKept(s.tabs, sid, ToggleSynced());
      case PlaceholderStep(id, connectionId, name) =>
        AppendedKept(s.tabs, Tab(id, connectionId, id, name, true, false, false, None, false));
      case EndCloseStep(k) => WithoutKept(s.tabs, s.closes[k]);
      case DisconnectStep(sid, reason, autoReconnect) => DisconnectKeepsTabs(s, sid, reason, autoReconnect);
      case RequestReconnectStep(sid) => MappedKept(s.tabs, sid, MarkReconnecting());
      case _ =>
    }
  }

  lemma AddingKeepsTabs(s: State, r: OpenResult)
    requires StoresInv(s) && CanAdd(s, r)
    ensures TabsKept(s.tabs, AddTab(s, r).tabs)
  {
    if r.sessionId != "" && r.terminalChannelId != "" {
      LookupOpen(s.tabs, r.sessionId);
      WithoutAbsent(s.tabs, r.sessionId);
      AppendedKept(s.tabs, AddTab(s, r).tabs[|s.tabs|]);
    }
  }

  lemma DisconnectKeepsTabs(s: State, sid: Id, reason: Option<string>, autoReconnect: bool)
    ensures TabsKept(s.tabs, MarkDisconnected(s, sid, reason, autoReconnect).tabs)
  {
    MappedKept(s.tabs, sid, MarkLost(reason));
    if reason.Some? { MappedKept(s.tabs, sid, MarkReason(reason.value)); }
  }

  lemma ArrivalKeepsTabs(s: State, k: nat, r: OpenResult)
    requires k in s.jobs && Open(s.tabs) <= s.known && r.sessionId !in s.known
    ensures TabsKept(s.tabs, SettleOpened(s, k, r).tabs)
  {
    SettledJobs(s, k, r);
    RenamedKept(s.tabs, s.jobs[k].sid, r);
  }

  lemma SettlingKeepsTabs(s: State, step: Step)
    requires Open(s.tabs) <= s.known && Enabled(s, step) && SettlesJob(step)
    ensures TabsKept(s.tabs, Next(s, step).tabs)
  {
    match step {
      case PlaceholderFailedStep(k) => WithoutKept(s.tabs, s.jobs[k].sid);
      case OpenedStep(k, r) => ArrivalKeepsTabs(s, k, r);
      case FailedStep(k, message) => MappedKept(s.tabs, s.jobs[k].sid, MarkFailed(message));
      case _ =>
    }
  }

  lemma OtherStepKeepsTabs(s: State, step: Step)
    requires Enabled(s, step) && !IsTabAction(step) && !SettlesJob(step)
    ensures TabsKept(s.tabs, Next(s, step).tabs)
  {
    if step.WakeStep? { MappedKept(s.tabs, s.loops[step.loop].sid, MarkReconnecting()); }
  }

  lemma StepKeepsTabs(s: State, step: Step)
    requires StoresInv(s) && Enabled(s, step)
    ensures TabsKept(s.tabs, Next(s, step).tabs)
  {
    if IsTabAction(step) { ActionKeepsTabs(s, step); }
    else if SettlesJob(step) { SettlingKeepsTabs(s, step); }
    else { OtherStepKeepsTabs(s, step); }
  }

  lemma SessionKept(before: seq<Tab>, after: seq<Tab>, a: Tab, b: Tab)
    requires Distinct(before) && TabsKept(before, after)
    requires a in before && b in after && a.sessionId == b.sessionId
    ensures SameIdentity(a, b)
  {
    InOpen(before, a);
    var x :| x in before && SameIdentity(x, b);
    DistinctOnly(before, a);
  }

  lemma RunSessionKept(states: seq<State>, steps: seq<Step>, i: nat, a: Tab, b: Tab)
    requires IsRun(states, steps) && i < |steps|
    requires a in states[i].tabs && b in states[i + 1].tabs && a.sessionId == b.sessionId
    ensures SameIdentity(a, b)
  {
    RunStep(states, steps, i);
    StepKeepsTabs(states[i], steps[i]);
    SessionKept(states[i].tabs, states[i + 1].tabs, a, b);
  }

  /** A session that was known and has a tab had one the step before. */
  lemma OpenBefore(states: seq<State>, steps: seq<Step>, i: nat, id: Id)
    requires IsRun(states, steps) && i < |steps| && id in states[i].known && Lookup(states[i + 1].tabs, id).Some?
    ensures Lookup(states[i].tabs, id).Some?
  {
    if Lookup(states[i].tabs, id).None? { RunStaysGone(states, steps, i, id); }
  }

  lemma TabKnown(states: seq<State>, steps: seq<Step>, i: nat, a: Tab)
    requires IsRun(states, steps) && i < |states| && a in states[i].tabs
    ensures a.sessionId in states[i].known
    ensures forall b :: b in states[i].tabs && b.sessionId == a.sessionId ==> b == a
  {
    EveryStateInv(states, steps, i);
    InOpen(states[i].tabs, a);
    DistinctOnly(states[i].tabs, a);
  }

  /** The tab that a session known before has after a step, as it was before that step. */
  lemma TabOneBefore(states: seq<State>, steps: seq<Step>, i: nat, b: Tab) returns (before: Tab)
    requires IsRun(states, steps) && i < |steps| && b in states[i + 1].tabs && b.sessionId in states[i].known
    ensures before in states[i].tabs && SameIdentity(before, b)
  {
    TabKnown(states, steps, i + 1, b);
    assert Lookup(states[i + 1].tabs, b.sessionId).Some?;
    OpenBefore(states, steps, i, b.sessionId);
    before := Lookup(states[i].tabs, b.sessionId).value;
    RunSessionKept(states, steps, i, before, b);
  }

  /** For as long as a session has a tab, the tab shows the same connection, channel and name. */
  lemma {:induction false} TabIdentityFixed(states: seq<State>, steps: seq<Step>, i: nat, j: nat, a: Tab, b: Tab)
    requires IsRun(states, steps) && i <= j < |states|
    requires a in states[i].tabs && b in states[j].tabs && a.sessionId == b.sessionId
    ensures SameIdentity(a, b)
    decreases j
  {
    TabKnown(states, steps, i, a);
    if i < j {
      SentForGood(states, steps, i, j - 1, a.sessionId);
      var before := TabOneBefore(states, steps, j - 1, b);
      TabIdentityFixed(states, steps, i, j - 1, a, before);
    }
  }

  // ---------------------------------------------------------------- calls

  /** A call is for the same session, connection and loop as before, or it is the one just begun. */
  ghost predicate JobsKept(s: State, t: State) {
    && s.next <= t.next
    && forall k :: k in t.jobs ==>
         if k in s.jobs then t.jobs[k] == s.jobs[k].(phase := t.jobs[k].phase)
         else k == s.next && s.next < t.next
  }

  /** What a step may begin: a reconnect for the connection of the session's tab, or a placeholder's open. */
  ghost predicate BegunFor(s: State, step: Step, j: Job) {
    match step
    case RequestReconnectStep(sid) => j.sid == sid && Lookup(s.tabs, sid).Some?
                                      && j.connectionId == Lookup(s.tabs, sid).value.connectionId
    case WakeStep(l) => l in s.loops && j.sid == s.loops[l].sid && Lookup(s.tabs, j.sid).Some?
                        && j.connectionId == Lookup(s.tabs, j.sid).value.connectionId
    case PlaceholderStep(id, connectionId, _) => j.sid == id && j.connectionId == connectionId
    case _ => false
  }

  lemma ActionKeepsJobs(s: State, step: Step)
    requires Enabled(s, step) && IsTabAction(step) && s.next !in s.jobs
    ensures JobsKept(s, Next(s, step))
    ensures forall k :: k in Next(s, step).jobs && k !in s.jobs ==> BegunFor(s, step, Next(s, step).jobs[k])
  {
  }

  lemma SettlingKeepsJobs(s: State, step: Step)
    requires Enabled(s, step) && SettlesJob(step)
    ensures JobsKept(s, Next(s, step)) && Next(s, step).jobs.Keys <= s.jobs.Keys
  {
    if step.OpenedStep? { SettledJobs(s, step.job, step.result); }
  }

  lemma OtherStepKeepsJobs(s: State, step: Step)
    requires Enabled(s, step) && !IsTabAction(step) && !SettlesJob(step) && s.next !in s.jobs
    ensures JobsKept(s, Next(s, step))
    ensures forall k :: k in Next(s, step).jobs && k !in s.jobs ==> BegunFor(s, step, Next(s, step).jobs[k])
  {
  }

  lemma StepKeepsJobs(s: State, step: Step)
    requires Enabled(s, step) && s.next !in s.jobs
    ensures JobsKept(s, Next(s, step))
    ensures forall k :: k in Next(s, step).jobs && k !in s.jobs ==> BegunFor(s, step, Next(s, step).jobs[k])
  {
    if IsTabAction(step) { ActionKeepsJobs(s, step); }
    else if SettlesJob(step) { SettlingKeepsJobs(s, step); }
    else { OtherStepKeepsJobs(s, step); }
  }

  lemma RunKeepsJobs(states: seq<State>, steps: seq<Step>, i: nat)
    requires IsRun(states, steps) && i < |steps|
    ensures JobsKept(states[i], states[i + 1])
    ensures forall k :: k in states[i + 1].jobs && k !in states[i].jobs
              ==> BegunFor(states[i], steps[i], states[i + 1].jobs[k])
  {
    RunStep(states, steps, i);
    StepKeepsJobs(states[i], steps[i]);
  }

  /** For as long as a call is in flight, it is for the same session, connection and loop. */
  lemma {:induction false} CallFixed(states: seq<State>, steps: seq<Step>, i: nat, j: nat, k: nat)
    requires IsRun(states, steps) && i <= j < |states| && k in states[i].jobs
    ensures k < states[j].next
    ensures k in states[j].jobs ==> states[j].jobs[k] == states[i].jobs[k].(phase := states[j].jobs[k].phase)
    decreases j
  {
    if i == j {
      EveryStateInv(states, steps, i);
    } else {
      CallFixed(states, steps, i, j - 1, k);
      RunKeepsJobs(states, steps, j - 1);
    }
  }

  /** A reconnect that a step of a run sends is for the connection the session's tab shows. */
  lemma ReconnectsOwnConnection(states: seq<State>, steps: seq<Step>, i: nat, k: nat)
    requires IsRun(states, steps) && i < |steps| && (steps[i].RequestReconnectStep? || steps[i].WakeStep?)
    requires k in states[i + 1].jobs && k !in states[i].jobs
    ensures var j := states[i + 1].jobs[k];
            Lookup(states[i].tabs, j.sid).Some? && j.connectionId == Lookup(states[i].tabs, j.sid).value.connectionId
  {
    RunKeepsJobs(states, steps, i);
  }

  /** Every call in flight for a session that has a tab is for the connection the tab shows. */
  ghost predicate ConnectionsMatch(s: State) {
    forall k, t :: k in s.jobs && t in s.tabs && t.sessionId == s.jobs[k].sid
                   ==> t.connectionId == s.jobs[k].connectionId
  }

  /** A session with a call in flight that is open after a step was open before. */
  lemma CalledWasOpen(s: State, step: Step, k: nat)
    requires StoresInv(s) && Enabled(s, step) && k in s.jobs && s.jobs[k].sid in Open(Next(s, step).tabs)
    ensures s.jobs[k].sid in Open(s.tabs)
  {
    assert s.jobs[k].sid in JobSessions(s.jobs);
    if s.jobs[k].sid !in Open(s.tabs) { OpenGrowsFresh(s, step, s.jobs[k].sid); }
  }

  /** The tab a session has after a step shows what its tab showed before. */
  lemma MatchCarried(before: seq<Tab>, after: seq<Tab>, sid: Id, connectionId: Id, b: Tab)
    requires TabsKept(before, after) && sid in Open(before) && b in after && b.sessionId == sid
    requires forall a :: a in before && a.sessionId == sid ==> a.connectionId == connectionId
    ensures b.connectionId == connectionId
  {
    var a :| a in before && SameIdentity(a, b);
  }

  lemma OldCallMatches(s: State, step: Step, k: nat, b: Tab)
    requires StoresInv(s) && ConnectionsMatch(s) && Enabled(s, step)
    requires k in s.jobs && b in Next(s, step).tabs && b.sessionId == s.jobs[k].sid
    ensures b.connectionId == s.jobs[k].connectionId
  {
    var after := Next(s, step).tabs;
    InOpen(after, b);
    CalledWasOpen(s, step, k);
    StepKeepsTabs(s, step);
    MatchCarried(s.tabs, after, s.jobs[k].sid, s.jobs[k].connectionId, b);
  }

  lemma NewCallMatches(s: State, step: Step, j: Job, b: Tab)
    requires StoresInv(s) && Enabled(s, step) && BegunFor(s, step, j)
    requires b in Next(s, step).tabs && b.sessionId == j.sid
    ensures b.connectionId == j.connectionId
  {
    if step.PlaceholderStep? {
      PlaceholderMatches(s, step, b);
    } else {
      LookupOpen(s.tabs, j.sid);
      DistinctOnly(s.tabs, Lookup(s.tabs, j.sid).value);
      StepKeepsTabs(s, step);
      MatchCarried(s.tabs, Next(s, step).tabs, j.sid, j.connectionId, b);
    }
  }

  lemma PlaceholderMatches(s: State, step: Step, b: Tab)
    requires StoresInv(s) && Enabled(s, step) && step.PlaceholderStep?
    requires b in Next(s, step).tabs && b.sessionId == step.id
    ensures b.connectionId == step.connectionId
  {
    PlaceholderReach(s, step.id, step.connectionId, step.name);
    if b in s.tabs { InOpen(s.tabs, b); }
  }

  lemma StepKeepsMatch(s: State, step: Step)
    requires StoresInv(s) && ConnectionsMatch(s) && Enabled(s, step)
    ensures ConnectionsMatch(Next(s, step))
  {
    var t := Next(s, step);
    StepKeepsJobs(s, step);
    forall k, b | k in t.jobs && b in t.tabs && b.sessionId == t.jobs[k].sid
      ensures b.connectionId == t.jobs[k].connectionId
    {
      if k in s.jobs { OldCallMatches(s, step, k, b); } else { NewCallMatches(s, step, t.jobs[k], b); }
    }
  }

  /**
   * In every state of every run, whatever is being reconnected or opened for a tab, also by the open that
   * follows a rejected reconnect, is the connection the tab shows.
   */
  lemma {:induction false} EveryCallMatches(states: seq<State>, steps: seq<Step>, i: nat)
    requires IsRun(states, steps) && i < |states|
    ensures ConnectionsMatch(states[i])
  {
    if i > 0 {
      EveryCallMatches(states, steps, i - 1);
      RunStep(states, steps, i - 1);
      StepKeepsMatch(states[i - 1], steps[i - 1]);
    }
  }
}
