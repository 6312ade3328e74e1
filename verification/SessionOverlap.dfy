/**
 * When two reconnects of one tab overlap: the exact steps that send the second one, and the exact
 * steps that make that possible by clearing the mark of the first.
 */
module SessionOverlap {
  import opened Prelude
  import opened Sessions
  import opened SessionInvariant
  import opened SessionSteps
  import opened SessionTheorems
  import opened SessionDiscipline
  import opened SessionLoops

  /** An open session with two reconnects in flight. */
  ghost predicate Overlapping(s: State, sid: Id) {
    sid in Open(s.tabs) && !OneFlight(s.jobs, sid)
  }

  /** An open session with a reconnect in flight that its tab does not show. */
  ghost predicate Unmarked(s: State, sid: Id) {
    sid in Open(s.tabs) && sid in InFlight(s.jobs) && sid !in Busy(s.tabs)
  }

  /** A reconnect is requested, or begun by the session's loop, for a tab with an unmarked one in flight. */
  ghost predicate SendsSecond(s: State, step: Step, sid: Id) {
    Unmarked(s, sid) &&
    match step
    case RequestReconnectStep(x) => x == sid
    case WakeStep(l) => l in s.loops && s.loops[l].sid == sid && sid in Lost(s.tabs)
    case _ => false
  }

  /** A disconnect hits a connected tab that is marked as reconnecting. */
  ghost predicate ClearsMark(s: State, step: Step, sid: Id) {
    step.DisconnectStep? && step.sid == sid && sid in Busy(s.tabs) - Lost(s.tabs)
  }

  // ---------------------------------------------------------------- flights

  /** Whatever is in flight after was in flight before, under the same key. */
  ghost predicate NoNewFlights(before: map<nat, Job>, after: map<nat, Job>) {
    forall k :: k in after && Unsettled(after[k])
           ==> k in before && Unsettled(before[k]) && before[k].sid == after[k].sid
  }

  predicate MayBegin(step: Step) {
    step.RequestReconnectStep? || step.WakeStep?
  }

  lemma OthersBeginNone(s: State, step: Step)
    requires Enabled(s, step) && !MayBegin(step)
    ensures NoNewFlights(s.jobs, Next(s, step).jobs)
  {
    match step {
      case OpenedStep(k, r) => SettledJobs(s, k, r);
      case _ =>
    }
  }

  lemma NoneNewInFlight(before: map<nat, Job>, after: map<nat, Job>, sid: Id)
    requires NoNewFlights(before, after)
    ensures OneFlight(before, sid) ==> OneFlight(after, sid)
    ensures sid in InFlight(after) ==> sid in InFlight(before)
  {
    if sid in InFlight(after) {
      var k :| k in after && Unsettled(after[k]) && after[k].sid == sid;
      assert k in before && before[k].sid == sid;
    }
  }

  /** A new reconnect is the second one exactly when there is one already. */
  lemma FlightJoins(jobs: map<nat, Job>, k: nat, j: Job, sid: Id)
    requires k !in jobs && Unsettled(j)
    ensures OneFlight(jobs[k := j], sid) <==> OneFlight(jobs, sid) && !(sid == j.sid && sid in InFlight(jobs))
  {
    var after := jobs[k := j];
    if sid == j.sid && sid in InFlight(jobs) {
      var i :| i in jobs && Unsettled(jobs[i]) && jobs[i].sid == sid;
      assert i in after && after[i] == jobs[i] && after[k] == j;
    }
    if !OneFlight(jobs, sid) {
      var i, m :| i in jobs && m in jobs && Unsettled(jobs[i]) && Unsettled(jobs[m])
                  && jobs[i].sid == sid && jobs[m].sid == sid && i != m;
      assert after[i] == jobs[i] && after[m] == jobs[m];
    }
    assert sid !in InFlight(jobs) ==> forall i :: i in jobs && Unsettled(jobs[i]) ==> jobs[i].sid != sid;
  }

  /** What a reconnect that begins for a tab does to the marks, the flights and the overlaps. */
  lemma Begun(s: State, tab: Tab, loop: Option<nat>, sid: Id)
    requires Distinct(s.tabs) && s.next !in s.jobs && Lookup(s.tabs, tab.sessionId) == Some(tab)
    ensures var t := BeginReconnect(s, tab, loop);
            && Open(t.tabs) == Open(s.tabs)
            && Busy(t.tabs) == Busy(s.tabs) + {tab.sessionId}
            && InFlight(t.jobs) == InFlight(s.jobs) + {tab.sessionId}
            && (OneFlight(t.jobs, sid)
                <==> OneFlight(s.jobs, sid) && !(sid == tab.sessionId && sid in InFlight(s.jobs)))
  {
    var j := Job(tab.sessionId, tab.connectionId, AwaitReconnect, loop);
    LookupFlags(s.tabs, tab.sessionId);
    MappedSets(s.tabs, tab.sessionId, MarkReconnecting());
    JobAdded(s.jobs, s.next, j);
    FlightJoins(s.jobs, s.next, j, sid);
  }

  /** A session with a reconnect in flight that is open after a step was open before. */
  lemma FlightWasOpen(s: State, step: Step, sid: Id)
    requires StoresInv(s) && Enabled(s, step)
    ensures sid in Open(Next(s, step).tabs) && sid !in Open(s.tabs)
        ==> sid !in InFlight(s.jobs) && OneFlight(s.jobs, sid)
  {
    if sid in s.known {
      if sid !in Open(s.tabs) { OpenGrowsFresh(s, step, sid); }
    } else {
      NewIdNotInFlight(s, sid);
      assert forall k :: k in s.jobs ==> s.jobs[k].sid in JobSessions(s.jobs);
    }
  }

  // ---------------------------------------------------------------- the second reconnect

  lemma RequestOverlapIff(s: State, step: Step, sid: Id)
    requires StoresInv(s) && Enabled(s, step) && step.RequestReconnectStep? && !Overlapping(s, sid)
    ensures Overlapping(Next(s, step), sid) <==> SendsSecond(s, step, sid)
  {
    var x := step.sid;
    LookupFlags(s.tabs, x);
    if x in Open(s.tabs) - Busy(s.tabs) { Begun(s, Lookup(s.tabs, x).value, None, sid); }
  }

  lemma WakeOverlapIff(s: State, step: Step, sid: Id)
    requires StoresInv(s) && Enabled(s, step) && step.WakeStep? && !Overlapping(s, sid)
    ensures Overlapping(Next(s, step), sid) <==> SendsSecond(s, step, sid)
  {
    var l := step.loop;
    var x := s.loops[l].sid;
    LookupFlags(s.tabs, x);
    FlagsOpen(s.tabs);
    if x in Lost(s.tabs) - Busy(s.tabs) {
      var tab := Lookup(s.tabs, x).value;
      Begun(s, tab, Some(l), sid);
      SameAsBegun(s, l, tab);
    } else {
      NotBegun(s, l);
    }
  }

  lemma SameAsBegun(s: State, l: nat, tab: Tab)
    requires l in s.loops && Lookup(s.tabs, s.loops[l].sid) == Some(tab) && tab.disconnected && !tab.reconnecting
    ensures WakeLoop(s, l).tabs == BeginReconnect(s, tab, Some(l)).tabs
    ensures WakeLoop(s, l).jobs == BeginReconnect(s, tab, Some(l)).jobs
  {
  }

  lemma NotBegun(s: State, l: nat)
    requires l in s.loops
    requires var tab := Lookup(s.tabs, s.loops[l].sid);
             tab.None? || !tab.value.disconnected || tab.value.reconnecting
    ensures WakeLoop(s, l).tabs == s.tabs && WakeLoop(s, l).jobs == s.jobs
  {
  }

  /** A step puts a second reconnect of an open tab in flight exactly if it is one of these. */
  lemma OverlapIff(s: State, step: Step, sid: Id)
    requires StoresInv(s) && Enabled(s, step) && !Overlapping(s, sid)
    ensures Overlapping(Next(s, step), sid) <==> SendsSecond(s, step, sid)
  {
    if step.RequestReconnectStep? { RequestOverlapIff(s, step, sid); }
    else if step.WakeStep? { WakeOverlapIff(s, step, sid); }
    else { OthersOverlapNone(s, step, sid); }
  }

  lemma OthersOverlapNone(s: State, step: Step, sid: Id)
    requires StoresInv(s) && Enabled(s, step) && !Overlapping(s, sid) && !MayBegin(step)
    ensures !Overlapping(Next(s, step), sid)
  {
    var t := Next(s, step);
    OthersBeginNone(s, step);
    FlightWasOpen(s, step, sid);
    NoneNewInFlight(s.jobs, t.jobs, sid);
  }

  /** A run keeps to one reconnect per tab throughout exactly when it contains no such step. */
  lemma NeverOverlapsIff(states: seq<State>, steps: seq<Step>)
    requires IsRun(states, steps)
    ensures (forall i, sid :: 0 <= i < |states| ==> !Overlapping(states[i], sid))
       <==> (forall i, sid :: 0 <= i < |steps| ==> !SendsSecond(states[i], steps[i], sid))
  {
    if forall i, sid :: 0 <= i < |states| ==> !Overlapping(states[i], sid) {
      forall i, sid | 0 <= i < |steps| ensures !SendsSecond(states[i], steps[i], sid) {
        RunStep(states, steps, i);
        assert !Overlapping(states[i], sid) && !Overlapping(states[i + 1], sid);
        OverlapIff(states[i], steps[i], sid);
      }
    } else if forall i, sid :: 0 <= i < |steps| ==> !SendsSecond(states[i], steps[i], sid) {
      var i, sid :| 0 <= i < |states| && Overlapping(states[i], sid);
      NoOverlapSoFar(states, steps, i, sid);
    }
  }

  lemma {:induction false} NoOverlapSoFar(states: seq<State>, steps: seq<Step>, i: nat, sid: Id)
    requires IsRun(states, steps) && i < |states|
    requires forall j, x :: 0 <= j < |steps| ==> !SendsSecond(states[j], steps[j], x)
    ensures !Overlapping(states[i], sid)
  {
    if i > 0 {
      NoOverlapSoFar(states, steps, i - 1, sid);
      RunStep(states, steps, i - 1);
      OverlapIff(states[i - 1], steps[i - 1], sid);
      assert !SendsSecond(states[i - 1], steps[i - 1], sid);
    }
  }

  // ---------------------------------------------------------------- the cleared mark

  /** A disconnect clears a mark exactly when it hits a connected, marked tab. */
  lemma DisconnectClearsIff(s: State, sid: Id, reason: Option<string>, autoReconnect: bool, x: Id)
    requires Distinct(s.tabs)
    ensures x in Busy(s.tabs) && x !in Busy(MarkDisconnected(s, sid, reason, autoReconnect).tabs)
       <==> ClearsMark(s, DisconnectStep(sid, reason, autoReconnect), x)
  {
    LookupFlags(s.tabs, sid);
    FlagsOpen(s.tabs);
    if sid in Open(s.tabs) {
      if sid in Lost(s.tabs) {
        if reason.Some? { MappedSets(s.tabs, sid, MarkReason(reason.value)); }
      } else {
        MappedSets(s.tabs, sid, MarkLost(reason));
      }
    }
  }

  /** The steps that touch no mark, or only that of a tab they remove. */
  predicate SparesMarks(step: Step) {
    !MayBegin(step) && !step.DisconnectStep? && !step.FailedStep? && !step.OpenedStep?
  }

  lemma MarkSpared(s: State, step: Step, x: Id)
    requires Distinct(s.tabs) && Open(s.tabs) <= s.known && Enabled(s, step) && SparesMarks(step)
    requires x in Busy(s.tabs) && x in Open(Next(s, step).tabs)
    ensures x in Busy(Next(s, step).tabs)
  {
    match step {
      case ToggleSyncStep(sid) => ToggleKeepsMarks(s.tabs, sid);
      case AddTabStep(_) => NewTabKeepsMarks(s, step);
      case PlaceholderStep(_, _, _) => NewTabKeepsMarks(s, step);
      case PlaceholderFailedStep(k) => WithoutSets(s.tabs, s.jobs[k].sid);
      case EndCloseStep(k) => WithoutSets(s.tabs, s.closes[k]);
      case _ =>
    }
  }

  /** Apart from a cleared one, a mark goes only with its tab, or when a reconnect of its session fails. */
  lemma MarkKept(s: State, step: Step, x: Id)
    requires StoresInv(s) && Enabled(s, step) && x in Busy(s.tabs) && x in Open(Next(s, step).tabs)
    requires !SparesMarks(step) && !MayBegin(step)
    requires !ClearsMark(s, step, x) && !(step.FailedStep? && s.jobs[step.job].sid == x)
    ensures x in Busy(Next(s, step).tabs)
  {
    match step {
      case DisconnectStep(sid, reason, autoReconnect) => DisconnectClearsIff(s, sid, reason, autoReconnect, x);
      case FailedStep(k, message) => FailedKeepsMarks(s, k, message);
      case OpenedStep(k, r) => OpenedKeepsMarks(s, k, r, x);
    }
  }

  lemma ToggleKeepsMarks(tabs: seq<Tab>, sid: Id)
    requires Distinct(tabs)
    ensures Busy(Mapped(tabs, sid, ToggleSynced())) == Busy(tabs)
  {
    LookupFlags(tabs, sid);
    if Lookup(tabs, sid).Some? { MappedSets(tabs, sid, ToggleSynced()); }
    else { UnmappedSame(tabs, sid, ToggleSynced()); }
  }

  lemma FailedKeepsMarks(s: State, k: nat, message: string)
    requires Distinct(s.tabs) && k in s.jobs
    ensures Busy(s.tabs) - {s.jobs[k].sid} <= Busy(SettleFailed(s, k, message).tabs)
  {
    var sid := s.jobs[k].sid;
    if Lookup(s.tabs, sid).Some? { MappedSets(s.tabs, sid, MarkFailed(message)); }
    else { UnmappedSame(s.tabs, sid, MarkFailed(message)); }
  }

  lemma OpenedKeepsMarks(s: State, k: nat, r: OpenResult, x: Id)
    requires StoresInv(s) && CanArrive(s, k, r)
    requires x in Busy(s.tabs) && x in Open(SettleOpened(s, k, r).tabs)
    ensures x in Busy(SettleOpened(s, k, r).tabs)
  {
    SettledJobs(s, k, r);
    FlagsOpen(s.tabs);
    if Lookup(s.tabs, s.jobs[k].sid).Some? {
      LookupOpen(s.tabs, s.jobs[k].sid);
      RenamedSets(s.tabs, s.jobs[k].sid, r);
    }
  }

  lemma NewTabKeepsMarks(s: State, step: Step)
    requires Open(s.tabs) <= s.known && Enabled(s, step) && (step.AddTabStep? || step.PlaceholderStep?)
    ensures Busy(Next(s, step).tabs) == Busy(s.tabs)
  {
    var t := Next(s, step);
    if step.PlaceholderStep? {
      AppendedFlags(s.tabs, t.tabs[|t.tabs| - 1]);
    } else if step.result.sessionId != "" && step.result.terminalChannelId != "" {
      LookupOpen(s.tabs, step.result.sessionId);
      WithoutAbsent(s.tabs, step.result.sessionId);
      AppendedFlags(s.tabs, t.tabs[|t.tabs| - 1]);
    }
  }

  lemma FailedEndsFlight(s: State, k: nat, message: string)
    requires k in s.jobs && s.jobs[k].phase == AwaitOpen && OneFlight(s.jobs, s.jobs[k].sid)
    ensures s.jobs[k].sid !in InFlight(SettleFailed(s, k, message).jobs)
  {
    assert SettleFailed(s, k, message).jobs == s.jobs - {k};
  }

  lemma ClearedUnmarked(s: State, step: Step, sid: Id)
    requires StoresInv(s) && Enabled(s, step) && ClearsMark(s, step, sid)
    ensures Unmarked(Next(s, step), sid)
  {
    FlagsOpen(s.tabs);
    DisconnectClearsIff(s, sid, step.reason, step.autoReconnect, sid);
    DisconnectKeepsOpen(s, sid, step.reason, step.autoReconnect);
    DisconnectSparesJobs(s, sid, step.reason, step.autoReconnect);
  }

  lemma DisconnectSparesJobs(s: State, sid: Id, reason: Option<string>, autoReconnect: bool)
    ensures MarkDisconnected(s, sid, reason, autoReconnect).jobs == s.jobs
  {
  }

  /** With one reconnect at most, only such a disconnect leaves a tab that does not show it. */
  lemma UnmarkedIff(s: State, step: Step, sid: Id)
    requires StoresInv(s) && Enabled(s, step) && !Overlapping(s, sid) && !Unmarked(s, sid)
    ensures Unmarked(Next(s, step), sid) <==> ClearsMark(s, step, sid)
  {
    if step.RequestReconnectStep? { RequestUnmarked(s, step, sid); }
    else if step.WakeStep? { WakeUnmarked(s, step, sid); }
    else if ClearsMark(s, step, sid) { ClearedUnmarked(s, step, sid); }
    else { OthersUnmarkNone(s, step, sid); }
  }

  lemma OthersUnmarkNone(s: State, step: Step, sid: Id)
    requires StoresInv(s) && Enabled(s, step) && !Overlapping(s, sid) && !Unmarked(s, sid)
    requires !MayBegin(step) && !ClearsMark(s, step, sid)
    ensures !Unmarked(Next(s, step), sid)
  {
    var t := Next(s, step);
    if Unmarked(t, sid) {
      OthersBeginNone(s, step);
      NoneNewInFlight(s.jobs, t.jobs, sid);
      FlightWasOpen(s, step, sid);
      if step.FailedStep? && s.jobs[step.job].sid == sid { FailedEndsFlight(s, step.job, step.message); }
      if SparesMarks(step) { MarkSpared(s, step, sid); } else { MarkKept(s, step, sid); }
    }
  }

  lemma RequestUnmarked(s: State, step: Step, sid: Id)
    requires StoresInv(s) && Enabled(s, step) && step.RequestReconnectStep? && !Unmarked(s, sid)
    ensures !Unmarked(Next(s, step), sid)
  {
    var x := step.sid;
    LookupFlags(s.tabs, x);
    if x in Open(s.tabs) - Busy(s.tabs) { Begun(s, Lookup(s.tabs, x).value, None, sid); }
  }

  lemma WakeUnmarked(s: State, step: Step, sid: Id)
    requires StoresInv(s) && Enabled(s, step) && step.WakeStep? && !Unmarked(s, sid)
    ensures !Unmarked(Next(s, step), sid)
  {
    var l := step.loop;
    var x := s.loops[l].sid;
    LookupFlags(s.tabs, x);
    FlagsOpen(s.tabs);
    if x in Lost(s.tabs) - Busy(s.tabs) {
      var tab := Lookup(s.tabs, x).value;
      Begun(s, tab, Some(l), sid);
      SameAsBegun(s, l, tab);
    } else {
      NotBegun(s, l);
    }
  }

  /** The marks show all reconnects of open tabs, one at most each. */
  ghost predicate ShownOnce(s: State) {
    forall sid :: !Overlapping(s, sid) && !Unmarked(s, sid)
  }

  lemma ShownOnceIff(s: State, step: Step)
    requires StoresInv(s) && Enabled(s, step) && ShownOnce(s)
    ensures ShownOnce(Next(s, step)) <==> forall sid :: !ClearsMark(s, step, sid)
  {
    forall sid
      ensures !Overlapping(Next(s, step), sid) && (Unmarked(Next(s, step), sid) <==> ClearsMark(s, step, sid))
    {
      OverlapIff(s, step, sid);
      UnmarkedIff(s, step, sid);
    }
  }

  /**
   * A run shows every reconnect of an open tab, and has one at most per tab, throughout exactly when
   * no disconnect in it hits a connected tab that is marked.
   */
  lemma AlwaysShownIff(states: seq<State>, steps: seq<Step>)
    requires IsRun(states, steps)
    ensures (forall i :: 0 <= i < |states| ==> ShownOnce(states[i]))
       <==> (forall i, sid :: 0 <= i < |steps| ==> !ClearsMark(states[i], steps[i], sid))
  {
    if forall i :: 0 <= i < |states| ==> ShownOnce(states[i]) {
      forall i, sid | 0 <= i < |steps| ensures !ClearsMark(states[i], steps[i], sid) {
        RunStep(states, steps, i);
        assert ShownOnce(states[i]) && ShownOnce(states[i + 1]);
        ShownOnceIff(states[i], steps[i]);
      }
    } else if forall i, sid :: 0 <= i < |steps| ==> !ClearsMark(states[i], steps[i], sid) {
      var i :| 0 <= i < |states| && !ShownOnce(states[i]);
      ShownSoFar(states, steps, i);
    }
  }

  lemma {:induction false} ShownSoFar(states: seq<State>, steps: seq<Step>, i: nat)
    requires IsRun(states, steps) && i < |states|
    requires forall j, x :: 0 <= j < |steps| ==> !ClearsMark(states[j], steps[j], x)
    ensures ShownOnce(states[i])
  {
    if i > 0 {
      ShownSoFar(states, steps, i - 1);
      RunStep(states, steps, i - 1);
      ShownOnceIff(states[i - 1], steps[i - 1]);
    }
  }
}
