/** What holds in every reachable state of the session machine, and over whole runs. */
module SessionTheorems {
  import opened Prelude
  import opened Sessions
  import opened SessionInvariant
  import opened SessionSteps
  import Ed = EditorTabs
  import Sh = Shell

  /** A run from the empty stores: any interleaving of enabled steps. */
  ghost predicate IsRun(states: seq<State>, steps: seq<Step>) {
    && |states| == |steps| + 1
    && states[0] == Initial()
    && forall i :: 0 <= i < |steps| ==> StepAt(states, steps, i)
  }

  /** The `i`-th step can happen, and leads to the next state. */
  ghost predicate StepAt(states: seq<State>, steps: seq<Step>, i: nat)
    requires |states| == |steps| + 1 && i < |steps|
  {
    Enabled(states[i], steps[i]) && states[i + 1] == Next(states[i], steps[i])
  }

  lemma {:induction false} EveryStateInv(states: seq<State>, steps: seq<Step>, i: nat)
    requires IsRun(states, steps) && i < |states|
    ensures Inv(states[i])
  {
    if i > 0 {
      EveryStateInv(states, steps, i - 1);
      assert StepAt(states, steps, i - 1);
      StepKeepsInv(states[i - 1], steps[i - 1]);
    }
  }

  lemma RunStep(states: seq<State>, steps: seq<Step>, i: nat)
    requires IsRun(states, steps) && i < |steps|
    ensures Inv(states[i]) && Enabled(states[i], steps[i]) && states[i + 1] == Next(states[i], steps[i])
  {
    EveryStateInv(states, steps, i);
    assert StepAt(states, steps, i);
  }

  // ---------------------------------------------------------------- arriving sessions

  /**
   * The moment a session arrives it is installed or sent back to be closed, never both: installed
   * exactly when the tab it is for is still there, however many calls for that tab are in flight.
   */
  lemma SettledExactlyOnce(s: State, k: nat, r: OpenResult)
    requires Inv(s) && CanArrive(s, k, r)
    ensures var t := SettleOpened(s, k, r);
            && Distinct(t.tabs)
            && (r.sessionId in Open(t.tabs) <==> s.jobs[k].sid in Open(s.tabs))
            && (r.sessionId in t.closeSent <==> s.jobs[k].sid !in Open(s.tabs))
  {
    LookupOpen(s.tabs, s.jobs[k].sid);
    SettledJobs(s, k, r);
    SettledIds(s, k, r);
    if s.jobs[k].sid in Open(s.tabs) { RenamedSets(s.tabs, s.jobs[k].sid, r); }
  }

  // ---------------------------------------------------------------- no tab is stuck reconnecting

  ghost predicate ReconnectInFlight(s: State, sid: Id) {
    exists k :: k in s.jobs && s.jobs[k].sid == sid && Unsettled(s.jobs[k])
  }

  lemma NoTabStuck(states: seq<State>, steps: seq<Step>, i: nat, tab: Tab)
    requires IsRun(states, steps) && i < |states| && tab in states[i].tabs && tab.reconnecting
    ensures ReconnectInFlight(states[i], tab.sessionId)
  {
    var s := states[i];
    EveryStateInv(states, steps, i);
    DistinctOnly(s.tabs, tab);
    FlagSets(s.tabs, tab.sessionId, tab);
    InOpen(s.tabs, tab);
    assert tab.sessionId in InFlight(s.jobs);
  }

  lemma InOpen(tabs: seq<Tab>, tab: Tab)
    requires tab in tabs
    ensures tab.sessionId in Open(tabs)
  {
  }

  // ---------------------------------------------------------------- the three stores agree

  /** Every editor is of an open session, whatever closes, reconnects and disconnects interleave. */
  lemma EditorsAlwaysHoused(states: seq<State>, steps: seq<Step>, i: nat)
    requires IsRun(states, steps) && i < |states|
    ensures Ed.Valid(states[i].ui)
    ensures forall e :: e in states[i].ui.tabs ==> Lookup(states[i].tabs, e.sessionId).Some?
    ensures states[i].active.None? <==> states[i].tabs == []
    ensures states[i].active.Some? ==> Lookup(states[i].tabs, states[i].active.value).Some?
  {
    EveryStateInv(states, steps, i);
    forall e | e in states[i].ui.tabs ensures Lookup(states[i].tabs, e.sessionId).Some? {
      LookupOpen(states[i].tabs, e.sessionId);
    }
    if states[i].active.Some? { LookupOpen(states[i].tabs, states[i].active.value); }
  }

  /** So the shell's sweep, were it to run at any point of a run, would change nothing. */
  lemma SweepIsIdle(states: seq<State>, steps: seq<Step>, i: nat)
    requires IsRun(states, steps) && i < |states|
    ensures Sh.Swept(states[i].ui, Open(states[i].tabs)) == states[i].ui
  {
    EveryStateInv(states, steps, i);
    Sh.WithoutOrphans(states[i].ui, Open(states[i].tabs));
  }

  // ---------------------------------------------------------------- no disconnected tab is abandoned

  /** A loop that will try the session again, or is trying it now. */
  ghost predicate HasLiveLoop(s: State, sid: Id) {
    exists l :: l in s.loops && s.loops[l].sid == sid && s.loops[l].phase != Settled(true)
                && (s.loops[l].phase == Settled(false) ==> sid in s.loopSet)
  }

  /** Disconnected tabs for which no loop was ever started. */
  ghost function Unattended(s: State): set<Id> {
    set sid | sid in Lost(s.tabs) && sid !in s.starts
  }

  /**
   * In every state of every run: a disconnected tab that is not being closed has a live loop exactly
   * when one was started for it.
   */
  lemma LiveLoopIff(states: seq<State>, steps: seq<Step>, i: nat, tab: Tab)
    requires IsRun(states, steps) && i < |states|
    requires tab in states[i].tabs && tab.disconnected && tab.sessionId !in Closing(states[i].closes)
    ensures HasLiveLoop(states[i], tab.sessionId) <==> tab.sessionId !in Unattended(states[i])
  {
    var s, sid := states[i], tab.sessionId;
    EveryStateInv(states, steps, i);
    DistinctOnly(s.tabs, tab);
    FlagSets(s.tabs, sid, tab);
    InOpen(s.tabs, tab);
    if sid in s.starts {
      assert sid in LoopSessions(s.loops);
      var l :| l in s.loops && s.loops[l].sid == sid;
      assert s.loops[l].phase != Settled(true);
    }
  }

  /** The steps that disconnect a tab without starting a loop for it. */
  ghost predicate LeavesUnattended(s: State, step: Step, sid: Id) {
    match step
    case DisconnectStep(x, _, autoReconnect) => x == sid && !autoReconnect && sid in Open(s.tabs) - Lost(s.tabs)
    case FailedStep(k, _) => k in s.jobs && s.jobs[k].sid == sid && sid in Open(s.tabs) - Lost(s.tabs)
    case _ => false
  }

  lemma DisconnectUnattended(s: State, step: Step, x: Id)
    requires Inv(s) && step.DisconnectStep?
    ensures x in Unattended(Next(s, step)) && x !in Unattended(s) <==> LeavesUnattended(s, step, x)
  {
    var (sid, reason, autoReconnect) := (step.sid, step.reason, step.autoReconnect);
    NotStartedWhileUp(s, sid);
    DisconnectedLost(s, sid, reason, autoReconnect);
    if sid in Open(s.tabs) - Lost(s.tabs) && autoReconnect {
      assert sid in MarkDisconnected(s, sid, reason, autoReconnect).starts;
    }
  }

  /** A disconnect adds its tab, and starts a loop exactly if told to, unless it was known already. */
  lemma DisconnectedLost(s: State, sid: Id, reason: Option<string>, autoReconnect: bool)
    requires Distinct(s.tabs) && (sid in Open(s.tabs) - Lost(s.tabs) ==> sid !in s.loopSet)
    ensures var t, news := MarkDisconnected(s, sid, reason, autoReconnect), sid in Open(s.tabs) - Lost(s.tabs);
            && Lost(t.tabs) == Lost(s.tabs) + (if news then {sid} else {})
            && t.starts == if news && autoReconnect then s.starts + multiset{sid} else s.starts
  {
    LookupFlags(s.tabs, sid);
    FlagsOpen(s.tabs);
    if sid in Lost(s.tabs) { LostAlready(s, sid, reason, autoReconnect); }
    else if sid in Open(s.tabs) { NewlyLost(s, sid, reason, autoReconnect); }
  }

  lemma LostAlready(s: State, sid: Id, reason: Option<string>, autoReconnect: bool)
    requires Distinct(s.tabs) && Lookup(s.tabs, sid).Some? && Lookup(s.tabs, sid).value.disconnected
    ensures var t := MarkDisconnected(s, sid, reason, autoReconnect);
            Lost(t.tabs) == Lost(s.tabs) && t.starts == s.starts
  {
    LookupFlags(s.tabs, sid);
    if reason.Some? { MappedSets(s.tabs, sid, MarkReason(reason.value)); }
  }

  lemma NewlyLost(s: State, sid: Id, reason: Option<string>, autoReconnect: bool)
    requires Distinct(s.tabs) && Lookup(s.tabs, sid).Some? && !Lookup(s.tabs, sid).value.disconnected
    requires sid !in s.loopSet
    ensures var t := MarkDisconnected(s, sid, reason, autoReconnect);
            Lost(t.tabs) == Lost(s.tabs) + {sid}
            && t.starts == if autoReconnect then s.starts + multiset{sid} else s.starts
  {
    MappedSets(s.tabs, sid, MarkLost(reason));
  }

  /** A connected tab has had no loop under its present id. */
  lemma NotStartedWhileUp(s: State, sid: Id)
    requires Inv(s)
    ensures sid in Open(s.tabs) - Lost(s.tabs) ==> sid !in s.starts && sid !in s.loopSet
  {
  }

  lemma FailedUnattended(s: State, step: Step, x: Id)
    requires Inv(s) && Enabled(s, step) && step.FailedStep?
    ensures x in Unattended(Next(s, step)) && x !in Unattended(s) <==> LeavesUnattended(s, step, x)
  {
    NotStartedWhileUp(s, s.jobs[step.job].sid);
    FailedLost(s, step.job, step.message);
  }

  lemma OthersUnattendNone(s: State, step: Step, x: Id)
    requires Inv(s) && Enabled(s, step) && !step.DisconnectStep? && !step.FailedStep?
    ensures x in Unattended(Next(s, step)) ==> x in Unattended(s)
  {
    LostShrinks(s, step);
    StartsOnlyByDisconnect(s, step);
  }

  lemma FailedLost(s: State, k: nat, message: string)
    requires Distinct(s.tabs) && k in s.jobs && s.jobs[k].phase == AwaitOpen
    ensures var t, sid := SettleFailed(s, k, message), s.jobs[k].sid;
            t.starts == s.starts && Lost(t.tabs) == Lost(s.tabs) + (if sid in Open(s.tabs) then {sid} else {})
  {
    var sid := s.jobs[k].sid;
    LookupFlags(s.tabs, sid);
    if Lookup(s.tabs, sid).Some? {
      MappedSets(s.tabs, sid, MarkFailed(message));
    } else {
      UnmappedSame(s.tabs, sid, MarkFailed(message));
    }
  }

  /** Steps other than a disconnect and a failure add no disconnected tab. */
  lemma LostShrinks(s: State, step: Step)
    requires Distinct(s.tabs) && Open(s.tabs) <= s.known
    requires Enabled(s, step) && !step.DisconnectStep? && !step.FailedStep?
    ensures Lost(Next(s, step).tabs) <= Lost(s.tabs)
  {
    if IsTabAction(step) { TabStepLosesNone(s, step); } else { OtherStepLosesNone(s, step); }
  }

  lemma TabStepLosesNone(s: State, step: Step)
    requires Distinct(s.tabs) && Open(s.tabs) <= s.known
    requires Enabled(s, step) && IsTabAction(step) && !step.DisconnectStep?
    ensures Lost(Next(s, step).tabs) <= Lost(s.tabs)
  {
    match step {
      case AddTabStep(r) => AddedKeepsLost(s, r);
      case ToggleSyncStep(sid) =>
        LookupFlags(s.tabs, sid);
        if Lookup(s.tabs, sid).Some? { MappedSets(s.tabs, sid, ToggleSynced()); }
        else { UnmappedSame(s.tabs, sid, ToggleSynced()); }
      case PlaceholderStep(id, connectionId, name) =>
        AppendedFlags(s.tabs, Tab(id, connectionId, id, name, true, false, false, None, false));
      case EndCloseStep(k) => WithoutSets(s.tabs, s.closes[k]);
      case RequestReconnectStep(sid) => ReconnectingKeepsLost(s.tabs, sid);
      case _ =>
    }
  }

  lemma OtherStepLosesNone(s: State, step: Step)
    requires Distinct(s.tabs) && Open(s.tabs) <= s.known
    requires Enabled(s, step) && !IsTabAction(step) && !step.FailedStep?
    ensures Lost(Next(s, step).tabs) <= Lost(s.tabs)
  {
    match step {
      case PlaceholderFailedStep(k) => WithoutSets(s.tabs, s.jobs[k].sid);
      case OpenedStep(k, r) => OpenedLost(s, k, r);
      case WakeStep(l) => ReconnectingKeepsLost(s.tabs, s.loops[l].sid);
      case _ =>
    }
  }

  lemma AddedKeepsLost(s: State, r: OpenResult)
    requires Open(s.tabs) <= s.known && CanAdd(s, r)
    ensures Lost(AddTab(s, r).tabs) == Lost(s.tabs)
  {
    if r.sessionId != "" && r.terminalChannelId != "" {
      var t := AddTab(s, r);
      LookupOpen(s.tabs, r.sessionId);
      WithoutAbsent(s.tabs, r.sessionId);
      AppendedFlags(s.tabs, t.tabs[|t.tabs| - 1]);
    }
  }

  lemma StartsOnlyByDisconnect(s: State, step: Step)
    requires Enabled(s, step) && !step.DisconnectStep?
    ensures Next(s, step).starts == s.starts
  {
    if step.OpenedStep? { SettledBuffers(s, step.job, step.result); }
    else if !IsTabAction(step) { OtherStepStartsNone(s, step); }
  }

  lemma OtherStepStartsNone(s: State, step: Step)
    requires Enabled(s, step) && !IsTabAction(step) && !step.OpenedStep?
    ensures Next(s, step).starts == s.starts
  {
  }

  lemma ReconnectingKeepsLost(tabs: seq<Tab>, sid: Id)
    requires Distinct(tabs)
    ensures Lost(Mapped(tabs, sid, MarkReconnecting())) == Lost(tabs)
    ensures Open(Mapped(tabs, sid, MarkReconnecting())) == Open(tabs)
  {
  }

  lemma OpenedLost(s: State, k: nat, r: OpenResult)
    requires Distinct(s.tabs) && Open(s.tabs) <= s.known && CanArrive(s, k, r)
    ensures Lost(SettleOpened(s, k, r).tabs) <= Lost(s.tabs)
  {
    LookupOpen(s.tabs, s.jobs[k].sid);
    if Lookup(s.tabs, s.jobs[k].sid).Some? { RenamedSets(s.tabs, s.jobs[k].sid, r); }
  }

  /** Exactly these steps, in exactly these states, leave a tab unattended. */
  lemma UnattendedIff(s: State, step: Step, sid: Id)
    requires Inv(s) && Enabled(s, step)
    ensures sid in Unattended(Next(s, step)) && sid !in Unattended(s) <==> LeavesUnattended(s, step, sid)
  {
    if step.DisconnectStep? { DisconnectUnattended(s, step, sid); }
    else if step.FailedStep? { FailedUnattended(s, step, sid); }
    else { OthersUnattendNone(s, step, sid); }
  }

  /**
   * A run attends to every disconnected tab throughout exactly when it contains none of those steps.
   */
  lemma AlwaysAttendedIff(states: seq<State>, steps: seq<Step>)
    requires IsRun(states, steps)
    ensures (forall i :: 0 <= i < |states| ==> Unattended(states[i]) == {})
       <==> (forall i, sid :: 0 <= i < |steps| ==> !LeavesUnattended(states[i], steps[i], sid))
  {
    if forall i :: 0 <= i < |states| ==> Unattended(states[i]) == {} {
      forall i, sid | 0 <= i < |steps| ensures !LeavesUnattended(states[i], steps[i], sid) {
        RunStep(states, steps, i);
        UnattendedIff(states[i], steps[i], sid);
        assert Unattended(states[i + 1]) == {};
      }
    } else if forall i, sid :: 0 <= i < |steps| ==> !LeavesUnattended(states[i], steps[i], sid) {
      var i :| 0 <= i < |states| && Unattended(states[i]) != {};
      AttendedSoFar(states, steps, i);
    }
  }

  lemma {:induction false} AttendedSoFar(states: seq<State>, steps: seq<Step>, i: nat)
    requires IsRun(states, steps) && i < |states|
    requires forall j, sid :: 0 <= j < |steps| ==> !LeavesUnattended(states[j], steps[j], sid)
    ensures Unattended(states[i]) == {}
  {
    if i > 0 {
      AttendedSoFar(states, steps, i - 1);
      RunStep(states, steps, i - 1);
      forall sid ensures sid !in Unattended(states[i]) {
        UnattendedIff(states[i - 1], steps[i - 1], sid);
        assert !LeavesUnattended(states[i - 1], steps[i - 1], sid);
      }
    }
  }
}
