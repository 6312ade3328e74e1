/**
 * What the session machine guarantees when the interface offers a reconnect only for a disconnected
 * tab: one reconnect in flight per tab, and, with auto-reconnect on, no tab abandoned. And what goes
 * wrong otherwise.
 */
module SessionDiscipline {
  import opened Prelude
  import opened Sessions
  import opened SessionInvariant
  import opened SessionSteps
  import opened SessionTheorems

  /** A reconnect is requested only for a tab that is disconnected. */
  predicate OnlyWhenLost(s: State, step: Step) {
    step.RequestReconnectStep? && Lookup(s.tabs, step.sid).Some? ==> Lookup(s.tabs, step.sid).value.disconnected
  }

  /** The auto-reconnect setting is on when a disconnect is noticed. */
  predicate AutoReconnectOn(step: Step) {
    step.DisconnectStep? ==> step.autoReconnect
  }

  ghost predicate OneFlight(jobs: map<nat, Job>, sid: Id) {
    forall j, k ::
      (j in jobs && k in jobs && Unsettled(jobs[j]) && Unsettled(jobs[k]) && jobs[j].sid == sid && jobs[k].sid == sid)
      ==> j == k
  }

  /** An open session with a reconnect in flight is disconnected, marked, and has only that one. */
  ghost predicate Flights(open: set<Id>, lost: set<Id>, busy: set<Id>, jobs: map<nat, Job>) {
    forall sid :: sid in InFlight(jobs) && sid in open ==> sid in lost && sid in busy && OneFlight(jobs, sid)
  }

  ghost predicate FlightsInv(s: State) {
    Flights(Open(s.tabs), Lost(s.tabs), Busy(s.tabs), s.jobs)
  }

  // ---------------------------------------------------------------- the steps

  /** A reconnect joins for a session that had none. */
  lemma FlightAdded(open: set<Id>, lost: set<Id>, busy: set<Id>, jobs: map<nat, Job>, k: nat, j: Job)
    requires Flights(open, lost, busy, jobs) && k !in jobs
    requires Unsettled(j) ==> j.sid in lost && j.sid !in InFlight(jobs)
    ensures Flights(open, lost, busy + (if Unsettled(j) then {j.sid} else {}), jobs[k := j])
  {
  }

  /** A job goes, or moves to a phase that is a reconnect only if it was one. */
  lemma FlightChanged(open: set<Id>, lost: set<Id>, busy: set<Id>, jobs: map<nat, Job>, after: map<nat, Job>, k: nat)
    requires Flights(open, lost, busy, jobs) && k in jobs
    requires after == jobs - {k}
          || (k in after && after == jobs[k := after[k]] && after[k].sid == jobs[k].sid
              && (Unsettled(after[k]) ==> Unsettled(jobs[k])))
    ensures Flights(open, lost, busy, after)
    ensures InFlight(after) <= InFlight(jobs)
    ensures jobs[k].sid in open && Unsettled(jobs[k]) && (k in after ==> !Unsettled(after[k]))
        ==> jobs[k].sid !in InFlight(after)
  {
    forall sid | sid in InFlight(after) ensures sid in InFlight(jobs) {
      var i :| i in after && Unsettled(after[i]) && after[i].sid == sid;
      assert i in jobs && Unsettled(jobs[i]) && jobs[i].sid == sid;
    }
    forall sid | sid in InFlight(after) && sid in open ensures OneFlight(after, sid) {
      assert OneFlight(jobs, sid);
    }
    if jobs[k].sid in open && Unsettled(jobs[k]) && (k in after ==> !Unsettled(after[k])) {
      assert jobs[k].sid in InFlight(jobs);
      assert OneFlight(jobs, jobs[k].sid);
    }
  }

  lemma NewIdNotInFlight(s: State, id: Id)
    requires Recorded(s) && id !in s.known
    ensures id !in InFlight(s.jobs) && id !in Open(s.tabs)
  {
  }

  lemma BeginFlight(s: State, tab: Tab, loop: Option<nat>)
    requires StoresInv(s) && FlightsInv(s)
    requires Lookup(s.tabs, tab.sessionId) == Some(tab) && tab.disconnected && !tab.reconnecting
    ensures FlightsInv(BeginReconnect(s, tab, loop))
  {
    var t := BeginReconnect(s, tab, loop);
    LookupFlags(s.tabs, tab.sessionId);
    MappedSets(s.tabs, tab.sessionId, MarkReconnecting());
    FlightAdded(Open(s.tabs), Lost(s.tabs), Busy(s.tabs), s.jobs, s.next, t.jobs[s.next]);
  }

  lemma DisconnectFlights(s: State, sid: Id, reason: Option<string>, autoReconnect: bool)
    requires StoresInv(s) && FlightsInv(s)
    ensures FlightsInv(MarkDisconnected(s, sid, reason, autoReconnect))
  {
    LookupFlags(s.tabs, sid);
    if Lookup(s.tabs, sid).Some? {
      if Lookup(s.tabs, sid).value.disconnected {
        if reason.Some? { MappedSets(s.tabs, sid, MarkReason(reason.value)); }
      } else {
        MappedSets(s.tabs, sid, MarkLost(reason));
      }
    }
  }

  lemma OpenedFlights(s: State, k: nat, r: OpenResult)
    requires StoresInv(s) && FlightsInv(s) && CanArrive(s, k, r)
    ensures FlightsInv(SettleOpened(s, k, r))
  {
    var sid, after := s.jobs[k].sid, SettleOpened(s, k, r).jobs;
    LookupOpen(s.tabs, sid);
    NewIdNotInFlight(s, r.sessionId);
    SettledJobs(s, k, r);
    FlightChanged(Open(s.tabs), Lost(s.tabs), Busy(s.tabs), s.jobs, after, k);
    if Lookup(s.tabs, sid).Some? {
      RenamedSets(s.tabs, sid, r);
      RenamedFlights(Open(s.tabs), Lost(s.tabs), Busy(s.tabs), s.jobs, after, k, r.sessionId);
    }
  }

  lemma RenamedFlights(open: set<Id>, lost: set<Id>, busy: set<Id>,
                       jobs: map<nat, Job>, after: map<nat, Job>, k: nat, newId: Id)
    requires Flights(open, lost, busy, after) && k in jobs && newId !in InFlight(after)
    ensures Flights(open - {jobs[k].sid} + {newId}, lost - {jobs[k].sid}, busy - {jobs[k].sid}, after)
  {
  }

  lemma FailedFlights(s: State, k: nat, message: string)
    requires StoresInv(s) && FlightsInv(s) && k in s.jobs && s.jobs[k].phase == AwaitOpen
    ensures FlightsInv(SettleFailed(s, k, message))
  {
    var sid, t := s.jobs[k].sid, SettleFailed(s, k, message);
    LookupOpen(s.tabs, sid);
    FlightChanged(Open(s.tabs), Lost(s.tabs), Busy(s.tabs), s.jobs, t.jobs, k);
    if Lookup(s.tabs, sid).Some? { MappedSets(s.tabs, sid, MarkFailed(message)); }
    else { UnmappedSame(s.tabs, sid, MarkFailed(message)); }
  }

  lemma AddedFlights(s: State, r: OpenResult)
    requires Recorded(s) && FlightsInv(s) && CanAdd(s, r)
    ensures FlightsInv(AddTab(s, r))
  {
    if r.sessionId != "" && r.terminalChannelId != "" {
      NewIdNotInFlight(s, r.sessionId);
      LookupOpen(s.tabs, r.sessionId);
      WithoutAbsent(s.tabs, r.sessionId);
      AppendedFlags(s.tabs, AddTab(s, r).tabs[|s.tabs|]);
    }
  }

  lemma PlaceholderFlights(s: State, id: Id, connectionId: Id, name: string)
    requires Recorded(s) && s.next !in s.jobs && FlightsInv(s) && Fresh(s, id)
    ensures FlightsInv(OpenPlaceholder(s, id, connectionId, name))
  {
    var j := Job(id, connectionId, AwaitPlaceholder, None);
    NewIdNotInFlight(s, id);
    AppendedFlags(s.tabs, Tab(id, connectionId, id, name, true, false, false, None, false));
    FlightAdded(Open(s.tabs), Lost(s.tabs), Busy(s.tabs), s.jobs, s.next, j);
    JobAdded(s.jobs, s.next, j);
  }

  lemma GoneTabFlights(s: State, step: Step)
    requires StoresInv(s) && FlightsInv(s) && Enabled(s, step)
    requires step.PlaceholderFailedStep? || step.EndCloseStep? || step.OrphanClosedStep? || step.FallBackStep?
    ensures FlightsInv(Next(s, step))
  {
    var t := Next(s, step);
    match step {
      case PlaceholderFailedStep(k) =>
        WithoutSets(s.tabs, s.jobs[k].sid);
        FlightChanged(Open(s.tabs), Lost(s.tabs), Busy(s.tabs), s.jobs, t.jobs, k);
      case EndCloseStep(k) => WithoutSets(s.tabs, s.closes[k]);
      case OrphanClosedStep(k) => FlightChanged(Open(s.tabs), Lost(s.tabs), Busy(s.tabs), s.jobs, t.jobs, k);
      case FallBackStep(k) => FlightChanged(Open(s.tabs), Lost(s.tabs), Busy(s.tabs), s.jobs, t.jobs, k);
    }
  }

  lemma WakeFlights(s: State, l: nat)
    requires StoresInv(s) && FlightsInv(s) && l in s.loops && s.loops[l].phase == Sleeping
    requires s.loops[l].sid in s.known
    ensures FlightsInv(WakeLoop(s, l))
  {
    var tab := Lookup(s.tabs, s.loops[l].sid);
    if tab.Some? && tab.value.disconnected && !tab.value.reconnecting {
      var t := AttemptReconnect(s, l, tab.value);
      BeginFlight(s, tab.value, Some(l));
      assert t.tabs == BeginReconnect(s, tab.value, Some(l)).tabs;
    }
  }

  lemma ToggleSyncFlights(s: State, sid: Id)
    requires StoresInv(s) && FlightsInv(s)
    ensures FlightsInv(s.(tabs := Mapped(s.tabs, sid, ToggleSynced())))
  {
    LookupFlags(s.tabs, sid);
    if Lookup(s.tabs, sid).Some? { MappedSets(s.tabs, sid, ToggleSynced()); }
    else { UnmappedSame(s.tabs, sid, ToggleSynced()); }
  }

  lemma TabStepKeepsFlights(s: State, step: Step)
    requires StoresInv(s) && FlightsInv(s) && Enabled(s, step) && OnlyWhenLost(s, step) && IsTabAction(step)
    ensures FlightsInv(Next(s, step))
  {
    match step {
      case AddTabStep(r) => AddedFlights(s, r);
      case PlaceholderStep(id, connectionId, name) => PlaceholderFlights(s, id, connectionId, name);
      case ToggleSyncStep(sid) => ToggleSyncFlights(s, sid);
      case DisconnectStep(sid, reason, autoReconnect) => DisconnectFlights(s, sid, reason, autoReconnect);
      case RequestReconnectStep(sid) =>
        var tab := Lookup(s.tabs, sid);
        if tab.Some? && !tab.value.reconnecting { BeginFlight(s, tab.value, None); }
      case EndCloseStep(_) => GoneTabFlights(s, step);
      case _ =>
    }
  }

  lemma StepKeepsFlights(s: State, step: Step)
    requires StoresInv(s) && FlightsInv(s) && Enabled(s, step) && OnlyWhenLost(s, step)
    ensures FlightsInv(Next(s, step))
  {
    if IsTabAction(step) {
      TabStepKeepsFlights(s, step);
    } else {
      match step {
        case OpenedStep(k, r) => OpenedFlights(s, k, r);
        case FailedStep(k, message) => FailedFlights(s, k, message);
        case WakeStep(l) => assert s.loops[l].sid in LoopSessions(s.loops); WakeFlights(s, l);
        case PlaceholderFailedStep(_) => GoneTabFlights(s, step);
        case OrphanClosedStep(_) => GoneTabFlights(s, step);
        case FallBackStep(_) => GoneTabFlights(s, step);
        case _ =>
      }
    }
  }

  // ---------------------------------------------------------------- whole runs

  lemma {:induction false} EveryStateFlights(states: seq<State>, steps: seq<Step>, i: nat)
    requires IsRun(states, steps) && i < |states|
    requires forall j :: 0 <= j < |steps| ==> OnlyWhenLost(states[j], steps[j])
    ensures FlightsInv(states[i])
  {
    if i > 0 {
      EveryStateFlights(states, steps, i - 1);
      RunKeepsFlights(states, steps, i - 1);
    }
  }

  lemma RunKeepsFlights(states: seq<State>, steps: seq<Step>, i: nat)
    requires IsRun(states, steps) && i < |steps| && OnlyWhenLost(states[i], steps[i]) && FlightsInv(states[i])
    ensures FlightsInv(states[i + 1])
  {
    RunStep(states, steps, i);
    StepKeepsFlights(states[i], steps[i]);
  }

  /** A tab is marked as reconnecting exactly while a reconnect of it is in flight, and one at most is. */
  lemma OneReconnectPerTab(states: seq<State>, steps: seq<Step>, i: nat, tab: Tab)
    requires IsRun(states, steps) && i < |states| && tab in states[i].tabs
    requires forall j :: 0 <= j < |steps| ==> OnlyWhenLost(states[j], steps[j])
    ensures tab.reconnecting <==> ReconnectInFlight(states[i], tab.sessionId)
    ensures OneFlight(states[i].jobs, tab.sessionId)
  {
    var s := states[i];
    EveryStateInv(states, steps, i);
    EveryStateFlights(states, steps, i);
    DistinctOnly(s.tabs, tab);
    FlagSets(s.tabs, tab.sessionId, tab);
    InOpen(s.tabs, tab);
    assert tab.sessionId in InFlight(s.jobs) <==> ReconnectInFlight(s, tab.sessionId);
    if tab.sessionId !in InFlight(s.jobs) {
      assert forall k :: k in s.jobs && Unsettled(s.jobs[k]) ==> s.jobs[k].sid in InFlight(s.jobs);
    }
  }

  /** With auto-reconnect on, no disconnected tab is ever abandoned. */
  lemma NoTabAbandoned(states: seq<State>, steps: seq<Step>, i: nat, tab: Tab)
    requires IsRun(states, steps) && i < |states|
    requires forall j :: 0 <= j < |steps| ==> OnlyWhenLost(states[j], steps[j]) && AutoReconnectOn(steps[j])
    requires tab in states[i].tabs && tab.disconnected && tab.sessionId !in Closing(states[i].closes)
    ensures HasLiveLoop(states[i], tab.sessionId)
  {
    forall j, sid | 0 <= j < |steps| ensures !LeavesUnattended(states[j], steps[j], sid) {
      EveryStateFlights(states, steps, j);
      RunStep(states, steps, j);
      if steps[j].FailedStep? {
        assert states[j].jobs[steps[j].job].sid in InFlight(states[j].jobs);
      }
    }
    AttendedSoFar(states, steps, i);
    LiveLoopIff(states, steps, i, tab);
  }

  // ---------------------------------------------------------------- without the discipline

  lemma RunExtended(states: seq<State>, steps: seq<Step>, step: Step)
    requires IsRun(states, steps) && Enabled(states[|steps|], step)
    ensures IsRun(states + [Next(states[|steps|], step)], steps + [step])
  {
    var longer, more := states + [Next(states[|steps|], step)], steps + [step];
    forall i | 0 <= i < |more| ensures StepAt(longer, more, i) {
      if i < |steps| { assert StepAt(states, steps, i); }
    }
  }

  const R0 := OpenResult("a", "c", "t", "n")

  const UP := Tab("a", "c", "t", "n", false, false, false, None, false)

  /** A run that opens a tab and has it reconnected while it is connected. */
  lemma ReconnectedWhileUp() returns (states: seq<State>, steps: seq<Step>)
    ensures IsRun(states, steps) && |steps| == 2 && steps == [AddTabStep(R0), RequestReconnectStep("a")]
    ensures var s := states[2];
            && s.tabs == [UP.(reconnecting := true)] && s.loopSet == {} && s.loops == map[] && s.closes == map[]
            && s.next == 1 && s.jobs == map[0 := Job("a", "c", AwaitReconnect, None)]
  {
    var s0 := Initial();
    states, steps := [s0], [];
    RunExtended(states, steps, AddTabStep(R0));
    var s1 := Next(s0, AddTabStep(R0));
    assert s1.tabs == [UP];
    states, steps := states + [s1], steps + [AddTabStep(R0)];
    RunExtended(states, steps, RequestReconnectStep("a"));
    states, steps := states + [Next(s1, RequestReconnectStep("a"))], steps + [RequestReconnectStep("a")];
  }

  /**
   * Reconnecting a connected tab can abandon it: when the attempt fails the tab is disconnected with
   * no loop, and the disconnect event that follows finds it already disconnected and starts none.
   */
  lemma FailedManualReconnectAbandons() returns (states: seq<State>, steps: seq<Step>)
    ensures IsRun(states, steps) && forall j :: 0 <= j < |steps| ==> AutoReconnectOn(steps[j])
    ensures var last := states[|steps|];
            && last.tabs != [] && last.tabs[0].sessionId == "a" && last.tabs[0].disconnected
            && last.closes == map[] && !HasLiveLoop(last, "a")
  {
    states, steps := FailedWhileUp();
    var lost := DisconnectStep("a", Some("lost"), true);
    RunExtended(states, steps, lost);
    states, steps := states + [Next(states[4], lost)], steps + [lost];
  }

  lemma FailedWhileUp() returns (states: seq<State>, steps: seq<Step>)
    ensures IsRun(states, steps) && |steps| == 4 && forall j :: 0 <= j < |steps| ==> AutoReconnectOn(steps[j])
    ensures var s := states[4];
            && s.tabs == [UP.(disconnected := true, disconnectReason := Some("gone"))]
            && s.loopSet == {} && s.loops == map[] && s.closes == map[]
  {
    states, steps := ReconnectedWhileUp();
    var s2 := states[2];
    RunExtended(states, steps, FallBackStep(0));
    var s3 := Next(s2, FallBackStep(0));
    states, steps := states + [s3], steps + [FallBackStep(0)];
    RunExtended(states, steps, FailedStep(0, "gone"));
    var s4 := Next(s3, FailedStep(0, "gone"));
    assert Mapped(s2.tabs[1..], "a", MarkFailed("gone")) == [];
    assert s4.tabs[0] == UP.(disconnected := true, disconnectReason := Some("gone"));
    states, steps := states + [s4], steps + [FailedStep(0, "gone")];
  }

  /** Reconnecting a connected tab can also put two reconnects of one tab in flight. */
  lemma ManualReconnectOverlaps() returns (states: seq<State>, steps: seq<Step>)
    ensures IsRun(states, steps)
    ensures var last := states[|steps|];
            last.tabs != [] && last.tabs[0].sessionId == "a" && !OneFlight(last.jobs, "a")
  {
    states, steps := ReconnectedWhileUp();
    var s2, lost, again := states[2], DisconnectStep("a", None, true), RequestReconnectStep("a");
    RunExtended(states, steps, lost);
    var s3 := Next(s2, lost);
    assert s2.tabs[1..] == [];
    assert s3.tabs[0] == UP.(disconnected := true);
    states, steps := states + [s3], steps + [lost];
    RunExtended(states, steps, again);
    var s4 := Next(s3, again);
    assert s4.jobs[0] == Job("a", "c", AwaitReconnect, None) == s4.jobs[2];
    states, steps := states + [s4], steps + [again];
  }
}
