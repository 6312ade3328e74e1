/** Where the sessions the backend hands out end up, and the only ways in which one loses its tab. */
module SessionConservation {
  import opened Prelude
  import opened Sessions
  import opened SessionInvariant
  import opened SessionSteps
  import opened SessionTheorems
  import opened SessionLoops

  // ---------------------------------------------------------------- losing a tab

  /** A reconnect or an open arrives for the session's tab, and another session takes the tab over. */
  ghost predicate Replaces(s: State, step: Step, id: Id) {
    step.OpenedStep? && step.job in s.jobs && s.jobs[step.job].sid == id && id in Open(s.tabs)
  }

  /** The close of a session ends, or the open behind its placeholder fails. */
  ghost predicate Removes(s: State, step: Step, id: Id) {
    match step
    case EndCloseStep(k) => k in s.closes && s.closes[k] == id
    case PlaceholderFailedStep(k) => k in s.jobs && s.jobs[k].sid == id
    case _ => false
  }

  /** An open session loses its tab in these ways and in no other. */
  lemma TabLostIff(s: State, step: Step, id: Id)
    requires StoresInv(s) && Enabled(s, step) && id in Open(s.tabs)
    ensures id !in Open(Next(s, step).tabs) <==> Replaces(s, step, id) || Removes(s, step, id)
  {
    if IsTabAction(step) { ActionLosesIff(s, step, id); }
    else if step.OpenedStep? { ArrivalLosesIff(s, step, id); }
    else if SettlesJob(step) { SettlingLosesIff(s, step, id); }
    else { OtherStepKeepsOpen(s, step); }
  }

  lemma ActionLosesIff(s: State, step: Step, id: Id)
    requires StoresInv(s) && Enabled(s, step) && IsTabAction(step) && id in Open(s.tabs)
    ensures id !in Open(Next(s, step).tabs) <==> Removes(s, step, id)
  {
    match step {
      case AddTabStep(r) => AddedKeepsOpen(s, r);
      case PlaceholderStep(x, connectionId, name) =>
        AppendedFlags(s.tabs, Tab(x, connectionId, x, name, true, false, false, None, false));
      case ToggleSyncStep(sid) => MappedKeepsOpen(s.tabs, sid, ToggleSynced());
      case EndCloseStep(k) => WithoutSets(s.tabs, s.closes[k]);
      case DisconnectStep(sid, reason, autoReconnect) => DisconnectKeepsOpen(s, sid, reason, autoReconnect);
      case RequestReconnectStep(sid) => ReconnectingKeepsLost(s.tabs, sid);
      case _ =>
    }
  }

  lemma AddedKeepsOpen(s: State, r: OpenResult)
    requires Open(s.tabs) <= s.known && CanAdd(s, r)
    ensures Open(s.tabs) <= Open(AddTab(s, r).tabs)
    ensures r.sessionId != "" && r.terminalChannelId != "" ==> r.sessionId in Open(AddTab(s, r).tabs)
  {
    if r.sessionId != "" && r.terminalChannelId != "" {
      LookupOpen(s.tabs, r.sessionId);
      WithoutAbsent(s.tabs, r.sessionId);
      AppendedFlags(s.tabs, AddTab(s, r).tabs[|s.tabs|]);
    }
  }

  lemma SettlingLosesIff(s: State, step: Step, id: Id)
    requires Distinct(s.tabs) && Enabled(s, step) && SettlesJob(step) && !step.OpenedStep? && id in Open(s.tabs)
    ensures id !in Open(Next(s, step).tabs) <==> Removes(s, step, id)
  {
    match step {
      case PlaceholderFailedStep(k) => WithoutSets(s.tabs, s.jobs[k].sid);
      case FailedStep(k, message) => MappedKeepsOpen(s.tabs, s.jobs[k].sid, MarkFailed(message));
      case _ =>
    }
  }

  lemma ArrivalLosesIff(s: State, step: Step, id: Id)
    requires StoresInv(s) && Enabled(s, step) && step.OpenedStep? && id in Open(s.tabs)
    ensures id !in Open(Next(s, step).tabs) <==> Replaces(s, step, id)
  {
    var (k, r) := (step.job, step.result);
    LookupOpen(s.tabs, s.jobs[k].sid);
    SettledJobs(s, k, r);
    if s.jobs[k].sid in Open(s.tabs) { RenamedSets(s.tabs, s.jobs[k].sid, r); }
  }

  lemma OtherStepKeepsOpen(s: State, step: Step)
    requires Distinct(s.tabs) && Enabled(s, step) && !IsTabAction(step) && !SettlesJob(step)
    ensures Open(Next(s, step).tabs) == Open(s.tabs)
  {
    if step.WakeStep? { ReconnectingKeepsLost(s.tabs, s.loops[step.loop].sid); }
  }

  // ---------------------------------------------------------------- obtained sessions

  /** Ids sent to be closed stay sent, and an id is obtained only with a new tab or an arriving session. */
  lemma ObtainedBy(s: State, step: Step, id: Id)
    requires Enabled(s, step)
    ensures s.closeSent <= Next(s, step).closeSent
    ensures id in Next(s, step).obtained && id !in s.obtained
        ==> (step.AddTabStep? || step.OpenedStep?) && id == step.result.sessionId && id != ""
            && (step.AddTabStep? ==> step.result.terminalChannelId != "")
  {
    if step.OpenedStep? { SettledIds(s, step.job, step.result); }
    else if !IsTabAction(step) { OtherStepObtainsNone(s, step); }
  }

  lemma OtherStepObtainsNone(s: State, step: Step)
    requires Enabled(s, step) && !IsTabAction(step) && !step.OpenedStep?
    ensures Next(s, step).obtained == s.obtained && Next(s, step).closeSent == s.closeSent
  {
  }

  /** At some step before the `i`-th state another session took the session's tab over. */
  ghost predicate ReplacedBefore(states: seq<State>, steps: seq<Step>, i: nat, id: Id)
    requires |states| == |steps| + 1 && i < |states|
  {
    exists j :: 0 <= j < i && Replaces(states[j], steps[j], id)
  }

  ghost predicate Accounted(states: seq<State>, steps: seq<Step>, i: nat, id: Id)
    requires |states| == |steps| + 1 && i < |states|
  {
    id in Open(states[i].tabs) || id in states[i].closeSent || ReplacedBefore(states, steps, i, id)
  }

  /** Of a newly obtained session, one step accounts. */
  lemma NewlyObtained(s: State, step: Step, id: Id)
    requires Inv(s) && Enabled(s, step)
    ensures id in Next(s, step).obtained && id !in s.obtained
        ==> id in Open(Next(s, step).tabs) || id in Next(s, step).closeSent
  {
    ObtainedBy(s, step, id);
    if step.OpenedStep? { SettledExactlyOnce(s, step.job, step.result); }
    else if step.AddTabStep? { AddedKeepsOpen(s, step.result); }
  }

  /** An obtained session that loses its tab was closed or replaced. */
  lemma LostAccounted(s: State, step: Step, id: Id)
    requires StoresInv(s) && Enabled(s, step) && id in s.obtained && id in Open(s.tabs)
    ensures id in Open(Next(s, step).tabs) || id in s.closeSent || Replaces(s, step, id)
  {
    TabLostIff(s, step, id);
    if step.EndCloseStep? { assert s.closes[step.close] in Closing(s.closes); }
  }

  lemma {:induction false} AllAccounted(states: seq<State>, steps: seq<Step>, i: nat, id: Id)
    requires IsRun(states, steps) && i < |states| && id in states[i].obtained
    ensures Accounted(states, steps, i, id)
  {
    if i > 0 {
      RunStep(states, steps, i - 1);
      if id in states[i - 1].obtained {
        AllAccounted(states, steps, i - 1, id);
        StillAccounted(states, steps, i - 1, id);
      } else {
        NewlyObtained(states[i - 1], steps[i - 1], id);
      }
    }
  }

  lemma StillAccounted(states: seq<State>, steps: seq<Step>, i: nat, id: Id)
    requires IsRun(states, steps) && i < |steps| && id in states[i].obtained && Accounted(states, steps, i, id)
    ensures Accounted(states, steps, i + 1, id)
  {
    RunStep(states, steps, i);
    ObtainedBy(states[i], steps[i], id);
    if id in Open(states[i].tabs) {
      LostAccounted(states[i], steps[i], id);
    } else if id !in states[i].closeSent {
      var j :| 0 <= j < i && Replaces(states[j], steps[j], id);
      assert 0 <= j < i + 1;
    }
  }

  /** A session that is replaced has no tab from then on. */
  lemma ReplacedForGood(states: seq<State>, steps: seq<Step>, j: nat, m: nat, id: Id)
    requires IsRun(states, steps) && j < m < |states| && j < |steps| && Replaces(states[j], steps[j], id)
    ensures Lookup(states[m].tabs, id).None?
  {
    RunStep(states, steps, j);
    TabLostIff(states[j], steps[j], id);
    KnownGrows(states[j], steps[j]);
    LookupOpen(states[j + 1].tabs, id);
    GoneForGood(states, steps, j + 1, m, id);
  }

  lemma SentGrows(s: State, step: Step)
    requires Enabled(s, step)
    ensures s.reconnectSent <= Next(s, step).reconnectSent
  {
    if step.OpenedStep? { SettledIds(s, step.job, step.result); }
    else if !IsTabAction(step) { OtherStepSentGrows(s, step); }
  }

  lemma OtherStepSentGrows(s: State, step: Step)
    requires Enabled(s, step) && !IsTabAction(step) && !step.OpenedStep?
    ensures s.reconnectSent <= Next(s, step).reconnectSent
  {
  }

  /** What the backend has been given stays given, and an id that is known is not handed out any more. */
  lemma RunSentGrows(states: seq<State>, steps: seq<Step>, i: nat, id: Id)
    requires IsRun(states, steps) && i < |steps| && id in states[i].known
    ensures id in states[i + 1].known
    ensures id in states[i].reconnectSent ==> id in states[i + 1].reconnectSent
    ensures id !in states[i].obtained ==> id !in states[i + 1].obtained
  {
    RunStep(states, steps, i);
    SentGrows(states[i], steps[i]);
    KnownGrows(states[i], steps[i]);
    ObtainedBy(states[i], steps[i], id);
  }

  lemma {:induction false} SentForGood(states: seq<State>, steps: seq<Step>, j: nat, m: nat, id: Id)
    requires IsRun(states, steps) && j <= m < |states| && id in states[j].known
    ensures id in states[m].known
    ensures id in states[j].reconnectSent ==> id in states[m].reconnectSent
    ensures id !in states[j].obtained ==> id !in states[m].obtained
    decreases m
  {
    if j < m {
      SentForGood(states, steps, j, m - 1, id);
      RunSentGrows(states, steps, m - 1, id);
    }
  }

  /** An obtained session that was replaced had been given to the reconnect command. */
  lemma ReplacedWasSent(states: seq<State>, steps: seq<Step>, j: nat, m: nat, id: Id)
    requires IsRun(states, steps) && j < m < |states| && j < |steps| && Replaces(states[j], steps[j], id)
    requires id in states[m].obtained
    ensures id in states[m].reconnectSent
  {
    EveryStateInv(states, steps, j);
    SentForGood(states, steps, j, m, id);
  }

  /**
   * Sessions are conserved in every interleaving: whatever the backend handed out is open in exactly one
   * tab, or was given back to be closed, or was given back to be reconnected and replaced, in its own
   * tab, by the session that arrived for it, and then has no tab any more.
   */
  lemma NoSessionLeaked(states: seq<State>, steps: seq<Step>, i: nat, id: Id)
    requires IsRun(states, steps) && i < |states| && id in states[i].obtained
    ensures Lookup(states[i].tabs, id).Some? || id in states[i].closeSent || ReplacedBefore(states, steps, i, id)
    ensures ReplacedBefore(states, steps, i, id)
        ==> Lookup(states[i].tabs, id).None? && id in states[i].reconnectSent
    ensures Distinct(states[i].tabs)
  {
    EveryStateInv(states, steps, i);
    AllAccounted(states, steps, i, id);
    LookupOpen(states[i].tabs, id);
    if ReplacedBefore(states, steps, i, id) {
      var j :| 0 <= j < i && Replaces(states[j], steps[j], id);
      ReplacedForGood(states, steps, j, i, id);
      ReplacedWasSent(states, steps, j, i, id);
    }
  }
}
