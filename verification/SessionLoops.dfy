/** The auto-reconnect loops: how often one is started, when it gives up, and how long it sleeps. */
module SessionLoops {
  import opened Prelude
  import opened Sessions
  import opened SessionInvariant
  import opened SessionSteps
  import opened SessionTheorems

  // ---------------------------------------------------------------- one loop per id, ever

  /** Over any run at most one loop is started per session id, and every id in the set has its loop. */
  lemma OneLoopPerSession(states: seq<State>, steps: seq<Step>, i: nat, sid: Id)
    requires IsRun(states, steps) && i < |states|
    ensures states[i].starts[sid] <= 1
    ensures sid in states[i].loopSet ==> HasLiveLoop(states[i], sid)
    ensures var loops := states[i].loops;
            forall l, m :: l in loops && m in loops && loops[l].sid == loops[m].sid ==> l == m
  {
    var s := states[i];
    EveryStateInv(states, steps, i);
    if sid in s.loopSet {
      assert sid in LoopSessions(s.loops);
      var l :| l in s.loops && s.loops[l].sid == sid;
      assert s.loops[l].phase != Settled(true);
    }
  }

  // ---------------------------------------------------------------- a gone tab stays gone

  /** New tabs are of ids not seen before. */
  lemma OpenGrowsFresh(s: State, step: Step, x: Id)
    requires Distinct(s.tabs) && Open(s.tabs) <= s.known && Enabled(s, step)
    requires x in s.known && x !in Open(s.tabs)
    ensures x !in Open(Next(s, step).tabs)
  {
    if IsTabAction(step) { TabStepOpens(s, step, x); } else { OtherStepOpens(s, step, x); }
  }

  lemma TabStepOpens(s: State, step: Step, x: Id)
    requires Distinct(s.tabs) && Open(s.tabs) <= s.known && Enabled(s, step) && IsTabAction(step)
    requires x in s.known && x !in Open(s.tabs)
    ensures x !in Open(Next(s, step).tabs)
  {
    match step {
      case AddTabStep(r) => AddedOpen(s, r);
      case PlaceholderStep(id, connectionId, name) =>
        AppendedFlags(s.tabs, Tab(id, connectionId, id, name, true, false, false, None, false));
      case ToggleSyncStep(sid) => MappedKeepsOpen(s.tabs, sid, ToggleSynced());
      case EndCloseStep(k) => WithoutSets(s.tabs, s.closes[k]);
      case DisconnectStep(sid, reason, autoReconnect) => DisconnectKeepsOpen(s, sid, reason, autoReconnect);
      case RequestReconnectStep(sid) => ReconnectingKeepsLost(s.tabs, sid);
      case _ =>
    }
  }

  lemma OtherStepOpens(s: State, step: Step, x: Id)
    requires Distinct(s.tabs) && Open(s.tabs) <= s.known && Enabled(s, step) && !IsTabAction(step)
    requires x in s.known && x !in Open(s.tabs)
    ensures x !in Open(Next(s, step).tabs)
  {
    match step {
      case PlaceholderFailedStep(k) => WithoutSets(s.tabs, s.jobs[k].sid);
      case OpenedStep(k, r) => OpenedOpen(s, k, r);
      case FailedStep(k, message) => MappedKeepsOpen(s.tabs, s.jobs[k].sid, MarkFailed(message));
      case WakeStep(l) => ReconnectingKeepsLost(s.tabs, s.loops[l].sid);
      case _ =>
    }
  }

  lemma AddedOpen(s: State, r: OpenResult)
    requires Open(s.tabs) <= s.known && CanAdd(s, r)
    ensures Open(AddTab(s, r).tabs) <= Open(s.tabs) + {r.sessionId}
    ensures r.sessionId == "" ==> Open(AddTab(s, r).tabs) == Open(s.tabs)
  {
    if r.sessionId != "" && r.terminalChannelId != "" {
      var t := AddTab(s, r);
      LookupOpen(s.tabs, r.sessionId);
      WithoutAbsent(s.tabs, r.sessionId);
      AppendedFlags(s.tabs, t.tabs[|t.tabs| - 1]);
    }
  }

  lemma DisconnectKeepsOpen(s: State, sid: Id, reason: Option<string>, autoReconnect: bool)
    requires Distinct(s.tabs)
    ensures Open(MarkDisconnected(s, sid, reason, autoReconnect).tabs) == Open(s.tabs)
  {
    MappedKeepsOpen(s.tabs, sid, MarkLost(reason));
    if reason.Some? { MappedKeepsOpen(s.tabs, sid, MarkReason(reason.value)); }
  }

  lemma OpenedOpen(s: State, k: nat, r: OpenResult)
    requires Distinct(s.tabs) && Open(s.tabs) <= s.known && CanArrive(s, k, r)
    ensures Open(SettleOpened(s, k, r).tabs) <= Open(s.tabs) + {r.sessionId}
  {
    LookupOpen(s.tabs, s.jobs[k].sid);
    if Lookup(s.tabs, s.jobs[k].sid).Some? { RenamedSets(s.tabs, s.jobs[k].sid, r); }
  }

  lemma KnownGrows(s: State, step: Step)
    requires Enabled(s, step)
    ensures s.known <= Next(s, step).known
  {
    match step {
      case OpenedStep(k, r) => SettledBuffers(s, k, r);
      case _ => KnownKept(s, step);
    }
  }

  /** Only new tabs and arriving sessions bring new ids. */
  lemma KnownKept(s: State, step: Step)
    requires Enabled(s, step) && !step.OpenedStep?
    ensures step.AddTabStep? || step.PlaceholderStep? ==> s.known <= Next(s, step).known
    ensures !step.AddTabStep? && !step.PlaceholderStep? ==> Next(s, step).known == s.known
  {
  }

  lemma MappedKeepsOpen(tabs: seq<Tab>, sid: Id, update: Tab -> Tab)
    requires Distinct(tabs) && KeepsId(update)
    ensures Open(Mapped(tabs, sid, update)) == Open(tabs)
  {
  }

  /** An id that has lost its tab never names one again. */
  lemma {:induction false} GoneForGood(states: seq<State>, steps: seq<Step>, i: nat, j: nat, x: Id)
    requires IsRun(states, steps) && i <= j < |states|
    requires x in states[i].known && Lookup(states[i].tabs, x).None?
    ensures x in states[j].known && Lookup(states[j].tabs, x).None?
    decreases j
  {
    if i < j {
      GoneForGood(states, steps, i, j - 1, x);
      RunStaysGone(states, steps, j - 1, x);
    }
  }

  lemma RunStaysGone(states: seq<State>, steps: seq<Step>, i: nat, x: Id)
    requires IsRun(states, steps) && i < |steps| && x in states[i].known && Lookup(states[i].tabs, x).None?
    ensures x in states[i + 1].known && Lookup(states[i + 1].tabs, x).None?
  {
    var s, t := states[i], states[i + 1];
    RunStep(states, steps, i);
    LookupOpen(s.tabs, x);
    OpenGrowsFresh(s, steps[i], x);
    KnownGrows(s, steps[i]);
    LookupOpen(t.tabs, x);
  }

  // ---------------------------------------------------------------- what steps do to loops

  /** The steps that touch no loop. */
  predicate SparesLoops(step: Step) {
    !step.DisconnectStep? && !step.PlaceholderFailedStep? && !step.OpenedStep? && !step.FailedStep?
    && !step.OrphanClosedStep? && !step.WakeStep? && !step.ResumeStep?
  }

  lemma LoopsSpared(s: State, step: Step)
    requires Enabled(s, step) && SparesLoops(step)
    ensures Next(s, step).loops == s.loops && s.next <= Next(s, step).next
  {
  }

  predicate EndsJob(step: Step) {
    step.PlaceholderFailedStep? || step.OpenedStep? || step.FailedStep? || step.OrphanClosedStep?
  }

  /** The end of a call moves at most the loop awaiting it, and that to being settled. */
  lemma JobEndsLoops(s: State, step: Step)
    requires Enabled(s, step) && EndsJob(step) && LoopsAwait(s.loops, s.jobs)
    ensures var t := Next(s, step);
            && t.next == s.next && t.loops.Keys == s.loops.Keys
            && forall l :: l in s.loops ==>
                 t.loops[l] == s.loops[l]
                 || (s.loops[l].phase == Attempting && t.loops[l].phase.Settled?
                     && t.loops[l] == s.loops[l].(phase := t.loops[l].phase))
  {
    var k := step.job;
    if s.jobs[k].loop.Some? { assert AwaitedBy(s.jobs, k, s.jobs[k].loop.value); }
  }

  // ---------------------------------------------------------------- a loop without its tab

  /** In the loop's further life without a tab, it has the same id and the same count of attempts. */
  ghost predicate SameLoop(p: Loop, q: Loop) {
    p.sid == q.sid && p.attempts == q.attempts
  }

  lemma DisconnectSparesLoop(s: State, sid: Id, reason: Option<string>, autoReconnect: bool, l: nat)
    requires l in s.loops && l < s.next
    ensures var t := MarkDisconnected(s, sid, reason, autoReconnect);
            s.next <= t.next && l in t.loops && t.loops[l] == s.loops[l]
  {
  }

  lemma WakeSparesLoop(s: State, m: nat, l: nat)
    requires l in s.loops && m in s.loops && l != m
    ensures var t := WakeLoop(s, m); s.next <= t.next && l in t.loops && t.loops[l] == s.loops[l]
  {
  }

  lemma OtherLoopStep(s: State, step: Step, l: nat)
    requires Enabled(s, step) && l in s.loops && l < s.next
    requires step.DisconnectStep? || (step.WakeStep? && step.loop != l) || (step.ResumeStep? && step.loop != l)
    ensures s.next <= Next(s, step).next
    ensures l in Next(s, step).loops && Next(s, step).loops[l] == s.loops[l]
  {
    match step {
      case DisconnectStep(sid, reason, autoReconnect) => DisconnectSparesLoop(s, sid, reason, autoReconnect, l);
      case WakeStep(m) => WakeSparesLoop(s, m, l);
      case ResumeStep(m) =>
    }
  }

  lemma OwnLoopStep(s: State, step: Step, l: nat)
    requires Enabled(s, step) && l in s.loops && (step == WakeStep(l) || step == ResumeStep(l))
    requires Lookup(s.tabs, s.loops[l].sid).None? && s.loops[l].sid !in s.loopSet
    ensures l !in Next(s, step).loops && s.next <= Next(s, step).next
  {
  }

  lemma GoneLoopStep(s: State, step: Step, l: nat)
    requires LoopsAwait(s.loops, s.jobs) && Enabled(s, step) && l in s.loops && l < s.next
    requires Lookup(s.tabs, s.loops[l].sid).None? && s.loops[l].sid !in s.loopSet
    ensures s.next <= Next(s, step).next
    ensures l in Next(s, step).loops ==> SameLoop(s.loops[l], Next(s, step).loops[l])
    ensures step == WakeStep(l) || step == ResumeStep(l) ==> l !in Next(s, step).loops
  {
    if SparesLoops(step) { LoopsSpared(s, step); }
    else if EndsJob(step) { JobEndsLoops(s, step); }
    else if step == WakeStep(l) || step == ResumeStep(l) { OwnLoopStep(s, step, l); }
    else { OtherLoopStep(s, step, l); }
  }

  lemma LoopKeysNotReused(s: State, step: Step, l: nat)
    requires LoopsAwait(s.loops, s.jobs) && Enabled(s, step) && l !in s.loops && l < s.next
    ensures l !in Next(s, step).loops && l < Next(s, step).next
  {
    if SparesLoops(step) { LoopsSpared(s, step); }
    else if EndsJob(step) { JobEndsLoops(s, step); }
  }

  lemma RunLoopFacts(states: seq<State>, steps: seq<Step>, i: nat, l: nat)
    requires IsRun(states, steps) && i < |states|
    ensures LoopsAwait(states[i].loops, states[i].jobs)
    ensures l in states[i].loops ==> l < states[i].next && states[i].loops[l].sid in states[i].known
    ensures l in states[i].loops && Lookup(states[i].tabs, states[i].loops[l].sid).None?
        ==> states[i].loops[l].sid !in states[i].loopSet
  {
    EveryStateInv(states, steps, i);
    if l in states[i].loops {
      LookupOpen(states[i].tabs, states[i].loops[l].sid);
      assert states[i].loops[l].sid in LoopSessions(states[i].loops);
    }
  }

  lemma RunGoneStep(states: seq<State>, steps: seq<Step>, j: nat, l: nat)
    requires IsRun(states, steps) && j < |steps|
    requires l in states[j].loops && Lookup(states[j].tabs, states[j].loops[l].sid).None?
    ensures l in states[j + 1].loops ==> SameLoop(states[j].loops[l], states[j + 1].loops[l])
    ensures l < states[j + 1].next
    ensures steps[j] == WakeStep(l) || steps[j] == ResumeStep(l) ==> l !in states[j + 1].loops
  {
    RunLoopFacts(states, steps, j, l);
    RunStep(states, steps, j);
    GoneLoopStep(states[j], steps[j], l);
  }

  /** A loop that has ended stays ended. */
  lemma {:induction false} EndedForGood(states: seq<State>, steps: seq<Step>, i: nat, j: nat, l: nat)
    requires IsRun(states, steps) && i <= j < |states|
    requires l !in states[i].loops && l < states[i].next
    ensures l !in states[j].loops && l < states[j].next
    decreases j
  {
    if i < j {
      EndedForGood(states, steps, i, j - 1, l);
      RunStaysEnded(states, steps, j - 1, l);
    }
  }

  lemma RunStaysEnded(states: seq<State>, steps: seq<Step>, i: nat, l: nat)
    requires IsRun(states, steps) && i < |steps| && l !in states[i].loops && l < states[i].next
    ensures l !in states[i + 1].loops && l < states[i + 1].next
  {
    RunLoopFacts(states, steps, i, l);
    RunStep(states, steps, i);
    LoopKeysNotReused(states[i], steps[i], l);
  }

  /** Once its tab is removed or renamed, a loop makes no further attempt. */
  lemma {:induction false} NoAttemptWithoutTab(states: seq<State>, steps: seq<Step>, i: nat, j: nat, l: nat)
    requires IsRun(states, steps) && i <= j < |states|
    requires l in states[i].loops && Lookup(states[i].tabs, states[i].loops[l].sid).None?
    ensures l in states[j].loops ==> SameLoop(states[i].loops[l], states[j].loops[l])
    decreases j - i
  {
    if i < j {
      var sid := states[i].loops[l].sid;
      RunLoopFacts(states, steps, i, l);
      GoneForGood(states, steps, i, i + 1, sid);
      RunGoneStep(states, steps, i, l);
      if l in states[i + 1].loops {
        NoAttemptWithoutTab(states, steps, i + 1, j, l);
      } else {
        EndedForGood(states, steps, i + 1, j, l);
      }
    }
  }

  /** Without its tab a loop ends, for good, the next time it wakes or its attempt settles. */
  lemma EndsWithoutTab(states: seq<State>, steps: seq<Step>, i: nat, m: nat, j: nat, l: nat)
    requires IsRun(states, steps) && i <= m < j < |states|
    requires l in states[i].loops && Lookup(states[i].tabs, states[i].loops[l].sid).None?
    requires steps[m] == WakeStep(l) || steps[m] == ResumeStep(l)
    ensures l !in states[j].loops
  {
    RunLoopFacts(states, steps, i, l);
    NoAttemptWithoutTab(states, steps, i, m, l);
    GoneForGood(states, steps, i, m, states[i].loops[l].sid);
    RunStep(states, steps, m);
    RunGoneStep(states, steps, m, l);
    EndedForGood(states, steps, m + 1, j, l);
  }

  // ---------------------------------------------------------------- backoff

  function Pow2(n: nat): nat {
    if n == 0 then 1 else 2 * Pow2(n - 1)
  }

  /** The sleep before attempt `n`, counting from one. */
  function Backoff(n: nat): nat
    requires n >= 1
  {
    if FIRST_DELAY * Pow2(n - 1) <= MAX_DELAY then FIRST_DELAY * Pow2(n - 1) else MAX_DELAY
  }

  /** All sleeps up to attempt `n`. */
  function TotalBackoff(n: nat): nat {
    if n == 0 then 0 else TotalBackoff(n - 1) + Backoff(n)
  }

  lemma BackoffDoubles(n: nat)
    requires n >= 1
    ensures Backoff(n + 1) == NextDelay(Backoff(n))
  {
  }

  lemma {:induction false} Pow2AtLeast(n: nat)
    requires n >= 5
    ensures Pow2(n) >= 32
  {
    if n == 5 {
      assert Pow2(5) == 2 * Pow2(4) && Pow2(4) == 2 * Pow2(3) && Pow2(3) == 2 * Pow2(2) && Pow2(2) == 2 * Pow2(1);
    } else {
      Pow2AtLeast(n - 1);
    }
  }

  /** From the fifth attempt on, the total is 31 s and 30 s for each attempt more. */
  lemma {:induction false} TotalBackoffClosed(n: nat)
    requires n >= 5
    ensures TotalBackoff(n) == 31000 + 30000 * (n - 5)
  {
    if n == 5 {
      assert Pow2(1) == 2 && Pow2(2) == 4 && Pow2(3) == 8 && Pow2(4) == 16;
      assert TotalBackoff(1) == 1000 && TotalBackoff(2) == 3000 && TotalBackoff(3) == 7000 && TotalBackoff(4) == 15000;
    } else {
      TotalBackoffClosed(n - 1);
      Pow2AtLeast(n - 1);
    }
  }

  /** A loop's delay and total sleep, as its attempts determine them. */
  ghost predicate Timed(p: Loop) {
    if p.phase == Sleeping then
      p.delayMs == Backoff(p.attempts + 1) && p.slept == TotalBackoff(p.attempts + 1) + p.skipped
    else
      p.attempts >= 1 && p.delayMs == Backoff(p.attempts) && p.slept == TotalBackoff(p.attempts) + p.skipped
  }

  ghost predicate AllTimed(loops: map<nat, Loop>) {
    forall l :: l in loops ==> Timed(loops[l])
  }

  lemma StartTimed(s: State, sid: Id, reason: Option<string>, autoReconnect: bool)
    requires AllTimed(s.loops)
    ensures AllTimed(MarkDisconnected(s, sid, reason, autoReconnect).loops)
  {
  }

  lemma WakeTimed(s: State, l: nat)
    requires AllTimed(s.loops) && l in s.loops && s.loops[l].phase == Sleeping
    ensures AllTimed(WakeLoop(s, l).loops)
  {
    WokenLoops(s, l);
    WokenTimed(s.loops[l]);
  }

  /** A waking loop ends, begins an attempt, or sleeps as long again. */
  lemma WokenLoops(s: State, l: nat)
    requires l in s.loops && s.loops[l].phase == Sleeping
    ensures var p, after := s.loops[l], WakeLoop(s, l).loops;
            || after == s.loops - {l}
            || after == s.loops[l := Attempted(p)]
            || after == s.loops[l := Skipped(p)]
  {
  }

  function Attempted(p: Loop): Loop {
    p.(phase := Attempting, attempts := p.attempts + 1)
  }

  function Skipped(p: Loop): Loop {
    p.(slept := p.slept + p.delayMs, skipped := p.skipped + p.delayMs)
  }

  lemma WokenTimed(p: Loop)
    requires Timed(p) && p.phase == Sleeping
    ensures Timed(Attempted(p)) && Timed(Skipped(p))
  {
  }

  lemma ResumeTimed(s: State, l: nat)
    requires AllTimed(s.loops) && l in s.loops && s.loops[l].phase.Settled?
    ensures AllTimed(ResumeLoop(s, l).loops)
  {
    assert Timed(s.loops[l]);
    BackoffDoubles(s.loops[l].attempts);
  }

  lemma StepKeepsTimed(s: State, step: Step)
    requires AllTimed(s.loops) && LoopsAwait(s.loops, s.jobs) && Enabled(s, step)
    ensures AllTimed(Next(s, step).loops)
  {
    if SparesLoops(step) { LoopsSpared(s, step); }
    else if EndsJob(step) { JobEndsLoops(s, step); }
    else {
      match step {
        case DisconnectStep(sid, reason, autoReconnect) => StartTimed(s, sid, reason, autoReconnect);
        case WakeStep(l) => WakeTimed(s, l);
        case ResumeStep(l) => ResumeTimed(s, l);
      }
    }
  }

  /**
   * In every run, a sleeping loop that has made `n` attempts sleeps min(1000 * 2^n, 30000) ms before
   * the next, and in all its sleeps that led to an attempt it has slept their sum.
   */
  lemma LoopsSleepByBackoff(states: seq<State>, steps: seq<Step>, i: nat, l: nat)
    requires IsRun(states, steps) && i < |states| && l in states[i].loops
    ensures Timed(states[i].loops[l])
  {
    EveryStateTimed(states, steps, i);
  }

  lemma {:induction false} EveryStateTimed(states: seq<State>, steps: seq<Step>, i: nat)
    requires IsRun(states, steps) && i < |states|
    ensures AllTimed(states[i].loops)
  {
    if i > 0 {
      EveryStateTimed(states, steps, i - 1);
      RunStep(states, steps, i - 1);
      StepKeepsTimed(states[i - 1], steps[i - 1]);
    }
  }
}
