/**
 * Scrollback that a reconnect leaves behind. What is handed to a session waits under its id until its
 * terminal takes it; a second reconnect before that hands over what the session itself retained.
 */
module SessionScrollback {
  import opened Prelude
  import opened Sessions
  import opened SessionInvariant
  import opened SessionSteps
  import opened SessionTheorems
  import opened SessionDiscipline
  import opened SessionConservation
  import opened SessionRenaming
  import Bu = Buffers
  import BuOps = BufferTheorems

  /** Scrollback waiting for a session that has no tab, nor ever will. */
  ghost predicate Stranded(s: State, id: Id) {
    id in s.known && id !in Open(s.tabs) && Bu.Taken(s.bufs, id) != []
  }

  /** A session is replaced by a new one while scrollback handed to it is still waiting. */
  ghost predicate Strands(s: State, step: Step, id: Id) {
    step.OpenedStep? && step.job in s.jobs && s.jobs[step.job].sid == id
    && id in Open(s.tabs) && Bu.Taken(s.bufs, id) != []
  }

  /** Other steps hand nothing over; at most they take or drop it. */
  lemma HandsNothing(s: State, step: Step, id: Id)
    requires Enabled(s, step) && !step.OpenedStep?
    ensures Bu.Taken(Next(s, step).bufs, id) == Bu.Taken(s.bufs, id) || Bu.Taken(Next(s, step).bufs, id) == []
  {
    if !IsTabAction(step) { OtherStepHandsNothing(s, step, id); }
  }

  lemma OtherStepHandsNothing(s: State, step: Step, id: Id)
    requires Enabled(s, step) && !IsTabAction(step) && !step.OpenedStep?
    ensures Bu.Taken(Next(s, step).bufs, id) == Bu.Taken(s.bufs, id) || Bu.Taken(Next(s, step).bufs, id) == []
  {
  }

  /** A tab that goes otherwise than by a reconnect takes its scrollback with it. */
  lemma RemovalDrops(s: State, step: Step, id: Id)
    requires StoresInv(s) && Enabled(s, step) && !step.OpenedStep?
    requires id in Open(s.tabs) && id !in Open(Next(s, step).tabs)
    ensures Bu.Taken(Next(s, step).bufs, id) == []
  {
    TabLostIff(s, step, id);
  }

  lemma OpenedStrandsIff(s: State, step: Step, id: Id)
    requires StoresInv(s) && s.bufs.carryover.Keys <= s.known && Enabled(s, step) && step.OpenedStep?
    ensures Stranded(Next(s, step), id) && !Stranded(s, id) <==> Strands(s, step, id)
  {
    var (k, r) := (step.job, step.result);
    SettledBuffers(s, k, r);
    SettledJobs(s, k, r);
    LookupOpen(s.tabs, s.jobs[k].sid);
    if s.jobs[k].sid in Open(s.tabs) {
      RenamedSets(s.tabs, s.jobs[k].sid, r);
      StashToNew(s.bufs, s.jobs[k].sid, r.sessionId);
      assert Next(s, step).bufs == Bu.Stash(s.bufs, s.jobs[k].sid, r.sessionId);
    } else {
      assert Next(s, step).bufs == s.bufs && Next(s, step).tabs == s.tabs;
    }
  }

  /** Scrollback is stranded by such a reconnect and by no other step. */
  lemma StrandedIff(s: State, step: Step, id: Id)
    requires StoresInv(s) && s.bufs.carryover.Keys <= s.known && Enabled(s, step)
    ensures Stranded(Next(s, step), id) && !Stranded(s, id) <==> Strands(s, step, id)
  {
    if step.OpenedStep? {
      OpenedStrandsIff(s, step, id);
    } else {
      HandsNothing(s, step, id);
      if id in Open(s.tabs) && id !in Open(Next(s, step).tabs) { RemovalDrops(s, step, id); }
    }
  }

  /** No run strands scrollback but by a second reconnect before the first one's was taken. */
  lemma NeverStrandedIff(states: seq<State>, steps: seq<Step>)
    requires IsRun(states, steps)
    ensures (forall i, id :: 0 <= i < |states| ==> !Stranded(states[i], id))
       <==> (forall i, id :: 0 <= i < |steps| ==> !Strands(states[i], steps[i], id))
  {
    if forall i, id :: 0 <= i < |states| ==> !Stranded(states[i], id) {
      forall i, id | 0 <= i < |steps| ensures !Strands(states[i], steps[i], id) {
        RunStrandedIff(states, steps, i, id);
        assert !Stranded(states[i], id) && !Stranded(states[i + 1], id);
      }
    } else if forall i, id :: 0 <= i < |steps| ==> !Strands(states[i], steps[i], id) {
      var i, id :| 0 <= i < |states| && Stranded(states[i], id);
      NotStrandedSoFar(states, steps, i, id);
    }
  }

  lemma RunStrandedIff(states: seq<State>, steps: seq<Step>, i: nat, id: Id)
    requires IsRun(states, steps) && i < |steps|
    ensures Stranded(states[i + 1], id) && !Stranded(states[i], id) <==> Strands(states[i], steps[i], id)
  {
    RunStep(states, steps, i);
    CarryoverKnown(states, steps, i);
    StrandedIff(states[i], steps[i], id);
  }

  lemma {:induction false} NotStrandedSoFar(states: seq<State>, steps: seq<Step>, i: nat, id: Id)
    requires IsRun(states, steps) && i < |states|
    requires forall j, x :: 0 <= j < |steps| ==> !Strands(states[j], steps[j], x)
    ensures !Stranded(states[i], id)
  {
    if i > 0 {
      NotStrandedSoFar(states, steps, i - 1, id);
      RunStrandedIff(states, steps, i - 1, id);
      assert !Strands(states[i - 1], steps[i - 1], id);
    }
  }

  /**
   * Two reconnects in a row, of a session and of the one that replaced it: the second hands over what
   * the middle session retained, and what the first handed to it is lost, its id never having a tab
   * again, exactly when it was still waiting.
   */
  lemma ChainLosesIff(states: seq<State>, steps: seq<Step>, i: nat, j: nat, m: nat)
    requires IsRun(states, steps) && i < j < |steps| && j < m < |states|
    requires steps[i].OpenedStep? && steps[i].job in states[i].jobs
    requires steps[j].OpenedStep? && steps[j].job in states[j].jobs
    requires Lookup(states[i].tabs, states[i].jobs[steps[i].job].sid).Some?
    requires Lookup(states[j].tabs, states[j].jobs[steps[j].job].sid).Some?
    requires states[j].jobs[steps[j].job].sid == steps[i].result.sessionId
    ensures var middle := steps[i].result.sessionId;
            && Bu.Taken(states[i + 1].bufs, middle) == Bu.Carried(states[i].bufs, states[i].jobs[steps[i].job].sid)
            && Bu.Taken(states[j + 1].bufs, steps[j].result.sessionId) == Bu.Carried(states[j].bufs, middle)
            && (Stranded(states[j + 1], middle) <==> Bu.Taken(states[j].bufs, middle) != [])
            && Lookup(states[m].tabs, middle).None?
  {
    var middle := steps[i].result.sessionId;
    ScrollbackFollows(states, steps, i);
    ScrollbackFollows(states, steps, j);
    LookupOpen(states[j].tabs, middle);
    RunStrandedIff(states, steps, j, middle);
    ReplacedForGood(states, steps, j, m, middle);
  }

  // ---------------------------------------------------------------- a run that loses scrollback

  /** Reconnects are requested only for disconnected tabs, and auto-reconnect is on. */
  ghost predicate Disciplined(states: seq<State>, steps: seq<Step>)
    requires |states| == |steps| + 1
  {
    forall j :: 0 <= j < |steps| ==> OnlyWhenLost(states[j], steps[j]) && AutoReconnectOn(steps[j])
  }

  /** One connected tab, and no call for a session in flight. */
  ghost predicate OneTabUp(s: State, sid: Id) {
    && |s.tabs| == 1 && s.tabs[0].sessionId == sid && !s.tabs[0].disconnected && !s.tabs[0].reconnecting
    && s.jobs == map[] && sid !in s.loopSet
  }

  /** One tab, whose reconnect is the call `k`, the only one in flight. */
  ghost predicate OneTabSent(s: State, sid: Id, k: nat) {
    && |s.tabs| == 1 && s.tabs[0].sessionId == sid && s.jobs.Keys == {k}
    && s.jobs[k].sid == sid && s.jobs[k].phase == AwaitReconnect && s.jobs[k].loop.None?
  }

  lemma StepTaken(states: seq<State>, steps: seq<Step>, step: Step)
    requires IsRun(states, steps) && Disciplined(states, steps)
    requires Enabled(states[|steps|], step) && OnlyWhenLost(states[|steps|], step) && AutoReconnectOn(step)
    ensures IsRun(states + [Next(states[|steps|], step)], steps + [step])
    ensures Disciplined(states + [Next(states[|steps|], step)], steps + [step])
  {
    RunExtended(states, steps, step);
  }

  /** The tab is lost, and a reconnect of it sent. */
  lemma LostAndSent(s: State, sid: Id)
    requires OneTabUp(s, sid)
    ensures var lost := MarkDisconnected(s, sid, None, true);
            var sent := RequestReconnect(lost, sid);
            && |lost.tabs| == 1 && lost.tabs[0].sessionId == sid && lost.tabs[0].disconnected
            && OneTabSent(sent, sid, lost.next) && sent.bufs == s.bufs && sent.known == s.known
  {
    MappedAt(s.tabs, sid, MarkLost(None));
    MappedAt(MarkDisconnected(s, sid, None, true).tabs, sid, MarkReconnecting());
  }

  /** And the session that arrives for it installed. */
  lemma Arrived(s: State, k: nat, sid: Id, r: OpenResult)
    requires OneTabSent(s, sid, k) && r.sessionId !in s.loopSet
    ensures OneTabUp(SettleOpened(s, k, r), r.sessionId)
    ensures SettleOpened(s, k, r).bufs == Bu.Stash(s.bufs, sid, r.sessionId)
    ensures SettleOpened(s, k, r).known == s.known + {r.sessionId}
  {
    SettledBuffers(s, k, r);
    SettledJobs(s, k, r);
    MappedAt(s.tabs, sid, Reconnected(r));
  }

  lemma NewToRun(states: seq<State>, steps: seq<Step>, id: Id)
    requires IsRun(states, steps) && id !in states[|steps|].known
    ensures id !in states[|steps|].loopSet
  {
    EveryStateInv(states, steps, |steps|);
  }

  /** A run goes on: the tab is lost, and a reconnect of it requested. */
  lemma SentOnce(states: seq<State>, steps: seq<Step>, sid: Id)
    returns (longer: seq<State>, more: seq<Step>, k: nat)
    requires IsRun(states, steps) && Disciplined(states, steps) && OneTabUp(states[|steps|], sid)
    ensures IsRun(longer, more) && Disciplined(longer, more) && |more| == |steps| + 2
    ensures states <= longer && steps <= more
    ensures var (s, t) := (states[|steps|], longer[|more|]);
            OneTabSent(t, sid, k) && t.bufs == s.bufs && t.known == s.known
  {
    var s := states[|steps|];
    var a1, a2 := DisconnectStep(sid, None, true), RequestReconnectStep(sid);
    LostAndSent(s, sid);
    StepTaken(states, steps, a1);
    var s1 := Next(s, a1);
    longer, more := states + [s1], steps + [a1];
    StepTaken(longer, more, a2);
    longer, more, k := longer + [Next(s1, a2)], more + [a2], s1.next;
  }

  /** And a session arrives for it. */
  lemma ReconnectedOnce(states: seq<State>, steps: seq<Step>, sid: Id, r: OpenResult)
    returns (longer: seq<State>, more: seq<Step>)
    requires IsRun(states, steps) && Disciplined(states, steps) && OneTabUp(states[|steps|], sid)
    requires Fresh(states[|steps|], r.sessionId)
    ensures IsRun(longer, more) && Disciplined(longer, more) && |more| == |steps| + 3
    ensures states <= longer && steps <= more
    ensures var (s, t) := (states[|steps|], longer[|more|]);
            && OneTabUp(t, r.sessionId)
            && t.bufs == Bu.Stash(s.bufs, sid, r.sessionId) && t.known == s.known + {r.sessionId}
            && longer[|more| - 1].bufs == s.bufs
            && Replaces(longer[|more| - 1], more[|more| - 1], sid) && more[|more| - 1].result == r
  {
    var k: nat;
    longer, more, k := SentOnce(states, steps, sid);
    var sent, arrives := longer[|more|], OpenedStep(k, r);
    NewToRun(longer, more, r.sessionId);
    StepTaken(longer, more, arrives);
    Arrived(sent, k, sid, r);
    LookupOpen(sent.tabs, sid);
    longer, more := longer + [Next(sent, arrives)], more + [arrives];
  }

  const FIRST := OpenResult("a", "c", "t", "n")
  const SECOND := OpenResult("b", "c", "u", "n")
  const THIRD := OpenResult("d", "c", "v", "n")
  const OUTPUT: Chunk := [65]

  lemma OpenedWithOutput() returns (states: seq<State>, steps: seq<Step>)
    ensures IsRun(states, steps) && Disciplined(states, steps) && |steps| == 2
    ensures var s := states[2];
            && OneTabUp(s, "a") && s.known == {"a"} && s.loopSet == {}
            && Bu.Carried(s.bufs, "a") == [OUTPUT, OUTPUT]
  {
    var s0, a0, a1 := Initial(), AddTabStep(FIRST), BufferStep(BuOps.OpOutput("a", OUTPUT));
    states, steps := [s0], [];
    StepTaken(states, steps, a0);
    var s1 := Next(s0, a0);
    states, steps := states + [s1], steps + [a0];
    StepTaken(states, steps, a1);
    states, steps := states + [Next(s1, a1)], steps + [a1];
  }

  /**
   * A tab is lost and reconnected twice before its terminal takes the scrollback of the first reconnect,
   * which is left behind; and of the one chunk received, still pending then, it holds two copies. Nothing
   * was requested but for a disconnected tab.
   */
  lemma SecondReconnectStrands() returns (states: seq<State>, steps: seq<Step>)
    ensures IsRun(states, steps) && Disciplined(states, steps) && |steps| == 8
    ensures Replaces(states[4], steps[4], "a") && steps[4].result == SECOND && Replaces(states[7], steps[7], "b")
    ensures Bu.Taken(states[5].bufs, "b") == [OUTPUT, OUTPUT]
    ensures Stranded(states[8], "b")
  {
    states, steps := OpenedWithOutput();
    states, steps := ReconnectedOnce(states, steps, "a", SECOND);
    var four, five, second := states[4], states[5], steps[4];
    states, steps := ReconnectedOnce(states, steps, "b", THIRD);
    assert states[4] == four && states[5] == five && steps[4] == second;
    RunStrandedIff(states, steps, 7, "b");
  }
}
