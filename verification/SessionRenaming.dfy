/** A successful reconnect renames a session across all three stores and changes nothing else. */
module SessionRenaming {
  import opened Prelude
  import opened Sessions
  import opened SessionInvariant
  import opened SessionSteps
  import opened SessionTheorems
  import Ed = EditorTabs
  import Ops = EditorTheorems
  import Bu = Buffers

  /** The terminal tabs: order, count and sync flags stay; only the reconnected tab comes up anew. */
  lemma TabsRenamed(s: State, oldId: Id, r: OpenResult)
    requires Inv(s) && Fresh(s, r.sessionId) && Lookup(s.tabs, oldId).Some?
    ensures var t := Installed(s, oldId, r);
            && |t.tabs| == |s.tabs|
            && (forall i :: 0 <= i < |s.tabs| ==>
                  && t.tabs[i].sessionId == Ops.RenameSession(s.tabs[i].sessionId, oldId, r.sessionId)
                  && t.tabs[i].synced == s.tabs[i].synced
                  && (s.tabs[i].sessionId != oldId ==> t.tabs[i] == s.tabs[i])
                  && (s.tabs[i].sessionId == oldId ==>
                        && t.tabs[i].channelId == r.terminalChannelId
                        && t.tabs[i].connectionId == r.connectionId && t.tabs[i].name == r.name
                        && !t.tabs[i].disconnected && !t.tabs[i].reconnecting && !t.tabs[i].connecting
                        && t.tabs[i].disconnectReason.None?))
            && (s.active.Some? ==> t.active == Some(Ops.RenameSession(s.active.value, oldId, r.sessionId)))
            && (s.active.None? ==> t.active.None?)
  {
    MappedAt(s.tabs, oldId, Reconnected(r));
  }

  lemma HousedRenamable(s: State, oldId: Id, newId: Id)
    requires Inv(s) && Fresh(s, newId) && Lookup(s.tabs, oldId).Some?
    ensures Ops.Renamable(s.ui.tabs, oldId, newId)
  {
    LookupOpen(s.tabs, oldId);
  }

  /**
   * The editors: order, paths, names and dirty flags stay, the active tab stays the active tab, and
   * renaming back would restore the store.
   */
  lemma EditorsRenamed(s: State, oldId: Id, r: OpenResult)
    requires Inv(s) && Fresh(s, r.sessionId) && Lookup(s.tabs, oldId).Some?
    ensures var t := Installed(s, oldId, r);
            && |t.ui.tabs| == |s.ui.tabs|
            && (forall i :: 0 <= i < |s.ui.tabs| ==>
                  && t.ui.tabs[i].sessionId == Ops.RenameSession(s.ui.tabs[i].sessionId, oldId, r.sessionId)
                  && t.ui.tabs[i].id == Ed.EditorTabId(t.ui.tabs[i].sessionId, s.ui.tabs[i].remotePath)
                  && t.ui.tabs[i].remotePath == s.ui.tabs[i].remotePath
                  && t.ui.tabs[i].name == s.ui.tabs[i].name && t.ui.tabs[i].dirty == s.ui.tabs[i].dirty
                  && (t.ui.active == Some(t.ui.tabs[i].id) <==> s.ui.active == Some(s.ui.tabs[i].id)))
            && Ed.Rebind(t.ui, r.sessionId, oldId) == s.ui
  {
    var newId := r.sessionId;
    HousedRenamable(s, oldId, newId);
    LookupOpen(s.tabs, oldId);
    Ops.RebindInvertible(s.ui, oldId, newId);
    assert Installed(s, oldId, r).ui == Ed.Rebind(s.ui, oldId, newId);
    forall i | 0 <= i < |s.ui.tabs|
      ensures var ui := Ed.Rebind(s.ui, oldId, newId);
              && ui.tabs[i].id == Ed.EditorTabId(ui.tabs[i].sessionId, s.ui.tabs[i].remotePath)
              && (ui.active == Some(ui.tabs[i].id) <==> s.ui.active == Some(s.ui.tabs[i].id))
    {
      EditorAtRenamed(s.ui, i, oldId, newId);
    }
  }

  lemma EditorAtRenamed(ui: Ed.Editors, i: nat, oldId: Id, newId: Id)
    requires Ed.Valid(ui) && Ops.Renamable(ui.tabs, oldId, newId) && i < |ui.tabs|
    ensures var r := Ed.Rebind(ui, oldId, newId);
            && r.tabs[i].id == Ed.EditorTabId(r.tabs[i].sessionId, ui.tabs[i].remotePath)
            && (r.active == Some(r.tabs[i].id) <==> ui.active == Some(ui.tabs[i].id))
  {
    var e := ui.tabs[i];
    assert e in ui.tabs;
    Ops.RenamesOwnId(e, oldId, newId);
    Ops.ActiveIsRenamed(ui, e.id, oldId, newId);
    Ops.ActiveRebound(ui, oldId, newId);
  }

  // ---------------------------------------------------------------- scrollback

  lemma {:induction false} CarryoverKnown(states: seq<State>, steps: seq<Step>, i: nat)
    requires IsRun(states, steps) && i < |states|
    ensures states[i].bufs.carryover.Keys <= states[i].known
  {
    if i > 0 {
      CarryoverKnown(states, steps, i - 1);
      RunStep(states, steps, i - 1);
      StepKeepsCarryover(states[i - 1], steps[i - 1]);
    }
  }

  lemma StepKeepsCarryover(s: State, step: Step)
    requires Enabled(s, step) && s.bufs.carryover.Keys <= s.known
    ensures Next(s, step).bufs.carryover.Keys <= Next(s, step).known
  {
    if step.OpenedStep? { SettledBuffers(s, step.job, step.result); }
  }

  lemma StashToNew(b: Bu.Bufs<Chunk>, oldId: Id, newId: Id)
    requires oldId != newId && newId !in b.carryover
    ensures var a := Bu.Stash(b, oldId, newId);
            && Bu.Taken(a, newId) == Bu.Carried(b, oldId)
            && (forall x :: x != newId ==> Bu.Taken(a, x) == Bu.Taken(b, x))
            && a.pending == b.pending - {oldId} && a.history == b.history - {oldId}
  {
  }

  lemma SettlesToNew(states: seq<State>, steps: seq<Step>, i: nat)
    requires IsRun(states, steps) && i < |steps| && steps[i].OpenedStep? && steps[i].job in states[i].jobs
    requires Lookup(states[i].tabs, states[i].jobs[steps[i].job].sid).Some?
    ensures steps[i].result.sessionId != states[i].jobs[steps[i].job].sid
    ensures steps[i].result.sessionId !in states[i].bufs.carryover
  {
    CarryoverKnown(states, steps, i);
    RunStep(states, steps, i);
    LookupOpen(states[i].tabs, states[i].jobs[steps[i].job].sid);
  }

  /**
   * In every run, a reconnect hands the new session exactly what the old one retained: no scrollback
   * still waiting to be replayed is overwritten, and output the new session has already sent stays.
   */
  lemma ScrollbackFollows(states: seq<State>, steps: seq<Step>, i: nat)
    requires IsRun(states, steps) && i < |steps| && steps[i].OpenedStep? && steps[i].job in states[i].jobs
    requires Lookup(states[i].tabs, states[i].jobs[steps[i].job].sid).Some?
    ensures var (s, t) := (states[i], states[i + 1]);
            var (oldId, newId) := (s.jobs[steps[i].job].sid, steps[i].result.sessionId);
            && Bu.Taken(t.bufs, newId) == Bu.Carried(s.bufs, oldId)
            && (forall x :: x != newId ==> Bu.Taken(t.bufs, x) == Bu.Taken(s.bufs, x))
            && t.bufs.pending == s.bufs.pending - {oldId} && t.bufs.history == s.bufs.history - {oldId}
  {
    var s, step := states[i], steps[i];
    RunStep(states, steps, i);
    SettlesToNew(states, steps, i);
    SettledBuffers(s, step.job, step.result);
    StashToNew(s.bufs, s.jobs[step.job].sid, step.result.sessionId);
  }
}
