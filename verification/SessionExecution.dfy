/**
 * The step machine, carried out by the stores: every step is some method of theirs, so what holds in
 * every run of the machine holds of the stores in every run.
 */
module SessionExecution {
  import opened Sessions
  import opened SessionInvariant
  import opened SessionSteps
  import opened SessionTheorems
  import opened SessionsState
  import Ops = EditorTheorems
  import Te = TerminalOutput
  import Ui = UiState

  method Edit(ui: Ui.UiStore, edit: Ops.EditorOp)
    modifies ui
    ensures ui.View() == Ops.Apply(old(ui.View()), edit)
  {
    match edit {
      case OpOpen(sessionId, remotePath, name) => ui.OpenEditor(sessionId, remotePath, name);
      case OpActivate(id) => ui.SetActiveEditor(id);
      case OpClose(id, confirmed) => ui.CloseEditorTab(id, confirmed);
      case OpCloseSession(sessionId) => ui.CloseEditorForSession(sessionId);
      case OpDirty(id, dirty) => ui.SetEditorDirty(id, dirty);
      case OpRebind(oldId, newId) => ui.RebindEditorSession(oldId, newId);
    }
  }

  // What the user and the interface do.

  predicate ByUser(step: Step) {
    step.AddTabStep? || step.SetActiveStep? || step.ToggleSyncStep? || step.PlaceholderStep? || step.BeginCloseStep?
    || step.RequestReconnectStep? || step.EditorStep? || step.BufferStep?
  }

  method PerformByUser(store: SessionsStore, step: Step)
    requires store.Valid() && Enabled(store.View(), step) && ByUser(step)
    modifies store.Footprint()
    ensures store.Valid() && fresh(store.Footprint() - old(store.Footprint()))
    ensures store.View() == Next(old(store.View()), step)
  {
    match step {
      case AddTabStep(result) => store.AddTab(result);
      case SetActiveStep(sid) => store.SetActive(sid);
      case ToggleSyncStep(sid) => store.ToggleSync(sid);
      case PlaceholderStep(id, connectionId, name) => store.ShowPlaceholder(id, connectionId, name);
      case BeginCloseStep(sid) => store.CloseTabBegin(sid);
      case RequestReconnectStep(sid) => store.ReconnectTab(sid);
      case EditorStep(edit) => Edit(store.ui, edit);
      case BufferStep(op) => Te.Perform(store.bufs, op);
    }
  }

  /** What the backend's answers and events, and the passage of time, bring about. */
  method PerformOther(store: SessionsStore, step: Step)
    requires store.Valid() && Enabled(store.View(), step) && !ByUser(step)
    modifies store.Footprint()
    ensures store.Valid() && fresh(store.Footprint() - old(store.Footprint()))
    ensures store.View() == Next(old(store.View()), step)
  {
    match step {
      case PlaceholderFailedStep(k) => store.PlaceholderFailed(k);
      case EndCloseStep(k) => store.CloseTabEnd(k);
      case DisconnectStep(sid, reason, autoReconnect) => store.MarkDisconnected(sid, reason, autoReconnect);
      case FallBackStep(k) => store.ReconnectRejected(k);
      case OpenedStep(k, result) => store.SessionArrived(k, result);
      case FailedStep(k, message) => store.ReconnectFailed(k, message);
      case OrphanClosedStep(k) => store.EndJob(k, true);
      case WakeStep(l) => store.LoopWakes(l);
      case ResumeStep(l) => store.LoopResumes(l);
    }
  }

  /** Any enabled step, on the stores: they become what the machine says and keep the invariant. */
  method Perform(store: SessionsStore, step: Step)
    requires store.Valid() && Inv(store.View()) && Enabled(store.View(), step)
    modifies store.Footprint()
    ensures store.Valid() && fresh(store.Footprint() - old(store.Footprint()))
    ensures store.View() == Next(old(store.View()), step) && Inv(store.View())
  {
    StepKeepsInv(store.View(), step);
    if ByUser(step) { PerformByUser(store, step); } else { PerformOther(store, step); }
  }

  /** Any run of the machine, on stores made for it: they go through its states and end in its last. */
  method Execute(ghost states: seq<State>, steps: seq<Step>) returns (store: SessionsStore)
    requires IsRun(states, steps)
    ensures store.Valid() && fresh(store.Footprint())
    ensures store.View() == states[|steps|] && Inv(store.View())
  {
    store := new SessionsStore();
    for i := 0 to |steps|
      invariant store.Valid() && fresh(store.Footprint())
      invariant store.View() == states[i]
    {
      RunStep(states, steps, i);
      Perform(store, steps[i]);
    }
    EveryStateInv(states, steps, |steps|);
  }
}
