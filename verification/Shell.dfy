/** The shell's effect that drops editors whose terminal session is gone. */
module Shell {
  import opened Prelude
  import opened EditorTabs
  import opened EditorTheorems
  import opened UiState

  /** The editors of open sessions, in order. */
  function KeepOpen(tabs: seq<EditorTab>, openIds: set<Id>): (r: seq<EditorTab>)
    ensures forall t :: t in r <==> t in tabs && t.sessionId in openIds
  {
    if tabs == [] then []
    else (if tabs[0].sessionId in openIds then [tabs[0]] else []) + KeepOpen(tabs[1..], openIds)
  }

  /** What the sweep amounts to: orphans go, and the focus moves only if it was on one. */
  function Swept(e: Editors, openIds: set<Id>): Editors {
    var kept := KeepOpen(e.tabs, openIds);
    Editors(kept, if e.active.None? || FindById(kept, e.active.value).Some? then e.active else LastId(kept))
  }

  ghost predicate NoOrphans(e: Editors, openIds: set<Id>) {
    forall t :: t in e.tabs ==> t.sessionId in openIds
  }

  lemma {:induction false} KeepOpenAll(tabs: seq<EditorTab>, openIds: set<Id>)
    requires forall t :: t in tabs ==> t.sessionId in openIds
    ensures KeepOpen(tabs, openIds) == tabs
  {
    if tabs != [] { KeepOpenAll(tabs[1..], openIds); }
  }

  lemma {:induction false} KeepOpenWithout(tabs: seq<EditorTab>, sessionId: Id, openIds: set<Id>)
    requires sessionId !in openIds
    ensures KeepOpen(WithoutSession(tabs, sessionId), openIds) == KeepOpen(tabs, openIds)
  {
    if tabs != [] {
      var rest := WithoutSession(tabs[1..], sessionId);
      KeepOpenWithout(tabs[1..], sessionId, openIds);
      if tabs[0].sessionId == sessionId {
        assert WithoutSession(tabs, sessionId) == rest;
      } else {
        assert WithoutSession(tabs, sessionId) == [tabs[0]] + rest;
        assert ([tabs[0]] + rest)[1..] == rest;
      }
    }
  }

  lemma {:induction false} LastKept(tabs: seq<EditorTab>, openIds: set<Id>)
    requires tabs != [] && tabs[|tabs| - 1].sessionId in openIds
    ensures var kept := KeepOpen(tabs, openIds); kept != [] && kept[|kept| - 1] == tabs[|tabs| - 1]
  {
    if |tabs| > 1 { LastKept(tabs[1..], openIds); }
  }

  /** A surviving active tab is found among the kept ones exactly when its session is open. */
  lemma ActiveKept(e: Editors, openIds: set<Id>)
    requires Valid(e) && e.active.Some?
    ensures FindById(KeepOpen(e.tabs, openIds), e.active.value).Some?
       <==> FindById(e.tabs, e.active.value).value.sessionId in openIds
  {
  }

  lemma WithoutOrphans(e: Editors, openIds: set<Id>)
    requires Valid(e) && NoOrphans(e, openIds)
    ensures Swept(e, openIds) == e
  {
    KeepOpenAll(e.tabs, openIds);
  }

  /** With the focus on the last tab, the sweep leaves it on the last tab kept. */
  lemma FocusOnLast(c: Editors, openIds: set<Id>)
    requires Valid(c) && c.active == LastId(c.tabs)
    ensures Swept(c, openIds).active == LastId(KeepOpen(c.tabs, openIds))
  {
    if c.tabs != [] {
      var last := c.tabs[|c.tabs| - 1];
      FoundIsThat(c.tabs, last);
      ActiveKept(c, openIds);
      if last.sessionId in openIds { LastKept(c.tabs, openIds); }
    }
  }

  /** Closing one orphan session is progress towards the sweep's result, whatever the order. */
  lemma ClosingOrphanKeepsResult(e: Editors, sessionId: Id, openIds: set<Id>)
    requires Valid(e) && sessionId !in openIds
    ensures Swept(CloseForSession(e, sessionId), openIds) == Swept(e, openIds)
  {
    KeepOpenWithout(e.tabs, sessionId, openIds);
    if ActiveBelongsTo(e, sessionId) {
      ActiveOwner(e, sessionId);
      ActiveKept(e, openIds);
      CloseForSessionKeepsValid(e, sessionId);
      FocusOnLast(CloseForSession(e, sessionId), openIds);
    }
  }

  /** The loop's invariant: the orphans left to close are listed, and the tabs to keep are still there. */
  ghost predicate Sweeping(e: Editors, orphanSessions: set<Id>, openIds: set<Id>, kept: seq<EditorTab>) {
    && KeepOpen(e.tabs, openIds) == kept
    && (forall s :: s in orphanSessions ==> s !in openIds)
    && (forall t :: t in e.tabs && t.sessionId !in openIds ==> t.sessionId in orphanSessions)
  }

  lemma SweepStep(e: Editors, orphanSessions: set<Id>, openIds: set<Id>, kept: seq<EditorTab>, sid: Id)
    requires Sweeping(e, orphanSessions, openIds, kept) && sid in orphanSessions
    ensures Sweeping(CloseForSession(e, sid), orphanSessions - {sid}, openIds, kept)
  {
    KeepOpenWithout(e.tabs, sid, openIds);
  }

  /** From a valid store the focus, too, is on its way to where the sweep leaves it. */
  lemma FocusStep(e: Editors, openIds: set<Id>, goal: Editors, sid: Id)
    requires Valid(e) && Swept(e, openIds) == goal && sid !in openIds
    ensures Valid(CloseForSession(e, sid)) && Swept(CloseForSession(e, sid), openIds) == goal
  {
    CloseForSessionKeepsValid(e, sid);
    ClosingOrphanKeepsResult(e, sid, openIds);
  }

  /**
   * Runs when the tab list changes. From any store whatever it removes exactly the orphan editors and
   * keeps the others in order, in whatever order the orphan sessions come; from a valid store it also
   * keeps the focus where it can stay, and the store valid.
   */
  method SweepOrphans(ui: UiStore, openIds: set<Id>)
    modifies ui
    ensures ui.editorTabs == KeepOpen(old(ui.editorTabs), openIds) && NoOrphans(ui.View(), openIds)
    ensures old(Valid(ui.View())) ==> ui.View() == Swept(old(ui.View()), openIds) && Valid(ui.View())
  {
    var currentEditors := ui.editorTabs;
    var orphanSessions := set t | t in currentEditors && t.sessionId !in openIds :: t.sessionId;
    ghost var kept, goal := KeepOpen(currentEditors, openIds), Swept(ui.View(), openIds);
    while orphanSessions != {}
      invariant Sweeping(ui.View(), orphanSessions, openIds, kept)
      invariant old(Valid(ui.View())) ==> Valid(ui.View()) && Swept(ui.View(), openIds) == goal
      decreases orphanSessions
    {
      var sid :| sid in orphanSessions;
      SweepStep(ui.View(), orphanSessions, openIds, kept, sid);
      if old(Valid(ui.View())) { FocusStep(ui.View(), openIds, goal, sid); }
      ui.CloseEditorForSession(sid);
      orphanSessions := orphanSessions - {sid};
    }
    KeepOpenAll(ui.editorTabs, openIds);
    if old(Valid(ui.View())) { WithoutOrphans(ui.View(), openIds); }
  }
}
