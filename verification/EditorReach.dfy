/** What single editor actions change, and that they change nothing else. */
module EditorReach {
  import opened Prelude
  import opened EditorTabs
  import opened EditorTheorems

  lemma {:induction false} IdFiltered(tabs: seq<EditorTab>, id: string)
    ensures Filtered(tabs, WithoutId(tabs, id), (t: EditorTab) => t.id != id)
  {
    if tabs != [] {
      IdFiltered(tabs[1..], id);
      FilteredCons(tabs[0], tabs[1..], WithoutId(tabs[1..], id), (t: EditorTab) => t.id != id);
      assert tabs == [tabs[0]] + tabs[1..];
    }
  }

  lemma {:induction false} SessionFiltered(tabs: seq<EditorTab>, sessionId: Id)
    ensures Filtered(tabs, WithoutSession(tabs, sessionId), (t: EditorTab) => t.sessionId != sessionId)
  {
    if tabs != [] {
      SessionFiltered(tabs[1..], sessionId);
      FilteredCons(tabs[0], tabs[1..], WithoutSession(tabs[1..], sessionId),
                   (t: EditorTab) => t.sessionId != sessionId);
      assert tabs == [tabs[0]] + tabs[1..];
    }
  }

  /** The focus goes to the last tab there is. */
  ghost predicate OnLast(e: Editors) {
    if e.tabs == [] then e.active.None? else e.active == Some(e.tabs[|e.tabs| - 1].id)
  }

  /** A file not open yet gets a clean tab at the end, with the name given; the focus is on it either way. */
  lemma OpenReach(e: Editors, sessionId: Id, remotePath: string, name: string)
    ensures var r, id := Open(e, sessionId, remotePath, name), sessionId + "::" + remotePath;
            && r.active == Some(id)
            && ((exists t :: t in e.tabs && t.id == id) ==> r.tabs == e.tabs)
            && (!(exists t :: t in e.tabs && t.id == id)
                ==> r.tabs == e.tabs + [EditorTab(id, sessionId, remotePath, name, false)])
  {
    var id := EditorTabId(sessionId, remotePath);
    if t :| t in e.tabs && t.id == id { assert FindById(e.tabs, id).Some?; }
  }

  /** The focus moves to a tab there is, and to nothing else. */
  lemma ActivateReach(e: Editors, id: string)
    ensures Activate(e, id).tabs == e.tabs
    ensures (exists t :: t in e.tabs && t.id == id) ==> Activate(e, id).active == Some(id)
    ensures !(exists t :: t in e.tabs && t.id == id) ==> Activate(e, id).active == e.active
  {
    if t :| t in e.tabs && t.id == id { assert FindById(e.tabs, id).Some?; }
  }

  /**
   * Closing leaves a tab with unsaved changes alone unless confirmed. Otherwise just the tab goes, and
   * the focus moves, to the last tab, if it was on that one.
   */
  lemma CloseReach(e: Editors, id: string, confirmed: bool, t: EditorTab)
    requires Valid(e) && t in e.tabs && t.id == id
    ensures var r := Close(e, id, confirmed);
            if t.dirty && !confirmed then r == e
            else Filtered(e.tabs, r.tabs, (x: EditorTab) => x != t)
                 && (if e.active == Some(id) then OnLast(r) else r.active == e.active)
  {
    FoundIsThat(e.tabs, t);
    IdFiltered(e.tabs, id);
    forall x | x in e.tabs ensures x.id != id <==> x != t {
      if x.id == id { FoundIsThat(e.tabs, x); }
    }
    FilteredSame(e.tabs, WithoutId(e.tabs, id), (x: EditorTab) => x.id != id, (x: EditorTab) => x != t);
  }

  /** On the elements of the list, the two conditions are the same. */
  lemma FilteredSame(before: seq<EditorTab>, after: seq<EditorTab>, p: EditorTab -> bool, q: EditorTab -> bool)
    requires Filtered(before, after, p) && forall x :: x in before ==> p(x) == q(x)
    ensures Filtered(before, after, q)
  {
    forall x, y | q(x) && q(y) ensures Before(after, x, y) <==> Before(before, x, y) {
      if x in before && y in before { assert p(x) && p(y); }
    }
  }

  lemma CloseUnknown(e: Editors, id: string, confirmed: bool)
    requires Valid(e) && forall t :: t in e.tabs ==> t.id != id
    ensures Close(e, id, confirmed) == e
  {
    assert FindById(e.tabs, id).None?;
    WithoutNothing(e.tabs, id);
  }

  lemma {:induction false} WithoutNothing(tabs: seq<EditorTab>, id: string)
    requires forall t :: t in tabs ==> t.id != id
    ensures WithoutId(tabs, id) == tabs
  {
    if tabs != [] { WithoutNothing(tabs[1..], id); }
  }

  /** All of the session's tabs go, unsaved or not, and no other; the focus moves if it was on one of them. */
  lemma CloseForSessionReach(e: Editors, sessionId: Id)
    ensures var r := CloseForSession(e, sessionId);
            && Filtered(e.tabs, r.tabs, (t: EditorTab) => t.sessionId != sessionId)
            && (Valid(e) ==> FocusLeaves(e, r, sessionId))
  {
    SessionFiltered(e.tabs, sessionId);
    if Valid(e) { FocusLeavesSession(e, sessionId); }
  }

  /** The focus is moved if it was on a tab of the session, and only then. */
  ghost predicate FocusLeaves(e: Editors, r: Editors, sessionId: Id) {
    if exists t :: t in e.tabs && e.active == Some(t.id) && t.sessionId == sessionId then OnLast(r)
    else r.active == e.active
  }

  lemma FocusLeavesSession(e: Editors, sessionId: Id)
    requires Valid(e)
    ensures FocusLeaves(e, CloseForSession(e, sessionId), sessionId)
  {
    if t :| t in e.tabs && e.active == Some(t.id) && t.sessionId == sessionId {
      FoundIsThat(e.tabs, t);
      ActiveOwner(e, sessionId);
    }
  }

  /** Marking changes the mark of the tab, and only that; nothing if there is no such tab. */
  lemma MarkReach(e: Editors, id: string, dirty: bool)
    requires Valid(e)
    ensures var r := SetDirty(e, id, dirty);
            && r.active == e.active && |r.tabs| == |e.tabs|
            && (forall i :: 0 <= i < |e.tabs| && e.tabs[i].id != id ==> r.tabs[i] == e.tabs[i])
            && (forall i :: 0 <= i < |e.tabs| && e.tabs[i].id == id ==>
                  r.tabs[i] == EditorTab(id, e.tabs[i].sessionId, e.tabs[i].remotePath, e.tabs[i].name, dirty))
  {
    forall i | 0 <= i < |e.tabs| && e.tabs[i].id == id
      ensures FindById(e.tabs, id) == Some(e.tabs[i])
    {
      FoundIsThat(e.tabs, e.tabs[i]);
    }
  }

  /**
   * A tab marked as unsaved refuses to be closed without confirmation, after any run of actions that do
   * not discard its changes.
   */
  lemma MarkedRefusesClose(e: Editors, t: EditorTab, ops: seq<EditorOp>)
    requires Valid(e) && ColonFreeSessions(e.tabs) && t in e.tabs
    requires AllAdmissible(SetDirty(e, t.id, true), ops)
    requires forall i :: 0 <= i < |ops| ==> !Discards(ops[i], t.(dirty := true))
    ensures var z := ApplyAll(SetDirty(e, t.id, true), ops);
            t.(dirty := true) in z.tabs && Close(z, t.id, false) == z
  {
    var m, u := SetDirty(e, t.id, true), t.(dirty := true);
    MarkReach(e, t.id, true);
    var i :| 0 <= i < |e.tabs| && e.tabs[i] == t;
    assert m.tabs[i] == u;
    ApplyKeepsValid(e, OpDirty(t.id, true));
    UnsavedStays(m, ops, u);
    EveryRunValid(m, ops);
    CloseReach(ApplyAll(m, ops), t.id, false, u);
  }
}
