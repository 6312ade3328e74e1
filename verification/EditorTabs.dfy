/**
 * Editor tabs of the UI store. A tab is keyed by a string derived from its session and its path,
 * so everything here rests on when that derivation is injective.
 */
module EditorTabs {
  import opened Prelude

  datatype EditorTab = EditorTab(id: string, sessionId: Id, remotePath: string, name: string, dirty: bool)

  datatype Editors = Editors(tabs: seq<EditorTab>, active: Option<string>)

  const NO_EDITORS := Editors([], None)

  /** The stable id of a tab. */
  function EditorTabId(sessionId: Id, remotePath: string): string {
    sessionId + "::" + remotePath
  }

  // ---------------------------------------------------------------- searching and filtering

  /** The first tab with the given id, if any. */
  function FindById(tabs: seq<EditorTab>, id: string): (r: Option<EditorTab>)
    ensures r.None? <==> forall i :: 0 <= i < |tabs| ==> tabs[i].id != id
    ensures r.Some? ==> r.value in tabs && r.value.id == id
  {
    if tabs == [] then None
    else if tabs[0].id == id then Some(tabs[0])
    else FindById(tabs[1..], id)
  }

  function WithoutId(tabs: seq<EditorTab>, id: string): (r: seq<EditorTab>)
    ensures forall t :: t in r <==> t in tabs && t.id != id
  {
    if tabs == [] then []
    else (if tabs[0].id != id then [tabs[0]] else []) + WithoutId(tabs[1..], id)
  }

  function WithoutSession(tabs: seq<EditorTab>, sessionId: Id): (r: seq<EditorTab>)
    ensures forall t :: t in r <==> t in tabs && t.sessionId != sessionId
  {
    if tabs == [] then []
    else (if tabs[0].sessionId != sessionId then [tabs[0]] else []) + WithoutSession(tabs[1..], sessionId)
  }

  function RebindTab(t: EditorTab, oldId: Id, newId: Id): EditorTab {
    if t.sessionId != oldId then t
    else t.(id := EditorTabId(newId, t.remotePath), sessionId := newId)
  }

  function RebindTabs(tabs: seq<EditorTab>, oldId: Id, newId: Id): (r: seq<EditorTab>)
    ensures |r| == |tabs|
    ensures forall i :: 0 <= i < |tabs| ==> r[i] == RebindTab(tabs[i], oldId, newId)
  {
    if tabs == [] then [] else [RebindTab(tabs[0], oldId, newId)] + RebindTabs(tabs[1..], oldId, newId)
  }

  function WithDirty(tabs: seq<EditorTab>, id: string, dirty: bool): (r: seq<EditorTab>)
    ensures |r| == |tabs|
    ensures forall i :: 0 <= i < |tabs| ==> r[i] == if tabs[i].id == id then tabs[i].(dirty := dirty) else tabs[i]
  {
    if tabs == [] then []
    else [if tabs[0].id == id then tabs[0].(dirty := dirty) else tabs[0]] + WithDirty(tabs[1..], id, dirty)
  }

  function LastId(tabs: seq<EditorTab>): Option<string> {
    if tabs == [] then None else Some(tabs[|tabs| - 1].id)
  }

  // ---------------------------------------------------------------- the store's actions

  function Open(e: Editors, sessionId: Id, remotePath: string, name: string): Editors {
    var id := EditorTabId(sessionId, remotePath);
    var tabs := if FindById(e.tabs, id).Some? then e.tabs
                else e.tabs + [EditorTab(id, sessionId, remotePath, name, false)];
    Editors(tabs, Some(id))
  }

  function Activate(e: Editors, id: string): Editors {
    if FindById(e.tabs, id).None? then e else e.(active := Some(id))
  }

  /** `confirmed` is the user's answer to the unsaved-changes question, should it be asked. */
  function Close(e: Editors, id: string, confirmed: bool): Editors {
    var tab := FindById(e.tabs, id);
    if tab.Some? && tab.value.dirty && !confirmed then e
    else
      var tabs := WithoutId(e.tabs, id);
      Editors(tabs, if e.active == Some(id) then LastId(tabs) else e.active)
  }

  /** Some open tab carries the active id and belongs to the session. */
  predicate ActiveBelongsTo(e: Editors, sessionId: Id) {
    e.active.Some? && e.active.value != "" &&
    exists t :: t in e.tabs && t.id == e.active.value && t.sessionId == sessionId
  }

  function CloseForSession(e: Editors, sessionId: Id): Editors {
    var remaining := WithoutSession(e.tabs, sessionId);
    Editors(remaining, if ActiveBelongsTo(e, sessionId) then LastId(remaining) else e.active)
  }

  function Rebind(e: Editors, oldId: Id, newId: Id): Editors {
    var active :=
      if e.active.None? || e.active.value == "" then e.active
      else
        var tab := FindById(e.tabs, e.active.value);
        if tab.Some? && tab.value.sessionId == oldId then Some(EditorTabId(newId, tab.value.remotePath))
        else e.active;
    Editors(RebindTabs(e.tabs, oldId, newId), active)
  }

  function SetDirty(e: Editors, id: string, dirty: bool): Editors {
    var tab := FindById(e.tabs, id);
    if tab.None? || tab.value.dirty == dirty then e
    else e.(tabs := WithDirty(e.tabs, id, dirty))
  }

  // ---------------------------------------------------------------- the invariant

  ghost predicate DerivedIds(tabs: seq<EditorTab>) {
    forall t :: t in tabs ==> t.id == EditorTabId(t.sessionId, t.remotePath)
  }

  ghost predicate UniqueIds(tabs: seq<EditorTab>) {
    forall i, j :: 0 <= i < j < |tabs| ==> tabs[i].id != tabs[j].id
  }

  /** Ids are derived and unique, and the active id names a tab exactly when there is one to name. */
  ghost predicate Valid(e: Editors) {
    && DerivedIds(e.tabs)
    && UniqueIds(e.tabs)
    && (e.active.None? <==> e.tabs == [])
    && (e.active.Some? ==> FindById(e.tabs, e.active.value).Some?)
  }

  /** Every session with an editor has a colon-free id. */
  ghost predicate ColonFreeSessions(tabs: seq<EditorTab>) {
    forall t :: t in tabs ==> ColonFree(t.sessionId)
  }

  ghost predicate NoEditorFor(tabs: seq<EditorTab>, sessionId: Id) {
    forall t :: t in tabs ==> t.sessionId != sessionId
  }

  // ---------------------------------------------------------------- injectivity of the derived id

  /** Session `t` extends session `s` in a way that lets one derived id stand for files of both. */
  predicate Confusable(s: Id, t: Id) {
    t == s + ":" || s + "::" <= t
  }

  lemma DerivedIdPrefix(s: Id, p: string, t: Id, q: string)
    requires EditorTabId(s, p) == EditorTabId(t, q) && |s| < |t|
    ensures Confusable(s, t)
  {
    var u, v := EditorTabId(s, p), EditorTabId(t, q);
    assert s == u[..|s|] == v[..|s|] == t[..|s|];
    assert t[|s|] == v[|s|] == u[|s|] == ':';
    if |t| > |s| + 1 {
      assert t[|s| + 1] == v[|s| + 1] == u[|s| + 1] == ':';
      assert (s + "::") == t[..|s| + 2];
    } else {
      assert t == s + ":";
    }
  }

  /**
   * Two sessions share a derived id for some pair of paths exactly when they are the same session or
   * one is confusable with the other.
   */
  lemma DerivedIdsMeetIff(s: Id, t: Id)
    ensures (exists p, q :: EditorTabId(s, p) == EditorTabId(t, q))
       <==> s == t || Confusable(s, t) || Confusable(t, s)
  {
    forall p, q | EditorTabId(s, p) == EditorTabId(t, q)
      ensures s == t || Confusable(s, t) || Confusable(t, s)
    {
      if |s| < |t| { DerivedIdPrefix(s, p, t, q); }
      else if |t| < |s| { DerivedIdPrefix(t, q, s, p); }
      else { assert s == EditorTabId(s, p)[..|s|] == EditorTabId(t, q)[..|t|] == t; }
    }
    if s == t { assert EditorTabId(s, "") == EditorTabId(t, ""); }
    if Confusable(s, t) { ConfusableMeet(s, t); }
    if Confusable(t, s) { ConfusableMeet(t, s); }
  }

  lemma ConfusableMeet(s: Id, t: Id)
    requires Confusable(s, t)
    ensures exists p, q :: EditorTabId(s, p) == EditorTabId(t, q)
    ensures exists p, q :: EditorTabId(t, p) == EditorTabId(s, q)
  {
    var p := if t == s + ":" then ":" else t[|s| + 2..] + "::";
    if t == s + ":" {
      assert EditorTabId(s, p) == s + "::" + ":" == EditorTabId(t, "");
    } else {
      assert t == s + "::" + t[|s| + 2..];
      assert EditorTabId(s, p) == EditorTabId(t, "");
    }
  }

  lemma ConfusableHasColon(s: Id, t: Id)
    requires Confusable(s, t)
    ensures !ColonFree(t)
  {
    assert t[|s|] == ':';
  }

  /** With colon-free sessions a derived id determines both the session and the path. */
  lemma DerivedIdInjective(s: Id, p: string, t: Id, q: string)
    requires ColonFree(s) && ColonFree(t)
    requires EditorTabId(s, p) == EditorTabId(t, q)
    ensures s == t && p == q
  {
    if Confusable(s, t) { ConfusableHasColon(s, t); }
    if Confusable(t, s) { ConfusableHasColon(t, s); }
    DerivedIdsMeetIff(s, t);
    assert p == EditorTabId(s, p)[|s| + 2..];
    assert q == EditorTabId(t, q)[|t| + 2..];
  }
}
