/** What the editor actions keep, and how they commute with the renaming a reconnect performs. */
module EditorTheorems {
  import opened Prelude
  import opened EditorTabs

  /** Everything that can happen to the editor part of the UI store. */
  datatype EditorOp =
    | OpOpen(sessionId: Id, remotePath: string, name: string)
    | OpActivate(id: string)
    | OpClose(id: string, confirmed: bool)
    | OpCloseSession(sessionId: Id)
    | OpDirty(id: string, dirty: bool)
    | OpRebind(oldId: Id, newId: Id)

  function Apply(e: Editors, op: EditorOp): Editors {
    match op
    case OpOpen(s, p, n) => Open(e, s, p, n)
    case OpActivate(id) => Activate(e, id)
    case OpClose(id, confirmed) => Close(e, id, confirmed)
    case OpCloseSession(s) => CloseForSession(e, s)
    case OpDirty(id, dirty) => SetDirty(e, id, dirty)
    case OpRebind(o, n) => Rebind(e, o, n)
  }

  function ApplyAll(e: Editors, ops: seq<EditorOp>): Editors
    decreases |ops|
  {
    if ops == [] then e else ApplyAll(Apply(e, ops[0]), ops[1..])
  }

  // ---------------------------------------------------------------- validity, action by action

  lemma UniqueCons(h: EditorTab, rest: seq<EditorTab>)
    ensures UniqueIds([h] + rest) <==> UniqueIds(rest) && forall t :: t in rest ==> t.id != h.id
  {
    var s := [h] + rest;
    if UniqueIds(s) {
      forall i, j | 0 <= i < j < |rest| ensures rest[i].id != rest[j].id {
        assert s[i + 1] == rest[i] && s[j + 1] == rest[j];
      }
      forall t | t in rest ensures t.id != h.id {
        var j :| 0 <= j < |rest| && rest[j] == t;
        assert s[0].id != s[j + 1].id;
      }
    }
  }

  lemma {:induction false} WithoutIdUnique(tabs: seq<EditorTab>, id: string)
    requires UniqueIds(tabs)
    ensures UniqueIds(WithoutId(tabs, id))
  {
    if tabs != [] {
      assert tabs == [tabs[0]] + tabs[1..];
      UniqueCons(tabs[0], tabs[1..]);
      WithoutIdUnique(tabs[1..], id);
      UniqueCons(tabs[0], WithoutId(tabs[1..], id));
    }
  }

  lemma {:induction false} WithoutSessionUnique(tabs: seq<EditorTab>, sessionId: Id)
    requires UniqueIds(tabs)
    ensures UniqueIds(WithoutSession(tabs, sessionId))
  {
    if tabs != [] {
      assert tabs == [tabs[0]] + tabs[1..];
      UniqueCons(tabs[0], tabs[1..]);
      WithoutSessionUnique(tabs[1..], sessionId);
      UniqueCons(tabs[0], WithoutSession(tabs[1..], sessionId));
    }
  }

  /** With unique ids, a tab is the one its id finds. */
  lemma FoundIsThat(tabs: seq<EditorTab>, t: EditorTab)
    requires UniqueIds(tabs) && t in tabs
    ensures FindById(tabs, t.id) == Some(t)
  {
  }

  lemma OpenKeepsValid(e: Editors, sessionId: Id, remotePath: string, name: string)
    requires Valid(e)
    ensures Valid(Open(e, sessionId, remotePath, name))
  {
    var id := EditorTabId(sessionId, remotePath);
    var r := Open(e, sessionId, remotePath, name);
    if FindById(e.tabs, id).None? {
      assert r.tabs[|e.tabs|].id == id;
    }
  }

  lemma CloseKeepsValid(e: Editors, id: string, confirmed: bool)
    requires Valid(e)
    ensures Valid(Close(e, id, confirmed))
  {
    WithoutIdUnique(e.tabs, id);
    SurvivorFound(e, WithoutId(e.tabs, id));
  }

  lemma CloseForSessionKeepsValid(e: Editors, sessionId: Id)
    requires Valid(e)
    ensures Valid(CloseForSession(e, sessionId))
  {
    WithoutSessionUnique(e.tabs, sessionId);
    SurvivorFound(e, WithoutSession(e.tabs, sessionId));
    if e.active.Some? {
      var t := FindById(e.tabs, e.active.value).value;
      assert t.id[|t.sessionId|] == ':';
      forall u | u in e.tabs && u.id == t.id ensures u == t { FoundIsThat(e.tabs, u); }
    }
  }

  /** If the active tab is among the remaining tabs, its id still finds it. */
  lemma SurvivorFound(e: Editors, remaining: seq<EditorTab>)
    requires Valid(e)
    ensures e.active.Some? && FindById(e.tabs, e.active.value).value in remaining
        ==> FindById(remaining, e.active.value).Some?
    ensures remaining != [] ==> FindById(remaining, remaining[|remaining| - 1].id).Some?
  {
  }

  /** A file is open under both sessions, so renaming one to the other would merge two tabs. */
  ghost predicate SharedPath(tabs: seq<EditorTab>, oldId: Id, newId: Id) {
    exists t, u :: t in tabs && u in tabs && t.sessionId == oldId && u.sessionId == newId
                   && t.remotePath == u.remotePath
  }

  lemma RebindDerived(e: Editors, oldId: Id, newId: Id)
    requires Valid(e)
    ensures DerivedIds(Rebind(e, oldId, newId).tabs)
    ensures var r := Rebind(e, oldId, newId);
            (r.active.None? <==> r.tabs == []) && (r.active.Some? ==> FindById(r.tabs, r.active.value).Some?)
  {
  }

  lemma ReboundIdsDiffer(t: EditorTab, u: EditorTab, oldId: Id, newId: Id)
    requires t.id == EditorTabId(t.sessionId, t.remotePath) && u.id == EditorTabId(u.sessionId, u.remotePath)
    requires ColonFree(t.sessionId) && ColonFree(u.sessionId) && ColonFree(newId)
    requires t.id != u.id
    ensures RebindTab(t, oldId, newId).id == RebindTab(u, oldId, newId).id
        ==> oldId != newId && t.remotePath == u.remotePath
            && ((t.sessionId == oldId && u.sessionId == newId) || (t.sessionId == newId && u.sessionId == oldId))
  {
    var r, q := RebindTab(t, oldId, newId), RebindTab(u, oldId, newId);
    if r.id == q.id {
      DerivedIdInjective(r.sessionId, r.remotePath, q.sessionId, q.remotePath);
    }
  }

  lemma RebindUnique(tabs: seq<EditorTab>, oldId: Id, newId: Id)
    requires DerivedIds(tabs) && UniqueIds(tabs) && ColonFreeSessions(tabs) && ColonFree(newId)
    requires oldId == newId || !SharedPath(tabs, oldId, newId)
    ensures UniqueIds(RebindTabs(tabs, oldId, newId))
  {
    var r := RebindTabs(tabs, oldId, newId);
    forall i, j | 0 <= i < j < |r| ensures r[i].id != r[j].id {
      var t, u := tabs[i], tabs[j];
      assert t in tabs && u in tabs;
      ReboundIdsDiffer(t, u, oldId, newId);
    }
  }

  lemma SharedPathMerges(tabs: seq<EditorTab>, oldId: Id, newId: Id)
    requires DerivedIds(tabs) && oldId != newId && SharedPath(tabs, oldId, newId)
    ensures !UniqueIds(RebindTabs(tabs, oldId, newId))
  {
  }

  /**
   * Rebinding keeps the store valid exactly when no file is open under both sessions. A fresh new id
   * rules that out.
   */
  lemma RebindValidIff(e: Editors, oldId: Id, newId: Id)
    requires Valid(e) && ColonFreeSessions(e.tabs) && ColonFree(newId)
    ensures Valid(Rebind(e, oldId, newId)) <==> oldId == newId || !SharedPath(e.tabs, oldId, newId)
  {
    RebindDerived(e, oldId, newId);
    if oldId == newId || !SharedPath(e.tabs, oldId, newId) {
      RebindUnique(e.tabs, oldId, newId);
    } else {
      SharedPathMerges(e.tabs, oldId, newId);
    }
  }

  /** It can happen: one file open under both sessions comes to be two tabs of one id. */
  lemma RebindMerges() returns (e: Editors)
    ensures Valid(e) && ColonFreeSessions(e.tabs) && !Valid(Rebind(e, "a", "b"))
  {
    var t, u := EditorTab("a::f", "a", "f", "f", false), EditorTab("b::f", "b", "f", "f", false);
    e := Editors([t, u], Some("a::f"));
    assert EditorTabId("a", "f") == "a::f" && EditorTabId("b", "f") == "b::f";
    assert t.id[0] != u.id[0];
    assert t in e.tabs && u in e.tabs;
    RebindValidIff(e, "a", "b");
  }

  /** What the callers promise: session ids are colon-free, and a reconnect brings a new one. */
  ghost predicate Admissible(e: Editors, op: EditorOp) {
    match op
    case OpOpen(s, _, _) => ColonFree(s)
    case OpRebind(_, n) => ColonFree(n) && NoEditorFor(e.tabs, n)
    case _ => true
  }

  lemma ApplyKeepsValid(e: Editors, op: EditorOp)
    requires Valid(e) && ColonFreeSessions(e.tabs) && Admissible(e, op)
    ensures Valid(Apply(e, op)) && ColonFreeSessions(Apply(e, op).tabs)
  {
    match op {
      case OpOpen(s, p, n) => OpenKeepsValid(e, s, p, n);
      case OpActivate(id) =>
      case OpClose(id, confirmed) => CloseKeepsValid(e, id, confirmed);
      case OpCloseSession(s) => CloseForSessionKeepsValid(e, s);
      case OpDirty(id, dirty) => SetDirtyKeepsValid(e, id, dirty); WithDirtyKeepsKeys(e.tabs, id, dirty, "");
      case OpRebind(o, n) => RebindValidIff(e, o, n);
    }
  }

  lemma WithDirtyKeepsKeys(tabs: seq<EditorTab>, id: string, dirty: bool, absent: Id)
    ensures DerivedIds(tabs) ==> DerivedIds(WithDirty(tabs, id, dirty))
    ensures ColonFreeSessions(tabs) ==> ColonFreeSessions(WithDirty(tabs, id, dirty))
    ensures NoEditorFor(tabs, absent) ==> NoEditorFor(WithDirty(tabs, id, dirty), absent)
  {
  }

  lemma SetDirtyKeepsValid(e: Editors, id: string, dirty: bool)
    requires Valid(e)
    ensures Valid(SetDirty(e, id, dirty))
  {
    WithDirtyKeepsKeys(e.tabs, id, dirty, "");
    assert UniqueIds(WithDirty(e.tabs, id, dirty));
    if e.active.Some? { WithDirtyFinds(e.tabs, id, dirty, e.active.value); }
  }

  lemma WithDirtyFinds(tabs: seq<EditorTab>, id: string, dirty: bool, x: string)
    ensures FindById(WithDirty(tabs, id, dirty), x).Some? <==> FindById(tabs, x).Some?
  {
  }

  ghost predicate AllAdmissible(e: Editors, ops: seq<EditorOp>)
    decreases |ops|
  {
    ops != [] ==> Admissible(e, ops[0]) && AllAdmissible(Apply(e, ops[0]), ops[1..])
  }

  /** The invariant holds after any run of editor actions, reconnects included. */
  lemma {:induction false} EveryRunValid(e: Editors, ops: seq<EditorOp>)
    requires Valid(e) && ColonFreeSessions(e.tabs) && AllAdmissible(e, ops)
    ensures Valid(ApplyAll(e, ops)) && ColonFreeSessions(ApplyAll(e, ops).tabs)
    decreases |ops|
  {
    if ops != [] {
      ApplyKeepsValid(e, ops[0]);
      EveryRunValid(Apply(e, ops[0]), ops[1..]);
    }
  }

  /**
   * Opening a file leaves exactly one tab for it, in focus, and keeps all the others; opening it
   * again changes nothing but the focus.
   */
  lemma OpenFocusesTheFile(e: Editors, s: Id, p: string, n: string)
    requires Valid(e) && ColonFreeSessions(e.tabs) && ColonFree(s)
    ensures var r := Open(e, s, p, n);
            && e.tabs <= r.tabs
            && (exists i :: 0 <= i < |r.tabs| && r.tabs[i].sessionId == s && r.tabs[i].remotePath == p
                  && r.active == Some(r.tabs[i].id)
                  && forall j :: 0 <= j < |r.tabs| && j != i ==> r.tabs[j].sessionId != s || r.tabs[j].remotePath != p)
    ensures forall e': Editors :: e'.tabs == Open(e, s, p, n).tabs ==>
              forall m :: Open(e', s, p, m) == Editors(e'.tabs, Some(EditorTabId(s, p)))
  {
    OpenKeepsValid(e, s, p, n);
    var r := Open(e, s, p, n);
    var t := FindById(r.tabs, EditorTabId(s, p)).value;
    DerivedIdInjective(t.sessionId, t.remotePath, s, p);
    var i :| 0 <= i < |r.tabs| && r.tabs[i] == t;
    forall j | 0 <= j < |r.tabs| && j != i ensures r.tabs[j].sessionId != s || r.tabs[j].remotePath != p {
      assert r.tabs[j].id != r.tabs[i].id;
      assert r.tabs[j] in r.tabs;
    }
  }

  // ---------------------------------------------------------------- unsaved changes

  /** The actions by which a tab with unsaved changes goes, or gives up its name or its mark. */
  predicate Discards(op: EditorOp, t: EditorTab) {
    match op
    case OpClose(id, confirmed) => id == t.id && confirmed
    case OpCloseSession(s) => s == t.sessionId
    case OpDirty(id, dirty) => id == t.id && !dirty
    case OpRebind(o, _) => o == t.sessionId
    case _ => false
  }

  lemma UnsavedStaysIff(e: Editors, op: EditorOp, t: EditorTab)
    requires Valid(e) && Admissible(e, op) && t in e.tabs && t.dirty
    ensures t in Apply(e, op).tabs <==> !Discards(op, t)
  {
    FoundIsThat(e.tabs, t);
    match op {
      case OpDirty(id, dirty) => MarkedStays(e.tabs, id, dirty, t);
      case OpRebind(o, n) => ReboundStays(e.tabs, o, n, t);
      case _ =>
    }
  }

  lemma MarkedStays(tabs: seq<EditorTab>, id: string, dirty: bool, t: EditorTab)
    requires t in tabs && t.dirty
    ensures t in WithDirty(tabs, id, dirty) <==> id != t.id || dirty
  {
    var i :| 0 <= i < |tabs| && tabs[i] == t;
    assert WithDirty(tabs, id, dirty)[i] == if t.id == id then t.(dirty := dirty) else t;
  }

  lemma ReboundStays(tabs: seq<EditorTab>, oldId: Id, newId: Id, t: EditorTab)
    requires t in tabs && NoEditorFor(tabs, newId)
    ensures t in RebindTabs(tabs, oldId, newId) <==> oldId != t.sessionId
  {
    var i :| 0 <= i < |tabs| && tabs[i] == t;
    assert RebindTabs(tabs, oldId, newId)[i] == RebindTab(t, oldId, newId);
  }

  /** Unsaved changes survive any run that does not explicitly discard them. */
  lemma {:induction false} UnsavedStays(e: Editors, ops: seq<EditorOp>, t: EditorTab)
    requires Valid(e) && ColonFreeSessions(e.tabs) && AllAdmissible(e, ops)
    requires t in e.tabs && t.dirty && forall i :: 0 <= i < |ops| ==> !Discards(ops[i], t)
    ensures t in ApplyAll(e, ops).tabs
    decreases |ops|
  {
    if ops != [] {
      ApplyKeepsValid(e, ops[0]);
      UnsavedStaysIff(e, ops[0], t);
      UnsavedStays(Apply(e, ops[0]), ops[1..], t);
    }
  }

  // ---------------------------------------------------------------- renaming

  /** A derived id of the old session becomes the same path's id under the new one. */
  function RenameId(id: string, oldId: Id, newId: Id): string {
    if oldId + "::" <= id then newId + id[|oldId|..] else id
  }

  function RenameSession(s: Id, oldId: Id, newId: Id): Id {
    if s == oldId then newId else s
  }

  function RenameOp(op: EditorOp, oldId: Id, newId: Id): EditorOp {
    match op
    case OpOpen(s, p, n) => OpOpen(RenameSession(s, oldId, newId), p, n)
    case OpActivate(id) => OpActivate(RenameId(id, oldId, newId))
    case OpClose(id, confirmed) => OpClose(RenameId(id, oldId, newId), confirmed)
    case OpCloseSession(s) => OpCloseSession(RenameSession(s, oldId, newId))
    case OpDirty(id, dirty) => OpDirty(RenameId(id, oldId, newId), dirty)
    case OpRebind(o, n) => op
  }

  function RenameOps(ops: seq<EditorOp>, oldId: Id, newId: Id): seq<EditorOp> {
    if ops == [] then [] else [RenameOp(ops[0], oldId, newId)] + RenameOps(ops[1..], oldId, newId)
  }

  /** A user action that does not mention the session id the backend has yet to issue. */
  ghost predicate Unaware(op: EditorOp, newId: Id) {
    match op
    case OpOpen(s, _, _) => ColonFree(s) && s != newId
    case OpActivate(id) => !(newId + "::" <= id)
    case OpClose(id, _) => !(newId + "::" <= id)
    case OpCloseSession(s) => s != newId
    case OpDirty(id, _) => !(newId + "::" <= id)
    case OpRebind(_, _) => false
  }

  /** The setting of a reconnect: colon-free sessions, and nothing open under the new id yet. */
  ghost predicate Renamable(tabs: seq<EditorTab>, oldId: Id, newId: Id) {
    && DerivedIds(tabs) && ColonFreeSessions(tabs) && NoEditorFor(tabs, newId)
    && ColonFree(oldId) && ColonFree(newId) && oldId != newId
  }

  lemma PrefixNamesSession(s: Id, t: Id, p: string)
    requires ColonFree(s) && ColonFree(t)
    ensures s + "::" <= EditorTabId(t, p) <==> s == t
  {
    var id := EditorTabId(t, p);
    if s + "::" <= id {
      assert id == EditorTabId(s, id[|s| + 2..]);
      DerivedIdInjective(s, id[|s| + 2..], t, p);
    }
  }

  lemma RenamesOwnId(t: EditorTab, oldId: Id, newId: Id)
    requires t.id == EditorTabId(t.sessionId, t.remotePath)
    requires ColonFree(t.sessionId) && ColonFree(oldId) && ColonFree(newId) && t.sessionId != newId
    ensures RebindTab(t, oldId, newId).id == RenameId(t.id, oldId, newId)
    ensures !(newId + "::" <= t.id)
  {
    PrefixNamesSession(oldId, t.sessionId, t.remotePath);
    PrefixNamesSession(newId, t.sessionId, t.remotePath);
    if t.sessionId == oldId {
      assert t.id[|oldId|..] == "::" + t.remotePath;
    }
  }

  /** Two ids are the same exactly when their renamings are, away from the new session. */
  lemma RenameIdInjective(a: string, b: string, oldId: Id, newId: Id)
    requires !(newId + "::" <= a) && !(newId + "::" <= b)
    ensures RenameId(a, oldId, newId) == RenameId(b, oldId, newId) <==> a == b
  {
    RenamedPrefix(a, oldId, newId);
    RenamedPrefix(b, oldId, newId);
  }

  lemma RenamedPrefix(a: string, oldId: Id, newId: Id)
    requires !(newId + "::" <= a)
    ensures oldId + "::" <= a <==> newId + "::" <= RenameId(a, oldId, newId)
    ensures oldId + "::" <= a ==> a == oldId + RenameId(a, oldId, newId)[|newId|..]
  {
  }

  lemma RenameIdMatches(t: EditorTab, id: string, oldId: Id, newId: Id)
    requires t.id == EditorTabId(t.sessionId, t.remotePath)
    requires ColonFree(t.sessionId) && ColonFree(oldId) && ColonFree(newId) && t.sessionId != newId
    requires !(newId + "::" <= id)
    ensures RebindTab(t, oldId, newId).id == RenameId(t.id, oldId, newId)
    ensures t.id == id <==> RebindTab(t, oldId, newId).id == RenameId(id, oldId, newId)
  {
    RenamesOwnId(t, oldId, newId);
    RenameIdInjective(t.id, id, oldId, newId);
  }

  lemma {:induction false} FindRebound(tabs: seq<EditorTab>, id: string, oldId: Id, newId: Id)
    requires Renamable(tabs, oldId, newId) && !(newId + "::" <= id)
    ensures var f := FindById(tabs, id);
            FindById(RebindTabs(tabs, oldId, newId), RenameId(id, oldId, newId))
            == if f.None? then None else Some(RebindTab(f.value, oldId, newId))
  {
    if tabs != [] {
      RenameIdMatches(tabs[0], id, oldId, newId);
      FindRebound(tabs[1..], id, oldId, newId);
    }
  }

  lemma RebindTabsConcat(a: seq<EditorTab>, b: seq<EditorTab>, oldId: Id, newId: Id)
    ensures RebindTabs(a + b, oldId, newId) == RebindTabs(a, oldId, newId) + RebindTabs(b, oldId, newId)
  {
  }

  lemma {:induction false} WithoutIdRebound(tabs: seq<EditorTab>, id: string, oldId: Id, newId: Id)
    requires Renamable(tabs, oldId, newId) && !(newId + "::" <= id)
    ensures WithoutId(RebindTabs(tabs, oldId, newId), RenameId(id, oldId, newId))
         == RebindTabs(WithoutId(tabs, id), oldId, newId)
  {
    if tabs != [] {
      RenameIdMatches(tabs[0], id, oldId, newId);
      WithoutIdRebound(tabs[1..], id, oldId, newId);
      RebindTabsConcat(if tabs[0].id != id then [tabs[0]] else [], WithoutId(tabs[1..], id), oldId, newId);
    }
  }

  lemma {:induction false} WithoutSessionRebound(tabs: seq<EditorTab>, s: Id, oldId: Id, newId: Id)
    requires NoEditorFor(tabs, newId) && s != newId
    ensures WithoutSession(RebindTabs(tabs, oldId, newId), RenameSession(s, oldId, newId))
         == RebindTabs(WithoutSession(tabs, s), oldId, newId)
  {
    if tabs != [] {
      WithoutSessionRebound(tabs[1..], s, oldId, newId);
      RebindTabsConcat(if tabs[0].sessionId != s then [tabs[0]] else [], WithoutSession(tabs[1..], s), oldId, newId);
    }
  }

  lemma {:induction false} WithDirtyRebound(tabs: seq<EditorTab>, id: string, dirty: bool, oldId: Id, newId: Id)
    requires Renamable(tabs, oldId, newId) && !(newId + "::" <= id)
    ensures WithDirty(RebindTabs(tabs, oldId, newId), RenameId(id, oldId, newId), dirty)
         == RebindTabs(WithDirty(tabs, id, dirty), oldId, newId)
  {
    if tabs != [] {
      RenameIdMatches(tabs[0], id, oldId, newId);
      WithDirtyRebound(tabs[1..], id, dirty, oldId, newId);
    }
  }

  function RenameActive(active: Option<string>, oldId: Id, newId: Id): Option<string> {
    if active.None? then None else Some(RenameId(active.value, oldId, newId))
  }

  /** In a valid store, rebinding renames the active id and nothing else about it. */
  lemma ActiveRebound(e: Editors, oldId: Id, newId: Id)
    requires Valid(e) && Renamable(e.tabs, oldId, newId)
    ensures Rebind(e, oldId, newId) == Editors(RebindTabs(e.tabs, oldId, newId), RenameActive(e.active, oldId, newId))
    ensures e.active.Some? ==> !(newId + "::" <= e.active.value)
  {
    if e.active.Some? {
      var t := FindById(e.tabs, e.active.value).value;
      assert t.id[|t.sessionId|] == ':';
      RenamesOwnId(t, oldId, newId);
    }
  }

  lemma LastIdRebound(tabs: seq<EditorTab>, oldId: Id, newId: Id)
    requires Renamable(tabs, oldId, newId)
    ensures LastId(RebindTabs(tabs, oldId, newId))
         == RenameActive(LastId(tabs), oldId, newId)
  {
    if tabs != [] {
      var t := tabs[|tabs| - 1];
      RenamesOwnId(t, oldId, newId);
    }
  }

  lemma DerivedIdRenamed(s: Id, p: string, oldId: Id, newId: Id)
    requires ColonFree(s) && ColonFree(oldId) && ColonFree(newId) && s != newId
    ensures RenameId(EditorTabId(s, p), oldId, newId) == EditorTabId(RenameSession(s, oldId, newId), p)
    ensures !(newId + "::" <= EditorTabId(s, p))
  {
    RenamesOwnId(EditorTab(EditorTabId(s, p), s, p, "", false), oldId, newId);
  }

  lemma OpenCommutes(e: Editors, s: Id, p: string, n: string, oldId: Id, newId: Id)
    requires Valid(e) && Renamable(e.tabs, oldId, newId) && ColonFree(s) && s != newId
    ensures Rebind(Open(e, s, p, n), oldId, newId)
         == Open(Rebind(e, oldId, newId), RenameSession(s, oldId, newId), p, n)
  {
    var id := EditorTabId(s, p);
    var t := EditorTab(id, s, p, n, false);
    DerivedIdRenamed(s, p, oldId, newId);
    FindRebound(e.tabs, id, oldId, newId);
    RebindTabsConcat(e.tabs, [t], oldId, newId);
    assert RebindTabs([t], oldId, newId) == [RebindTab(t, oldId, newId)];
    OpenKeepsValid(e, s, p, n);
    OpenKeepsRenamable(e, s, p, n, oldId, newId);
    ActiveRebound(Open(e, s, p, n), oldId, newId);
  }

  lemma OpenKeepsRenamable(e: Editors, s: Id, p: string, n: string, oldId: Id, newId: Id)
    requires Renamable(e.tabs, oldId, newId) && ColonFree(s) && s != newId
    ensures Renamable(Open(e, s, p, n).tabs, oldId, newId)
  {
  }

  predicate Refused(e: Editors, id: string, confirmed: bool) {
    var tab := FindById(e.tabs, id);
    tab.Some? && tab.value.dirty && !confirmed
  }

  lemma RefusalCommutes(e: Editors, id: string, confirmed: bool, oldId: Id, newId: Id)
    requires Valid(e) && Renamable(e.tabs, oldId, newId) && !(newId + "::" <= id)
    ensures Refused(Rebind(e, oldId, newId), RenameId(id, oldId, newId), confirmed) <==> Refused(e, id, confirmed)
  {
    FindRebound(e.tabs, id, oldId, newId);
  }

  /** What is left after the tab is gone, renamed. */
  lemma RemovalCommutes(e: Editors, id: string, oldId: Id, newId: Id)
    requires Valid(e) && Renamable(e.tabs, oldId, newId) && !(newId + "::" <= id)
    ensures WithoutId(Rebind(e, oldId, newId).tabs, RenameId(id, oldId, newId))
         == RebindTabs(WithoutId(e.tabs, id), oldId, newId)
    ensures LastId(RebindTabs(WithoutId(e.tabs, id), oldId, newId))
         == RenameActive(LastId(WithoutId(e.tabs, id)), oldId, newId)
    ensures Rebind(e, oldId, newId).active == Some(RenameId(id, oldId, newId)) <==> e.active == Some(id)
  {
    ActiveRebound(e, oldId, newId);
    WithoutIdRebound(e.tabs, id, oldId, newId);
    LastIdRebound(WithoutId(e.tabs, id), oldId, newId);
    ActiveIsRenamed(e, id, oldId, newId);
  }

  lemma CloseCommutes(e: Editors, id: string, confirmed: bool, oldId: Id, newId: Id)
    requires Valid(e) && Renamable(e.tabs, oldId, newId) && !(newId + "::" <= id)
    ensures Rebind(Close(e, id, confirmed), oldId, newId)
         == Close(Rebind(e, oldId, newId), RenameId(id, oldId, newId), confirmed)
  {
    RefusalCommutes(e, id, confirmed, oldId, newId);
    if !Refused(e, id, confirmed) {
      CloseKeepsValid(e, id, confirmed);
      RemovalCommutes(e, id, oldId, newId);
      ActiveRebound(Close(e, id, confirmed), oldId, newId);
      ActiveRebound(e, oldId, newId);
    }
  }

  lemma ActiveIsRenamed(e: Editors, id: string, oldId: Id, newId: Id)
    requires Valid(e) && Renamable(e.tabs, oldId, newId) && !(newId + "::" <= id)
    ensures RenameActive(e.active, oldId, newId) == Some(RenameId(id, oldId, newId)) <==> e.active == Some(id)
  {
    ActiveRebound(e, oldId, newId);
    if e.active.Some? { RenameIdInjective(e.active.value, id, oldId, newId); }
  }

  /** The owner of the active tab, when there is one. */
  lemma ActiveOwner(e: Editors, s: Id)
    requires Valid(e)
    ensures ActiveBelongsTo(e, s) <==> e.active.Some? && FindById(e.tabs, e.active.value).value.sessionId == s
  {
  }

  lemma ActiveOwnerRebound(e: Editors, s: Id, oldId: Id, newId: Id)
    requires Valid(e) && Renamable(e.tabs, oldId, newId) && s != newId
    ensures ActiveBelongsTo(Rebind(e, oldId, newId), RenameSession(s, oldId, newId)) <==> ActiveBelongsTo(e, s)
  {
    NotShared(e.tabs, oldId, newId);
    RebindValidIff(e, oldId, newId);
    ActiveRebound(e, oldId, newId);
    ActiveOwner(e, s);
    ActiveOwner(Rebind(e, oldId, newId), RenameSession(s, oldId, newId));
    if e.active.Some? {
      FindRebound(e.tabs, e.active.value, oldId, newId);
      var t := FindById(e.tabs, e.active.value).value;
      assert t.sessionId != newId;
    }
  }

  lemma NotShared(tabs: seq<EditorTab>, oldId: Id, newId: Id)
    requires NoEditorFor(tabs, newId)
    ensures !SharedPath(tabs, oldId, newId)
  {
  }

  lemma CloseForSessionCommutes(e: Editors, s: Id, oldId: Id, newId: Id)
    requires Valid(e) && Renamable(e.tabs, oldId, newId) && s != newId
    ensures Rebind(CloseForSession(e, s), oldId, newId)
         == CloseForSession(Rebind(e, oldId, newId), RenameSession(s, oldId, newId))
  {
    WithoutSessionRebound(e.tabs, s, oldId, newId);
    LastIdRebound(WithoutSession(e.tabs, s), oldId, newId);
    ActiveRebound(e, oldId, newId);
    ActiveOwnerRebound(e, s, oldId, newId);
    CloseForSessionKeepsValid(e, s);
    ActiveRebound(CloseForSession(e, s), oldId, newId);
  }

  lemma SetDirtyCommutes(e: Editors, id: string, dirty: bool, oldId: Id, newId: Id)
    requires Valid(e) && Renamable(e.tabs, oldId, newId) && !(newId + "::" <= id)
    ensures Rebind(SetDirty(e, id, dirty), oldId, newId)
         == SetDirty(Rebind(e, oldId, newId), RenameId(id, oldId, newId), dirty)
  {
    FindRebound(e.tabs, id, oldId, newId);
    if Unmarked(e, id, dirty) { MarkingCommutes(e, id, dirty, oldId, newId); }
  }

  /** There is a tab to be marked. */
  predicate Unmarked(e: Editors, id: string, dirty: bool) {
    var tab := FindById(e.tabs, id);
    tab.Some? && tab.value.dirty != dirty
  }

  lemma MarkingCommutes(e: Editors, id: string, dirty: bool, oldId: Id, newId: Id)
    requires Valid(e) && Renamable(e.tabs, oldId, newId) && !(newId + "::" <= id) && Unmarked(e, id, dirty)
    ensures Rebind(SetDirty(e, id, dirty), oldId, newId)
         == SetDirty(Rebind(e, oldId, newId), RenameId(id, oldId, newId), dirty)
  {
    FindRebound(e.tabs, id, oldId, newId);
    MarkedRenamable(e, id, dirty, oldId, newId);
    ActiveRebound(e, oldId, newId);
    ActiveRebound(SetDirty(e, id, dirty), oldId, newId);
    WithDirtyRebound(e.tabs, id, dirty, oldId, newId);
  }

  lemma MarkedRenamable(e: Editors, id: string, dirty: bool, oldId: Id, newId: Id)
    requires Valid(e) && Renamable(e.tabs, oldId, newId)
    ensures Valid(SetDirty(e, id, dirty)) && Renamable(SetDirty(e, id, dirty).tabs, oldId, newId)
  {
    SetDirtyKeepsValid(e, id, dirty);
    WithDirtyKeepsKeys(e.tabs, id, dirty, newId);
  }

  lemma ActivateCommutes(e: Editors, id: string, oldId: Id, newId: Id)
    requires Valid(e) && Renamable(e.tabs, oldId, newId) && !(newId + "::" <= id)
    ensures Rebind(Activate(e, id), oldId, newId) == Activate(Rebind(e, oldId, newId), RenameId(id, oldId, newId))
  {
    FindRebound(e.tabs, id, oldId, newId);
    ActiveRebound(Activate(e, id), oldId, newId);
  }

  lemma ApplyKeepsRenamable(e: Editors, op: EditorOp, oldId: Id, newId: Id)
    requires Valid(e) && Renamable(e.tabs, oldId, newId) && Unaware(op, newId)
    ensures Valid(Apply(e, op)) && Renamable(Apply(e, op).tabs, oldId, newId)
  {
    ApplyKeepsValid(e, op);
    if op.OpDirty? { MarkedRenamable(e, op.id, op.dirty, oldId, newId); }
  }

  /** Acting on the old session and then reconnecting is reconnecting and then acting on the new one. */
  lemma ApplyCommutes(e: Editors, op: EditorOp, oldId: Id, newId: Id)
    requires Valid(e) && Renamable(e.tabs, oldId, newId) && Unaware(op, newId)
    ensures Rebind(Apply(e, op), oldId, newId) == Apply(Rebind(e, oldId, newId), RenameOp(op, oldId, newId))
  {
    match op {
      case OpOpen(s, p, n) => OpenCommutes(e, s, p, n, oldId, newId);
      case OpActivate(id) => ActivateCommutes(e, id, oldId, newId);
      case OpClose(id, confirmed) => CloseCommutes(e, id, confirmed, oldId, newId);
      case OpCloseSession(s) => CloseForSessionCommutes(e, s, oldId, newId);
      case OpDirty(id, dirty) => SetDirtyCommutes(e, id, dirty, oldId, newId);
    }
  }

  /** The same for whole runs: a reconnect can be moved across any number of editor actions. */
  lemma {:induction false} RunCommutes(e: Editors, ops: seq<EditorOp>, oldId: Id, newId: Id)
    requires Valid(e) && Renamable(e.tabs, oldId, newId)
    requires forall i :: 0 <= i < |ops| ==> Unaware(ops[i], newId)
    ensures Rebind(ApplyAll(e, ops), oldId, newId)
         == ApplyAll(Rebind(e, oldId, newId), RenameOps(ops, oldId, newId))
    decreases |ops|
  {
    if ops != [] {
      ApplyCommutes(e, ops[0], oldId, newId);
      ApplyKeepsRenamable(e, ops[0], oldId, newId);
      RunCommutes(Apply(e, ops[0]), ops[1..], oldId, newId);
      var renamed := RenameOps(ops, oldId, newId);
      assert renamed[0] == RenameOp(ops[0], oldId, newId);
      assert renamed[1..] == RenameOps(ops[1..], oldId, newId);
    }
  }

  /** Renaming to a fresh id loses nothing: renaming back restores the store. */
  lemma RebindInvertible(e: Editors, oldId: Id, newId: Id)
    requires Valid(e) && Renamable(e.tabs, oldId, newId)
    ensures Rebind(Rebind(e, oldId, newId), newId, oldId) == e
  {
    var r := Rebind(e, oldId, newId);
    assert RebindTabs(r.tabs, newId, oldId) == e.tabs;
    if e.active.Some? {
      ActiveRebound(e, oldId, newId);
      FindRebound(e.tabs, e.active.value, oldId, newId);
      var t := FindById(e.tabs, e.active.value).value;
      assert t.id[|t.sessionId|] == ':';
      var u := FindById(r.tabs, r.active.value).value;
      assert u.id[|u.sessionId|] == ':' by {
        RebindDerived(e, oldId, newId);
      }
    }
  }
}
