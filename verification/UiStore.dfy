/** The editor part of the UI store: an object whose actions replace its two fields. */
module UiState {
  import opened Prelude
  import opened EditorTabs

  class UiStore {
    var editorTabs: seq<EditorTab>
    var activeEditorId: Option<string>

    /** The value the actions are specified on. */
    function View(): Editors
      reads this
    {
      Editors(editorTabs, activeEditorId)
    }

    constructor ()
      ensures View() == NO_EDITORS
    {
      editorTabs := [];
      activeEditorId := None;
    }

    method OpenEditor(sessionId: Id, remotePath: string, name: string)
      modifies this
      ensures View() == Open(old(View()), sessionId, remotePath, name)
    {
      var id := EditorTabId(sessionId, remotePath);
      var existing := FindById(editorTabs, id);
      if existing.None? {
        editorTabs := editorTabs + [EditorTab(id, sessionId, remotePath, name, false)];
      }
      activeEditorId := Some(id);
    }

    method SetActiveEditor(id: string)
      modifies this
      ensures View() == Activate(old(View()), id)
    {
      var tab := FindById(editorTabs, id);
      if tab.None? { return; }
      activeEditorId := Some(id);
    }

    /** `confirmed` answers the question the user is asked when the tab has unsaved changes. */
    method CloseEditorTab(id: string, confirmed: bool)
      modifies this
      ensures View() == Close(old(View()), id, confirmed)
    {
      var tab := FindById(editorTabs, id);
      if tab.Some? && tab.value.dirty {
        if !confirmed { return; }
      }
      editorTabs := WithoutId(editorTabs, id);
      if activeEditorId == Some(id) {
        activeEditorId := if |editorTabs| > 0 then Some(editorTabs[|editorTabs| - 1].id) else None;
      }
    }

    /** The toolbar's close button: closes the active tab, if any. */
    method CloseEditor(confirmed: bool)
      modifies this
      ensures View() == if old(activeEditorId).None? || old(activeEditorId).value == "" then old(View())
                        else Close(old(View()), old(activeEditorId).value, confirmed)
    {
      if activeEditorId.Some? && activeEditorId.value != "" {
        CloseEditorTab(activeEditorId.value, confirmed);
      }
    }

    method CloseEditorForSession(sessionId: Id)
      modifies this
      ensures View() == CloseForSession(old(View()), sessionId)
    {
      var remaining := WithoutSession(editorTabs, sessionId);
      if ActiveBelongsTo(View(), sessionId) {
        activeEditorId := if |remaining| > 0 then Some(remaining[|remaining| - 1].id) else None;
      }
      editorTabs := remaining;
    }

    method RebindEditorSession(oldId: Id, newId: Id)
      modifies this
      ensures View() == Rebind(old(View()), oldId, newId)
    {
      var before := editorTabs;
      editorTabs := RebindTabs(before, oldId, newId);
      if activeEditorId.Some? && activeEditorId.value != "" {
        var active := FindById(before, activeEditorId.value);
        if active.Some? && active.value.sessionId == oldId {
          activeEditorId := Some(EditorTabId(newId, active.value.remotePath));
        }
      }
    }

    method SetEditorDirty(id: string, dirty: bool)
      modifies this
      ensures View() == SetDirty(old(View()), id, dirty)
    {
      var tab := FindById(editorTabs, id);
      if tab.None? || tab.value.dirty == dirty { return; }
      editorTabs := WithDirty(editorTabs, id, dirty);
    }
  }
}
