/** What single actions of the sessions store come to: what they reach, and what repeating them adds. */
module SessionActions {
  import opened Prelude
  import opened Sessions
  import opened SessionInvariant
  import Ed = EditorTabs
  import Bu = Buffers

  // ---------------------------------------------------------------- repetition

  /** The reason a disconnect event leaves, after an earlier one. */
  function Merged(first: Option<string>, second: Option<string>): Option<string> {
    if second.Some? && second.value != "" then second else first
  }

  /** Of two disconnect events the second adds its reason and nothing else; above all, no loop. */
  lemma DisconnectsMerge(s: State, sid: Id, r1: Option<string>, r2: Option<string>, auto1: bool, auto2: bool)
    ensures MarkDisconnected(MarkDisconnected(s, sid, r1, auto1), sid, r2, auto2)
         == MarkDisconnected(s, sid, Merged(r1, r2), auto1)
  {
    var tab := Lookup(s.tabs, sid);
    LossesMerge(s.tabs, sid, r1, r2);
    if tab.Some? {
      var once := MarkDisconnected(s, sid, r1, auto1);
      DisconnectedAgain(once, sid, r2, auto2);
      if tab.value.disconnected {
        DisconnectedAgain(s, sid, r1, auto1);
        DisconnectedAgain(s, sid, Merged(r1, r2), auto1);
      } else {
        DisconnectedFirst(s, sid, r1, auto1);
        DisconnectedFirst(s, sid, Merged(r1, r2), auto1);
      }
    }
  }

  lemma DisconnectedFirst(s: State, sid: Id, reason: Option<string>, autoReconnect: bool)
    requires Lookup(s.tabs, sid).Some? && !Lookup(s.tabs, sid).value.disconnected
    ensures MarkDisconnected(s, sid, reason, autoReconnect)
         == (if autoReconnect then StartLoop(s, sid) else s).(tabs := Mapped(s.tabs, sid, MarkLost(reason)))
  {
    StartLoopSparesTabs(s, sid, Mapped(s.tabs, sid, MarkLost(reason)));
  }

  lemma DisconnectedAgain(s: State, sid: Id, reason: Option<string>, autoReconnect: bool)
    requires Lookup(s.tabs, sid).Some? && Lookup(s.tabs, sid).value.disconnected
    ensures MarkDisconnected(s, sid, reason, autoReconnect)
         == if reason.Some? && reason.value != "" then s.(tabs := Mapped(s.tabs, sid, MarkReason(reason.value))) else s
  {
  }

  lemma StartLoopSparesTabs(s: State, sid: Id, tabs: seq<Tab>)
    ensures StartLoop(s.(tabs := tabs), sid) == StartLoop(s, sid).(tabs := tabs)
  {
  }

  /** The same on the tab list, whether the tab was lost before or not. */
  lemma {:induction false} LossesMerge(tabs: seq<Tab>, sid: Id, r1: Option<string>, r2: Option<string>)
    ensures var lost := Mapped(tabs, sid, MarkLost(r1));
            && Lookup(lost, sid).Some? == Lookup(tabs, sid).Some?
            && (Lookup(tabs, sid).Some? ==> Lookup(lost, sid).value == MarkLost(r1)(Lookup(tabs, sid).value))
            && (r2.Some? && r2.value != ""
                ==> Mapped(lost, sid, MarkReason(r2.value)) == Mapped(tabs, sid, MarkLost(r2)))
    ensures r1.Some? ==>
            var noted := Mapped(tabs, sid, MarkReason(r1.value));
            && Lookup(noted, sid).Some? == Lookup(tabs, sid).Some?
            && (Lookup(tabs, sid).Some? ==> Lookup(noted, sid).value == MarkReason(r1.value)(Lookup(tabs, sid).value))
            && (r2.Some? ==> Mapped(noted, sid, MarkReason(r2.value)) == Mapped(tabs, sid, MarkReason(r2.value)))
  {
    if tabs != [] { LossesMerge(tabs[1..], sid, r1, r2); }
  }

  /** A second click on reconnect sends nothing. */
  lemma ReconnectRequestsMerge(s: State, sid: Id)
    ensures RequestReconnect(RequestReconnect(s, sid), sid) == RequestReconnect(s, sid)
  {
    if Lookup(s.tabs, sid).Some? { MarkedBusy(s.tabs, sid); }
  }

  lemma {:induction false} MarkedBusy(tabs: seq<Tab>, sid: Id)
    requires Lookup(tabs, sid).Some?
    ensures var after := Lookup(Mapped(tabs, sid, MarkReconnecting()), sid); after.Some? && after.value.reconnecting
  {
    if tabs[0].sessionId != sid { MarkedBusy(tabs[1..], sid); }
  }

  /** Toggling the sync flag twice undoes it. */
  lemma {:induction false} SyncToggledTwice(tabs: seq<Tab>, sid: Id)
    ensures Mapped(Mapped(tabs, sid, ToggleSynced()), sid, ToggleSynced()) == tabs
  {
    if tabs != [] { SyncToggledTwice(tabs[1..], sid); }
  }

  // ---------------------------------------------------------------- closing

  lemma {:induction false} ClosedTwice(tabs: seq<Ed.EditorTab>, sid: Id)
    ensures Ed.WithoutSession(Ed.WithoutSession(tabs, sid), sid) == Ed.WithoutSession(tabs, sid)
  {
    if tabs != [] {
      var rest := Ed.WithoutSession(tabs[1..], sid);
      ClosedTwice(tabs[1..], sid);
      assert Ed.WithoutSession(tabs, sid) == if tabs[0].sessionId != sid then [tabs[0]] + rest else rest;
      assert tabs[0].sessionId != sid ==> ([tabs[0]] + rest)[1..] == rest;
    }
  }

  lemma EditorsClosedTwice(e: Ed.Editors, sid: Id)
    ensures Ed.CloseForSession(Ed.CloseForSession(e, sid), sid) == Ed.CloseForSession(e, sid)
  {
    ClosedTwice(e.tabs, sid);
  }

  /** A close that nothing interleaves with removes the session as removing it at once would. */
  lemma CloseUninterrupted(s: State, sid: Id)
    requires s.next !in s.closes
    ensures EndClose(BeginClose(s, sid), s.next)
         == RemoveTabLocal(s, sid).(next := s.next + 1, closeSent := s.closeSent + {sid})
  {
    EditorsClosedTwice(s.ui, sid);
  }
}
