/**
 * The invariant of the session machine and the proof that every step keeps it. Each part of the
 * invariant speaks of the few sets and maps it needs, so that a step that leaves those alone keeps it.
 */
module SessionInvariant {
  import opened Prelude
  import opened Sessions
  import Ed = EditorTabs

  // ---------------------------------------------------------------- what a tab list says

  ghost predicate Distinct(tabs: seq<Tab>) {
    forall i, j :: 0 <= i < j < |tabs| ==> tabs[i].sessionId != tabs[j].sessionId
  }

  /** Sessions with a tab, with a disconnected tab, and with a reconnecting one. */
  ghost function Open(tabs: seq<Tab>): set<Id> {
    if tabs == [] then {} else {tabs[0].sessionId} + Open(tabs[1..])
  }

  ghost function Lost(tabs: seq<Tab>): set<Id> {
    if tabs == [] then {} else (if tabs[0].disconnected then {tabs[0].sessionId} else {}) + Lost(tabs[1..])
  }

  ghost function Busy(tabs: seq<Tab>): set<Id> {
    if tabs == [] then {} else (if tabs[0].reconnecting then {tabs[0].sessionId} else {}) + Busy(tabs[1..])
  }

  /** All tabs of a session are this one. */
  ghost predicate OnlyTab(tabs: seq<Tab>, sid: Id, t: Tab) {
    t.sessionId == sid && forall v :: v in tabs && v.sessionId == sid ==> v == t
  }

  lemma {:induction false} LookupOpen(tabs: seq<Tab>, sid: Id)
    ensures Lookup(tabs, sid).Some? <==> sid in Open(tabs)
  {
    if tabs != [] { LookupOpen(tabs[1..], sid); }
  }

  lemma {:induction false} FlagSets(tabs: seq<Tab>, sid: Id, t: Tab)
    requires OnlyTab(tabs, sid, t)
    ensures sid in Lost(tabs) <==> sid in Open(tabs) && t.disconnected
    ensures sid in Busy(tabs) <==> sid in Open(tabs) && t.reconnecting
  {
    if tabs != [] { FlagSets(tabs[1..], sid, t); }
  }

  lemma DistinctOnly(tabs: seq<Tab>, t: Tab)
    requires Distinct(tabs) && t in tabs
    ensures OnlyTab(tabs, t.sessionId, t)
  {
  }

  /** Reading a tab's flags off the sets. */
  lemma LookupFlags(tabs: seq<Tab>, sid: Id)
    requires Distinct(tabs)
    ensures Lookup(tabs, sid).Some? <==> sid in Open(tabs)
    ensures Lookup(tabs, sid).Some? ==>
              && (Lookup(tabs, sid).value.disconnected <==> sid in Lost(tabs))
              && (Lookup(tabs, sid).value.reconnecting <==> sid in Busy(tabs))
  {
    LookupOpen(tabs, sid);
    if Lookup(tabs, sid).Some? {
      DistinctOnly(tabs, Lookup(tabs, sid).value);
      FlagSets(tabs, sid, Lookup(tabs, sid).value);
    }
  }

  lemma {:induction false} FlagsOpen(tabs: seq<Tab>)
    ensures Lost(tabs) <= Open(tabs) && Busy(tabs) <= Open(tabs)
  {
    if tabs != [] { FlagsOpen(tabs[1..]); }
  }

  // ---------------------------------------------------------------- what operations on it change

  ghost predicate KeepsId(update: Tab -> Tab) {
    forall t: Tab :: update(t).sessionId == t.sessionId
  }

  lemma {:induction false} MappedAt(tabs: seq<Tab>, sid: Id, update: Tab -> Tab)
    ensures |Mapped(tabs, sid, update)| == |tabs|
    ensures forall i :: 0 <= i < |tabs| ==>
              Mapped(tabs, sid, update)[i] == if tabs[i].sessionId == sid then update(tabs[i]) else tabs[i]
  {
    if tabs != [] { MappedAt(tabs[1..], sid, update); }
  }

  // The sets after giving the session's tab the id and flags of `u`.

  lemma {:induction false} MappedOpen(tabs: seq<Tab>, sid: Id, update: Tab -> Tab, t: Tab, u: Tab)
    requires OnlyTab(tabs, sid, t) && update(t) == u
    requires u.sessionId == sid || u.sessionId !in Open(tabs)
    ensures Open(Mapped(tabs, sid, update))
         == Open(tabs) - {sid} + (if sid in Open(tabs) then {u.sessionId} else {})
  {
    if tabs != [] {
      var m := Mapped(tabs, sid, update);
      assert m[1..] == Mapped(tabs[1..], sid, update);
      MappedOpen(tabs[1..], sid, update, t, u);
      FlagsOpen(tabs[1..]);
    }
  }

  lemma {:induction false} MappedLost(tabs: seq<Tab>, sid: Id, update: Tab -> Tab, t: Tab, u: Tab)
    requires OnlyTab(tabs, sid, t) && update(t) == u
    requires u.sessionId == sid || u.sessionId !in Open(tabs)
    ensures Lost(Mapped(tabs, sid, update))
         == Lost(tabs) - {sid} + (if sid in Open(tabs) && u.disconnected then {u.sessionId} else {})
  {
    if tabs != [] {
      var m := Mapped(tabs, sid, update);
      assert m[1..] == Mapped(tabs[1..], sid, update);
      MappedLost(tabs[1..], sid, update, t, u);
      FlagsOpen(tabs[1..]);
    }
  }

  lemma {:induction false} MappedBusy(tabs: seq<Tab>, sid: Id, update: Tab -> Tab, t: Tab, u: Tab)
    requires OnlyTab(tabs, sid, t) && update(t) == u
    requires u.sessionId == sid || u.sessionId !in Open(tabs)
    ensures Busy(Mapped(tabs, sid, update))
         == Busy(tabs) - {sid} + (if sid in Open(tabs) && u.reconnecting then {u.sessionId} else {})
  {
    if tabs != [] {
      var m := Mapped(tabs, sid, update);
      assert m[1..] == Mapped(tabs[1..], sid, update);
      MappedBusy(tabs[1..], sid, update, t, u);
      FlagsOpen(tabs[1..]);
    }
  }

  lemma MappedFlags(tabs: seq<Tab>, sid: Id, update: Tab -> Tab, t: Tab, u: Tab)
    requires OnlyTab(tabs, sid, t) && update(t) == u
    requires u.sessionId == sid || u.sessionId !in Open(tabs)
    ensures var m, here := Mapped(tabs, sid, update), sid in Open(tabs);
            && Open(m) == Open(tabs) - {sid} + (if here then {u.sessionId} else {})
            && Lost(m) == Lost(tabs) - {sid} + (if here && u.disconnected then {u.sessionId} else {})
            && Busy(m) == Busy(tabs) - {sid} + (if here && u.reconnecting then {u.sessionId} else {})
            && (m == [] <==> tabs == [])
  {
    MappedOpen(tabs, sid, update, t, u);
    MappedLost(tabs, sid, update, t, u);
    MappedBusy(tabs, sid, update, t, u);
    MappedAt(tabs, sid, update);
  }

  /** Updating the tab of an open session: the others keep their flags, it takes the update's. */
  lemma MappedSets(tabs: seq<Tab>, sid: Id, update: Tab -> Tab)
    requires Distinct(tabs) && KeepsId(update) && Lookup(tabs, sid).Some?
    ensures var m, u := Mapped(tabs, sid, update), update(Lookup(tabs, sid).value);
            && Distinct(m) && Open(m) == Open(tabs)
            && Lost(m) == Lost(tabs) - {sid} + (if u.disconnected then {sid} else {})
            && Busy(m) == Busy(tabs) - {sid} + (if u.reconnecting then {sid} else {})
            && (m == [] <==> tabs == [])
  {
    var t := Lookup(tabs, sid).value;
    LookupOpen(tabs, sid);
    DistinctOnly(tabs, t);
    MappedFlags(tabs, sid, update, t, update(t));
    MappedAt(tabs, sid, update);
  }

  lemma RenamedSets(tabs: seq<Tab>, oldId: Id, r: OpenResult)
    requires Distinct(tabs) && Lookup(tabs, oldId).Some? && r.sessionId !in Open(tabs)
    ensures var m := Mapped(tabs, oldId, Reconnected(r));
            && Distinct(m) && Open(m) == Open(tabs) - {oldId} + {r.sessionId}
            && Lost(m) == Lost(tabs) - {oldId} && Busy(m) == Busy(tabs) - {oldId} && m != []
  {
    var t := Lookup(tabs, oldId).value;
    LookupOpen(tabs, oldId);
    LookupOpen(tabs, r.sessionId);
    DistinctOnly(tabs, t);
    MappedFlags(tabs, oldId, Reconnected(r), t, Reconnected(r)(t));
    MappedAt(tabs, oldId, Reconnected(r));
  }

  lemma {:induction false} UnmappedSame(tabs: seq<Tab>, sid: Id, update: Tab -> Tab)
    requires Lookup(tabs, sid).None?
    ensures Mapped(tabs, sid, update) == tabs
  {
    if tabs != [] { UnmappedSame(tabs[1..], sid, update); }
  }

  lemma DistinctCons(h: Tab, rest: seq<Tab>)
    ensures Distinct([h] + rest) <==> Distinct(rest) && Lookup(rest, h.sessionId).None?
  {
    var s := [h] + rest;
    if Distinct(s) {
      forall i, j | 0 <= i < j < |rest| ensures rest[i].sessionId != rest[j].sessionId {
        assert s[i + 1] == rest[i] && s[j + 1] == rest[j];
      }
      forall j | 0 <= j < |rest| ensures rest[j].sessionId != h.sessionId {
        assert s[0].sessionId != s[j + 1].sessionId;
      }
    }
  }

  lemma WithoutSets(tabs: seq<Tab>, sid: Id)
    requires Distinct(tabs)
    ensures var w := Without(tabs, sid);
            && Distinct(w) && Open(w) == Open(tabs) - {sid}
            && Lost(w) == Lost(tabs) - {sid} && Busy(w) == Busy(tabs) - {sid}
  {
    WithoutFlags(tabs, sid);
    WithoutDistinct(tabs, sid);
  }

  lemma {:induction false} WithoutFlags(tabs: seq<Tab>, sid: Id)
    ensures var w := Without(tabs, sid);
            Open(w) == Open(tabs) - {sid} && Lost(w) == Lost(tabs) - {sid} && Busy(w) == Busy(tabs) - {sid}
  {
    if tabs != [] {
      var rest := Without(tabs[1..], sid);
      WithoutFlags(tabs[1..], sid);
      if tabs[0].sessionId != sid {
        assert Without(tabs, sid) == [tabs[0]] + rest;
        assert ([tabs[0]] + rest)[1..] == rest;
      } else {
        assert Without(tabs, sid) == rest;
      }
    }
  }

  lemma {:induction false} WithoutDistinct(tabs: seq<Tab>, sid: Id)
    requires Distinct(tabs)
    ensures Distinct(Without(tabs, sid))
  {
    if tabs != [] {
      var rest := Without(tabs[1..], sid);
      assert tabs == [tabs[0]] + tabs[1..];
      DistinctCons(tabs[0], tabs[1..]);
      WithoutDistinct(tabs[1..], sid);
      WithoutFlags(tabs[1..], sid);
      LookupOpen(tabs[1..], tabs[0].sessionId);
      LookupOpen(rest, tabs[0].sessionId);
      DistinctCons(tabs[0], rest);
    }
  }

  lemma {:induction false} AppendedFlags(tabs: seq<Tab>, t: Tab)
    ensures Open(tabs + [t]) == Open(tabs) + {t.sessionId}
    ensures Lost(tabs + [t]) == Lost(tabs) + (if t.disconnected then {t.sessionId} else {})
    ensures Busy(tabs + [t]) == Busy(tabs) + (if t.reconnecting then {t.sessionId} else {})
  {
    if tabs == [] {
      assert tabs + [t] == [t];
    } else {
      AppendedFlags(tabs[1..], t);
      assert (tabs + [t])[1..] == tabs[1..] + [t];
    }
  }

  lemma {:induction false} WithoutAbsent(tabs: seq<Tab>, sid: Id)
    requires Lookup(tabs, sid).None?
    ensures Without(tabs, sid) == tabs
  {
    if tabs != [] { WithoutAbsent(tabs[1..], sid); }
  }

  // ---------------------------------------------------------------- the invariant

  /** Tabs have distinct sessions, and the active one is a tab exactly when there is a tab. */
  ghost predicate Tidy(tabs: seq<Tab>, active: Option<Id>) {
    && Distinct(tabs)
    && (active.None? <==> tabs == [])
    && (active.Some? ==> active.value in Open(tabs))
  }

  /** Calls in flight are filed under keys that have been handed out. */
  ghost predicate Filed(loops: map<nat, Loop>, jobs: map<nat, Job>, closes: map<nat, Id>, next: nat) {
    && (forall l :: l in loops ==> l < next)
    && (forall k :: k in jobs ==> k < next)
    && (forall k :: k in closes ==> k < next)
  }

  ghost function LoopSessions(loops: map<nat, Loop>): set<Id> {
    set l | l in loops :: loops[l].sid
  }

  ghost function JobSessions(jobs: map<nat, Job>): set<Id> {
    set k | k in jobs :: jobs[k].sid
  }

  /** A job that has yet to reconnect its tab. */
  predicate Unsettled(j: Job) {
    j.phase == AwaitReconnect || j.phase == AwaitOpen
  }

  /** Sessions with a reconnect in flight. */
  ghost function InFlight(jobs: map<nat, Job>): set<Id> {
    set k | k in jobs && Unsettled(jobs[k]) :: jobs[k].sid
  }

  /** Sessions being closed. */
  function Closing(closes: map<nat, Id>): set<Id> {
    closes.Values
  }

  /** Every id in use has been recorded as seen. */
  ghost predicate Recorded(s: State) {
    && Open(s.tabs) <= s.known
    && LoopSessions(s.loops) <= s.known && JobSessions(s.jobs) <= s.known && Closing(s.closes) <= s.known
    && (forall sid :: sid in s.starts ==> sid in s.known)
    && s.obtained <= s.known && s.closeSent <= s.known && s.reconnectSent <= s.known
    && (forall sid :: sid in s.known ==> sid != "" && ColonFree(sid))
  }

  /** At most one loop is ever started per id, and running loops were started. */
  ghost predicate LoopsUnique(loops: map<nat, Loop>, starts: multiset<Id>) {
    && (forall l, m :: l in loops && m in loops && loops[l].sid == loops[m].sid ==> l == m)
    && (forall sid :: starts[sid] <= 1)
    && (forall l :: l in loops ==> loops[l].sid in starts)
  }

  /** An open tab whose loop was started is disconnected, and in the loop set unless it is being closed. */
  ghost predicate LoopsKept(starts: multiset<Id>, open: set<Id>, lost: set<Id>, closing: set<Id>, loopSet: set<Id>) {
    forall sid :: sid in starts && sid in open ==> sid in lost && (sid in loopSet || sid in closing)
  }

  ghost predicate AwaitedBy(jobs: map<nat, Job>, k: nat, l: nat) {
    k in jobs && jobs[k].loop == Some(l)
  }

  /** Loops and the reconnects they await belong together one to one. */
  ghost predicate LoopsAwait(loops: map<nat, Loop>, jobs: map<nat, Job>) {
    && (forall l :: l in loops && loops[l].phase == Attempting ==> exists k :: AwaitedBy(jobs, k, l))
    && (forall k, l :: AwaitedBy(jobs, k, l) ==>
          l in loops && loops[l].phase == Attempting && loops[l].sid == jobs[k].sid
          && jobs[k].phase != AwaitPlaceholder)
    && (forall j, k, l :: AwaitedBy(jobs, j, l) && AwaitedBy(jobs, k, l) ==> j == k)
  }

  /** What waits only to be forgotten has lost its tab. */
  ghost predicate JobsGone(jobs: map<nat, Job>, open: set<Id>) {
    forall k :: k in jobs && jobs[k].phase == AwaitOrphanClose ==> jobs[k].sid !in open
  }

  ghost predicate LoopsGone(loops: map<nat, Loop>, open: set<Id>) {
    forall l :: l in loops && loops[l].phase == Settled(true) ==> loops[l].sid !in open
  }

  /** Placeholders stand for ids the client made; every other job has sent its id to the backend. */
  ghost predicate JobsSent(jobs: map<nat, Job>, obtained: set<Id>, reconnectSent: set<Id>) {
    forall k :: k in jobs ==>
      if jobs[k].phase == AwaitPlaceholder then jobs[k].sid !in obtained else jobs[k].sid in reconnectSent
  }

  /** Every editor belongs to an open session. */
  ghost predicate EditorsHoused(ui: Ed.Editors, open: set<Id>) {
    Ed.Valid(ui) && forall t :: t in ui.tabs ==> t.sessionId in open
  }

  /** The stores agree with each other and with the calls in flight. */
  ghost predicate StoresInv(s: State) {
    && Tidy(s.tabs, s.active)
    && Filed(s.loops, s.jobs, s.closes, s.next)
    && Recorded(s)
    && Busy(s.tabs) <= InFlight(s.jobs)                               // no tab is stuck reconnecting
    && s.obtained <= Open(s.tabs) + s.closeSent + s.reconnectSent      // no session is leaked
    && JobsSent(s.jobs, s.obtained, s.reconnectSent)
    && Closing(s.closes) <= s.closeSent
    && EditorsHoused(s.ui, Open(s.tabs))
  }

  /** Auto-reconnect loops run for the tabs that need them, and for each at most once. */
  ghost predicate LoopsInv(s: State) {
    && LoopsUnique(s.loops, s.starts)
    && s.loopSet <= Open(s.tabs) * LoopSessions(s.loops)
    && LoopsKept(s.starts, Open(s.tabs), Lost(s.tabs), Closing(s.closes), s.loopSet)
    && LoopsAwait(s.loops, s.jobs)
    && JobsGone(s.jobs, Open(s.tabs)) && LoopsGone(s.loops, Open(s.tabs))
  }

  ghost predicate Inv(s: State) {
    StoresInv(s) && LoopsInv(s)
  }
}
