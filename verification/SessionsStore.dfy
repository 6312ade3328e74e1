/**
 * The sessions store as the program holds it. Async functions are split where they await: what
 * follows an await is a method of its own, run when the call it waited for settles.
 */
module SessionsState {
  import opened Prelude
  import opened Sessions
  import Ed = EditorTabs
  import Bu = Buffers
  import opened UiState
  import opened TerminalOutput

  class SessionsStore {
    const ui: UiStore
    const bufs: TerminalBuffers<Chunk>

    var tabs: seq<Tab>
    var activeSessionId: Option<Id>
    var openError: Option<string>
    var autoReconnectLoops: set<Id>

    // Suspended calls, which the program leaves to the runtime.
    var loops: map<nat, Loop>
    var jobs: map<nat, Job>
    var closes: map<nat, Id>
    var next: nat

    // What has passed by; the program keeps no record of it.
    ghost var known: set<Id>
    ghost var obtained: set<Id>
    ghost var closeSent: set<Id>
    ghost var reconnectSent: set<Id>
    ghost var starts: multiset<Id>

    ghost predicate Valid()
      reads this, bufs, bufs.Repr
    {
      bufs.Valid() && {this as object, ui} !! bufs.Repr
    }

    ghost function Footprint(): set<object>
      reads bufs
    {
      {this, ui} + bufs.Repr
    }

    /** The machine state the methods are specified on. */
    ghost function View(): State
      reads this, ui, bufs, bufs.pending, bufs.history, bufs.carryover
    {
      State(tabs, activeSessionId, openError, autoReconnectLoops, ui.View(), bufs.View(), loops, jobs, closes, next,
            known, obtained, closeSent, reconnectSent, starts)
    }

    constructor ()
      ensures Valid() && fresh(Footprint()) && View() == Initial()
    {
      ui := new UiStore();
      bufs := new TerminalBuffers();
      tabs, activeSessionId, openError, autoReconnectLoops := [], None, None, {};
      loops, jobs, closes, next := map[], map[], map[], 0;
      known, obtained, closeSent, reconnectSent, starts := {}, {}, {}, {}, multiset{};
    }

    /** A new tab list, with the focus on one of its sessions. */
    method ShowTabs(newTabs: seq<Tab>, sid: Id)
      modifies this`tabs, this`activeSessionId, this`openError
      ensures View() == old(View()).(tabs := newTabs, active := Some(sid), openError := None)
    {
      tabs, activeSessionId, openError := newTabs, Some(sid), None;
    }

    method AddTab(result: OpenResult)
      modifies this
      ensures View() == Sessions.AddTab(old(View()), result)
    {
      if result.sessionId == "" || result.terminalChannelId == "" {
        openError := Some(INCOMPLETE_RESULT);
        return;
      }
      var name := if result.name == "" then "session" else result.name;
      var tab := Tab(result.sessionId, result.connectionId, result.terminalChannelId, name,
                     false, false, false, None, false);
      ShowTabs(Without(tabs, tab.sessionId) + [tab], tab.sessionId);
      known, obtained := known + {tab.sessionId}, obtained + {tab.sessionId};
    }

    method SetActive(sid: Id)
      modifies this
      ensures View() == old(View()).(active := Some(sid))
    {
      activeSessionId := Some(sid);
    }

    method ToggleSync(sid: Id)
      modifies this
      ensures View() == old(View()).(tabs := Mapped(old(tabs), sid, ToggleSynced()))
    {
      tabs := Mapped(tabs, sid, ToggleSynced());
    }

    /** Shows a tab before its session is open, and asks for the session. */
    method ShowPlaceholder(id: Id, connectionId: Id, name: string)
      modifies this
      ensures View() == OpenPlaceholder(old(View()), id, connectionId, name)
    {
      var tab := Tab(id, connectionId, id, name, true, false, false, None, false);
      ShowTabs(tabs + [tab], id);
      jobs, next := jobs[next := Job(id, connectionId, AwaitPlaceholder, None)], next + 1;
      known := known + {id};
    }

    method PlaceholderFailed(k: nat)
      requires Valid() && k in jobs
      modifies Footprint()
      ensures Valid() && fresh(Footprint() - old(Footprint()))
      ensures View() == FailPlaceholder(old(View()), k)
    {
      RemoveTabLocal(jobs[k].sid);
      EndJob(k, false);
    }

    /** Takes the session out of the loop set and drops what belongs to it in the other stores. */
    method Release(sid: Id)
      requires Valid()
      modifies this`autoReconnectLoops, ui, bufs.Repr
      ensures Valid() && bufs.Repr == old(bufs.Repr)
      ensures View() == old(View()).(loopSet := old(View()).loopSet - {sid}, bufs := Bu.Clear(old(View()).bufs, sid),
                                     ui := Ed.CloseForSession(old(View()).ui, sid))
    {
      autoReconnectLoops := autoReconnectLoops - {sid};
      bufs.ClearTerminalBuffers(sid);
      ui.CloseEditorForSession(sid);
    }

    /** closeTab up to its await. */
    method CloseTabBegin(sid: Id)
      requires Valid()
      modifies Footprint()
      ensures Valid() && fresh(Footprint() - old(Footprint()))
      ensures View() == BeginClose(old(View()), sid)
    {
      Release(sid);
      closes := closes[next := sid];
      next := next + 1;
      closeSent := closeSent + {sid};
    }

    /** closeTab after its await, whether the backend answered or threw. */
    method CloseTabEnd(k: nat)
      requires Valid() && k in closes
      modifies Footprint()
      ensures Valid() && fresh(Footprint() - old(Footprint()))
      ensures View() == EndClose(old(View()), k)
    {
      RemoveTabLocal(closes[k]);
      closes := closes - {k};
    }

    method RemoveTabLocal(sid: Id)
      requires Valid()
      modifies Footprint()
      ensures Valid() && fresh(Footprint() - old(Footprint()))
      ensures View() == Sessions.RemoveTabLocal(old(View()), sid)
    {
      Release(sid);
      tabs := Without(tabs, sid);
      if activeSessionId == Some(sid) {
        activeSessionId := if |tabs| > 0 then Some(tabs[|tabs| - 1].sessionId) else None;
      }
    }

    method MarkDisconnected(sid: Id, reason: Option<string>, autoReconnect: bool)
      modifies this
      ensures View() == Sessions.MarkDisconnected(old(View()), sid, reason, autoReconnect)
    {
      var tab := Lookup(tabs, sid);
      if tab.None? { return; }
      if tab.value.disconnected {
        if reason.Some? && reason.value != "" {
          tabs := Mapped(tabs, sid, MarkReason(reason.value));
        }
        return;
      }
      tabs := Mapped(tabs, sid, MarkLost(reason));
      if autoReconnect {
        RunAutoReconnect(sid);
      }
    }

    /** runAutoReconnect up to its first sleep. */
    method RunAutoReconnect(sid: Id)
      modifies this
      ensures View() == StartLoop(old(View()), sid)
    {
      if sid in autoReconnectLoops { return; }
      autoReconnectLoops := autoReconnectLoops + {sid};
      var delayMs := FIRST_DELAY;
      loops := loops[next := Loop(sid, delayMs, Sleeping, 0, delayMs, 0)];
      next := next + 1;
      starts := starts + multiset{sid};
    }

    /** Lets the other stores follow a session to its new id. */
    method RenameElsewhere(oldId: Id, newId: Id)
      requires Valid()
      modifies ui, bufs.Repr
      ensures Valid() && fresh(bufs.Repr - old(bufs.Repr))
      ensures View() == old(View()).(ui := Ed.Rebind(old(View()).ui, oldId, newId),
                                     bufs := Bu.Stash(old(View()).bufs, oldId, newId))
    {
      ui.RebindEditorSession(oldId, newId);
      bufs.StashScrollback(oldId, newId);
    }

    method MarkConnected(oldId: Id, result: OpenResult)
      requires Valid()
      modifies Footprint()
      ensures Valid() && fresh(Footprint() - old(Footprint()))
      ensures View() == Sessions.MarkConnected(old(View()), oldId, result)
    {
      var nextId := result.sessionId;
      if nextId != oldId {
        RenameElsewhere(oldId, nextId);
      }
      ReplaceTab(oldId, result);
      autoReconnectLoops := autoReconnectLoops - {oldId};
    }

    /** The tab comes up with its new session, in its old place. */
    method ReplaceTab(oldId: Id, result: OpenResult)
      modifies this`tabs, this`activeSessionId, this`openError
      ensures View() == old(View()).(tabs := Mapped(old(tabs), oldId, Reconnected(result)), openError := None,
                                     active := if old(activeSessionId) == Some(oldId) then Some(result.sessionId)
                                               else old(activeSessionId))
    {
      tabs := Mapped(tabs, oldId, Reconnected(result));
      if activeSessionId == Some(oldId) {
        activeSessionId := Some(result.sessionId);
      }
      openError := None;
    }

    /** reconnectTab up to its first await, as the user calls it. */
    method ReconnectTab(sid: Id)
      modifies this
      ensures View() == RequestReconnect(old(View()), sid)
    {
      var tab := Lookup(tabs, sid);
      if tab.None? { return; }
      if tab.value.reconnecting { return; }
      SendReconnect(tab.value, None);
    }

    method SendReconnect(tab: Tab, loop: Option<nat>)
      modifies this
      ensures View() == BeginReconnect(old(View()), tab, loop)
    {
      tabs := Mapped(tabs, tab.sessionId, MarkReconnecting());
      jobs := jobs[next := Job(tab.sessionId, tab.connectionId, AwaitReconnect, loop)];
      next := next + 1;
      reconnectSent := reconnectSent + {tab.sessionId};
    }

    /** The reconnect command was rejected: the inner catch opens by connection. */
    method ReconnectRejected(k: nat)
      requires k in jobs
      modifies this
      ensures View() == FallBackToOpen(old(View()), k)
    {
      jobs := jobs[k := jobs[k].(phase := AwaitOpen)];
    }

    /** The backend returned a session. */
    method SessionArrived(k: nat, result: OpenResult)
      requires Valid() && k in jobs
      modifies Footprint()
      ensures Valid() && fresh(Footprint() - old(Footprint()))
      ensures View() == SettleOpened(old(View()), k, result)
    {
      if Lookup(tabs, jobs[k].sid).None? {
        CloseOrphan(k, result);
        return;
      }
      Install(k, result);
    }

    /** Takes note of an id the backend returned. */
    ghost method Obtain(id: Id)
      modifies this`known, this`obtained
      ensures View() == old(View()).(known := old(known) + {id}, obtained := old(obtained) + {id})
    {
      known, obtained := known + {id}, obtained + {id};
    }

    /** The tab is still there: the session takes it over, and the call is over. */
    method Install(k: nat, result: OpenResult)
      requires Valid() && k in jobs && Lookup(tabs, jobs[k].sid).Some?
      modifies Footprint()
      ensures Valid() && fresh(Footprint() - old(Footprint()))
      ensures View() == SettleOpened(old(View()), k, result)
    {
      Obtain(result.sessionId);
      MarkConnected(jobs[k].sid, result);
      EndJob(k, true);
    }

    /** The tab has gone: the session is closed again, which a reconnect awaits. */
    method CloseOrphan(k: nat, result: OpenResult)
      requires k in jobs && Lookup(tabs, jobs[k].sid).None?
      modifies this`known, this`obtained, this`closeSent, this`jobs, this`loops
      ensures View() == SettleOpened(old(View()), k, result)
    {
      Obtain(result.sessionId);
      closeSent := closeSent + {result.sessionId};
      if jobs[k].phase == AwaitPlaceholder {
        EndJob(k, true);
      } else {
        jobs := jobs[k := jobs[k].(phase := AwaitOrphanClose)];
      }
    }

    /** The outer catch of reconnectTab. */
    method ReconnectFailed(k: nat, message: string)
      requires k in jobs
      modifies this
      ensures View() == SettleFailed(old(View()), k, message)
    {
      tabs := Mapped(tabs, jobs[k].sid, MarkFailed(message));
      EndJob(k, false);
    }

    /** A call returns or throws; the loop awaiting it is due to resume. */
    method EndJob(k: nat, ok: bool)
      requires k in jobs
      modifies this`jobs, this`loops
      ensures View() == FinishJob(old(View()), k, ok)
    {
      var j := jobs[k];
      jobs := jobs - {k};
      if j.loop.Some? && j.loop.value in loops {
        loops := loops[j.loop.value := loops[j.loop.value].(phase := Settled(ok))];
      }
    }

    /** A loop's sleep is over. */
    method LoopWakes(l: nat)
      requires l in loops
      modifies this
      ensures View() == WakeLoop(old(View()), l)
    {
      var p := loops[l];
      var tab := Lookup(tabs, p.sid);
      if tab.None? || !tab.value.disconnected {
        EndLoop(l);
        return;
      }
      if tab.value.reconnecting {
        SleepAgain(l, p.(skipped := p.skipped + p.delayMs));
        return;
      }
      loops := loops[l := p.(phase := Attempting, attempts := p.attempts + 1)];
      SendReconnect(tab.value, Some(l));
    }

    /** A loop's attempt has settled. */
    method LoopResumes(l: nat)
      requires l in loops && loops[l].phase.Settled?
      modifies this
      ensures View() == ResumeLoop(old(View()), l)
    {
      var p := loops[l];
      if p.phase.ok {
        EndLoop(l);
        return;
      }
      SleepAgain(l, p.(delayMs := NextDelay(p.delayMs)));
    }

    /** The loop's condition: on with the next sleep, or out. */
    method SleepAgain(l: nat, p: Loop)
      requires l in loops
      modifies this
      ensures View() == ContinueLoop(old(View()), l, p)
    {
      if p.sid in autoReconnectLoops {
        loops := loops[l := p.(phase := Sleeping, slept := p.slept + p.delayMs)];
      } else {
        EndLoop(l);
      }
    }

    /** The loop's `finally`. */
    method EndLoop(l: nat)
      requires l in loops
      modifies this
      ensures View() == FinishLoop(old(View()), l)
    {
      autoReconnectLoops := autoReconnectLoops - {loops[l].sid};
      loops := loops - {l};
    }
  }
}
