# Terminal client stores, verified

A Dafny model of the state layer of a desktop SSH client: the sessions store with its manual and
automatic reconnects, the terminal output buffers, the editor tabs of the UI store, the text codec,
the quick-connect parser and the debounced layout saver. The proofs say what these keep through every
interleaving of what can happen to them, and how the three stores stay in step.

## How it is laid out

- `EditorTabs`, `EditorTheorems`, `UiStore`: the editor actions as functions, their theorems, and the
  store as an object whose methods are proved against the functions. `EditorReach` says what each action
  changes, field by field. `Shell` is the sweep that drops orphan editors.
- `Buffers`, `BufferTheorems`, `TerminalBuffers`: the buffer operations as functions over queues of an
  arbitrary chunk type, their theorems over whole runs measured against the unbounded stream of chunks
  each session has received, and the maps of growable arrays the program holds, with ownership.
- `Sessions`: the session lifecycle as a step machine. A step is one stretch of code without an await,
  and each suspended call is a record in a map of calls in flight: reconnects and opens (`jobs`), closes
  (`closes`), auto-reconnect loops (`loops`). The placeholder tabs of the session list are part of it,
  and so is the microtask between the end of an attempt and the resumption of the loop awaiting it.
  `SessionsStore` is the store as an object; each of its methods is one step or part of one.
- `SessionInvariant` and `SessionSteps`: the invariant and the proof that it is inductive.
  `SessionTheorems`, `SessionDiscipline`, `SessionLoops`, `SessionRenaming`: what follows for runs.
  `SessionConservation`: where every session ends up. `SessionOverlap`: exactly when two reconnects of one
  tab overlap. `SessionScrollback`: exactly when scrollback is left behind. `SessionIdentity`: which
  connection tabs and calls stay of. `SessionReach`: what each step changes, field by field.
  `SessionActions`: what repeating an action adds.
- `SessionExecution`: every enabled step of the machine, and every run of it, carried out by the methods of
  the stores.
- `Utf`, `Base64` and `Codec`, `QuickConnect`, `Layout`: the smaller cores.

Every store's actions are written twice: as a function on a value and as a method on the fields the
program updates. The method's postcondition is that its new `View()` is the function of the old one.
`SessionExecution.Perform`, `TerminalOutput.Perform` and `Layout.LayoutPersistence.Perform` dispatch
every step of their machine to these methods, so theorems about runs are theorems about the stores.

## What is assumed of the environment

Session ids returned by the backend, and ids the client makes for placeholder tabs, are new, non-empty
and free of colons, as UUIDs are. `closeTab` is asked for ids that have named a session, `setActive` for
an open tab, and a file is opened only for an open session. Events and answers come in any order, at any
time, or never.

## What the code does not promise

- A reconnect requested for a connected tab can leave it disconnected with nothing left to reconnect it,
  although auto-reconnect is on. A run is given; `AlwaysAttendedIff` says exactly which steps leave a tab
  unattended in any run.
- It can also put two reconnects of one tab in flight: a disconnect that hits a connected tab marked as
  reconnecting clears the mark, and the next request, or the tab's loop, sends a second. A run is given;
  `NeverOverlapsIff` says exactly which steps send the second one, and `AlwaysShownIff` that a run keeps to one
  reconnect per tab, shown by its mark, exactly when no disconnect hits such a tab.
- Runs in which a reconnect is requested only for a disconnected tab, which is when the interface shows the
  button, have neither of these two problems. They can have the next two.
- A second reconnect before the scrollback handed over by the first was taken leaves that scrollback behind.
  A run is given, `SecondReconnectStrands`, in which reconnects are requested for disconnected tabs only;
  `NeverStrandedIff` says that nothing else leaves any behind.
- The scrollback handed over by a reconnect repeats chunks exactly when output was still pending
  (`CarriedRepeatsIff`). The first reconnect of the same run hands over the one chunk received twice.
- Rebinding editors to an id under which the same file is already open merges two tabs into one id
  (`RebindMerges`, `RebindValidIff`). No caller does so: the ids that sessions are renamed to are fresh.
- Overlapping saves of the layout can leave the settings on a layout that is no longer shown: when a later one
  fails, when an earlier one is answered last, and even when all are answered in order. The three runs are
  given. `AlwaysAgreesIff` says which answers make a run lose agreement, and `BoundToAgreeIff` which states end
  in agreement however, and in whatever order, the saves in flight turn out.

## Model

The first 48 rows, down to `Layout.BoundToAgreeIff`, are the main results. The rest follow module by module:
the steps they rest on, the runs that show what fails, and the methods of the stores.

| member | source | states |
|---|---|---|
| `SessionSteps.StepKeepsInv` | src/stores/sessions.ts:67-303 | every await-free stretch of the store, in any interleaving, keeps distinct tabs, a valid active tab, housed editors, accounted-for sessions, and loops matched one to one with the reconnects they await |
| `SessionTheorems.EveryStateInv` | src/stores/sessions.ts:67-303 | the whole invariant in every state of every run from the empty stores |
| `SessionConservation.NoSessionLeaked` | src/stores/sessions.ts:214-237 | every id the backend handed out is open in exactly one tab, or was passed to the close command, or was passed to the reconnect command and replaced in its own tab by the session that arrived for it, and then has no tab |
| `SessionTheorems.SettledExactlyOnce` | src/stores/sessions.ts:214-237 | an arriving session is installed exactly when its tab is still there and sent back to be closed exactly when not, even with several reconnects of one tab in flight |
| `SessionTheorems.NoTabStuck` | src/stores/sessions.ts:203-254 | in every reachable state a tab marked reconnecting has a reconnect in flight under its present id |
| `SessionTheorems.EditorsAlwaysHoused` | src/stores/sessions.ts:103-128 | after every step of any run each editor belongs to an open tab, and the active tab exists exactly when there is a tab |
| `SessionTheorems.LiveLoopIff` | src/stores/sessions.ts:134-167 | a disconnected tab not being closed has a live loop exactly when one was started for it |
| `SessionTheorems.AlwaysAttendedIff` | src/stores/sessions.ts:134-254 | a run attends to every disconnected tab throughout if and only if it contains none of those steps |
| `SessionDiscipline.NoTabAbandoned` | src/stores/sessions.ts:134-303 | then, with auto-reconnect on, every disconnected tab not being closed has a live loop in every reachable state |
| `SessionDiscipline.OneReconnectPerTab` | src/stores/sessions.ts:203-254 | then a tab is marked reconnecting exactly while a reconnect of it is in flight, and at most one is |
| `SessionOverlap.NeverOverlapsIff` | src/stores/sessions.ts:151-219 | a run keeps to one reconnect per tab throughout if and only if it contains no such step |
| `SessionOverlap.AlwaysShownIff` | src/stores/sessions.ts:134-254 | a run shows every reconnect of an open tab, one at most per tab, throughout if and only if no disconnect in it hits a connected, marked tab |
| `SessionLoops.OneLoopPerSession` | src/stores/sessions.ts:275-303 | over any run at most one loop is started per id, every id in the shared set has a live loop, and no two loops share an id |
| `SessionLoops.NoAttemptWithoutTab` | src/stores/sessions.ts:284-291 | once its tab is removed or renamed, a loop makes no further attempt, however long it lives |
| `SessionLoops.EndsWithoutTab` | src/stores/sessions.ts:284-302 | and it ends for good the next time it wakes or its attempt settles |
| `SessionLoops.LoopsSleepByBackoff` | src/stores/sessions.ts:282-299 | in every run each loop's delay is the one its number of attempts determines, and its sleeps sum to the closed total plus those of skipped wakes |
| `SessionRenaming.TabsRenamed` | src/stores/sessions.ts:169-201 | a successful reconnect keeps order, count and sync flags of all tabs, leaves the others as they were, and renames the active selection |
| `SessionRenaming.EditorsRenamed` | src/stores/ui.ts:183-199 | it keeps order, paths, names and dirty flags of all editors and which one is active, and renaming back restores the store |
| `SessionRenaming.ScrollbackFollows` | src/stores/sessions.ts:171-176 | in every run a reconnect hands the new session exactly what the old one retained, overwrites nothing waiting for another, and leaves output already received under the new id |
| `SessionScrollback.NeverStrandedIff` | src/stores/sessions.ts:171-176 | a run leaves none behind if and only if it contains no such step |
| `SessionExecution.Execute` | src/stores/sessions.ts:67-303 | stores made new go through any run of the machine and end in its last state |
| `SessionIdentity.TabIdentityFixed` | src/stores/sessions.ts:134-262 | in any run, for as long as a session has a tab, the tab shows the same connection, channel and name |
| `SessionIdentity.EveryCallMatches` | src/stores/sessions.ts:203-222 | in every state of every run, whatever is being reconnected or opened for a tab, also after a rejected reconnect, is the connection the tab shows |
| `BufferTheorems.EveryRunAgrees` | src/lib/events.ts:49-145 | after any run history is the last min(n, 800) chunks, pending a suffix of the stream of at most 800, every chunk of the window is consumed or pending, and chunks are conserved |
| `BufferTheorems.DeliveredAtMostTwice` | src/lib/events.ts:91-122 | over any run no chunk is returned by consume more than twice |
| `BufferTheorems.RefinesFifo` | src/lib/events.ts:52-96 | with no backlog over 800 and no feed, what was consumed followed by what is pending is the whole stream, in order, once |
| `BufferTheorems.LostIff` | src/lib/events.ts:52-57 | an operation loses a chunk if and only if it is an output into a full backlog whose unconsumed head is that chunk |
| `BufferTheorems.CarriedRepeatsIff` | src/lib/events.ts:134-145 | it repeats no chunk exactly when nothing was pending |
| `TerminalOutput.HandedOutStaysPut` | src/lib/events.ts:91-154 | the arrays returned by consume, replay and take are three different ones and hold their chunks through any run of operations afterwards |
| `EditorTheorems.EveryRunValid` | src/stores/ui.ts:100-211 | any run of editor actions keeps ids derived and unique and the active id null exactly when there is no tab |
| `EditorTheorems.RebindValidIff` | src/stores/ui.ts:183-199 | rebinding keeps the store valid if and only if no file is open under both sessions |
| `EditorTheorems.RunCommutes` | src/stores/ui.ts:100-211 | a reconnect can be moved across any number of editor actions |
| `EditorTheorems.UnsavedStays` | src/stores/ui.ts:137-156 | over any run without those, a tab with unsaved changes stays as it is |
| `EditorReach.MarkedRefusesClose` | src/stores/ui.ts:137-211 | a tab marked as unsaved refuses an unconfirmed close after any run of actions that do not discard its changes |
| `EditorTabs.DerivedIdsMeetIff` | src/stores/ui.ts:19-21 | two sessions can share a derived id exactly when they are equal or one extends the other by a colon or a double colon |
| `Shell.SweepOrphans` | src/app/Shell.tsx:36-47 | from any state at all the loop removes exactly the orphan editors and keeps the rest in order, in whatever order the sessions come; from a valid one it keeps the focus where it can stay and the store valid |
| `Codec.Transport` | src/lib/events.ts:178-194 | decoding what was encoded gives the UTF-8 encoding of every string |
| `Codec.TextSurvivesIff` | src/lib/events.ts:178-194 | text always arrives as valid UTF-8, and unchanged exactly when it holds no lone surrogate |
| `QuickConnect.ParseOfPrint` | src/lib/quickConnect.ts:2-23 | parsing inverts printing for every trimmed user and host and every port from 1, with '@' in the user and ':' in the host |
| `QuickConnect.ParsedIsPrintable` | src/lib/quickConnect.ts:2-23 | every accepted target, printed and parsed again, is itself |
| `QuickConnect.RejectedIff` | src/lib/quickConnect.ts:5-21 | a target is rejected exactly when a blank host, perhaps with a port, is all that follows its last '@' |
| `QuickConnect.HostAlone` | src/lib/quickConnect.ts:7-22 | a host alone is for user root at port 22 |
| `QuickConnect.HostWithPort` | src/lib/quickConnect.ts:7-22 | a host with a port is for user root |
| `QuickConnect.UserWithHost` | src/lib/quickConnect.ts:7-22 | a user with a host is at port 22, and an empty user is root |
| `Layout.EveryStateOneTimer` | src/lib/layoutPersist.ts:40-49 | in every run, overlapping saves or not, the timers armed in the runtime are exactly the handle's, so one at most, and it carries the latest layout |
| `Layout.AlwaysAgreesIff` | src/lib/layoutPersist.ts:40-95 | a run is in agreement whenever no timer is armed if and only if it contains no such answer |
| `Layout.EveryStateAgrees` | src/lib/layoutPersist.ts:40-95 | so it is in every state of every run whose saves do not overlap, whether they succeed or fail |
| `Layout.BoundToAgreeIff` | src/stores/settings.ts:114-130 | all orders and patterns of answers and failures end in agreement if and only if the settings agree now and every layout still being saved does |
| `SessionConservation.TabLostIff` | src/stores/sessions.ts:103-237 | an open session loses its tab if and only if its close ends, its placeholder's open fails, or a session arrives that takes the tab over |
| `SessionIdentity.CallFixed` | src/stores/sessions.ts:214-222 | for as long as a call is in flight in a run, it is for the same session, connection and loop |
| `SessionIdentity.ReconnectsOwnConnection` | src/stores/sessions.ts:203-222 | a reconnect that a step of a run sends is for the connection its session's tab shows |
| `SessionTheorems.SweepIsIdle` | src/app/Shell.tsx:36-47 | at no point of any run is there an orphan for the sweep to drop |
| `SessionTheorems.UnattendedIff` | src/stores/sessions.ts:134-254 | of all steps exactly a disconnect with auto-reconnect off and the failure of a reconnect of a connected tab leave a tab without a loop |
| `SessionDiscipline.StepKeepsFlights` | src/stores/sessions.ts:203-254 | with reconnects requested only for disconnected tabs, no step puts a second reconnect of an open tab in flight |
| `SessionDiscipline.FailedManualReconnectAbandons` | src/stores/sessions.ts:238-253 | a run in which the reconnect of a connected tab fails and leaves the tab disconnected with no loop |
| `SessionDiscipline.ManualReconnectOverlaps` | src/stores/sessions.ts:151-162 | a run in which a disconnect clears the mark of a reconnect in flight and a second one is sent |
| `SessionOverlap.OverlapIff` | src/stores/sessions.ts:203-219 | a step puts a second reconnect of an open tab in flight if and only if it requests one, or its loop begins one, for an unmarked tab that has one in flight |
| `SessionOverlap.DisconnectClearsIff` | src/stores/sessions.ts:151-162 | a disconnect clears the mark of a reconnect if and only if it hits a connected, marked tab |
| `SessionOverlap.UnmarkedIff` | src/stores/sessions.ts:134-254 | with no overlap yet, no other step of any kind leaves a tab with a reconnect in flight that its mark does not show |
| `SessionLoops.GoneForGood` | src/stores/sessions.ts:116-128 | an id that has lost its tab, by removal or renaming, never names a tab again |
| `SessionLoops.EndedForGood` | src/stores/sessions.ts:300-302 | a loop that has ended stays ended |
| `SessionLoops.BackoffDoubles` | src/stores/sessions.ts:282-298 | doubling with a cap yields min(1000·2^(n-1), 30000) ms before attempt n |
| `SessionLoops.TotalBackoffClosed` | src/stores/sessions.ts:282-298 | all sleeps up to attempt n, for n at least 5, sum to 31000 + 30000·(n-5) ms |
| `SessionRenaming.CarryoverKnown` | src/lib/events.ts:134-145 | scrollback only ever waits under ids that have named a session |
| `SessionScrollback.StrandedIff` | src/stores/sessions.ts:171-176 | a step leaves scrollback under an id without a tab if and only if it replaces a session whose handed-over scrollback is still waiting |
| `SessionScrollback.ChainLosesIff` | src/lib/events.ts:134-154 | of two reconnects in a row the second hands over what the middle session retained, and what the first handed to it is lost exactly if it was still waiting |
| `SessionScrollback.SecondReconnectStrands` | src/stores/sessions.ts:171-176 | a run, with reconnects requested for disconnected tabs only, in which a second reconnect leaves the scrollback of the first behind, and the first had handed over the one pending chunk twice |
| `SessionReach.NewDisconnectReach` | src/stores/sessions.ts:151-166 | a disconnect of a connected tab keeps its session, connection, channel, name and sync flag, clears its mark, takes a given reason over, starts one loop sleeping 1000 ms if it is to, and changes nothing else |
| `SessionReach.RepeatedDisconnectReach` | src/stores/sessions.ts:138-149 | a disconnect of a disconnected tab changes at most its reason, and only to a non-empty one |
| `SessionReach.UnknownDisconnect` | src/stores/sessions.ts:135-136 | a disconnect of a session without a tab changes nothing |
| `SessionReach.RequestReach` | src/stores/sessions.ts:203-218 | a request marks the tab and sends a reconnect for its session and connection, and changes nothing else; for a marked tab it changes nothing at all |
| `SessionReach.UnknownRequest` | src/stores/sessions.ts:204-205 | a request for a session without a tab changes nothing |
| `SessionReach.FallBackReach` | src/stores/sessions.ts:219-222 | after a rejected reconnect the same call goes on to open the connection the tab had when it was sent |
| `SessionReach.FailureReach` | src/stores/sessions.ts:238-253 | a failed reconnect leaves the tab disconnected, unmarked, with the error for a reason whatever it was before, otherwise as it was; the call ends and its loop learns of the failure |
| `SessionReach.OrphanReach` | src/stores/sessions.ts:223-231 | a session that arrives for a tab that has gone touches no store and is sent to be closed |
| `SessionReach.InstallReach` | src/stores/sessions.ts:169-201 | one that arrives for a tab still there clears the open error, takes the old id out of the loop set, and ends the call as a success |
| `SessionReach.AttemptReach` | src/stores/sessions.ts:286-294 | a wake that finds a disconnected, unmarked tab marks it and sends a reconnect for its connection, awaited by the loop |
| `SessionReach.IdleWakeReach` | src/stores/sessions.ts:286-292 | without a tab, or with a connected one, the loop ends and leaves the set; with a marked one it sleeps as long again while it is in the set |
| `SessionReach.ResumeReach` | src/stores/sessions.ts:293-302 | after a success the loop ends; after a failure it sleeps twice as long, at most 30000 ms, while it is in the set |
| `SessionReach.ToggleReach` | src/stores/sessions.ts:256-262 | the flag of the session's tab is flipped and nothing else about any tab |
| `SessionReach.IncompleteReach` | src/stores/sessions.ts:70-81 | an incomplete result sets the open error and nothing else |
| `SessionReach.PlaceholderReach` | src/components/sessions/SessionList.tsx:278-302 | the placeholder comes last, connecting and focused, and its open is in flight for its connection |
| `SessionReach.ClosingReach` | src/stores/sessions.ts:103-109 | before closeTab awaits the backend no editor, output, scrollback or loop entry of the session is left and every other session's is, in order; the tab list and the focus are as they were |
| `SessionReach.RemovalReach` | src/stores/sessions.ts:116-129 | removing a session leaves no trace of it in the three stores, keeps every other tab and editor and the order among them, every other session's buffers, and moves the focus, to the last tab or to none, only if it was here |
| `SessionReach.EndsReach` | src/stores/sessions.ts:110-114 | the end of a close, and the failure of a placeholder's open, are such a removal and the end of their call |
| `SessionActions.CloseUninterrupted` | src/stores/sessions.ts:103-114 | the two clean-ups of closeTab, with nothing in between, come to one removal |
| `SessionActions.DisconnectsMerge` | src/stores/sessions.ts:134-167 | two disconnect events of a session come to one with the later non-empty reason; the second never starts a loop |
| `SessionActions.ReconnectRequestsMerge` | src/stores/sessions.ts:203-212 | a second reconnect request while the tab is marked changes and sends nothing |
| `SessionReach.AddingReach` | src/stores/sessions.ts:70-99 | a new session's tab comes last, connected, of the result's ids and name, and takes the focus; nothing else changes |
| `SessionActions.SyncToggledTwice` | src/stores/sessions.ts:256-262 | toggling the sync flag twice undoes it |
| `SessionsState.SessionsStore.constructor` | src/stores/sessions.ts:63-67 | a new store is the initial state of the machine |
| `SessionsState.SessionsStore.AddTab` | src/stores/sessions.ts:70-99 | the method's new state is the machine's, for complete and incomplete results |
| `SessionsState.SessionsStore.SetActive` | src/stores/sessions.ts:101 | only the active selection changes |
| `SessionsState.SessionsStore.ToggleSync` | src/stores/sessions.ts:256-262 | only the sync flag of the session's tab changes |
| `SessionsState.SessionsStore.ShowPlaceholder` | src/components/sessions/SessionList.tsx:281-302 | the placeholder tab is appended and focused and its open is in flight, all else as before |
| `SessionsState.SessionsStore.PlaceholderFailed` | src/components/sessions/SessionList.tsx:315-316 | a failed open removes the placeholder as removeTabLocal does |
| `SessionsState.SessionsStore.CloseTabBegin` | src/stores/sessions.ts:103-110 | closeTab up to its await across all three stores |
| `SessionsState.SessionsStore.CloseTabEnd` | src/stores/sessions.ts:110-114 | closeTab after its await, whichever way the command went |
| `SessionsState.SessionsStore.RemoveTabLocal` | src/stores/sessions.ts:116-129 | the tab, its buffers, its editors and its loop entry go, and the focus moves to the last tab if it was here |
| `SessionsState.SessionsStore.MarkDisconnected` | src/stores/sessions.ts:134-167 | the four cases of a disconnect event, with the loop started in exactly one of them |
| `SessionsState.SessionsStore.RunAutoReconnect` | src/stores/sessions.ts:275-284 | a loop starts unless its id is in the set already, and sleeps 1000 ms first |
| `SessionsState.SessionsStore.MarkConnected` | src/stores/sessions.ts:169-201 | rebinding, scrollback, tab, selection and loop set change together as the machine's step says |
| `SessionsState.SessionsStore.ReconnectTab` | src/stores/sessions.ts:203-219 | a reconnect is sent only for an existing tab not already marked |
| `SessionsState.SessionsStore.ReconnectRejected` | src/stores/sessions.ts:218-224 | the rejected command is followed by an open in the same call |
| `SessionsState.SessionsStore.SessionArrived` | src/stores/sessions.ts:225-240 | install, or close again if the tab has gone, for reconnects and placeholders |
| `SessionsState.SessionsStore.ReconnectFailed` | src/stores/sessions.ts:241-253 | the tab is disconnected with the error as its reason and the call ends as failed |
| `SessionsState.SessionsStore.LoopWakes` | src/stores/sessions.ts:284-294 | the four outcomes of a wake: no tab, connected tab, tab busy, attempt |
| `SessionsState.SessionsStore.LoopResumes` | src/stores/sessions.ts:293-298 | success ends the loop, failure doubles the delay and tests the condition again |
| `SessionsState.SessionsStore.SleepAgain` | src/stores/sessions.ts:283-284 | the loop goes on exactly while its id is in the set |
| `SessionsState.SessionsStore.EndLoop` | src/stores/sessions.ts:300-302 | the `finally` takes the id out of the set |
| `SessionExecution.Perform` | src/stores/sessions.ts:67-303 | every enabled step of the machine is carried out by the stores' own methods, which end in the machine's next state with the invariant kept |
| `BufferTheorems.AgreementKept` | src/lib/events.ts:49-145 | each operation keeps that agreement, for every session at once |
| `BufferTheorems.PotentialNeverGrows` | src/lib/events.ts:91-122 | deliveries made plus deliveries still possible never grow for a chunk already received |
| `BufferTheorems.RemountReplaysOnce` | src/lib/events.ts:91-130 | a terminal mounted anew is fed the retained history the first time, nothing the second, and again after a clear |
| `BufferTheorems.FedOnceUntilCleared` | src/lib/events.ts:110-130 | a history once fed is fed no more in any run that does not clear the session's buffers |
| `BufferTheorems.EveryRunBounded` | src/lib/events.ts:49-69 | after any run history holds min(n, 800) of n chunks and pending at most 800 |
| `BufferTheorems.OutputReach` | src/lib/events.ts:74-84 | each queue grows by the chunk and gives up its oldest one exactly when it held 800; scrollback and mark stay |
| `BufferTheorems.FeedReach` | src/lib/events.ts:110-122 | a feed with nothing to feed, or out of turn, leaves no trace; otherwise pending is the history and the mark is set |
| `BufferTheorems.CarryoverWaits` | src/lib/events.ts:134-154 | scrollback handed to a session waits through any run that does not take, drop or hand it over |
| `BufferTheorems.RunElsewhere` | src/lib/events.ts:49-154 | any run of operations leaves the queues, scrollback and mark of every session it does not name as they were |
| `BufferTheorems.HandOver` | src/lib/events.ts:134-154 | stashing leaves the new session's queues, drops the old one's, carries history then backlog when there is any, and taking yields it once |
| `BufferTheorems.CarriedIsRetained` | src/lib/events.ts:134-145 | what is carried is the retained window in order followed by the pending suffix, at most 1600 entries |
| `TerminalOutput.ChunkList.PushBounded` | src/lib/events.ts:64-68 | push and splice leave the newest elements up to the limit |
| `TerminalOutput.ChunkMap.GetOrCreate` | src/lib/events.ts:76-80 | an absent entry is created empty, and its array is shared with no other session |
| `TerminalOutput.ChunkMap.PushBounded` | src/lib/events.ts:59-69 | one session's array is changed in place and no other |
| `TerminalOutput.TerminalBuffers.OnOutput` | src/lib/events.ts:74-84 | a chunk enters both queues, each trimmed at its limit, and no array comes to be owned twice |
| `TerminalOutput.TerminalBuffers.ConsumeTerminalOutput` | src/lib/events.ts:91-96 | the pending array itself goes to the caller and is no longer owned by the buffers |
| `TerminalOutput.TerminalBuffers.ReplayTerminalHistory` | src/lib/events.ts:99-103 | a new array with the history, which the buffers keep |
| `TerminalOutput.TerminalBuffers.FeedHistoryToPending` | src/lib/events.ts:110-122 | history goes to pending only once between clears, and only if something is there and nothing pending |
| `TerminalOutput.TerminalBuffers.ClearTerminalBuffers` | src/lib/events.ts:125-130 | both queues, the scrollback and the mark of the session go |
| `TerminalOutput.TerminalBuffers.StashScrollback` | src/lib/events.ts:134-145 | history and backlog move to the new id, nothing happens for equal ids |
| `TerminalOutput.TerminalBuffers.TakeCarryover` | src/lib/events.ts:149-154 | the carried array goes to the caller and is no longer owned by the buffers |
| `TerminalOutput.Perform` | src/lib/events.ts:49-154 | any operation changes the buffers as its function says and touches no array they do not own |
| `TerminalOutput.PerformAll` | src/lib/events.ts:49-154 | so does any run of operations |
| `EditorTabs.DerivedIdInjective` | src/stores/ui.ts:19-21 | for colon-free session ids the derived id determines session and path |
| `EditorTheorems.RebindMerges` | src/stores/ui.ts:183-199 | a valid store with one file open under both sessions, which rebinding makes invalid |
| `EditorTheorems.OpenFocusesTheFile` | src/stores/ui.ts:100-130 | opening leaves exactly one tab for the file, focused, the others kept; opening again adds nothing |
| `EditorReach.OpenReach` | src/stores/ui.ts:100-130 | a file not open yet gets a clean tab at the end, of that session, path and name; an open one gets none; the focus is on it |
| `EditorReach.ActivateReach` | src/stores/ui.ts:132-135 | the focus moves to a tab there is, and to nothing else |
| `EditorReach.CloseReach` | src/stores/ui.ts:137-156 | a tab with unsaved changes stays unless confirmed; otherwise just that tab goes, and the focus moves, to the last tab, if it was on it |
| `EditorReach.CloseUnknown` | src/stores/ui.ts:137-156 | closing an id that names no tab changes nothing |
| `EditorReach.CloseForSessionReach` | src/stores/ui.ts:163-181 | just the session's tabs go, unsaved or not, the others stay in order, and the focus moves, to the last tab, if it was on one of them |
| `EditorReach.MarkReach` | src/stores/ui.ts:201-211 | marking sets the flag of the tab with that id to the value given, either way, and changes nothing else |
| `EditorTheorems.UnsavedStaysIff` | src/stores/ui.ts:100-211 | of all actions exactly a confirmed close, the closing or renaming of its session and a cleared mark end a tab with unsaved changes |
| `EditorTheorems.CloseKeepsValid` | src/stores/ui.ts:137-156 | closing keeps the store valid, refused or not |
| `EditorTheorems.CloseForSessionKeepsValid` | src/stores/ui.ts:163-181 | so does closing all editors of a session |
| `EditorTheorems.SetDirtyKeepsValid` | src/stores/ui.ts:201-211 | so does marking a tab |
| `EditorTheorems.ApplyCommutes` | src/stores/ui.ts:100-211 | an action on the old session followed by a reconnect equals the reconnect followed by the renamed action on the new one |
| `EditorTheorems.RebindInvertible` | src/stores/ui.ts:183-199 | renaming to a fresh id and back is the identity |
| `EditorTheorems.ActiveRebound` | src/stores/ui.ts:190-197 | rebinding renames the active id as it renames any derived id |
| `EditorTheorems.RenameIdInjective` | src/stores/ui.ts:19-21 | renaming derived ids identifies no two of them |
| `UiState.UiStore.OpenEditor` | src/stores/ui.ts:100-130 | the method's new state is the function's |
| `UiState.UiStore.SetActiveEditor` | src/stores/ui.ts:132-135 | an unknown id changes nothing |
| `UiState.UiStore.CloseEditorTab` | src/stores/ui.ts:137-156 | refusal, removal and the move of the focus, as the function says |
| `UiState.UiStore.CloseEditor` | src/stores/ui.ts:158-161 | closes the active tab if there is one |
| `UiState.UiStore.CloseEditorForSession` | src/stores/ui.ts:163-181 | the session's editors go, and the focus moves only if it was on one of them |
| `UiState.UiStore.RebindEditorSession` | src/stores/ui.ts:183-199 | ids, sessions and the active id are renamed together, the old tab list deciding |
| `UiState.UiStore.SetEditorDirty` | src/stores/ui.ts:201-211 | only the flag of the tab with that id changes |
| `Shell.ClosingOrphanKeepsResult` | src/app/Shell.tsx:44-46 | closing one orphan session changes nothing about what the whole sweep comes to |
| `Codec.EncodeTerminalInput` | src/lib/events.ts:178-187 | the loop over chunks of 0x8000 bytes yields the Base64 of all the UTF-8 bytes, for any length |
| `Codec.DecodeTerminalOutputBytes` | src/lib/events.ts:189-194 | the array holds exactly what atob yields, and there is none exactly when atob throws |
| `Utf.Utf8Iff` | src/lib/events.ts:179 | a strict decoder (section 3 of RFC 3629) reads a byte string as a text exactly when the text is encoded as those bytes |
| `Base64.Base64RoundTrip` | src/lib/events.ts:186-190 | Base64 (section 4 of RFC 4648) loses nothing |
| `Base64.SameBits` | src/lib/events.ts:186 | four sextets are the 24 bits of three bytes, most significant first |
| `Base64.GroupBits` | src/lib/events.ts:186 | in every group of an encoded text the sextets are the 24 bits of their three bytes |
| `Base64.DigitTable` | src/lib/events.ts:186 | the digits are those of table 1 of RFC 4648 |
| `Base64.DigitInTable` | src/lib/events.ts:190 | a character reads as a digit exactly when it is in that table, and as its place there |
| `Base64.BtoaShape` | src/lib/events.ts:186 | the text comes in groups of four and ends in as many '=' as the last bytes fall short of three |
| `Base64.AtobThrowsIff` | src/lib/events.ts:190 | decoding throws exactly when, spaces and padding aside, something is no digit or one digit stands alone |
| `Base64.SpaceForgiven` | src/lib/events.ts:190 | a space anywhere in the text does not matter |
| `Base64.OnlySpacesDropped` | src/lib/events.ts:190 | and nothing but the five ASCII spaces is dropped |
| `Base64.OnlyPaddingDropped` | src/lib/events.ts:190 | padding is dropped exactly where it fills a group of four |
| `Utf.Utf8Bits` | src/lib/events.ts:179 | characters are encoded in the ranges and bits of the table in section 3 of RFC 3629 |
| `Utf.UnitsRead` | src/lib/events.ts:179 | a surrogate pair reads as its character, a lone surrogate as U+FFFD, anything else as itself |
| `QuickConnect.PartsTrimmed` | src/lib/quickConnect.ts:7-22 | white space around user and host does not matter, and a user of nothing else is root |
| `QuickConnect.PortZero` | src/lib/quickConnect.ts:18 | port 0 is taken for port 22 |
| `QuickConnect.TrimmedFirst` | src/lib/quickConnect.ts:5-6 | white space around the target does not matter |
| `QuickConnect.SpaceTable` | src/lib/quickConnect.ts:5 | what is trimmed is the white space and the line terminators of ECMAScript |
| `Layout.StepKeepsTimer` | src/lib/layoutPersist.ts:40-95 | every change, hydration, firing of any armed timer, answer and failure keeps that |
| `Layout.AgreementLostIff` | src/stores/settings.ts:121-123 | with no timer armed, settings and screen come to disagree if and only if a save is answered with another layout |
| `Layout.StepKeepsInv` | src/lib/layoutPersist.ts:40-95 | without overlapping saves every step keeps the single timer, agreement, and at most one save in flight, of the settings as they are |
| `Layout.ClampedNormal` | src/stores/settings.ts:33-41 | normalizing leaves a clamped layout alone |
| `Layout.ClampedRanges` | src/lib/layoutPersist.ts:22-28 | widths are kept between 180 and 480, the nearest integer within, ratios between 0.2 and 0.65, as they are within |
| `Layout.NormalizedRanges` | src/stores/settings.ts:33-41 | a width that is not positive falls back to 260, everything else is clamped |
| `Layout.AgreesWithin` | src/lib/layoutPersist.ts:51-57 | nothing is saved exactly when the width is equal and the ratio less than 0.0001 away |
| `Layout.ShownAsSet` | src/stores/ui.ts:213-217 | the screen shows the width as set and the ratio as set between 0.2 and 0.65 |
| `Layout.HydrationSavesNothing` | src/lib/layoutPersist.ts:68-74 | hydrating shows the stored layout as it is, and the timer it may arm saves nothing |
| `Layout.AnswersSettle` | src/stores/settings.ts:114-130 | in whatever order the saves in flight settle, and whichever fail, the last answer decides the settings |
| `Layout.FireSettlesIff` | src/lib/layoutPersist.ts:47-64 | a fired timer leads to agreement under all of them if and only if no save already in flight is of another layout |
| `Layout.FailedSaveDisagrees` | src/stores/settings.ts:125-129 | a run whose later save fails after an earlier one was answered, and that ends with settings and screen apart |
| `Layout.LateAnswerDisagrees` | src/stores/settings.ts:121-123 | a run in which both of two saves are answered, the earlier one last, and that ends with settings and screen apart |
| `Layout.OverlapDisagrees` | src/lib/layoutPersist.ts:47-64 | a run in which every save is answered, in order, and that ends with settings and screen apart |
| `Layout.LayoutPersistence.Schedule` | src/lib/layoutPersist.ts:40-49 | the handle's timer is cleared and another armed, in two calls of the runtime |
| `Layout.LayoutPersistence.Perform` | src/lib/layoutPersist.ts:40-95 | every step of the machine, carried out on the stores, keeps the single timer |
| `Layout.LayoutPersistence.SetLayout` | src/lib/layoutPersist.ts:85-93 | a change of either field schedules a save of it, anything else leaves the timers alone |
| `Layout.LayoutPersistence.SetSidebar` | src/stores/ui.ts:95 | the width is taken as given |
| `Layout.LayoutPersistence.SetSplit` | src/stores/ui.ts:213-217 | the ratio is kept within its bounds |
| `Layout.LayoutPersistence.HydrateLayoutFromSettings` | src/lib/layoutPersist.ts:68-74 | the screen takes the clamped stored layout, which arms the timer if anything changed |
| `Layout.LayoutPersistence.TimerFires` | src/lib/layoutPersist.ts:47-64 | the payload is clamped, and saved unless the settings agree already |
| `Layout.LayoutPersistence.SaveOptimistically` | src/stores/settings.ts:114-120 | the settings take the normalized layout before the backend is asked |
| `Layout.LayoutPersistence.SaveSettles` | src/stores/settings.ts:121-129 | an answer replaces the settings, a failure leaves the optimistic ones |

## Left out

- Tauri commands and events, the backend, React rendering, the DOM, localStorage and timers as such: they are the steps of the machines and the parameters of the methods.
- The claim that a tab being closed does not reconnect: a loop can wake while the close is awaited, and the machine contains that step.
- The claim that buffers belong to open tabs only: late output recreates them, and the machine contains that step.
- The claim that stashing also drops the old session's carryover and fed mark: it does not.
- `setActive` with an id that names no tab, which the store does not check: the step needs an existing tab.
- Calls of `markConnected` without a result, or with missing fields: every caller passes a complete result.
- The id in an incomplete result given to `addTab`: the store only reports an error, and the id is not counted among those obtained.
- The `opening` flag, the error text a failed placeholder open leaves in `openError`, and what `addTab` and `openEditor` do to the monitor panel and the active view.
- Terminal geometry, which the reconnect and open commands also carry.
- `getSyncedTargets`, the transfers, connections, snippets and triggers stores, the feature registry, hotkeys, theme migration, session notes, the split view, go-to-line storage and error-message parsing: filters, clamps and routing with no state of their own to keep in step.
- Chunks as mutable `Uint8Array` objects: a chunk is an opaque value, and for counting deliveries each event's chunk is a distinct one, as each event decodes into a new object.
- Rounding of floating-point numbers, NaN and infinities: widths and ratios are exact reals and ports exact naturals, so a ratio is compared without rounding error and a port of any number of digits stays itself.
- Other writers of the settings (`load`, the settings dialog) and the bookkeeping by which the subscription survives a reload: the layout machine has one subscriber and one writer.
- Answers of the backend to a save that differ from what was saved, beyond being normalized again.
- The browser's `TextEncoder`, `btoa` and `atob` are modelled from their standards; the program calls them and does not define them.
- The reader of the transported bytes, which is the terminal widget or the remote host: a strict UTF-8 decoder stands for it.
