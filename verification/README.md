# ov-computeruse: verified model of the durable agent/server pipeline

An agent on a workstation runs coding sessions on behalf of a server. Commands go down, run events and session history
go up, and both ends keep what matters in tables so that lost connections, repeated messages and crashes do no harm. This
project models those tables and the steps on them in Dafny 4.11 and proves what the steps keep.

`dafny verify dfyconfig.toml` checks everything.

## How the model is built

Each SQL table is a map, a set or a sequence held in a class. A store method is a method of that class whose contract
equates the new tables with a function of the old ones, or relates the two where the database may choose (the order of
tied rows, which of several conflicting rows is found). Where several processes, a network or crashes take part, the same
functions are the steps of a state machine, and the results are about every run of it: a run is any sequence of steps each
of which was possible when it was taken. Generated ids are parameters that must be new; clocks, failing saves and
projections that fail inside a transaction are parameters too.

| module | what it holds |
|---|---|
| `Text`, `Protocol` | trimming and case folding as the code uses them; commands, events, acks, JSON payloads as records |
| `ReplayGuard` | the replay window of a connection against the guard that never forgets |
| `Decimal` | decimal text of a 64-bit number in a 20-byte buffer |
| `LocalStore`, `Timestamps`, `Outbox`, `AgentEvents` | the agent's outbox, run rows and stored answers; times compared as text; saving, sending and flushing; numbering over crashes and restarts |
| `EventStore`, `Channel` | the server's event table; agent, lossy network and server together |
| `RunManager`, `Manager` | admission, aliases, approvals and stops as functions; the manager as an object over the store |
| `RunSystem`, `RunTrace`, `RunSafety` | the manager as a concurrent machine with crash points, its invariant, its promises |
| `HistoryBatches`, `HistoryStore`, `HistoryUpload` | cutting a history into batches, the two ways of storing it, the round trip |
| `Lifecycle`, `LifecycleStore` | every status step over the `commands` and `runs` tables, as functions and as the store executes them |
| `LifecycleSafety`, `Confluence` | the session index, absorbing statuses, stops before dispatch; answers and events commute |
| `Projections`, `ProjectionStore`, `ProjectionLaws` | steps, messages, tool calls and timeline of a run, event by event |
| `Rebuild`, `RebuildStore`, `RebuildLaws` | rebuilding them statement by statement: how far it gets, and when the result is the live view |
| `Hub`, `HubSystem` | routing to connections over leases and a bus; many instances interleaving |
| `GitStatus` | the porcelain parser against a printer of the format; the bounded diff buffer |

## Where the code keeps less than one might expect

These are results: each names its failing family by a condition, and a lemma proves that the promise holds exactly outside
it, or gives it on all inputs outside.

- A command id made of white space is answered from memory only, so after a restart such a command is launched again, and
  so is any command whose answer could not be saved; as long as saving works, of all ids exactly the blank ones are launched
  twice in some run (`RunSafety.LaunchedTwiceIff`).
- A crash between saving `run.started` and saving the answer leads to a second `run.started` of the same run. In every
  reachable state a run can still come to two if and only if it has them or no answer to its command is stored
  (`RunSafety.StartsTwiceIff`).
- `SaveCommand` takes a session id made of white space for none while the index over active runs takes it for one, so
  the index can undo the step in that case and in no other (`LifecycleSafety.SaveRejectedByIndexIff`).
- An event that names no run is never acknowledged and stays in the outbox for ever
  (`Channel.EventsWithoutRunStayPending`).
- An answer and an event commute on every run but a stale one, which only a migration makes; there they fail to exactly
  when the event, without making the run active itself, takes it from a free session through an occupied one, or without
  any status from an occupied session to a free one (`Confluence.AckAndEventCommuteIff`, `Confluence.StaleRunDiverges`).
- A staged upload goes to the trimmed session id, a one-batch upload to the id as it is
  (`HistoryUpload.PathsAgreeIffTrimmed`). A batch drops a message text that a later message of the same index without
  text supersedes, and the messages differ from those of the direct path exactly when that was the last text of the index
  and no equal one survives from an earlier batch (`HistoryUpload.HistoryRoundTrip`); items numbered by the scanner lose
  none (`HistoryUpload.ScannedRoundTrip`).
- The lease of a removed connection is compared and deleted in two steps. The deletion takes another connection's lease
  exactly when that one renewed it in between and it still stands (`HubSystem.RemovalDeletesForeignLeaseIff`).
- A rebuild is no transaction: the first statement that the index over active runs refuses ends it and leaves the views of
  a prefix of the events, with the run in the status it had reached. It completes if and only if no event takes the run,
  while active, into a session with another active run or reports a foreign session (`Rebuild.RebuildCompletesIff`); for
  events of one session, if and only if none makes the run active or no other run of the session is
  (`Rebuild.OneSessionCompletesIff`). So a finished run whose session has a newer active one is left as `rebuilding`, with
  nothing after its `run.started` (`RebuildLaws.NewerRunStopsRebuild`).
- Live messages and tool calls depend on the order of arrival: the rebuilt view is the live one if and only if nothing stops
  the rebuild before the last event has left its rows and the words and tool calls read the same in sequence as they arrived
  (`RebuildLaws.RebuildEqualsLiveIff`). Rebuilding twice is rebuilding once if the run is left in the session it was found
  in (`RebuildLaws.RebuildTwice`); otherwise a complete rebuild completes again exactly when the run passes all its events
  coming from the session it ended up in (`RebuildLaws.AgainCompletesIff`, `RebuildLaws.SecondRebuildStops`).
- Pending events are ordered by the text of their time, which puts some events of one second before earlier ones
  (`Outbox.LaterIsListedFirstIff`).
- The agent takes a run id made of white space for none, the server does not (`ProjectionLaws.SidesAgreeIff`).
- The parser drops carriage returns at the end of a path (`GitStatus.ParseRecoversIff`).

## Model

| member | source | states |
|---|---|---|
| `Text.BlankIffAllSpace` | agent/internal/localstate/store.go:639-642 | an id counts as missing exactly when all its characters are white space |
| `ReplayGuard.Guard.constructor` | agent/internal/protocol/replay.go:21-26 | a non-positive window means ten minutes; nothing is remembered at first |
| `ReplayGuard.Guard.Cleanup` | agent/internal/protocol/replay.go:58-64 | exactly the entries that have expired are forgotten, and the pruned map still represents the full history |
| `ReplayGuard.Guard.OfferEach` | agent/internal/protocol/replay.go:46-55 | checking id and nonce on the pruned map gives the verdict and the history of checking them against every recording ever made |
| `ReplayGuard.Guard.Accept` | agent/internal/protocol/replay.go:28-56 | for a clock that does not run backwards the verdict is that of a guard that never forgets, counting keys of calls that were then refused |
| `ReplayGuard.Prune` | agent/internal/protocol/replay.go:58-64 | forgetting what has expired keeps the representation for all later times |
| `ReplayGuard.SeenIffLive` | agent/internal/protocol/replay.go:46-53 | a key is found unexpired in the map if and only if some recording of it is less than the window old |
| `ReplayGuard.AcceptedEnvelopesAreSeparated` | agent/internal/protocol/replay.go:28-56 | over every history of calls two accepted envelopes sharing an id or nonce are at least the window apart, and accepted non-zero numbers never decrease |
| `ReplayGuard.RejectedCallsAreRemembered` | agent/internal/protocol/replay.go:46-55 | an id recorded by a call that was refused for its nonce blocks a later use of that id |
| `Decimal.FormatUint` | server/internal/store/events.go:478-490 | for every 64-bit value the buffer does not underflow, the text parses back to the value and has no leading zero |
| `Decimal.CanonicalTextUnique` | server/internal/store/events.go:473-490 | two canonical texts of the same number are equal, so ids built from numbers are unambiguous |
| `LocalStore.Store.HoldsSeqOf` | agent/internal/localstate/store.go:1346-1362 | finds whether another row holds the event's run and number, the unique key the insert is ignored for |
| `LocalStore.Store.SaveRunEvent` | agent/internal/localstate/store.go:638-677 | the outbox and run rows after a save for every outcome: skipped, silently dropped on a taken number, failed, or saved with its flags kept |
| `LocalStore.Store.SaveRunState` | agent/internal/localstate/store.go:917-951 | the run row after an event; a final status gives way only to another final one and the last number never decreases |
| `LocalStore.Store.MarkRunEventSent` | agent/internal/localstate/store.go:742-759 | the row is marked sent and counted, and the first send is told apart from resends |
| `LocalStore.Store.ReceiveRunEventAck` | agent/internal/localstate/store.go:781-846 | a terminal ack settles exactly the rows it names by id, or by run and number when it has no id; any other ack only notes a failure on unsettled ones |
| `LocalStore.Store.LastRunEventSeq` | agent/internal/localstate/store.go:848-855 | the greatest number of any saved event, 0 for none |
| `LocalStore.Store.OpenRuns` | agent/internal/localstate/store.go:861-887 | lists exactly the runs whose status is open, each once |
| `LocalStore.Store.CloseRuns` | agent/internal/localstate/store.go:895-914 | each listed run gets one interruption event under consecutive numbers |
| `LocalStore.Store.ReconcileInterruptedRuns` | agent/internal/localstate/store.go:857-915 | all open runs are closed, numbered from just after the greatest saved number |
| `LocalStore.Store.SaveCommandAck` | agent/internal/localstate/store.go:568-598 | the answer is stored under its command id unless that is blank |
| `Outbox.Client.Emit` | agent/internal/transport/client.go:136-164 | an event goes on the wire only after it was saved; a failed save sends nothing, a failed send leaves the event pending, and no other row changes |
| `Outbox.Client.PendingRunEvents` | agent/internal/localstate/store.go:705-740 | up to the limit unacked events, first those whose time comes first as text, none left out for a later one |
| `Timestamps.OrderIsTotal` | agent/internal/localstate/store.go:712-718 | comparing times as text is a total order |
| `Timestamps.LaterSortsFirstIff` | agent/internal/localstate/store.go:648-651 | the text order is that of time, but within one second a later time comes first exactly when the earlier fraction, as written, begins the later one |
| `Outbox.LaterIsListedFirstIff` | agent/internal/localstate/store.go:712-718 | so of two events of one second the later is listed first exactly in that case |
| `Outbox.Client.FlushRunEventOutbox` | agent/internal/transport/client.go:529-557 | the pending events go out in order up to the first failing send, usage events are settled unsent, and exactly those rows are marked |
| `Outbox.FlushKeepsRows` | agent/internal/transport/client.go:529-557 | a flush loses no row, changes no event and settles nothing |
| `Outbox.FlushSendsPending` | agent/internal/transport/client.go:529-557 | whatever a flush sends is in the outbox, unacked and no usage event |
| `AgentEvents.NumberKeepsValid` | agent/internal/runs/manager.go:225-242 | numbering under the lock keeps all numbers and ids of saved and waiting events distinct |
| `AgentEvents.PersistNeverDrops` | agent/internal/localstate/store.go:638-677 | saving a numbered event always inserts a new row: the insert is never ignored and never fails, in whatever order concurrently numbered events arrive |
| `AgentEvents.ReconcileSaves` | agent/internal/localstate/store.go:857-915 | every closing event of a restart is saved under the numbers just after the last one, and no other row changes |
| `AgentEvents.RestartKeepsValid` | agent/internal/runs/manager.go:147-168 | after a restart, with the counter restored from the greatest number, all numbers are still distinct and every saved row is still there |
| `EventStore.Store.EventByRunSeq` | server/internal/store/events.go:186-198 | finds a row with the event's agent, run and number if and only if there is one |
| `EventStore.Store.SaveConflict` | server/internal/store/events.go:439-471 | a conflict is recorded under agent, run and number unless the event has none |
| `EventStore.Store.ResolveInsertConflict` | server/internal/store/events.go:128-167 | a rejected insert is a duplicate exactly when an equivalent event is stored under the id, or else under run and number; otherwise a conflict is recorded |
| `EventStore.Store.SaveRunEvent` | server/internal/store/events.go:67-126 | the table, the projections that ran and the answer for every case: usage, refused, duplicate, conflict, stored |
| `EventStore.SaveKeepsValid` | server/internal/store/migrate.go:143 | every save by any agent keeps run and number unique per agent, keeps every stored event as it is, runs the projections once per stored event and records conflicts only against the sending agent |
| `EventStore.ResendIsDuplicate` | server/internal/store/events.go:128-167 | receiving a stored event again from its device is always a duplicate and writes nothing |
| `Channel.OwnEventIsNeverInConflict` | server/internal/store/events.go:128-167 | whatever was delivered before, an event of this agent is stored, a duplicate or refused, never a conflict |
| `Channel.AckStatusTerminal` | agent/internal/transport/client.go:1341-1348 | the answer of the receive step is terminal for the agent exactly when the event was not refused |
| `Channel.StepKeepsInv` | server/internal/app/ws_agent.go:229-253 | every step of agent, network and server keeps the agreement between outbox and event table |
| `Channel.ExactlyOnceAlways` | agent/internal/transport/client.go:136-164 | over every run with loss, duplication, reordering, crashes and restarts: an acked event is stored once with its content and was projected once, a saved one is still in the outbox, the server stores only saved ones, and no conflict is recorded |
| `Channel.RunExtends` | agent/internal/localstate/store.go:821-846 | stored events never change, acked rows stay acked and saved events stay saved |
| `Channel.PendingEventCanSettle` | agent/internal/transport/client.go:529-557 | from every reachable state a pending event that names a run is settled by one send, one delivery that is not refused and one ack |
| `Channel.EventsWithoutRunStayPending` | server/internal/app/ws_agent.go:239-243 | an event without a run id is acked in no run, so the previous result holds exactly for events with one |
| `RunManager.HasSessionIffAlias` | agent/internal/runs/manager.go:67-98 | a run works in a session exactly when the trimmed, non-blank id is among its aliases |
| `RunManager.StartKeepsExclusive` | agent/internal/runs/manager.go:288-311 | an admitted run keeps the limit and shares no alias with another |
| `RunManager.AdmitIff` | agent/internal/runs/manager.go:288-311 | a run is admitted if and only if a slot is free, its id is new and no active run works in its session |
| `RunManager.SessionUpdateKeepsExclusiveIff` | agent/internal/runs/manager.go:244-264 | a session update keeps the runs apart exactly when it reports no other active run's id |
| `RunManager.ApprovalRoundTrip` | agent/internal/runs/manager.go:325-380 | asking for an approval and leaving it again restores a running run entirely |
| `RunManager.StopSurvivesApproval` | agent/internal/runs/manager.go:358-379 | a stop that comes during an approval is not undone when the approval is left |
| `RunManager.FirstDecisionStands` | agent/internal/runs/manager.go:382-397 | once a request is decided, later decisions change nothing |
| `Manager.Manager.constructor` | agent/internal/runs/manager.go:100-115 | starts with no runs, no answers, number 0 and a limit of one |
| `Manager.Manager.SetMaxActive` | agent/internal/runs/manager.go:117-124 | a limit below one means one |
| `Manager.Manager.SetAckStore` | agent/internal/runs/manager.go:147-168 | open runs are closed and the counter moves to the greatest saved number, so no number is given out twice |
| `Manager.Manager.ApplyRuntimeSessionUpdate` | agent/internal/runs/manager.go:244-264 | the reported ids become aliases of the reporting run and fill an empty session or project id |
| `Manager.Manager.Emit` | agent/internal/runs/manager.go:225-242 | every event consumes one number; usage events are not saved; all others are handed to the outbox before anything is sent |
| `Manager.Manager.RememberAck` | agent/internal/runs/manager.go:558-569 | the answer is cached under its id and stored unless the id is blank |
| `Manager.Manager.KnownAck` | agent/internal/runs/manager.go:530-556 | a command counts as answered when its answer is cached, or stored under a non-blank id |
| `Manager.Manager.IsSessionBusy` | agent/internal/runs/manager.go:300-309 | finds an active run of the session if and only if there is one |
| `Manager.Manager.TryAdmit` | agent/internal/runs/manager.go:288-311 | the admission decision, and the slot it takes |
| `Manager.Manager.Start` | agent/internal/runs/manager.go:281-323 | a run is launched exactly when it is in time, admitted and its first event is saved; the slot is free again otherwise, and the answer is remembered in every case |
| `Manager.Manager.Stop` | agent/internal/runs/manager.go:399-421 | the run with the id, or else some run of the session, is marked stopping; without one the stop is rejected |
| `Manager.Manager.Handle` | agent/internal/runs/manager.go:170-195 | a command answered before gets the same answer and changes nothing else; only an unanswered run-creating one can launch |
| `Manager.Manager.AwaitApproval` | agent/internal/runs/manager.go:325-341 | the request is pending on its run, or there is no such run |
| `Manager.Manager.ResumeAfterApproval` | agent/internal/runs/manager.go:358-379 | the request is gone and the run is running again unless its state changed meanwhile |
| `Manager.Manager.DecideApproval` | agent/internal/runs/manager.go:382-397 | the first decision fills the request's buffer, later ones are dropped, and an unknown request is rejected |
| `Manager.Manager.Finish` | agent/internal/runs/manager.go:446-473 | the terminal event takes the next number, is `run.stopped` exactly for a cancelled run with a stop mark, and the slot is free afterwards |
| `RunSystem.ReceiveOutcome` | agent/internal/runs/manager.go:170-195 | a received command is answered, marks one run as stopping, or takes one slot under a run id of its own, and does nothing else |
| `RunSystem.StepKeepsLaunchValid` | agent/internal/runs/manager.go:281-323 | launched commands have stored answers and no command on its way to a launch was launched before, at every crash point |
| `RunTrace.StepKeepsSlots` | agent/internal/runs/manager.go:281-323 | a run holds its slot from admission to its last event, and a context is cancelled only after an accepted stop |
| `RunTrace.SavingKeepsStatus` | agent/internal/localstate/store.go:917-951 | a run row is final exactly when a terminal event of the run is saved, and never leaves the final statuses |
| `RunTrace.InterruptEventCloses` | agent/internal/localstate/store.go:1149-1167 | the event a restart writes makes the run row final and touches no other |
| `RunTrace.RestartCloses` | agent/internal/localstate/store.go:857-915 | a restart leaves no run open, gives each open one exactly one event numbered after all others, and leaves final ones alone |
| `RunTrace.StepKeepsFirst` | agent/internal/runs/manager.go:423-473 | every saved or waiting event of a run is numbered after the run's first start |
| `RunTrace.StepKeepsOwners` | agent/internal/runs/manager.go:537-569 | a started run belongs to an answered command, unless its start was torn by a crash |
| `RunTrace.StepKeepsEnds` | agent/internal/runs/manager.go:446-473 | a run has at most one start and one terminal event, and none of the latter while it executes |
| `RunTrace.StepKeepsInv` | agent/internal/runs/manager.go:170-569 | all of this is kept by every step of the machine |
| `RunSafety.AtMostOneLaunch` | agent/internal/runs/manager.go:281-323 | over all redeliveries, reconnects and crashes a command id is launched at most once unless it is blank or its answer could not be saved |
| `RunSafety.SlotsAreExclusive` | agent/internal/runs/manager.go:281-311 | under every interleaving the limit holds, no two active runs share an alias and a run's session id is among its own |
| `RunSafety.EveryRunHasATrace` | agent/internal/runs/manager.go:423-473 | the saved events of a run begin with its only `run.started` and hold at most one terminal event |
| `RunSafety.RestartSettles` | agent/internal/localstate/store.go:857-915 | after a restart every started run has ended, exactly once unless torn, and reconciling again changes nothing |
| `RunSafety.FinalStatusIsForever` | agent/internal/localstate/store.go:917-951 | a local run status that is final stays final over every run |
| `RunSafety.StoppedImpliesStop` | agent/internal/runs/manager.go:399-421 | `run.stopped` is only ever saved for a run whose stop was accepted |
| `RunSafety.CanceledMeansStopped` | agent/internal/runs/manager.go:446-461 | a run ends as stopped exactly when it ends as cancelled: the branch for a cancellation without a stop is dead |
| `RunSafety.StartLaunches` | agent/internal/runs/manager.go:281-323 | the five steps of a start, undisturbed, are possible for every admissible new command and leave what `Manager.Start` promises |
| `RunSafety.RestartIsPossible` | agent/internal/runs/manager.go:147-168 | in every state there is a restart: an order of the open runs, fresh ids and the greatest number always exist |
| `RunSafety.LaunchedAgain` | agent/internal/runs/manager.go:558-569 | every run-creating command with a blank id, or whose answer cannot be saved, has a run from the start that launches it twice |
| `RunSafety.LaunchedTwiceIff` | agent/internal/runs/manager.go:558-569 | if saving an answer may fail any id is launched twice in some run; in the runs in which no answer of it failed to be saved, an id is if and only if it is blank |
| `RunSafety.TornStartStartsTwice` | agent/internal/runs/manager.go:313-322 | from every state between saving the first event and saving the answer a crash leads to a second `run.started` of the run |
| `RunSafety.TornRunExists` | agent/internal/runs/manager.go:313-322 | every run-creating command has such a run from the start |
| `RunSafety.AnsweredStartsNoMore` | agent/internal/runs/manager.go:170-180 | once the answer to a run's command is stored, no continuation logs another `run.started` of the run |
| `RunSafety.StartsTwiceIff` | agent/internal/runs/manager.go:281-323 | in every reachable state: some continuation logs two `run.started` of a run if and only if they are there already or no answer to its command is stored |
| `HistoryBatches.CollectBatches` | agent/internal/transport/client.go:903-943 | the scan cuts the non-usage items into consecutive groups, each closed as soon as it holds 200 items or a mebibyte |
| `HistoryBatches.CutBatches` | agent/internal/transport/client.go:888-953 | the batches partition the stream, number themselves 0 to n-1 with count n, reset only on the first, final only on the last, and are empty only for an empty upload |
| `HistoryBatches.CutIsBounded` | agent/internal/transport/client.go:896-937 | every batch has 1 to 200 items and less than a mebibyte of text and payload before its last one |
| `HistoryBatches.CutIsUnique` | agent/internal/transport/client.go:896-953 | there is only one such cut, so the items alone determine what is sent |
| `HistoryStore.Store.SaveHistoryItems` | server/internal/store/history_upload.go:15-24 | uploads with an id and more than one batch are staged, all others stored directly; a malformed one changes nothing |
| `HistoryStore.Store.SaveHistoryItemsDirect` | server/internal/store/history_upload.go:26-79 | the session is cleared on reset and the kept items are upserted in order |
| `HistoryStore.Store.DeleteSession` | server/internal/store/history_upload.go:181-186 | exactly the session's scanned items and all its messages go |
| `HistoryStore.Store.Upsert` | server/internal/store/history_upload.go:228-251 | the item replaces the row of its index and kind, and a message with text replaces the message row of its index |
| `HistoryStore.Store.StageHistoryItems` | server/internal/store/history_upload.go:81-107 | one transaction records the batch and, when that completes the upload, switches the history to some ordered replay of the staged rows |
| `HistoryStore.Store.ReplaceHistoryUploadBatch` | server/internal/store/history_upload.go:135-164 | the batch's staged rows are replaced by its kept items and its index is recorded |
| `HistoryStore.Store.HistoryUploadReady` | server/internal/store/history_upload.go:166-178 | answers readiness from the final flag and the two counts |
| `HistoryStore.Store.StagedRows` | server/internal/store/history_upload.go:187-193 | lists the staged rows of the upload, each once, ordered by batch and item index |
| `HistoryStore.Store.CommitHistoryUpload` | server/internal/store/history_upload.go:180-226 | replays the listed rows onto the cleared session and removes every trace of the upload |
| `HistoryUpload.SaveKeepsUploadsValid` | server/internal/store/history_upload.go:109-133 | a recorded batch index is always below the greatest count its upload ever claimed |
| `HistoryUpload.ReadyIffComplete` | server/internal/store/history_upload.go:166-178 | an upload is judged ready exactly when its final batch was seen and all of 0 to count-1 were recorded, although only counts are compared |
| `HistoryUpload.ListedLast` | server/internal/store/history_upload.go:187-193 | whatever order tied rows come in, the last replayed row of a key is the one of its latest batch |
| `HistoryUpload.CommitWritesFinal` | server/internal/store/history_upload.go:180-226 | committing leaves the last item of each key of the whole upload over the cleared session |
| `HistoryUpload.DeliverOne` | server/internal/store/history_upload.go:81-107 | a delivery stages one more batch, or was the last missing one and switches the history |
| `HistoryUpload.UploadIsAtomic` | server/internal/store/history_upload.go:81-226 | for every order and repetition of deliveries the history is untouched until each batch has arrived and final from then on |
| `HistoryUpload.ExpectedRows` | server/internal/store/history_upload.go:38-79 | what the expected table shows under each index and kind: the last item, else a surviving row of another source, else nothing |
| `HistoryUpload.FinalIsExpected` | server/internal/store/history_upload.go:180-226 | the staged path leaves the items of the direct path; its messages are the same if and only if the last text of every index survives its batch |
| `HistoryUpload.HistoryRoundTrip` | agent/internal/transport/client.go:888-953 | from items to stored history: before the last missing batch the old history, afterwards exactly the non-usage items, with their messages if and only if no last text is lost |
| `HistoryUpload.ScannedRoundTrip` | agent/internal/codexscan/scan.go:900-935 | items numbered by the scanner lose no text: after the last missing batch both tables are exactly theirs |
| `HistoryUpload.OneBatchRoundTrip` | server/internal/store/history_upload.go:38-79 | an upload of one batch leaves exactly its items, however often it is delivered |
| `HistoryUpload.PathsAgreeIffTrimmed` | server/internal/store/history_upload.go:109-111 | both paths give the same items from every starting table if and only if the session id has no outer white space |
| `HistoryUpload.TextSurvivesIff` | server/internal/store/history_upload.go:135-226 | for any number of batches and each index: both paths show the same message exactly when the batch with the last text ends the index with a text, or an equal text survives from before |
| `HistoryUpload.SupersededTextIsLost` | server/internal/store/history_upload.go:154-156 | an upload in which the direct path shows a text and the staged path shows none |
| `LifecycleStore.Store.TryRuns` | server/internal/store/migrate.go:148 | a statement on the runs takes effect unless it would give a session two active runs |
| `LifecycleStore.Store.FindActive` | server/internal/store/events.go:895-916 | finds another active run of the session if and only if there is one |
| `LifecycleStore.Store.FindStoppable` | server/internal/store/events.go:920-932 | finds the latest stoppable run of the session, or none if there is none |
| `LifecycleStore.Store.StopUndispatchedRun` | server/internal/store/events.go:987-1053 | stops run and command on the spot exactly when the run is queued and its command neither sent nor claimed |
| `LifecycleStore.Store.CompleteStopCommand` | server/internal/store/events.go:966-985 | the stop command is done unless it already ended |
| `LifecycleStore.Store.MarkStopRequested` | server/internal/store/events.go:918-964 | the stop finds its run by id or session and completes, stops undispatched work, or marks the run stopping |
| `LifecycleStore.Store.SaveCommand` | server/internal/store/events.go:828-885 | idempotency, session check, insertion and run row in one transaction that is undone whole when it fails |
| `LifecycleStore.Store.PrepareCommandRetry` | server/internal/store/events.go:1118-1158 | a retryable command and its run are queued again, or nothing changes |
| `LifecycleStore.Store.ClaimPendingCommands` | server/internal/store/dashboard.go:539-587 | up to the limit claimable commands are claimed for thirty seconds, oldest first, none left out for a newer one |
| `LifecycleStore.Store.ClaimCommand` | server/internal/store/dashboard.go:611-642 | one command is claimed for thirty seconds exactly when it is claimable |
| `LifecycleStore.Store.ClaimAndDispatchCommand` | server/internal/app/commands.go:220-281 | a message is sent only for a claimed command that passed every check, and the command's status tells what became of it |
| `LifecycleStore.Store.MarkCommandDispatched` | server/internal/store/events.go:1055-1064 | only a pending command becomes dispatched |
| `LifecycleStore.Store.MarkCommandEnded` | server/internal/store/events.go:1077-1116 | failure, expiry or stop of a command that was not accepted, with the runs still waiting for it |
| `LifecycleStore.Store.MarkCommandAck` | server/internal/store/events.go:1160-1232 | the command's and the run's status after an answer, statement by statement |
| `LifecycleStore.Store.MarkStopCommandAck` | server/internal/store/events.go:1234-1291 | the stop command's and the run's status after its answer, in one transaction |
| `LifecycleStore.Store.ProjectEvent` | server/internal/store/events.go:67-126 | cursor, reported session, run and command status after an event, all or nothing |
| `LifecycleStore.Store.AdvanceRunEventCursor` | server/internal/store/events.go:423-437 | a numbered event creates its run or refreshes its ids, as far as the index lets it |
| `LifecycleStore.Store.ProjectRunStatus` | server/internal/store/events.go:523-559 | the run takes the status of the event, as far as the index lets it |
| `LifecycleStore.Store.MarkRebuilding` | server/internal/store/events.go:415 | the run of a rebuild gives up its status and its last event time |
| `LifecycleStore.Store.ProjectRuntimeSessionRunLink` | server/internal/store/events.go:748-758 | the reported session replaces the one the run had, as far as the index lets it; no command changes |
| `LifecycleStore.Store.ProjectCommand` | server/internal/store/events.go:578-635 | the event settles the command it names, or else its run's, unless that has ended or belongs to another run |
| `LifecycleStore.Store.LinkRuntimeSession` | server/internal/store/dashboard.go:906-921 | a session reported outside the events goes to the run and its commands, where they have none |
| `LifecycleStore.Store.ExpireAll` | server/internal/store/events.go:1314-1348 | every overdue pending command expires together with the runs waiting for it |
| `LifecycleStore.Store.ReportRun` | server/internal/store/events.go:1358-1362 | a named run that was queued, accepted, waiting or stale is running, as far as the index lets it |
| `LifecycleStore.Store.Candidates` | server/internal/store/events.go:1363-1379 | lists exactly the overdue runs the heartbeat did not name |
| `LifecycleStore.Store.MissRun` | server/internal/store/events.go:1400-1453 | a missing run and its command fail, or fail to stop when a stop was under way |
| `LifecycleStore.Store.ReconcileHeartbeatRuns` | server/internal/store/events.go:1350-1453 | named runs are running, overdue unnamed ones fail, old commands expire; a refused statement ends the heartbeat where it stands |
| `LifecycleSafety.StepKeepsOneActive` | server/internal/store/migrate.go:148 | every step keeps at most one active run per non-empty session, also those the index never has to check |
| `LifecycleSafety.OneActiveAlways` | server/internal/store/migrate.go:148 | so it holds in every reachable state |
| `LifecycleSafety.SaveRejectedByIndexIff` | server/internal/store/events.go:842-916 | after `SaveCommand`'s own check the index undoes the step exactly for a session id of white space that another active run has |
| `LifecycleSafety.SaveIsNeverRolledBack` | server/internal/store/events.go:828-916 | with a proper session id, or none, the step fails only by its own checks |
| `LifecycleSafety.RetryRejectedByIndexIff` | server/internal/store/events.go:1118-1158 | a retry is undone by the index exactly when its run works in an occupied session other than the command's |
| `LifecycleSafety.StepKeepsTerminal` | server/internal/store/events.go:966-1453 | no step changes `done` or `stopped`, and only an approval requeue changes `rejected` |
| `LifecycleSafety.AbsorbedForEver` | server/internal/store/events.go:621-624 | `done` and `stopped` stay over every run |
| `LifecycleSafety.RejectedUntilRequeued` | server/internal/store/dashboard.go:1127-1149 | `rejected` stays over every run without a requeue |
| `LifecycleSafety.StopBeforeDispatch` | server/internal/store/events.go:987-1053 | stopping a run whose command was not sent stops both at once and completes the stop |
| `LifecycleSafety.StoppedIsNeverClaimed` | server/internal/store/dashboard.go:547-692 | from then on none of the three claim functions ever returns that command |
| `LifecycleSafety.DispatchKeepsOrReleasesClaim` | server/internal/app/commands.go:234-281 | a delegated or undeliverable dispatch keeps all other claimants away for thirty seconds; exactly the other outcomes release the claim under a status of their own |
| `LifecycleSafety.RetryUndoesFailure` | server/internal/store/events.go:1077-1158 | a retry undoes the failure or expiry of a command that was never accepted: it is queued and the runs are what they were |
| `LifecycleSafety.StopAnswers` | server/internal/store/events.go:1234-1291 | an accepted stop is done with its run stopping; a refused one fails with its run, and a retry puts the command back in the queue and the run back to work |
| `LifecycleSafety.ExpiryIsOneByOne` | server/internal/store/events.go:1314-1348 | expiring in bulk treats each overdue command and its runs as expiring it alone would, and leaves the others alone |
| `LifecycleSafety.HeartbeatLeavesNoneOverdue` | server/internal/store/events.go:1350-1453 | after a heartbeat no run is overdue, except stopping ones that the agent named |
| `Confluence.AckShape` | server/internal/store/events.go:1174-1232 | an accepted answer never moves a command out of an ended, running or waiting status, and accepts only a queued or stale run that no other run shuts out |
| `Confluence.EventShape` | server/internal/store/events.go:423-635 | an event of the run, whatever session it carries or reports, is refused whole exactly when it takes an active run through an occupied session or makes it active in one; otherwise it moves the run, sets its status and settles its command |
| `Confluence.AckAndEventCommuteIff` | server/internal/store/events.go:1174-1232 | an accepted answer and an event of the run commute on both tables, always if the run is not stale, and on a stale run if and only if the event does not diverge |
| `Confluence.AckAnywhere` | server/internal/store/events.go:578-635 | inserting the answer at any point of the event sequence leaves the same tables as long as no later event diverges |
| `Confluence.AckAnywhereUnlessStale` | server/internal/store/events.go:578-635 | for a run that is not stale: at any point of any sequence of its events |
| `Confluence.StaleRunDiverges` | server/internal/store/events.go:423-437 | both diverging families occur: the run ends up accepted in one order and stale in the other |
| `ProjectionStore.RunRows.LastRunMessage` | server/internal/store/projections.go:222-233 | the row of the role that starts last |
| `ProjectionStore.RunRows.AppendRunMessage` | agent/internal/localstate/store.go:976-994 | a delta with text goes to the end of the open row or opens one |
| `ProjectionStore.RunRows.FinishRunMessage` | agent/internal/localstate/store.go:996-1011 | the final text replaces the streamed one unless it is empty |
| `ProjectionStore.RunRows.UpsertRunMessage` | server/internal/store/projections.go:239-248 | an empty text never erases one that is stored |
| `ProjectionStore.RunRows.UpsertToolRow` | server/internal/store/projections.go:268-286 | name, approval and finish time are kept when absent, arguments and output are not |
| `ProjectionStore.RunRows.ProjectRunView` | agent/internal/localstate/store.go:953-974 | which rows of the agent an event touches |
| `ProjectionStore.RunViews.ProjectTimeline` | server/internal/store/runtime_timeline.go:38-109 | an event that names a runtime has one place on the timeline |
| `ProjectionStore.RunViews.UpsertRunStep` | server/internal/store/projections.go:254-262 | a repeated step is rewritten except for its start time |
| `ProjectionStore.RunViews.ProjectMessage` | server/internal/store/projections.go:139-145 | only deltas, final texts and user messages touch the message rows |
| `ProjectionStore.RunViews.AdvanceCursor` | server/internal/store/events.go:423-437 | the cursor never moves back |
| `ProjectionStore.RunViews.ProjectEvent` | server/internal/store/projections.go:132-177 | all views of a run after one event |
| `ProjectionStore.RunViews.ClearRunProjections` | server/internal/store/events.go:396-417 | nothing of the views is left |
| `ProjectionLaws.OrderDoesNotMatter` | server/internal/store/projections.go:132-262 | steps, timeline and cursor are the same for every order of arrival of events with distinct numbers |
| `ProjectionLaws.StreamedText` | server/internal/store/projections.go:183-248 | for every sequence of events there is at most one assistant row, from the first word to the last, holding the last final text and everything streamed after it |
| `ProjectionLaws.ToolCallClosedForm` | server/internal/store/projections.go:268-286 | for every sequence of events a tool call's row begins with its first event, has status, arguments and output of its last, the last name and approval given, and its last finish time |
| `ProjectionLaws.SidesAgreeIff` | agent/internal/localstate/store.go:953-1075 | agent and server hold the same messages and tool calls for all events of a run if and only if its id is not made of white space |
| `ProjectionLaws.MessagesAgreeIff` | server/internal/store/projections.go:183-248 | replaying some of the events in another order leaves the same messages if and only if all user messages are among them and the assistant's words read the same |
| `ProjectionLaws.ToolCallAgreesIff` | server/internal/store/projections.go:268-286 | and the same row of a tool call if and only if those that touch it come to the same first and last event, name, approval and finish |
| `ProjectionLaws.OvertakenTextDiffers` | server/internal/store/projections.go:183-198 | two deltas that overtake each other read one way as they arrived and the other way in sequence |
| `RebuildStore.Rebuilder.ListRunEvents` | server/internal/store/events.go:328-353 | the stored events in sequence order, without usage |
| `RebuildStore.Rebuilder.ReplayEvent` | server/internal/store/events.go:362-386 | the statements of one event in order, up to the first that fails |
| `RebuildStore.Rebuilder.RebuildRunProjections` | server/internal/store/events.go:326-394 | tables and views after a rebuild, the number of events replayed completely and the statement that stopped it; without events nothing changes |
| `Rebuild.ReplayOneShape` | server/internal/store/events.go:362-386 | where one event stops, from the row it finds, and the row and the view it leaves in each case |
| `Rebuild.RebuildOutcome` | server/internal/store/events.go:326-417 | over all tables and stored events: the events before the stop pass, the next one stops where it must, and the view is the fold of those replayed, with its cursor if its session stopped it and with its rows if its run state did |
| `Rebuild.RebuildCompletesIff` | server/internal/store/events.go:354-394 | a rebuild completes if and only if no event would be stopped, by a condition on the runs and the events before the call |
| `Rebuild.RebuildCompletesInWords` | server/internal/store/events.go:354-394 | that is: no event reports a foreign session, takes the run through an occupied session while active, or makes it active in one |
| `Rebuild.OneSessionCompletesIff` | server/internal/store/migrate.go:148 | for events of one session: none makes the run active, or no other run of the session is |
| `Rebuild.OneSessionStops` | server/internal/store/events.go:378-380 | otherwise it stops at the first event that makes the run active, with the run in the status it had reached |
| `Rebuild.RebuildIsSteps` | server/internal/store/events.go:326-417 | a rebuild is a run of the lifecycle's steps, so what those keep holds after each of its statements |
| `RebuildLaws.RebuildEqualsLive` | server/internal/store/events.go:326-417 | a rebuild gives the live steps, timeline and cursor, for every order of arrival, if and only if nothing stops it before the last event has left its rows |
| `RebuildLaws.RebuildEqualsLiveIff` | server/internal/store/events.go:326-417 | the whole view is the live one if and only if, besides, the words read the same in sequence as they arrived and every tool call comes to the same row |
| `RebuildLaws.InSequenceReads` | server/internal/store/events.go:331 | words and tool events that arrived in sequence always do |
| `RebuildLaws.MessagesAgreeIff` | server/internal/store/projections.go:183-248 | wherever the rebuild stops: the messages are the live ones if and only if it got to every user message and the words read the same as far as it got |
| `RebuildLaws.AssistantTextAgreesIff` | server/internal/store/projections.go:183-237 | wherever it stops: the assistant's text is the live one if and only if the last final text and what was streamed after it come to the same |
| `RebuildLaws.FinalTextSurvives` | server/internal/store/projections.go:200-237 | a final text that came last and is the last one replayed stands, whatever the order before it |
| `RebuildLaws.ToolCallAgreesIff` | server/internal/store/projections.go:268-286 | wherever it stops: a tool call's row is the live one if and only if the events that touch it come to the same |
| `RebuildLaws.RebuildTwice` | server/internal/store/events.go:326-417 | rebuilding twice is rebuilding once, complete or not, when the first leaves the run in the session it found it in |
| `RebuildLaws.AgainCompletesIff` | server/internal/store/events.go:326-417 | a complete rebuild completes again if and only if the run passes every event once more, coming from the session it ended up in |
| `RebuildLaws.SecondRebuildStops` | server/internal/store/events.go:748-758 | a run that is rebuilt to the end once and no second time |
| `RebuildLaws.NewerRunStopsRebuild` | server/internal/store/events.go:354-394 | four ordinary steps after which the rebuild of a finished run stops at its first event |
| `Hub.AgentConn.TrySend` | server/internal/app/hub.go:568-573 | the message is queued exactly when the queue has room |
| `Hub.Instance.TouchAgent` | server/internal/app/hub.go:264-281 | the lease names this connection and this instance |
| `Hub.Instance.AddAgent` | server/internal/app/hub.go:118-127 | the connection replaces the registered one and takes the lease |
| `Hub.Instance.RemoveAgentConn` | server/internal/app/hub.go:136-151 | removing a connection that was replaced changes neither registry nor lease |
| `Hub.Instance.RemoveLeaseIfOwned` | server/internal/app/hub.go:226-242 | the lease goes only if it names this connection, epoch and instance |
| `Hub.Instance.DisconnectAgentLocal` | server/internal/app/hub.go:181-198 | connections of a later epoch stay registered and keep their lease; the lease of a fenced one goes if it is its own, and any lease when no epoch is given |
| `Hub.Instance.DisconnectUserAgentsLocal` | server/internal/app/hub.go:200-217 | exactly the connections of the user go, with the leases of their agents |
| `Hub.Instance.ReceiveCommand` | server/internal/app/hub.go:595-614 | the publisher ignores its own envelope; another instance delivers it only to a connection that fits |
| `Hub.Instance.DispatchCommandLocal` | server/internal/app/hub.go:552-574 | the message is queued only on the registered connection that fits user, connection id and epoch |
| `Hub.Instance.DispatchEnvelope` | server/internal/app/hub.go:319-361 | the message goes to the local connection, the bus or nowhere, as connection and lease say |
| `HubSystem.TablesKeep` | server/internal/app/hub.go:118-281 | registrations and leases always name connections that exist, where they are |
| `HubSystem.TargetIsLeaseHolder` | server/internal/app/hub.go:552-574 | a connection that takes a message addressed by a lease is the one the lease names, on its instance and for its user |
| `HubSystem.StepKeepsInv` | server/internal/app/hub.go:319-376 | every read, write, publication and delivery keeps this |
| `HubSystem.SingleDelivery` | server/internal/app/hub.go:319-350 | over every run of any number of instances a dispatch enqueues its message at most once, on the connection whose id, epoch, user and agent are those of the lease it went by |
| `HubSystem.RemovalKeepsOthers` | server/internal/app/hub.go:136-151 | however late a removal runs, no other registration goes with it on any instance |
| `HubSystem.FencingKeepsLaterEpochs` | server/internal/app/hub.go:181-198 | fencing up to an epoch leaves every later connection registered |
| `HubSystem.RemovalDeletesForeignLeaseIff` | server/internal/app/hub.go:226-242 | whatever happens between the look and the deletion, the deletion takes another connection's lease if and only if a rival renewed it and since then neither the removed connection renewed its own nor the agent went without one |
| `HubSystem.RemovalDeletesOwnLease` | server/internal/app/hub.go:226-242 | so without a rival a removal deletes its own lease or none |
| `HubSystem.RivalLosesItsLease` | server/internal/app/hub.go:226-242 | and a rival that renews just before the deletion loses its lease while it stays registered |
| `GitStatus.ParseGitStatus` | agent/internal/workspace/git.go:131-159 | the changes of the records in order; each counter counts its kind, the six sum to the total, and clean means no change |
| `GitStatus.Limit` | agent/internal/workspace/git.go:161-169 | at most 2000 changes, a prefix of all, marked truncated exactly when some are cut, with the counters of all |
| `GitStatus.LineParses` | agent/internal/workspace/git.go:222-258 | a printed line splits back into its fields and its path |
| `GitStatus.EntryParses` | agent/internal/workspace/git.go:206-220 | the records of one entry parse to the change the entry stands for |
| `GitStatus.PrintedEntriesParse` | agent/internal/workspace/git.go:131-176 | every list of well-formed entries parses back, up to carriage returns at the end of paths |
| `GitStatus.ParseRecoversIff` | agent/internal/workspace/git.go:131-176 | exactly the changes the entries stand for, renames over two records included, if and only if no path ends in a carriage return |
| `GitStatus.LimitedBuffer.Write` | agent/internal/workspace/git.go:115-129 | the buffer holds the first bytes of everything written, counts all of it and tells whether some was cut |

## Left out

- RunSafety.AtMostOneLaunch: loading a stored answer is taken to succeed; the source takes a command whose answer cannot be loaded for a new one. Saving may fail only for the answer of a launch: the other answers launch nothing.
- Manager.Manager.Start: saving the answer is taken to succeed here; it states one undisturbed start; what may happen between its steps, and crashes, are the subject of `RunSystem`.
- Manager.Manager.Finish: the payload of the terminal event is not part of the contract; its kind and number are.
- Manager.Manager.DecideApproval: which of several runs with the same request id answers is left open, as in the source.
- LocalStore.Store.SaveRunEvent: several statements in the source, one step here.
- LocalStore.Store.ReconcileInterruptedRuns: one step; a failing statement in the middle is not modelled.
- Channel.ExactlyOnceAlways: numbers do not wrap around and payloads are compared up to JSON equivalence.
- Channel.PendingEventCanSettle: possibility, not liveness: the outbox sends its oldest 200 rows, so rows that keep failing can hold back later ones.
- EventStore.Store.SaveRunEvent: ownership checks are a parameter and gap rows keep only what identifies them.
- HistoryStore.Store.CommitHistoryUpload: the source executes its inserts while the cursor over the staged rows is still open on the same transaction; whether the driver allows that, and so whether a commit succeeds, is not modelled: it is taken to succeed.
- The parts of an accepted stop: stopping the runtime, cancelling the context and remembering the answer are one step of `RunSystem`; a crash or another step between these three is not modelled.
- HistoryStore.Store.Upsert: receive times, and the clock value stored for an item without a time, are not modelled.
- LifecycleStore.Store.ClaimPendingCommands: rows locked by another transaction are not skipped, because a step is atomic here; who claimed is not recorded.
- LifecycleStore.Store.MarkCommandAck: reasons, attempts and the approval decision an accepted answer confirms are not modelled.
- LifecycleStore.Store.ProjectEvent: events that fail the ownership checks write nothing and are not given to it; which session the payload's runtime session comes to is a parameter.
- LifecycleStore.Store.ReconcileHeartbeatRuns: the names are given trimmed, in the order the map iteration happens to take.
- Timestamps.LaterSortsFirstIff: for times in the years of four digits, as the agent's clock gives them.
- Outbox.Client.Emit: a send that fails is taken not to have reached the network; `Channel` allows any saved event to be sent at any time.
- LifecycleStore.Store.ClaimAndDispatchCommand: the outcome of the hub is a parameter; how the hub reaches it is the subject of `HubSystem`.
- RebuildStore.Rebuilder.RebuildRunProjections: rebuilding approvals and runtime sessions is not modelled; whether the agent has a reported session is a parameter, and failures of the database itself are left out.
- HubSystem.SingleDelivery: hubs without a shared lease table, where there is no lease to match, are not modelled.
- GitStatus.ParseGitStatus: the values in branch header lines are not modelled; header lines contribute no change.
- Approvals on the server, except as a status step of their command.
- Commands the agent handles outside the run manager, and its other tables: sessions, projects, cursors, chunks.
- The dashboard, HTTP handlers, configuration, installation and user administration.
- Encryption, signatures and hashes: ids made by hashing are taken to be injective.
- Process execution, file scanning, websockets, Redis and the SQL engines themselves: tables, queues, leases and clocks are modelled directly.
- Migrations and interleaving inside one store transaction.
- Server run status as an absorbing state: events and retries overwrite it in the source.
