# MonoCode: verified models of the host and desktop state machines

This project models the parts of MonoCode that keep state for a user: the remote host's
session engine and its store, the checkpoints that make edits of several sessions in one
checkout undoable and transferable, the automation scheduler, the reservation of checkouts
by orchestrating sessions, and four small machines that cut, join and clean text and files.

The classes follow the original objects: their fields, their methods, their loops. Each
method is proved equal to a specification on values, and the properties are proved about
those specifications, over whole runs where the original runs concurrently. One module per
component:

- `HostSessions`, `DeltaSync`, `HostStores`: session records, delta synchronisation, and the
  store with its cache, transactions, summaries and trimmed log.
- `HostSteps`, `HostEngines`: the engine as steps, one per synchronous stretch between two
  `await`s, and as a class over the store.
- `HostRuns`, `HostGuarantees`, `HostStreams`, `HostFailures`, `HostWriteThrough`,
  `HostClients`, `HostRebinding`, `HostLostTurn`, `HostEndings`, `HostCancels`,
  `HostCommands`: what every step keeps; what clients can
  rely on; what a step does to a session with events waiting; crashes and failures; the
  batched engine against one that writes every event at once; distinct block ids; providers
  that cannot be bound again, and a run in which a turn is lost to that; what a session holds
  after a turn, a cancellation, a command or an edit.
- `Checkpoint`, `CheckpointUndo`, `CheckpointReview`, `CheckpointTransfer`: snapshots, undo,
  review, transfer.
- `Automations`, `AutomationRuns`, `AutomationResults`: claims, histories, summaries, their
  invariants, and what is stored of each run.
- `Control`, `ControlAccess`: grants, workers and active turns, and the use of the app.
- `SyncTransfers`, `Attachments`, `Base64`, `StreamFraming`, `JsoncComments`.

What the host engine takes from other files enters as a `Harness`: the transcript reducer
`applyHarnessEvent` and `stopStreaming`, titles, attachments, worktrees and providers are
arbitrary functions. Of the reducer it is assumed that it keeps the session's name and
makes no drafts (`Lawful`) and, where block ids matter, that it invents only new ones
(`KeepsNames`). Random identifiers are new, and rebinding a provider does not throw
(`Fair`); `HostRebinding` says what holds where it does. Clocks, identifiers and failing
writes are parameters of every step.

Four promises do not hold of the code as it stands. Each is stated with a run that breaks
it and the exact condition under which it holds:

- An edit of an automation reads its clock before it takes the lock, so an edit that
  commits after a claim can make the same occurrence run again
  (`AutomationRuns.NextClaimIsLaterIff`, `EditReopensIff`, `SlowEditRepeatsAnOccurrence`).
- A worker checkout may be called safe to clean up although it holds an edit: one made
  before the file's first boundary, before the first one after the file was kept, or
  committed (`CheckpointTransfer.CleanupSafeIff`, `UnannouncedEditIsLost`,
  `KeptEditIsLost`, `CommittedEditPasses`); outside a repository, any edit that was never
  announced (`OutsideARepositoryEditIsLost`). In the same way an oversized file
  replaced by another is not noticed (`CheckpointUndo.ForeignEditIsNoticedIff`,
  `OversizedEditIsLost`).
- A turn authorised above two grants, or a busy worker attached to another lead, lets
  a session work in somebody else's checkout (`Control.ExclusionHoldsIff`,
  `ParentDirectoryEscapes`, `BusyWorkerEscapes`).
- If rebinding a provider throws after a turn has settled, the retry for the finished turn
  drops the next one (`HostRebinding.MapStaysRightIff`, `HostLostTurn.ATurnIsLost`).

Three smaller ones: a client that reuses a block id as a command id makes deltas and
snapshots differ (`DeltaSync.SyncConvergesIff`), the root directory overlaps nothing but
itself (`Control.OverlapIsAncestry`), and a transfer with a limit under 8 bytes has pieces
over the limit (`SyncTransfers.LimitsAreExact`).

`dafny verify dfyconfig.toml` checks the whole project.

## Model

| member | source | states |
|---|---|---|
| HostRuns.StepKeepsInv | host/engine.ts:264-925 | every step of the host (command, event, timer, provider and settlement of a turn, retry, edit, deletion, branch switch, closing, restart), with any write failing, keeps: the running map is exactly the sessions stored as running, live sessions are the stored ones with the pending events applied, one turn to a run, no draft while running and at most one otherwise, no plan left building, a gap-free log, a past in which every logged batch rebuilds its revision, each command dispatched at most once |
| HostGuarantees.NewHostIsFine | host/engine.ts:246-262 | a host without sessions meets all of this |
| HostGuarantees.LifeCycle | host/engine.ts:778-913 | in every state of every run: running in memory if and only if stored as running, with the same run; live sessions run; a waiting session has no plan being built and at most one draft, a running one none |
| HostGuarantees.NewRunReplacesNothing | host/engine.ts:477-483 | a send or compaction that is accepted finds no run, no live session, no turn and no retry timer of its session, and starts exactly its own |
| HostGuarantees.OnlyTheCurrentRunIsHeard | host/engine.ts:864-879 | an event changes something only if its run is the one stored and running, and then no other session |
| HostGuarantees.AcceptedOnce | host/engine.ts:414-424 | once a command was accepted, its id changes nothing ever again, across crashes and restarts: the same payload gets the same receipt, another payload is refused, and a closing host refuses both |
| HostGuarantees.DispatchedAtMostOnce | host/engine.ts:778-822 | the list of commands handed to a provider only grows, never repeats one, and holds only commands with a receipt, over every run with crashes |
| HostGuarantees.SwitchExcludesRuns | host/engine.ts:300-320 | while a branch switch holds a project, none of its sessions is stored as running, running or live |
| HostGuarantees.BusyIsSeenInSummaries | host/engine.ts:306-314 | a project has a running session if and only if one of its summaries says so |
| HostWriteThrough.BatchedRefinesWriteThrough | host/engine.ts:264-925 | in every run, with events, timers, commands, edits, generated names, ends of turns, retries, deletions, restarts and failing writes in any order, every session is what an engine that writes each event at once would hold; a restart alone takes the session as last saved |
| HostWriteThrough.ThroughStep | host/engine.ts:264-925 | the same for one step and every session, its own and all others |
| HostWriteThrough.StreamIsFolded | host/engine.ts:864-879 | between two operations on it, whatever happens to other sessions and whichever writes fail, a session is what it was with exactly the accepted events applied, each once and in order |
| HostStreams.EventsAreAbsorbed | host/engine.ts:345-368 | an accepted event is in the session at once, whether its batch waits, is written, or fails to be |
| HostStreams.CommandsSeeEveryEvent | host/engine.ts:425-707 | a command is accepted if and only if it fits the session with everything streamed so far and storage works, and acts on exactly that; a refused one leaves the session |
| HostStreams.SettlementSeesEveryEvent | host/engine.ts:824-846 | a turn that ends stores its session with everything streamed, settled; if stopping, flushing or saving fails the session keeps running with everything it had |
| HostStreams.RetrySeesEveryEvent | host/engine.ts:370-412 | the same for the retry after a failure, which stores an interruption that ends with the last save of the session |
| HostStreams.EditsSeeEveryEvent | host/engine.ts:337-343 | an edit (title, archive, pin, linked item, generated title or branch) is made on everything streamed so far, or not at all, and changes no other session |
| HostStreams.HousekeepingChangesNothing | host/engine.ts:345-368 | timers, phases of turns, branch switches and closing change no session |
| HostStreams.LoggedEventsRebuild | host/engine.ts:328-335 | every logged batch of events turns the revision before its save into the revision it was saved as; the log has exactly the last revisions |
| HostStreams.ClientsConvergeIff | host/engine.ts:328-335 | at every point of every run, a client that holds nothing or any revision ever saved gets an applicable answer to one sync; it is the current session, for a delta if and only if blocks that share an id are equal |
| HostClients.ClientsConverge | host/store.ts:137-156 | if a new send, draft or compaction has an id that no block of the session has, that client always gets exactly the current session; commands may be repeated at will, before and after a restart |
| HostClients.StepKeepsNames | host/engine.ts:516-525 | every step keeps the block ids of every stored session distinct, under that condition, which asks nothing of a command answered from its receipt |
| HostEndings.TurnsEndAsTheyWent | host/engine.ts:824-846 | in every run, a turn that ends is stored with all it streamed: the plans it was building are built if and only if the host goes on, every write succeeded, nobody cancelled it and the provider reported no error, and are ready again otherwise; no other block changes; one notice is added if there is anything to say, in the order closing, storage, cancelled, error; the log keeps what was reported |
| HostEndings.RetriesCutOff | host/engine.ts:378-396 | in every run, a retry stores the turn as cut off when the session was last saved, its plans ready again, with the notice that storage failed |
| HostEndings.RestartsCutOff | host/engine.ts:264-289 | in every run, a restart stores every running session as cut off when it was last saved, with the notice of a restart, and leaves the others |
| HostCancels.CancelledRunsStayCancelled | host/engine.ts:646-652 | in every run, an accepted cancellation marks the current run, and it stays marked until it is over |
| HostCancels.CancelledTurnsAreNotSent | host/engine.ts:785-822 | in every run, a turn cancelled while it is queued is never handed to its provider |
| HostCancels.CancelledTurnsSaySo | host/engine.ts:834-846 | in every run, the stored end of a cancelled turn says who stopped it, has no built plan and is logged as cancelled, unless the host closes or a write failed |
| HostCancels.OnlyCommandsCancel | host/engine.ts:646-652 | a run marked as cancelled was marked by a new command that found it unmarked |
| HostCancels.FailedWritesAreTold | host/engine.ts:356-368 | in every run, the stored end of a turn one of whose batches could not be written when it was due is an interruption that says so |
| HostCancels.ReportsAreKept | host/engine.ts:796-822 | what the provider of a turn reported is what the turn ends with, however often that is tried |
| HostCancels.TurnsAreSentIff | host/engine.ts:789-822 | a queued turn is handed to its provider if and only if nobody cancelled it and the host is not closing, and goes to its end otherwise |
| HostCancels.ClosingSendsNothing | host/engine.ts:915-925 | in every run, a closing host hands nothing to a provider until it restarts |
| HostCancels.ClosingArmsNothing | host/engine.ts:370-376 | and has no retry armed |
| HostCancels.RunsDifferThroughout | host/engine.ts:785-788 | in every run, running sessions have different runs |
| HostCommands.CommandsAreStored | host/engine.ts:425-707 | in every run, a new command is accepted if and only if it fits its session with all that was streamed, for each kind of command by its own conditions on blocks, status, project and provider; the stored row then differs by exactly what that kind says (message, files, drafts, title, approved plan, settings, question), and receipt, revision and log agree with it |
| HostCommands.CreationsAreStored | host/engine.ts:425-455 | in every run, a session is created if and only if project, provider and worktree are there and no branch is being switched, with every field as the command says |
| HostCommands.EditsAreStored | host/store.ts:199-225 | in every run, an edit is made if and only if the session is there, a title it names has text and at most 200 characters, and storage works; it sets the fields it names, the title without the blanks around it, and no other |
| HostCommands.TitlesAreStored | host/engine.ts:720-741 | in every run, a generated title is stored if and only if the session still has the title it had |
| HostCommands.BranchesAreStored | host/engine.ts:758-771 | in every run, a generated branch name is stored in place of the temporary one |
| HostCommands.SummariesShow | host/store.ts:313-340 | each field of a summary is that of its row; input is needed if an approval or a question is open in a worktree that is still there; a draft is a draft of the user |
| HostFailures.CrashLosesOnlyABatch | host/engine.ts:264-289 | after a crash and a restart every session is what was stored, a running one interrupted and no longer running; what it had streamed beyond that is one waiting batch, with nothing urgent in it unless a write had failed |
| HostFailures.NothingUrgentWaits | host/engine.ts:864-879 | in every run, an approval, question, error or completion never waits in a batch unless a write of its session has failed |
| HostRebinding.MapStaysRightIff | host/engine.ts:370-412 | over every run in which binding may throw whenever a turn ends, the running map is right in every state if and only if no retry of a finished turn goes through while a newer run of its session is stored as running |
| HostRebinding.SessionsStayOk | host/engine.ts:370-412 | in such a run everything that is kept of the sessions holds as where binding never throws |
| HostLostTurn.ATurnIsLost | host/engine.ts:824-861 | a run of nine steps from a new host, with no failure but one binding that throws, at whose end a session is stored as running and forgotten by the host |
| HostFailures.FailedBindingLeavesATimer | host/engine.ts:847-861 | if rebinding the provider throws after a turn has settled, a retry stays armed for the finished run |
| HostFailures.LeftBehindDropsANewerRun | host/engine.ts:370-402 | that retry then removes the next run: the session stays stored as running while the host has forgotten it |
| HostEngines.HostEngine.constructor | host/engine.ts:264-289 | a new process stores every session that was running as interrupted and starts with empty maps |
| HostEngines.HostEngine.Command | host/engine.ts:414-712 | the new state and the answer are those of the command step: receipts first, then the flush, one transaction, then the effect |
| HostEngines.HostEngine.Event | host/engine.ts:864-879 | the new state is that of the event step; the provider is stopped if and only if an urgent event was accepted and could not be written |
| HostEngines.HostEngine.Flush | host/engine.ts:345-354 | pending events become one saved revision; a failed save changes nothing |
| HostEngines.HostEngine.ScheduledFlush | host/engine.ts:356-368 | a failed timer flush marks the run and asks for the provider to be stopped |
| HostEngines.HostEngine.BeginTurn | host/engine.ts:796-822 | a queued turn is handed to its provider unless it was cancelled or the host closes |
| HostEngines.HostEngine.FinishTurn | host/engine.ts:824-861 | the new state is that of the settlement step |
| HostEngines.HostEngine.FinishRetry | host/engine.ts:378-409 | the new state is that of the retry step |
| HostEngines.HostEngine.RetrySettlement | host/engine.ts:370-376 | one timer per session, none while the host closes |
| HostEngines.HostEngine.UpdateSession | host/engine.ts:337-343 | the new state is that of the edit step; the answer is the summary of what was stored, or nothing if the edit was refused |
| HostEngines.HostEngine.NameSession | host/engine.ts:720-747 | a generated title is stored unless the session was renamed meanwhile |
| HostEngines.HostEngine.NameBranch | host/engine.ts:758-771 | a generated branch name is stored and the temporary one forgotten |
| HostEngines.HostEngine.BeginProjectSwitch | host/engine.ts:300-316 | a switch begins if and only if the project is not held and has no running session |
| HostEngines.HostEngine.DeleteSession | host/store.ts:227-236 | a session goes with its log if and only if it exists, does not run and storage works |
| HostEngines.HostEngine.Shutdown | host/engine.ts:915-925 | closing drops every armed retry and keeps everything else |
| HostStores.HostStore.Save | host/store.ts:170-197 | the row, its summary and the log after a save: stamps taken against the row replaced, creation time preserved, old log entries gone |
| HostStores.HostStore.Commit | host/store.ts:50-65 | a failed commit puts back every table and every summary and leaves a faithful cache |
| HostStores.HostStore.Rollback | host/store.ts:56-64 | the tables are those of the beginning and the cache is empty |
| HostStores.HostStore.Find | host/store.ts:96-105 | a session read through the cache is its row |
| HostStores.UsedIsFaithful | host/store.ts:88-94 | after an access every cached value equals its row, at most 32 are cached, and the one just used is the newest and still there |
| HostStores.HostStore.Summaries | host/store.ts:113-135 | the summaries of a project, each session once and the last updated first, are those of its stored snapshots, also where a row of an older version is summarised again |
| HostStores.HostStore.UpdateSession | host/store.ts:199-225 | an edit saves exactly the patched session, or changes nothing |
| HostStores.HostStore.EventsSince | host/store.ts:252-275 | a cursor is answered with exactly the records after it, in order, if and only if it lies between max(0, revision - 2001) and the revision, and with the snapshot otherwise |
| HostStores.ReplayOf | host/store.ts:257-274 | the same over the rows of the query, which the log without a gap makes consecutive |
| HostStores.SaveKeepsGapFree | host/store.ts:190-196 | after every save the log holds exactly the revisions from max(1, revision - 2000) on |
| HostStores.HostStore.FindReceipt | host/store.ts:238-244 | an unused id, the receipt of the same command, or a refusal |
| DeltaSync.BlockRevisions | host/store.ts:344-363 | a block unchanged since the previous snapshot keeps its stamp, every other gets the new revision |
| DeltaSync.StampsAreUnique | host/store.ts:344-363 | those stamps are determined by the two snapshots |
| DeltaSync.StampsSinceFirstSave | host/store.ts:344-363 | in any history of saves, a block stamped with a revision has been the same in every revision since |
| DeltaSync.ApplySessionSync | src/features/connections/model/protocol.ts:117-148 | the client loop over the overlaid block table computes the specified session, or the specified error |
| DeltaSync.DeltaRebuilds | host/store.ts:137-156 | a client at any earlier revision that applies the delta gets the current session, each id showing its last block |
| DeltaSync.SyncConvergesIff | src/features/connections/model/protocol.ts:117-148 | from every state a client can be in, an answer applies, and yields the current snapshot if and only if it is no delta or ids decide the blocks |
| DeltaSync.ChainConverges | src/features/connections/model/protocol.ts:117-148 | any chain of syncs ends with the snapshot of the revision last asked for |
| DeltaSync.ReusedIdBreaksDeltas | host/store.ts:137-156 | a client that reuses an existing block id makes a delta show the newer block twice, where a snapshot shows both |
| CheckpointUndo.BracketsChain | src-tauri/src/checkpoint.rs:91-194 | while boundaries of a path alternate, its record holds the first state before and the last state after, and the path counts as diverged if and only if some edit did not start where the previous one ended |
| CheckpointUndo.UndoReturnsToTheFirstBoundary | src-tauri/src/checkpoint.rs:395-436 | whenever undo accepts a path, the recorded edits form an unbroken chain ending in the present file, and undo gives back the state before the first |
| CheckpointUndo.UndoAllIsScoped | src-tauri/src/checkpoint.rs:426-435 | at any point of any run, undoing everything gives every listed path its first state and changes no other path, in particular none another session claims |
| CheckpointUndo.WellFormedThroughout | src-tauri/src/checkpoint.rs:91-194 | along every run of a record, prepared paths have a snapshot from before, touched ones one from after, and no snapshot is oversized |
| CheckpointUndo.UndoLeavesOthersReview | src-tauri/src/checkpoint.rs:474-495 | the undo of one session leaves what every other session has to review, and only ever removes obstacles to undoing that |
| CheckpointUndo.ForeignEditIsNoticedIff | src-tauri/src/checkpoint.rs:973-1024 | in every run, an unclaimed change may be undone if and only if nobody else edited the file between two edits of the session or since its last boundary, except from one oversized file to another; those are the foreign edits an undo discards |
| CheckpointUndo.OversizedEditIsLost | src-tauri/src/checkpoint.rs:1155-1160 | a run in which undo discards such an unnoticed edit |
| CheckpointUndo.PrepareAllSlot | src-tauri/src/checkpoint.rs:91-144 | a list of paths is prepared path by path, once each, whatever its order |
| CheckpointUndo.CaptureAllSlot | src-tauri/src/checkpoint.rs:146-194 | exactly the paths before the limit of 500 are captured, once each |
| CheckpointReview.ReviewListsIff | src-tauri/src/checkpoint.rs:973-1062 | in every run, a path is listed for review if and only if the session edited it, its last edit does not end where its first began, the file is not as it was then, which is known, and it is not clean in git while committed now or at a boundary |
| CheckpointReview.EntriesSay | src-tauri/src/checkpoint.rs:992-1005 | in every run, an entry is exact if and only if the edits of the session follow one another, and undoable if and only if no other session claims the path and nobody else edited it noticeably |
| CheckpointReview.CommittedEditIsSettled | src-tauri/src/checkpoint.rs:1054-1062 | in every run, a committed edit is neither listed nor touched by an undo of everything |
| CheckpointReview.TrackedIff | src-tauri/src/checkpoint.rs:128-170 | in every run, the record counts a path as committed if and only if it was when the record began or at a boundary |
| CheckpointReview.ClaimedIff | src-tauri/src/checkpoint.rs:474-495 | in every run, a session claims a path as soon as it has edited it |
| CheckpointReview.ForeignIff | src-tauri/src/checkpoint.rs:474-495 | claims are respected between sessions with a record of the same checkout |
| CheckpointReview.ReviewIsOfItsCheckout | src-tauri/src/checkpoint.rs:462-471 | a review is of the record of the session in that checkout, and empty without one |
| CheckpointReview.VerifiedEditsAreOwn | src-tauri/src/checkpoint.rs:803-880 | in every run, the edits in a verified record follow one another and end in the present file |
| CheckpointReview.UndoKeepsPermissions | src-tauri/src/checkpoint.rs:1172-1200 | undo keeps the permissions of a file that is still there |
| CheckpointTransfer.TransferMakesCheckoutsEqual | src-tauri/src/checkpoint.rs:213-280 | if the lead is where the worker started, a transfer makes both checkouts equal on every file git looks at, down to permissions on every recorded file |
| CheckpointTransfer.AcceptedTransferMakesEqual | src-tauri/src/checkpoint.rs:213-280 | an accepted transfer to such a lead does |
| CheckpointTransfer.TransferLosesNothing | src-tauri/src/checkpoint.rs:236-263 | a file of any lead that an accepted transfer changes was exactly as the worker found it, and becomes exactly as the worker left it |
| CheckpointTransfer.BaselineLeadFits | src-tauri/src/checkpoint.rs:235-263 | such a lead accepts the transfer if and only if the worker record is complete |
| CheckpointTransfer.RestartEndsTheSame | src-tauri/src/checkpoint.rs:236-274 | a transfer stopped between any two files can be started again and ends as if it had not stopped |
| CheckpointTransfer.CleanupSafeMeansOnRecord | src-tauri/src/checkpoint.rs:282-292 | a worker that may be cleaned up holds its recorded snapshots and, off the record, its commit |
| CheckpointTransfer.CleanupSafeIff | src-tauri/src/checkpoint.rs:282-292 | such a worker holds no change since it started if and only if every snapshot still on record shows its file as it started, and off the record the commit does; for every run, with releases, renewed records and commits |
| CheckpointTransfer.CleanupSafeOnOneCommitIff | src-tauri/src/checkpoint.rs:282-292 | if the commit has not moved: if and only if every boundary on record first saw its file as it started, and every file dirty then is still on record |
| CheckpointTransfer.UnannouncedEditIsLost | src-tauri/src/checkpoint.rs:114-134 | a run in which an unannounced edit is taken for the starting state and the worker may be cleaned up with it |
| CheckpointTransfer.KeptEditIsLost | src-tauri/src/checkpoint.rs:438-460 | a run in which every edit was announced and one file kept before it was announced again, and the worker may be cleaned up with the edit |
| CheckpointTransfer.CommittedEditPasses | src-tauri/src/checkpoint.rs:282-292 | a run in which the worker committed its edit and may be cleaned up |
| CheckpointTransfer.OutsideARepositoryEditIsLost | src-tauri/src/checkpoint.rs:803-880 | outside a repository any edit at all that was never announced passes |
| CheckpointTransfer.SnapshotsAreFirstBoundaries | src-tauri/src/checkpoint.rs:108-138 | in every run, a prepared path keeps the snapshot of its first boundary since its last release, an untouched one that of the beginning of the record |
| Checkpoint.CheckpointStore.Ensure | src-tauri/src/checkpoint.rs:51-89 | an existing record of this checkout stays; a new one holds at most 500 of the dirty files as they are |
| Checkpoint.CheckpointStore.Prepare | src-tauri/src/checkpoint.rs:91-144 | the new record is that of preparing each path |
| Checkpoint.CheckpointStore.Capture | src-tauri/src/checkpoint.rs:146-194 | the new record is that of capturing each path up to the limit |
| Checkpoint.CheckpointStore.Status | src-tauri/src/checkpoint.rs:196-211 | review lists exactly the prepared and touched paths that still differ, with what may be undone |
| Checkpoint.DiffFromManifest | src-tauri/src/checkpoint.rs:973-1024 | the loop over touched paths lists exactly those |
| Checkpoint.CheckpointStore.ForeignTouchedPaths | src-tauri/src/checkpoint.rs:474-495 | the paths other sessions of the checkout touched after preparing them |
| Checkpoint.CheckpointStore.Undo | src-tauri/src/checkpoint.rs:395-436 | undo refuses and changes nothing, or restores every listed path; one path only if it is listed; the answer is the review of the new state |
| Checkpoint.CheckpointStore.Keep | src-tauri/src/checkpoint.rs:438-460 | keeping releases one path, or the whole record, touches no file, and answers the review of the new state |
| Checkpoint.CheckpointStore.VerifiedWorkerDelta | src-tauri/src/checkpoint.rs:803-880 | succeeds if and only if every recorded path is where its snapshots say and nothing else is dirty, and lists exactly the changed paths |
| Checkpoint.CheckpointStore.Apply | src-tauri/src/checkpoint.rs:213-280 | accepted if and only if all preconditions hold on all paths; a refusal changes nothing; otherwise exactly the reached paths are written |
| Checkpoint.CheckpointStore.CleanupSafe | src-tauri/src/checkpoint.rs:282-292 | true if and only if the record is verified and has no change |
| Checkpoint.Preflight | src-tauri/src/checkpoint.rs:236-263 | the lead fits if and only if every changed path is as before or as after, and the count is of those already done |
| AutomationRuns.InvHoldsThroughout | src-tauri/src/automations.rs:591-637 | in every run with later creation times for later runs, the summary beside an automation is its newest run, the due columns equal the stored definition, and every key of a stored run is in the ledger |
| AutomationRuns.StepKeepsInv | src-tauri/src/automations.rs:646-1022 | the same for each operation |
| AutomationRuns.OccurrencesIncrease | src-tauri/src/automations.rs:839-898 | scheduled claims of an automation have strictly increasing times, whoever makes them and whatever happens between, as long as every save after the first names an occurrence beyond it |
| AutomationRuns.OccurrencesIncreaseUnderOneClock | src-tauri/src/automations.rs:839-898 | which is so if clocks are read in the order of the transactions |
| AutomationRuns.NextClaimIsLaterIff | src-tauri/src/automations.rs:839-898 | of two successive claims the second is later if and only if nothing was saved between them or the last save names an occurrence beyond the first |
| AutomationRuns.EditReopensIff | src-tauri/src/automations.rs:646-703 | an edit whose clock was read before the lock reopens a claimed occurrence if and only if it names a next run no later than that claim |
| AutomationRuns.SlowEditRepeatsAnOccurrence | src-tauri/src/automations.rs:646-665 | a run in which such an edit makes one occurrence run twice |
| AutomationRuns.EventClaimedOnce | src-tauri/src/automations.rs:900-964 | an event key is claimed at most once while its automation exists, whatever is trimmed |
| AutomationRuns.BackfillCoversHistory | src-tauri/src/automations.rs:216-243 | after a restart no key of any stored run is claimed again |
| AutomationRuns.TrimKeepsExactly | src-tauri/src/automations.rs:591-623 | trimming keeps every unfinished run and the hundred newest; a run it drops has a hundred newer ones left, one it keeps although finished has fewer |
| AutomationResults.OccurrenceIsClaimedIff | src-tauri/src/automations.rs:846-873 | an occurrence is claimed if and only if the automation is on, has a time trigger and stands at it, it is due and a later one follows |
| AutomationResults.ScheduledRunIsStored | src-tauri/src/automations.rs:874-896 | in every run, a scheduled claim stores a run of that occurrence with the prompt of the plan, pending if it is not later than the grace period and skipped at once otherwise, and the summary and the plan follow |
| AutomationResults.EventIsClaimedIff | src-tauri/src/automations.rs:907-945 | an event is claimed if and only if key, kind, name and prompt are well-formed, the automation is on and waits for it, and the key is not in the ledger |
| AutomationResults.EventRunIsStored | src-tauri/src/automations.rs:946-963 | in every run, an event claim stores a pending run with its key, kind, name, prompt and time |
| AutomationResults.ManualRunIsStored | src-tauri/src/automations.rs:814-836 | in every run, a run started by hand is stored as pending, for now |
| AutomationResults.ReportIsStored | src-tauri/src/automations.rs:990-1018 | a report stores its status; the start is the first time it ran, the end the time of the last end, the session the last named, the error the one reported unless blank |
| AutomationResults.SessionIsRemembered | src-tauri/src/automations.rs:625-637 | the automation remembers the session of its newest run that has one |
| AutomationResults.RestartIsStored | src-tauri/src/automations.rs:761-805 | a restart cancels exactly the running runs made before it, fails those whose event prompt is gone and leaves all others |
| AutomationResults.EditIsStored | src-tauri/src/automations.rs:646-703 | an edit replaces the plan and keeps creation time, summary and session; a new automation has none |
| AutomationResults.DeletionIsComplete | src-tauri/src/automations.rs:706-718 | a deleted automation goes with its runs and keys, and no other |
| AutomationResults.TimesHoldThroughout | src-tauri/src/automations.rs:990-1010 | in every run, a running run has started and a finished one has ended |
| Automations.RankIsIndex | src-tauri/src/automations.rs:574-589 | in the sorted history the position of a run is the number of newer ones |
| Automations.DeletedAreNotKept | src-tauri/src/automations.rs:595-611 | the runs past the hundredth row that are finished are exactly the runs not kept |
| Automations.AutomationStore.TrimHistory | src-tauri/src/automations.rs:591-623 | the loop over the sorted rows deletes exactly those |
| Automations.AutomationStore.ClaimDue | src-tauri/src/automations.rs:839-898 | claims if and only if the row is enabled, has a time trigger, and stands at the expected, due time; the run is skipped beyond its grace period; the answer is the run and the stored automation |
| Automations.AutomationStore.ClaimEvent | src-tauri/src/automations.rs:900-964 | claims if and only if the event is valid, wanted and its key unclaimed, and answers the run of that event and the stored automation |
| Automations.AutomationStore.Upsert | src-tauri/src/automations.rs:646-703 | refused if the next run is not after the clock; otherwise keeps the summary and replaces the plan |
| Automations.AutomationStore.UpdateRun | src-tauri/src/automations.rs:967-1022 | stores the run, lets the summary follow, trims, and answers the run |
| Automations.AutomationStore.Recover | src-tauri/src/automations.rs:737-812 | runs left running are cancelled, event runs without a prompt fail, and exactly the other pending ones are returned, oldest first, each with the plan of its automation |
| Automations.RestartableAreTheWaiting | src-tauri/src/automations.rs:761-799 | the runs a restart hands out are exactly the listed ones still pending, in the order of the list |
| Automations.AutomationStore.RunNow | src-tauri/src/automations.rs:814-836 | a manual run starts if and only if the automation exists, and becomes the summary |
| Control.CheckoutExclusion | src-tauri/src/control.rs:285-450 | in every run whose turns overlap one grant and whose busy workers are not re-parented, every active turn in a granted checkout belongs to the lead or its worker |
| Control.ExclusionHoldsIff | src-tauri/src/control.rs:285-450 | in every run, every turn in a reserved checkout stays the lead or one of its workers if and only if each accepted operation was, where it was taken, one that keeps that |
| Control.TurnsStayOwnedIff | src-tauri/src/control.rs:358-450 | an accepted operation keeps that if and only if every grant that the new turn overlaps belongs to its session or the lead of it; or, for an attached worker that is busy, every grant it works in belongs to the new lead or to it |
| Control.GrantsStayApart | src-tauri/src/control.rs:285-333 | grants of different sessions never overlap, through every operation |
| Control.InsideAGrantIsExclusive | src-tauri/src/control.rs:406-444 | a turn at or below a grant overlaps no other, and so always keeps it |
| Control.ParentDirectoryEscapes | src-tauri/src/control.rs:406-444 | a turn above two grants is let in by one of them and works in the other |
| Control.BusyWorkerEscapes | src-tauri/src/control.rs:358-404 | a worker handed to another lead during its turn goes on in the checkout of the first |
| Control.OverlapIsAncestry | src-tauri/src/control.rs:126-128 | two canonical paths overlap if and only if one is the other or above it, except that the root is above nothing |
| Control.AboveIsComparable | src-tauri/src/control.rs:126-128 | whatever overlaps a path inside a checkout overlaps the checkout |
| Control.ClosedWindowIsGone | src-tauri/src/control.rs:102-119 | nothing of a closed window stays: grants, turns, requests, or workers of its leads |
| Control.Inner.Enable | src-tauri/src/control.rs:285-333 | reserves a checkout as the step says |
| Control.Inner.AuthorizeTurn | src-tauri/src/control.rs:406-444 | starts a turn if and only if no grant overlaps it, or one that does is its own lead or worker |
| Control.Inner.CloseWindow | src-tauri/src/control.rs:72-119 | ends exactly the sessions of the window |
| Control.Inner.RequestGrant | src-tauri/src/control.rs:161-183 | a token speaks for a grant of its table; the app table only while its session is neither lead nor worker and runs a turn in its window that may use the app |
| ControlAccess.TurnIsRecorded | src-tauri/src/control.rs:406-444 | a turn begins where no checkout is reserved, or for the lead it met or a worker of it in the window of that lead; it may use the app if and only if that was asked for and its session is neither lead nor worker, which then has a token, the old one if there is one |
| ControlAccess.CheckoutIsReserved | src-tauri/src/control.rs:285-333 | a checkout is reserved if and only if nobody else works in it or holds part of it and no other window holds it, and nothing else changes |
| ControlAccess.WorkerIsAttached | src-tauri/src/control.rs:358-386 | a lead in its window hires a session, which loses its token |
| ControlAccess.CheckoutIsGivenUp | src-tauri/src/control.rs:335-356 | giving up a checkout in its window dismisses exactly the workers of its lead |
| ControlAccess.TurnIsOver | src-tauri/src/control.rs:446-450 | a finished turn, and nothing else, goes |
| ControlAccess.WindowTakesExactly | src-tauri/src/control.rs:72-119 | a closed window takes exactly the sessions that hold a checkout or token of it or work in it, and the workers of its leads, from every table |
| ControlAccess.AppTurnsWereOptedIn | src-tauri/src/control.rs:406-444 | in every run, a turn may use the app if and only if the step that began it asked for that for a session that was neither lead nor worker |
| ControlAccess.AppUseWasOptedIn | src-tauri/src/control.rs:161-183 | in every run, whoever uses the app is neither lead nor worker, and its turn asked for that in that window and has not ended |
| ControlAccess.OptingInWorks | src-tauri/src/control.rs:161-183 | in every run, right after such a step the token works |
| SyncTransfers.TransferIsLossless | host/sync-transfer.ts:52-87 | reading from 0 and advancing by what was returned ends and joins to the text, for every text and limit; well-formed text is cut into well-formed pieces within the limit, from a limit of 8 on (section 7 of RFC 8259) |
| SyncTransfers.PieceIsBoundedAndWhole | host/sync-transfer.ts:66-87 | from a limit of 8 on a piece fits, is well formed, and if not the last has n units with 12n > limit - 14 |
| SyncTransfers.PieceIsWhole | host/sync-transfer.ts:66-87 | from a limit of 6 on no piece ends inside a surrogate pair |
| SyncTransfers.PiecesRebuildTheText | host/sync-transfer.ts:66-87 | the pieces from any offset join to the rest of the text, whatever the limit |
| SyncTransfers.ReaderGetsEveryPiece | host/sync-transfer.ts:52-87 | a reader in time gets exactly the pieces |
| SyncTransfers.LimitsAreExact | host/sync-transfer.ts:66-87 | every piece of every well-formed text fits if and only if the limit is at least 8, and no piece splits a pair if and only if it is at least 6 |
| SyncTransfers.FindEnd | host/sync-transfer.ts:66-82 | the halving loop ends at the specified end |
| SyncTransfers.Utf8Bound | host/sync-transfer.ts:33-50 | three bytes a unit bound the UTF-8 length (section 3 of RFC 3629) |
| SyncTransfers.SyncTransfers.Respond | host/sync-transfer.ts:33-50 | inline, with nothing changed, if and only if the text fits; otherwise a transfer that expires, after the expired and the oldest have gone |
| SyncTransfers.SyncTransfers.Prune | host/sync-transfer.ts:89-95 | expired transfers go, then the oldest until there is room |
| SyncTransfers.SyncTransfers.Chunk | host/sync-transfer.ts:52-87 | the answer and the table after a request, with every refusal |
| SyncTransfers.OnlyItsReaderIsAnswered | host/sync-transfer.ts:52-87 | a piece is given if and only if the transfer is there for that session, in time and at a place in the text; it is what comes next; the transfer lasts as long again, or is over at its end |
| SyncTransfers.PruningKeeps | host/sync-transfer.ts:89-95 | pruning leaves the last of the transfers that have not expired, in their order |
| Attachments.UploadIsAPrefix | host/attachments.ts:25-69 | for chunks cut from one content, in any order and repeated, the file is a prefix of it that only grows, and complete when as long |
| Attachments.AcknowledgedBytesStay | host/attachments.ts:25-69 | acknowledged bytes stay where they were written whatever comes later |
| Attachments.UploadsAreBounded | host/attachments.ts:25-69 | through any requests, files have valid names and are no larger than an attachment may be |
| Attachments.PreviewIsOfTheSession | host/attachments.ts:117-134 | a preview is given if and only if the first attachment of that name in the session is an image that is there in full |
| Attachments.HonestChunkAccepted | host/attachments.ts:25-69 | exactly which chunks of one content are accepted, and why the others are not |
| Attachments.ResumedUploadCompletes | host/attachments.ts:25-69 | an upload resumed at the stored length completes |
| Attachments.PreviewIsTheFile | host/attachments.ts:117-134 | the pieces of a preview join to the base64 of the file, and decode to it |
| Attachments.CollectedIsTheRest | host/attachments.ts:117-134 | the pieces from any offset join to the base64 of the rest |
| Attachments.AttachmentStore.WriteAttachmentChunk | host/attachments.ts:25-69 | the answer and the files after a chunk |
| Attachments.AttachmentStore.ResolveAttachments | host/attachments.ts:103-115 | resolves if and only if every file is there in full |
| Attachments.AttachmentStore.ReadAttachmentChunk | host/attachments.ts:117-134 | the piece at an offset, or the refusal |
| Base64.RoundTrip | host/attachments.ts:117-134 | decoding undoes encoding (section 4 of RFC 4648) |
| Base64.EncodeJoins | host/attachments.ts:117-134 | encodings of whole groups join |
| StreamFraming.LinesIgnoreChunks | host/child-backend.ts:378-406 | below the size limit the emitted lines depend on the text alone, however it is cut |
| StreamFraming.NeverStoppedIffBounded | host/child-backend.ts:390-400 | no cutting of a stream makes the reader stop its child if and only if every line is within the limit |
| StreamFraming.EventsIgnoreChunks | host/child-backend.ts:281-311 | the data events are those of a one-shot parse of the joined text, or the first of them if a limit stopped the reader |
| StreamFraming.EventsAfterIsByBlocks | host/child-backend.ts:293-308 | those are the data fields of each block of lines up to a blank one (section 9.2.6 of the HTML Living Standard) |
| StreamFraming.NeverFailsIffShort | host/child-backend.ts:287-307 | no cutting of a stream of events makes the reader fail if and only if the whole stream is within the limit |
| StreamFraming.ShortStreamsNeverFail | host/child-backend.ts:287-307 | a stream within what the limit leaves never fails |
| StreamFraming.UnfinishedEventIsDiscarded | host/child-backend.ts:293-299 | lines after the last blank one make no event |
| StreamFraming.LinesAreTheSplit | host/child-backend.ts:386-389 | lines and rest glue back to the text |
| StreamFraming.SplitIsUnique | host/child-backend.ts:386-389 | no other split does |
| StreamFraming.LineReader.Data | host/child-backend.ts:384-400 | the loop over the buffer emits the specified lines |
| StreamFraming.SseReader.Chunk | host/child-backend.ts:284-311 | the loop over the buffer emits the specified events |
| JsoncComments.StripFollowsTheGrammar | src-tauri/src/jsonc.rs:4-59 | stripping succeeds if and only if the text has a reading as tokens; there is only one, and the result is it with strings verbatim and comments replaced by space |
| JsoncComments.StripFailsOnlyOnAnOpenComment | src-tauri/src/jsonc.rs:38-54 | it fails if and only if a block comment is left open |
| JsoncComments.OutputIsCommentFree | src-tauri/src/jsonc.rs:4-59 | the result reads without a comment, has as many line feeds, and stripping it changes nothing |
| JsoncComments.LinesAreKept | src-tauri/src/jsonc.rs:26-54 | tokens keep their line feeds |
| JsoncComments.TokenizeReads | src-tauri/src/jsonc.rs:4-59 | every sequence of tokens that can stand together is read back as itself |
| JsoncComments.StripJsoncComments | src-tauri/src/jsonc.rs:4-59 | the loop over the characters computes that result |

## Left out

- Host engine: parsing and validation of commands, access tokens and devices; names, models and attachments are functions of the `Harness`.
- Host engine: the moment the batching timer fires; a flush may happen at any time. Calls into a provider that throw synchronously after a commit (`approve`, `answer`) are taken to return.
- Host engine: the rename of a worktree branch before its name is stored, and the images read from disk for a send, are input and output.
- HostEngines.HostEngine.NameBranch: the check of the temporary branch, and the git rename before the name is stored, come before this stretch and are not modelled.
- HostEngines.HostEngine.constructor: rebinding providers at start, and a write that fails during recovery, are not modelled; a process that does not come up is one that restarts.
- HostStores.HostStore.Rollback: a rollback that itself fails leaves the connection inside its transaction, which is SQLite's business.
- HostStores.HostStore.Summaries: sessions updated at the same time come in any order; not modelled are rows whose summary an older version wrote with these fields but other contents.
- HostStores.HostStore.Save: a revision that is already logged violates a key in SQLite; every caller saves the next one.
- HostClients.ClientsConverge: for sessions whose earlier revisions this version saved; older rows carry no stamps and are answered with snapshots.
- Checkpoint: reviews per turn (`src-tauri/src/checkpoint/turn.rs`), symbolic links, a file where a directory was, partial writes, line counts and `file_diff`. Paths are resolved already, and unresolvable ones dropped.
- Checkpoint: the index; git reports a path if it is committed or not ignored and its contents or executable bit differ from the commit.
- Checkpoint.CheckpointStore.Apply: the order of the paths is not modelled, and a process stops only between two files.
- CheckpointUndo.UndoReturnsToTheFirstBoundary: gives back contents, not permissions, as the code does.
- CheckpointUndo.BracketsChain: boundaries of one path have to alternate; two tools announcing the same file at once are not covered.
- Automations: schedules and their next times, legacy triggers, and the text of stored definitions; SQL is taken as operations on tables, each transaction as one step.
- AutomationRuns.InvHoldsThroughout: runs of one automation need later creation times than their siblings, as ties are decided by the identifier in the history but not in the summary.
- Control: how tokens are drawn, the request server past the token it is given, scratch directories, and canonical forms of paths.
- Control.Inner.RequestGrant: if two grants have the same token, which is found is left open, and so whether the app refuses.
- Control.Inner.AuthorizeTurn: which of several overlapping grants is found first is left open, as the order of a hash map is.
- SyncTransfers: the serialisation of a sync; its text is given, and an answer that nothing changed is sent as it is.
- Attachments: file names and types, and writes that stop half-way.
- StreamFraming: decoding bytes to text, child processes and HTTP.
- The HTTP server, command line, service installation, provider processes, windows, tracker clients and git helpers: plumbing over libraries.
