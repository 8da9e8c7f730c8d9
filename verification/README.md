# Verified model of the fleet controller

This project models the delivery guarantees of a three-tier fleet controller (a cloud server, room relays, contestant machines) and
proves them with Dafny 4.11. `dafny verify dfyconfig.toml` checks everything.

| file | models |
|---|---|
| `Fleet.dfy`, `Publications.dfy`, `Delivery.dfy` | cloud, relays and room ledgers composed: end-to-end at-most-once, soundness of "completed", for publications too, and that deliveries can succeed |
| `Deletions.dfy`, `LostMarks.dfy`, `LostJobMarks.dfy` | exactly when deleting an operation during a replay, or losing a ledger row of a device or a room, repeats a send or a job |
| `Cloud.dfy`, `Federation.dfy` | the cloud's job table, relay connections and delivery pass, as a machine and as the server's operations |
| `Relay.dfy` | durable request receipts, concurrent workers, crashes, the 503 path that gives a receipt back |
| `Ledger.dfy`, `Hub.dfy` | operation snapshots, the delivery ledger, fan-out and replay; device connections |
| `BroadcastStore.dfy`, `Assets.dfy`, `Freeze.dfy` | versioned publications: application, manifest checks, freezing |
| `Distribution.dfy`, `PostCommand.dfy`, `TaskCommand.dfy` | the multi-file distribution task, the client's post-command receipts, and both together |
| `Tracker.dfy`, `Reassembly.dfy`, `Framing.dfy`, `Pull.dfy` | peer tracker, chunked download, binary framing, verified resumable pull |
| `Identity.dfy`, `Restore.dfy` | identity allocation; backup and all-or-nothing restore |

Protocols are state machines: `Enabled` and `Next` give the steps, `IsRun` any interleaving of them, and the main results hold of every
run. Each section under one lock and each SQL transaction is one step; a connection's teardown with its requeue is one step. Classes hold
the source's mutable state, and their methods are tied to the same step functions or to a specification whose properties are proved
beside them. Tables are maps and sets, unique ids are fresh values, SHA-256 and CRC-32 are arbitrary functions, clocks, I/O outcomes and
peers' answers are parameters.

## Where a promise does not hold as stated

Each of these is a lemma with a concrete run or the exact condition.

- Deleting an operation snapshot takes no lock: during a replay it can make a device receive a command twice (`Ledger.DeletionDuringReplayCanSendTwice`, exact condition in `Ledger.DeletionIsSafeExactlyWhenQuiet`), and on the cloud give a room a second job for one operation (`Deletions.DeletionDuringReplayQueuesTwice`, exact condition in `Deletions.DeletionIsSafeExactlyWhenQuiet`).
- A send is repeated if its ledger row is lost, by a stop of the process in between or a failed write, exactly in the cases of `LostMarks.LostMarksMatterExactlyWhen` and `LostMarks.LostReplayMarkMattersExactlyWhen` (a run: `LostMarks.LostMarkSendsTwice`); on the cloud a room gets a second job for an operation exactly in the cases of `LostJobMarks.LostMarksMatterExactlyWhen` and `LostJobMarks.LostReplayMarkMattersExactlyWhen` (a run: `LostJobMarks.LostMarkQueuesTwice`).
- A job cancelled after a delivery pass picked it is still sent (`Cloud.CancelledJobCanStillBeSent`), although the repository's documentation says a job can be cancelled until it is delivered; being held by the pass is the exact condition (`Cloud.SettledJobIsSentExactlyWhenPicked`).
- Publications of one source converge only on what the highest revision writes (`BroadcastStore.LatestWins`); which fields depend on the order of two publications is exact (`BroadcastStore.OrderMattersForTheRest`).
- A report about one file can be credited to another exactly in tasks that have two files of one content (`Distribution.WrongConfirmationExactlyWhen`, step by step in `Distribution.HonestReportConfirmsItsFile`).
- A process restart falls back to the confirmations last written to disk, and a failed write is not noticed (exact condition in `Distribution.ConfirmationsSurvive`, a run in `Distribution.ConfirmationCanBeLost`).
- A successful report while no file is active, after a retry in that moment, writes to a map that does not exist and stops the process (`Distribution.CrashIsReachable`, exact condition in `Distribution.CrashesExactlyWhen`); the model restarts there. The repository's own client refuses a message without a digest of 64 characters (cmd/client/distribution.go:25), so only another client sends such a report.
- A receipt that cannot be read counts as none, and the post command runs again (`PostCommand.UnreadableReceiptRunsTwice`, exact condition in `PostCommand.LookIsSafeExactlyWhen`).
- A completed receipt does not always stay completed: a transfer that looked before there was a receipt still stores its "executing" over it, cancelled as it is (`PostCommand.CompletedReceiptCanFallBack`, exact condition in `PostCommand.CompletedFallsBackExactlyWhen`). Every later transfer of that key then answers "failed", although the command succeeded (cmd/client/distribution.go:80-84; `PostCommand.StuckForGood`).
- The tracker falls back to the sender when the winning peer registered an empty identifier, and a session removed under its own identifier after being reported as an owner loses those chunks (`Tracker.Session.Choose`, `Tracker.OwnershipIsKeptExactlyWhen`).
- Frame lengths and buffer capacities are compared modulo 2^32 (`Framing.FrameRoundTrip`).
- A numeric device id is reissued once it is deleted and nothing above it lives; the exact condition is in `Identity.DeletedIdIsReissued`.
- A backup whose data files have a backslash or `../` in a name cannot be restored (`Restore.BackupIsWhole`).
- A restore that fails leaves everything as it was only if what had been moved aside can be moved back (exact condition in `Restore.Server.RestoreBackup`).
- The limit on an archive's size adds the declared sizes modulo 2^64 (`Restore.LimitCanWrap`, exact condition in `Restore.LimitHoldsExactlyWhen`).

## Model

| member | source | states |
|---|---|---|
| Fleet.EndToEndAtMostOnce | internal/service/federation.go:1133-1165 | A recorded fleet operation has at most one job per room, each job's command or wake-up reaches a device of that room at most once and no device of another room, over every run of initial jobs, room replays, lost and repeated deliveries, relay restarts, fan-outs and device replays (no process stopping between a send and its ledger row, deletions quiet) |
| Fleet.CompletionIsSound | internal/service/federation.go:235-258 | A job is completed only if its room stores exactly its response as the outcome of that id, a success, produced by the one execution of the id that was not given back; every other execution of the id was harmless |
| Fleet.CompletedOutcomeIsFinal | internal/service/federation.go:555-568 | After completion the room keeps that outcome through every further step of the fleet, and delivering the job again starts nothing and is answered with the same response |
| Delivery.SuccessCompletes | internal/service/federation.go:235-258 | The converse of soundness: a room's success completes the job it names, with that response, there and then; nothing but a success newly completes one |
| Delivery.QueuedJobCanComplete | internal/service/federation.go:1015-1061 | In every state of a quiet run, a job that waits for a room not begun with it, which is free to fan out, can still be sent, executed, received exactly once by any device there, and completed |
| Publications.CompletedPublicationIsHeld | internal/service/federation_broadcast.go:269-357 | Once a job that carries a publication is completed, its room's tables hold that revision or a later one of the same source, then and in every later state, over every run in which the room's own edits lower no applied revision |
| Publications.RelayStepKeepsHeld | internal/service/federation.go:537-616 | Every relay step keeps: what was answered with success is held, and no source's applied revision goes down |
| Fleet.WhatCanBeDelivered | internal/service/federation.go:1042-1060 | A call reaches any room once it is made; a job reaches only its own room, exactly once it was transmitted |
| Fleet.OnlyTransmittedJobsReachDevices | internal/service/federation.go:1042-1060 | A device only ever receives a job that a delivery pass transmitted |
| Fleet.StepKeepsAnswers | internal/service/federation.go:537-616 | Every step of cloud, relay, ledger, replay or restart keeps: requests in a room are transmitted jobs of that room or interactive calls, and successful answers are stored outcomes |
| Fleet.StepKeepsExact | internal/service/snapshot.go:173-249 | Every quiet step keeps both ledgers exact: one job per recorded operation and marked room, and the room ledgers' own invariant |
| Fleet.HandlerIsFirst | internal/service/federation.go:548-569 | A handler starting work for a request id is the first ever to do so in that room, so its fan-out is never a repetition |
| Fleet.RecordCloudKeepsExact | internal/service/snapshot.go:173-190 | Recording an operation marks precisely the rooms whose jobs were queued with it, so replay queues no second copy |
| Fleet.ReplayOneKeepsExact | internal/service/snapshot.go:237-248 | A room replay queues an operation only where it is not marked, and marks it |
| Deletions.DeletionIsSafeExactlyWhenQuiet | internal/service/snapshot.go:448-460 | In every state of a quiet run, deleting operations on the cloud lets some operation come to have two jobs for a room if and only if a room replay under way holds one of them that the room was already given |
| Deletions.DeletionDuringReplayQueuesTwice | internal/service/snapshot.go:448-460 | A run from the start in which an operation deleted during a room replay gets a second job for the room |
| Deletions.ForgottenIsQueuedAgain | internal/service/snapshot.go:224-249 | A replayed operation that has a job but has lost its mark is queued once more, whatever stands before it in the replay |
| LostJobMarks.SafeExactlyIfMarked | internal/service/snapshot.go:224-249 | Whatever marks were lost, and whether or not a room replay is under way, some operation can come to have two jobs for a room if and only if a recorded one of the active snapshot has a job for an unmarked room, or the replay holds one |
| LostJobMarks.LostMarksMatterExactlyWhen | internal/service/snapshot.go:173-190 | Recording an operation with some marks lost, by a stop of the process or a failed write, queues a second job some time if and only if one of its jobs is for a room whose mark is lost; so too after a restart of the cloud |
| LostJobMarks.LostReplayMarkMattersExactlyWhen | internal/service/snapshot.go:237-248 | A replayed operation that is queued but not marked is queued once more some time if and only if the room was not marked before and the operation is still recorded under the active snapshot; so too after a restart of the cloud |
| LostJobMarks.LostMarkQueuesTwice | internal/service/snapshot.go:173-190 | A run from the start, for any room and request, in which a lost mark leads to a second job |
| Deletions.StepKeepsJobs | internal/service/snapshot.go:173-249 | Every step keeps: a room is marked only for an operation it has a job of |
| Relay.RelayAtMostOnce | internal/service/federation.go:548-614 | Of all executions of one non-GET id, over duplicates, concurrent workers, crashes and restarts, at most one ran a handler or changed the broadcast tables, and every execution whose receipt was given back (503) did neither |
| Relay.DuplicateIsAnsweredFromReceipt | internal/service/federation.go:555-568 | Once an outcome is stored, a later delivery in any later state of the run executes nothing and is answered with that very response |
| Relay.DuplicateExecutesNothing | internal/service/federation.go:548-569 | A duplicate executes nothing and changes no receipt; it is answered with the stored outcome, 102 while a worker has the request in hand, and 409 after the process that had it was interrupted |
| Relay.PendingMeansWorking | internal/service/federation.go:94-97 | As long as outcomes can be written, a receipt is pending exactly while some worker has that request in hand; after a restart none is |
| Relay.DoneIsForever | internal/service/federation.go:608-613 | A stored outcome is never overwritten or removed by any step |
| Relay.SuccessIsStored | internal/service/federation.go:537-616 | A success answered for a non-GET id is its stored outcome, and every answer carries the id it was asked for |
| Relay.AnswersAgree | internal/service/federation.go:572-615 | The delivery that was executed is answered with the stored outcome, as every duplicate then is; it is answered 409, and stays in hand, exactly if the outcome could not be stored |
| Relay.FailedPullLeavesNoReceipt | internal/service/federation.go:573-580 | A publication whose files cannot be had this time is answered 102 and leaves neither receipt nor change |
| Relay.GoodDeliveryIsApplied | internal/service/federation.go:548-615 | A publication that meets no obstacle is applied, answered 200, and stored as done |
| Relay.RetryArrives | internal/service/federation.go:573-580 | So the retry of a publication whose files could not be had is no duplicate, and arrives |
| Relay.StepKeepsInv | internal/service/federation.go:537-616 | Every relay step keeps: one kept execution per id, one worker holding an id, and stored outcomes being the kept execution's response |
| Relay.RestartKeepsInv | internal/service/federation.go:94-97 | Turning interrupted receipts into unknown keeps the relay's invariant |
| Relay.FinishKeepsInv | internal/service/federation.go:574-613 | Finishing, whether by storing the outcome, giving the receipt back or failing to write, keeps the relay's invariant |
| Relay.RelayNode.ExecuteRelay | internal/service/federation.go:537-616 | A request is turned away with nothing changed, as refused, malformed, not persisted or by its receipt, or it is executed once and answered with the handler's own answer, which is then its stored outcome; handling it with nothing in between is arrival, lookup or work, and conclusion of the relay machine |
| Relay.RelayNode.Reopen | internal/service/federation.go:94-97 | A restarted relay holds no pending receipt; every other receipt is as it was |
| Relay.RelayNode.RunHandler | internal/service/federation.go:572-607 | One execution is noted with its response and the broadcast tables around it |
| Cloud.NoRedeliveryWhileConnected | internal/service/federation.go:174-190 | A job sent successfully is sent again only after the connection that carried it is gone, and never over that connection |
| Cloud.StepKeepsInv | internal/service/federation.go:152-262 | Every step of the cloud keeps the invariant that separates two transmissions of a job |
| Cloud.RejectedRelayChangesNothing | internal/service/federation.go:175-182 | A second relay with a connected room's identity is turned away without requeueing, unmarking or sending anything, whatever happens next |
| Cloud.LostJobIsDeliverableAgain | internal/service/federation.go:183-190 | A job in flight to a room whose connection is lost is settled or, until it is marked sent again, selected by every query and delivered by every pass; jobs of other rooms are untouched |
| Cloud.JobsAreConserved | internal/service/federation.go:987-989 | Jobs are never lost, moved to another room or rewritten, over every run |
| Cloud.SettledJobIsNeverSent | internal/service/federation.go:1015-1061 | A settled job that no pass holds is never transmitted again |
| Cloud.SettledJobIsSentExactlyWhenPicked | internal/service/federation.go:1015-1061 | In every reachable state a settled job can still be transmitted if and only if the current pass holds it, as a row to check, picked, or in hand |
| Cloud.CancelledJobCanStillBeSent | internal/service/federation.go:1187-1199 | Whenever a job is queued and the pass idle, a pass can pick it, an administrator cancel it with success, and the pass transmit it all the same while it stays cancelled |
| Cloud.CancelledJobIsSent | internal/service/federation.go:1015-1061 | Such a run from the start, for any request that is not a GET |
| Cloud.SendKeepsInv | internal/service/federation.go:1054-1058 | A send, successful or not, keeps that no earlier carrier of the job is still connected |
| Cloud.QueuedJobGoesOut | internal/service/federation.go:1015-1061 | Whenever a job is queued for a connected room and the pass idle, a run of one pass sends it, leaves it marked as sent, and logs it |
| Cloud.TableStepKeepsInv | internal/service/federation.go:183-190 | Steps outside the delivery pass keep the invariant as long as they queue a job only when no live connection carried it |
| Federation.CloudServer.Connect | internal/service/federation.go:172-182 | A relay is accepted exactly if its room is not connected |
| Federation.CloudServer.Disconnect | internal/service/federation.go:183-190 | Losing a connection frees the room and queues again exactly the jobs sent to it and not settled |
| Federation.CloudServer.HandleResponse | internal/service/federation.go:235-258 | An answer settles only the job it names in the answering room: completed exactly for a success, unclear exactly for 409, failed otherwise, with that response kept; 102 leaves the status and only replaces a pending job's text |
| Federation.CloudServer.CancelJob | internal/service/federation.go:1187-1199 | Exactly a queued job can be cancelled |
| Federation.CloudServer.AllDevicesSelected | internal/service/federation.go:1064-1100 | A request counts as fleet-wide exactly if it names every reported device of every room that has any, and there is one |
| Federation.CloudServer.Queue | internal/service/federation.go:853-964 | A fleet-wide request queues one job for each known room addressing all its devices; a precise one queues one job per named room addressing its selection; an invalid one queues nothing |
| Federation.BuildJobs | internal/service/federation.go:883-954 | The queued rows have distinct ids, one per addressed room, or none at the first room that is unknown or lacks a selection |
| Federation.Selection | internal/service/federation.go:912-920 | A selection is the positive requested devices, each once |
| Federation.CheckSelection | internal/service/federation.go:893-905 | A precise job needs a non-empty list of positive devices |
| Federation.CloudServer.ChooseJobs | internal/service/federation.go:1015-1041 | The chosen jobs are those of the queried rows, in their order, that are queued, or were sent to a room now gone at least twenty seconds ago |
| Federation.CloudServer.SendJob | internal/service/federation.go:1042-1060 | A chosen job goes out over its room's present connection and counts as sent, or as queued again if the send fails; a settled one stays as it is, and without a connection nothing happens |
| Federation.CloudServer.DeliverJobs | internal/service/federation.go:1015-1061 | A pass without interference sends exactly the queried jobs that are queued for a connected room, each once over that room's connection, and touches no other job; it is a run of the cloud machine |
| Federation.ChosenRows | internal/service/federation.go:994-1041 | What is chosen is distinct and, for a connected room, exactly what is queued |
| Federation.DeliveredEffect | internal/service/federation.go:1042-1060 | Sending a list of distinct sendable jobs changes precisely those with a connected room and logs one transmission each |
| Ledger.LedgerIsExact | internal/service/snapshot.go:119-149 | With the lock free, the sends of a recorded command or wake-up to a device are one if its row exists and none otherwise; no operation ever reaches a device twice; over all fan-outs, replays, connects, full buffers, deletions and restarts that are quiet |
| Ledger.DeletionIsSafeExactlyWhenQuiet | internal/service/snapshot.go:448-460 | After deleting a snapshot, which takes no lock, some operation can come to reach a device twice if and only if a replay under way holds an operation of it that the ledger already has for the device |
| Ledger.DeletionDuringReplayCanSendTwice | internal/service/snapshot.go:448-460 | A run in which such a deletion makes a device receive a command twice |
| LostMarks.SafeExactlyIfMarked | internal/service/snapshot.go:119-222 | Whatever ledger rows were lost, some operation can come to reach a device twice if and only if one of the active snapshot has reached a device without a row |
| LostMarks.LostMarksMatterExactlyWhen | internal/service/snapshot.go:136-149 | A fan-out that loses rows, by a stop of the process or a failed write, repeats a send some time if and only if its operation is still recorded under the active snapshot and a served device has no row |
| LostMarks.LostReplayMarkMattersExactlyWhen | internal/service/snapshot.go:207-219 | A replayed operation that loses its row is repeated some time if and only if it was executed as a command or wake-up and is still recorded under the active snapshot |
| LostMarks.LostMarkSendsTwice | internal/service/snapshot.go:136-149 | A run from the start in which a command served to its device loses its row and can be sent twice |
| LostMarks.NextLike | internal/service/snapshot.go:119-249 | Operations outside the active snapshot might as well be deleted: every step acts alike with and without them |
| Ledger.StepKeepsInv | internal/service/snapshot.go:119-249 | Every quiet step keeps the ledger's invariant |
| Ledger.ReplayOneKeepsInv | internal/service/snapshot.go:207-219 | A replayed operation is executed only without a row and marked only on success |
| Ledger.FanoutOneKeepsInv | internal/biz/command_dispatcher.go:132-147 | One send of a fan-out keeps the invariant, whether the device is gone, full or served |
| Ledger.ReplayedEffect | internal/service/snapshot.go:207-219 | A replay removes no row, adds rows only for its device, and leaves a command undelivered only if the device cannot take one |
| Ledger.FannedOutEffect | internal/biz/command_dispatcher.go:132-147 | A fan-out serves exactly the listed connected devices with room in their buffers, each once |
| Ledger.ObservedExplained | internal/service/snapshot.go:136-149 | A whole fan-out is reachable by the machine's steps and adds one send and, with a snapshot active, one row per device served, and nothing else |
| Ledger.CaughtUpIsUpToDate | internal/service/snapshot.go:192-222 | After a replay every active command has its row unless the device's buffer is full, and every other active operation exactly if it had it or succeeded |
| Ledger.WakesAreSentAndRecorded | internal/service/snapshot.go:119-134 | Wake-ups go out at once, one to each device, and are then recorded with a row for each |
| Ledger.SnapshotsEffect | internal/service/snapshot.go:410-446 | A new snapshot takes over, and ending one touches only the active one; neither forgets anything |
| Ledger.DeletionsEffect | internal/service/snapshot.go:448-500 | Deleting forgets exactly the operation named, if it is in that snapshot, or all of the snapshot's, with their rows |
| Ledger.OpsOfAre | internal/data/snapshot_repo.go:143-160 | Listing a snapshot gives exactly its operations in the order recorded |
| Ledger.SnapshotManager.Materialize | internal/biz/command_dispatcher.go:88-130 | One child per requested positive device, each once, dispatched exactly if it is connected |
| Ledger.SnapshotManager.SendPrepared | internal/biz/command_dispatcher.go:132-147 | Pushing prepared children equals the machine's fan-out and reports the devices whose buffer took the message |
| Ledger.SnapshotManager.ObserveFanout | internal/service/snapshot.go:136-149 | The operation is recorded and exactly the devices served are marked; the outcome is reachable by the machine's steps |
| Ledger.SnapshotManager.RecordLocal | internal/service/snapshot.go:119-134 | With a snapshot active an operation of any kind is recorded under it, with rows for exactly the given devices; otherwise nothing is |
| Ledger.SnapshotManager.ReplayToDevice | internal/service/snapshot.go:192-222 | A replay brings a connected device up to date and leaves an unconnected one alone |
| Ledger.SnapshotManager.ExecuteLocal | internal/service/snapshot.go:269-303 | A command succeeds exactly if the device is connected with room in its buffer |
| Ledger.SnapshotManager.MarkDelivered | internal/data/snapshot_repo.go:183-187 | Exactly the given targets are marked, once more or for the first time |
| Hub.ClosedAtMostOnce | internal/biz/hub.go:111-153 | Over any reconnects and late goodbyes no connection is closed twice and a device's current connection is open |
| Hub.StepKeepsInv | internal/biz/hub.go:114-153 | Registering and unregistering keep: a connection is open exactly while it speaks for its device |
| Hub.Registry.Register | internal/biz/hub.go:114-125 | A new connection replaces the old one, which is closed |
| Hub.Registry.Unregister | internal/biz/hub.go:138-153 | Only the current connection of a device takes it offline |
| BroadcastStore.LatestWins | internal/service/federation_broadcast.go:246-359 | Over any order, repetition and failure (400, 409, 500, 503) of one publisher's publications, every field the highest acknowledged one writes ends with its value |
| BroadcastStore.HeldExactlyIfAcknowledged | internal/service/federation_broadcast.go:246-359 | The room holds a revision of at least r exactly if it did before or acknowledged one |
| BroadcastStore.AcknowledgedIsHeld | internal/service/federation_broadcast.go:246-359 | An acknowledged publication is held, and shown if it is news; any other answer leaves the tables alone |
| BroadcastStore.RevisionsIncrease | internal/data/broadcast_snapshot.go:22-52 | Of two publications of one server the later has the greater revision, over any taking of snapshots, failures, edits and applications in between |
| BroadcastStore.ApplyingKeepsCounter | internal/data/broadcast_snapshot.go:52-110 | A server that also receives publications keeps its own numbering: applying one never moves the counter |
| BroadcastStore.PublisherNumbersEach | internal/data/broadcast_snapshot.go:22-52 | Publications arriving from one server have one source, and a revision stands for one publication |
| BroadcastStore.OrderDoesNotMatterForTheHighest | internal/data/broadcast_snapshot.go:55-117 | Two rooms that get one server's publications in any two orders, with any failures, agree on all that the highest one both acknowledged writes |
| BroadcastStore.OrderMattersForTheRest | internal/data/broadcast_snapshot.go:55-117 | Of two publications in either order exactly those fields differ that the earlier revision writes to a new value and the later one does not write; in the wrong order the earlier one has no effect |
| BroadcastStore.ApplyWrites | internal/data/broadcast_snapshot.go:70-114 | An application writes exactly the listed settings, and pages and fonts if its action carries content |
| BroadcastStore.AppliedRevisionsIncrease | internal/data/broadcast_snapshot.go:62-69 | An application raises its source's revision and shows the publication, or nothing at all changes; other sources and room-local settings never move |
| BroadcastStore.NothingAfterHighest | internal/data/broadcast_snapshot.go:62-69 | Once the highest acknowledged revision is held, no further arrival changes anything |
| BroadcastStore.StatusTellsWhetherTablesChanged | internal/service/federation_broadcast.go:246-359 | Only 200 and 409 can follow a change of the tables, a retryable 503 never does, and device commands go out only with a newly applied publication |
| BroadcastStore.StatusesAre | internal/service/federation_broadcast.go:246-357 | Each status exactly: 503 if only the files could not be had, 200 if the revision or a later one is held already or all goes well, and then it is shown, 400 for a failed check, 409 for a changed deployment or a failed device command, 500 for the room's own failures |
| BroadcastStore.BroadcastRepo.ApplySnapshot | internal/data/broadcast_snapshot.go:55-117 | The transaction applies the publication, reports it stale or fails; unless applied, no table changes |
| BroadcastStore.BroadcastRepo.ApplyBroadcast | internal/service/federation_broadcast.go:246-357 | Checks, fetching and application end in the specified tables and in each status exactly when it is due |
| BroadcastStore.BroadcastRepo.TakeSnapshot | internal/data/broadcast_snapshot.go:22-52 | A snapshot takes a revision above the last one, which becomes the last, or nothing changes; no other setting moves |
| Assets.CheckManifest | internal/service/federation_broadcast.go:279-306 | A manifest passes exactly if every asset has a digest name, allowed extension and size, the total fits, and every image, font and the active font is listed |
| Assets.CheckAssets | internal/service/federation_broadcast.go:279-288 | The asset loop accepts exactly well-formed assets within the total and collects exactly their paths |
| Assets.CheckPages | internal/service/federation_broadcast.go:289-298 | The page loop accepts exactly pages of a known mode whose images are all listed |
| Freeze.AcceptedIsShaped | internal/service/federation_broadcast.go:281-288 | A manifest entry is accepted exactly if its name is its kind, its 64-digit digest and an allowed extension, and its size is at most 20 MiB |
| Freeze.FrozenIsAccepted | internal/service/federation_broadcast.go:132-221 | A frozen publication passes all of the room's manifest checks if and only if its page modes are known and its active font is empty, one of the draft's fonts, or already a frozen font name |
| Freeze.FrozenIsInsertable | internal/service/federation_broadcast.go:194-203 | Frozen rows satisfy the UNIQUE columns: font file names are pairwise distinct, and ids stay distinct |
| Freeze.FrozenImageShowsTheSameFile | internal/service/federation_broadcast.go:204-220 | Pages keep their items, and each image names a manifest entry with the digest of the very file it showed |
| Freeze.FreezingKeepsTheRest | internal/service/federation_broadcast.go:132-222 | Freezing changes contents of images, names of fonts and the active font, and nothing else of the draft |
| Freeze.FirstFontIsKept | internal/service/federation_broadcast.go:132-222 | Of fonts that froze to one file exactly the first is kept |
| Freeze.ActiveFontAgrees | internal/service/federation_broadcast.go:184-193 | The active font follows its file through the renaming |
| Freeze.ManifestIsAccepted | internal/service/federation_broadcast.go:139-183 | Every manifest entry has a digest name, an allowed extension and an allowed size |
| Freeze.ListedFontIsFrozen | internal/service/federation_broadcast.go:139-193 | A font path is listed only for a font of the draft |
| Freeze.Release.FreezeFile | internal/service/federation_broadcast.go:139-183 | A file is frozen once; repeated references get the remembered name; it fails exactly if the file is not allowed or the total no longer fits |
| Freeze.Release.FreezeFonts | internal/service/federation_broadcast.go:184-193 | All fonts get their frozen names exactly if every one can be frozen |
| Freeze.Release.DropDuplicateFonts | internal/service/federation_broadcast.go:194-203 | Fonts frozen to one file keep their first entry |
| Freeze.Release.FreezePages | internal/service/federation_broadcast.go:204-220 | All images get their frozen names exactly if every one was uploaded here and can be frozen |
| Freeze.Release.Freeze | internal/service/federation_broadcast.go:132-221 | Freezing succeeds exactly if every referenced file can be frozen, every image was uploaded and all fits; the result is the frozen draft with its manifest |
| Distribution.CompletedTaskReachedEveryTarget | internal/service/distribution.go:401-500 | A task ends completed only if every file is confirmed on every target, over any reports, stops, retries and process restarts |
| Distribution.EveryConfirmationHasItsReport | internal/service/distribution.go:342-379 | A confirmation is written only on a report with the transfer id last issued to that device and the active file's digest, while the task runs |
| Distribution.ConfirmationsSurvive | internal/service/distribution.go:102-166 | Whether or not writes to disk succeed, confirmations are lost only by a process restart, and then exactly if some were not on disk; a successful write at the end of a run puts all of them there, where they stay until the next run |
| Distribution.ConfirmationCanBeLost | internal/service/distribution.go:153-166 | From the start of any task and for any target: a run after which the first file is confirmed, and unconfirmed after a restart |
| Distribution.HonestReportConfirmsItsFile | internal/service/distribution.go:361-377 | A report honest about its message confirms another file exactly if the task runs, the message's transfer is still the device's last and not completed, and the active file is another one of the same digest that the device has not confirmed |
| Distribution.WrongConfirmationExactlyWhen | internal/service/distribution.go:342-379 | For every new task with a target, some run has an honest report confirm a wrong file if and only if two of its files have one digest |
| Distribution.SameContentConfirmsTheWrongFile | internal/service/distribution.go:347-377 | For any two files of one digest and any target there is a run that confirms the later file on a device it was never sent to |
| Distribution.CrashesExactlyWhen | internal/service/distribution.go:342-379 | A report stops the process exactly if it counts as a success while no file is active; a device can send one exactly if an uncompleted transfer was issued to it then; every other success is written down |
| Distribution.CrashIsReachable | internal/service/distribution.go:502-523 | It happens in every new task: a retry before the first file is active, then a success for the transfer it sent |
| Distribution.PostCommandGate | internal/service/distribution.go:390-393 | The post command goes out only with the last file, after every earlier file is confirmed on every target |
| Distribution.AtMostThreeAutomaticSends | internal/service/distribution.go:440-476 | In no state of any run, the pass that gives up included, has the run itself sent a file to a device more than three times |
| Distribution.AutomaticCountsSends | internal/service/distribution.go:440-476 | The count is of the attempts the run makes: those of serving a file, plus those of each pass |
| Distribution.GivingUpSettlesEveryDevice | internal/service/distribution.go:465-492 | A run gives up exactly at the deadline, or once every device has completed or was tried three times and is not at work; no device is left in between, each completed or failed |
| Distribution.DueDevicesAreTriedAgain | internal/service/distribution.go:459-476 | The next pass tries every device that failed, stalled or was cancelled ten seconds ago and has attempts left again, with a fresh transfer id of the active file, and nobody else |
| Distribution.FailureIsRetried | internal/service/distribution.go:342-379 | A device that reports a failure, a cancellation or the wrong content is sent the file again, with a fresh transfer id, by any pass at least ten seconds later while attempts are left |
| Distribution.WorkIsNotInterrupted | internal/service/distribution.go:465-476 | A device that reports work is issued no new transfer for the next three minutes |
| Distribution.TaskCanComplete | internal/service/distribution.go:401-500 | Every new task can run to its end, with all files confirmed on every target, and so on disk |
| Distribution.MessagesSayWhatToFetch | internal/service/distribution.go:381-399 | Over every run each message names the active file and a fresh transfer, and carries the post command exactly with the last file |
| Distribution.NoServerFailsTheTask | internal/service/distribution.go:425-433 | A file that cannot be served fails the task and every device, and sends nothing |
| Distribution.RestartFindsWhatIsOnDisk | internal/service/distribution.go:102-125 | A restart has the task as it is on disk, idle, a run under way as failed and any other status kept, and without a version on disk not at all |
| Distribution.PublishWrites | internal/service/distribution.go:153-166 | Progress is written exactly if the last write is more than two seconds ago, the end of a run always |
| Distribution.StoppedStaysQuiet | internal/service/distribution.go:321-340 | After a stop no single step sends or confirms anything until a retry or a restart |
| Distribution.NothingAfterStop | internal/service/distribution.go:321-340 | From a stop on, over any steps up to a retry or a restart, no message goes out, nothing is confirmed and the task does not run |
| Distribution.RunsEnd | internal/service/distribution.go:451-497 | A run takes at most a number of its own steps fixed by the file count and the file timeout, whatever reports, retries and stops arrive |
| Distribution.RankGoesDown | internal/service/distribution.go:451-497 | With a clock that moves a second per pass, every step of the run uses up its bound and nothing from outside adds to it |
| Distribution.StepKeepsInv | internal/service/distribution.go:321-542 | Every step keeps: files before the active one are confirmed everywhere, and a completed status during polling has its confirmation |
| Distribution.PollKeepsInv | internal/service/distribution.go:452-497 | A polling pass confirms nothing by itself and moves on only when all devices completed |
| Distribution.ReceiveChanges | internal/service/distribution.go:342-379 | A report changes at most its own device's progress and one confirmation of the active file |
| Distribution.StartTask | internal/service/distribution.go:243-319 | A task starts exactly if none is busy and files and targets are allowed; it holds each file and device once, at the start of a run, whether or not its first write to disk succeeds |
| Distribution.DistributeTask.SendLocked | internal/service/distribution.go:381-399 | A fresh transfer of the active file is issued and its message sent if the buffer takes it |
| Distribution.DistributeTask.BeginFile | internal/service/distribution.go:440-448 | At the start of a file exactly the devices without a confirmation are sent it |
| Distribution.DistributeTask.PollOnce | internal/service/distribution.go:452-497 | A pass resends to exactly the devices due, and gives up exactly when all are exhausted or the deadline passed |
| Distribution.DistributeTask.StopTask | internal/service/distribution.go:321-340 | Stopping equals the machine's stop: every device that has not completed is cancelled, the others and all confirmations stay |
| Distribution.DistributeTask.HandleProgressReport | internal/service/distribution.go:342-379 | A report that counts completes its device exactly by the active file's digest, fails it exactly for a failure or another digest, and else sets what it says; it confirms exactly in the first case; a report without a transfer id fails the device for good, and any other changes nothing |
| Distribution.DistributeTask.RetryDevice | internal/service/distribution.go:502-542 | A retry sends once more to exactly a device of a running task that has not completed, or begins a finished task again exactly if its run is over and its files are unchanged |
| PostCommand.PostCommandAtMostOnce | cmd/client/distribution.go:72-108 | Over any retries, cancellations and crashes the command starts at most once per task, file and digest, and completed is reported only after that run succeeded (existing receipts being readable) |
| PostCommand.LookIsSafeExactlyWhen | cmd/client/distribution.go:79-84 | After reading the receipt some command can come to run twice if and only if the read failed although the command had run, for the newest transfer, not cancelled, with a command |
| TaskCommand.CommandRunsOncePerTask | cmd/client/distribution.go:24-108 | A machine that heeds the messages of a distribution run starts the command of a task at most once, and only with the task's last file |
| TaskCommand.CommandsNameTheLastFile | internal/service/distribution.go:390-393 | In every state of a run, a message with the post command and a file names the task's last file |
| PostCommand.UnreadableReceiptRunsTwice | cmd/client/distribution.go:79-84 | A run in which a receipt that exists but cannot be read lets the command run twice |
| PostCommand.CompletedFallsBackExactlyWhen | cmd/client/distribution.go:79-88 | From any state a completed receipt can come to be replaced, with all reads succeeding, if and only if some transfer of that key, cancelled or not, has looked at the receipt while there was none and not stored its own mark yet |
| PostCommand.CompletedReceiptCanFallBack | cmd/client/distribution.go:85-88 | A run from the start in which a cancelled transfer replaces a completed receipt by an executing one; the command is not run again |
| PostCommand.StuckForGood | cmd/client/distribution.go:79-84 | Once the receipt says "executing" and no transfer of the key is past its look with anything else, the command is never run again and the key never newly reported, however often the transfer is repeated |
| PostCommand.StepKeepsInv | cmd/client/distribution.go:33-108 | Every step keeps: a command that ran left a receipt, and only the newest uncancelled transfer may start it |
| PostCommand.Client.ConfirmDownload | cmd/client/distribution.go:73-108 | Success is reported exactly by a transfer still wanted at its end that has no command, or whose receipt says "completed", or whose command succeeded and was marked so; the command runs exactly without a readable receipt, if marked and still wanted; all this is a run of the machine |
| PostCommand.ConfirmationIsRun | cmd/client/distribution.go:73-108 | For any state of other transfers that course is a run of looks, marks, command and report, which ends in the report exactly if it confirms |
| Pull.Puller.PullVerified | internal/service/federation.go:681-755 | For any server over three attempts, success means the target has the digest, and failure leaves it byte for byte; two attempts in a row that meet an honest server are enough, whatever earlier pulls and attempts left behind |
| Pull.Puller.Attempt | internal/service/federation.go:687-752 | One attempt renames only a temporary of the right length and digest, throws away one with a wrong digest, keeps what an honest server sent before an interruption, and ends the pull on a refusal or cancellation |
| Tracker.TrackerIsConsistent | pkg/go-silver-core/internal/gsp_sdk/server/peer.go:4-39 | Over any operations the two indexes mirror each other for every peer, and the main session owns every chunk throughout if and only if every step spares it |
| Tracker.OwnershipIsKeptExactlyWhen | pkg/go-silver-core/internal/gsp_sdk/server/peer.go:13-25 | A step takes chunks from the main session exactly if it removes the session itself after it was reported as an owner |
| Tracker.StepKeepsMirrored | pkg/go-silver-core/internal/gsp_sdk/server/peer.go:4-39 | Every operation keeps the indexes mirrored, and a removed peer owns nothing |
| Tracker.Session.Choose | pkg/go-silver-core/internal/gsp_sdk/server/queue.go:31-112 | Another registered owner of maximal score, in any order of iteration, which in subnet mode is in the requester's /24 or /48 network; the session itself exactly if there is none, or the winner's identifier is empty |
| Tracker.ScorePrefersIdleAndFast | pkg/go-silver-core/internal/gsp_sdk/server/queue.go:93-96 | Of two equally fast peers the one with fewer open connections scores higher, of two equally busy ones the faster |
| Tracker.Session.RemovePeer | pkg/go-silver-core/internal/gsp_sdk/server/peer.go:13-25 | A removed peer is taken out of every chunk it is listed for |
| Tracker.Session.AddBlockOwner | pkg/go-silver-core/internal/gsp_sdk/server/peer.go:28-39 | An ownership is entered in both indexes |
| Tracker.Session.BeSendMain | pkg/go-silver-core/internal/gsp_sdk/server/session.go:114-132 | The sender starts as owner of every chunk |
| Tracker.Session.UpdatePeer | pkg/go-silver-core/internal/gsp_sdk/server/tool.go:76-88 | Open connections never fall below zero and the best speed never falls |
| Tracker.Session.IndexValid | pkg/go-silver-core/internal/gsp_sdk/server/tool.go:42-65 | A chunk is vouched for exactly if its checksum is recorded, or the sender can read it; a receiver vouches for nothing else |
| Reassembly.Download.Run | pkg/go-silver-core/pkg/gosilver/gosilver.go:221-557 | The final name is only ever given to bytes of the expected digest and length; if no answer with a matching checksum carries wrong bytes, those bytes are the source, after any corrupted and failing rounds, in any order and from earlier attempts, the process ending between rounds or during one; a mismatch removes the partial file; once an undisturbed round brings every chunk the download ends |
| Reassembly.Download.RunRound | pkg/go-silver-core/pkg/gosilver/gosilver.go:395-513 | A round in any order finishes exactly the chunks it brings, keeps pending and done a partition with the counter exact, and keeps done chunks and those listed on disk the source's |
| Reassembly.Download.FetchFromEither | pkg/go-silver-core/pkg/gosilver/gosilver.go:437-456 | A chunk is done exactly if the answer of whom the tracker named passes every check, or else, if that was a peer, the sender's; it holds the first that does |
| Reassembly.Download.Resume | pkg/go-silver-core/pkg/gosilver/gosilver.go:305-382 | Resuming trusts only listed readable chunks of a file of the right size and sorts all chunks into done and pending |
| Reassembly.Scan | pkg/go-silver-core/pkg/gosilver/gosilver.go:364-383 | Every chunk ends up done or pending, and the counter counts the done ones in range |
| Reassembly.Download.FetchChunk | pkg/go-silver-core/internal/gsp_sdk/client/receiver.go:54-103 | A chunk is written exactly if the answer is for it with the right checksum and length |
| Reassembly.Download.Publish | pkg/go-silver-core/pkg/gosilver/gosilver.go:516-549 | Only the expected digest gets the final name; a mismatch removes partial file and list |
| Reassembly.ChunksDetermineFile | pkg/go-silver-core/internal/chunk/read.go:9-25 | Two files of one length with equal chunks are equal |
| Reassembly.SaveThenRead | pkg/go-silver-core/internal/chunk/write.go:8-26 | A saved chunk reads back as written and no other chunk changes |
| Reassembly.ChunkCount | pkg/go-silver-core/internal/chunk/file.go:21-26 | The chunks cover the file and the last one is not empty |
| Framing.StreamRoundTrip | pkg/go-silver-core/internal/gsp/codec.go:16-51 | A list of encoded frames comes back from its concatenation, consumed exactly, if and only if every payload is below 2^32 bytes and within the buffer's low 32 bits |
| Framing.FrameRoundTrip | pkg/go-silver-core/internal/gsp/codec.go:16-51 | One frame round-trips exactly under that condition; a larger one is refused with only its header read; from 2^32 bytes on the payload comes back cut |
| Framing.LengthRoundTrip | pkg/go-silver-core/internal/gsp/codec.go:25-44 | The little-endian length field is read back |
| Framing.DecodeInto | pkg/go-silver-core/internal/gsp/codec.go:16-38 | Decoding into the caller's buffer consumes exactly the frame, and refuses an oversized payload before reading it |
| Identity.KeyKeepsId | internal/biz/id_assigner.go:65-73 | A key keeps its id for as long as its row lives, whatever registers, is deleted or changes address meanwhile |
| Identity.AnswersAgree | internal/biz/id_assigner.go:42-91 | Two registrations get one id if and only if they have one key, unless its row was deleted in between, even with equal MAC addresses |
| Identity.LegacyClaimedOnce | internal/biz/id_assigner.go:74-86 | A row from before identities is claimed at most once in its life |
| Identity.RegistrationBindsKey | internal/biz/id_assigner.go:42-91 | After a registration exactly the answered id holds the key, and rows with other keys are untouched |
| Identity.StepKeepsKeysDistinct | internal/biz/id_assigner.go:42-122 | Non-empty keys stay distinct over registrations, deletions, start changes and address changes |
| Identity.DeletedIdIsReissued | internal/biz/id_assigner.go:95-107 | A deleted id goes to the next new machine if and only if it equals the maximum of the start and one above the highest live id |
| Identity.IDAssigner.AssignIdentity | internal/biz/id_assigner.go:42-91 | A known key, white space around it dropped, gets its id; a unique legacy row with the MAC is claimed; otherwise a new id is allocated; the stored id never matters |
| Identity.SpaceAroundKeysIsIgnored | internal/biz/id_assigner.go:57-63 | A key sent with other white space around it registers the same machine, and is refused exactly if the bare key is |
| Identity.IDAssigner.AllocateNew | internal/biz/id_assigner.go:93-122 | A new id exceeds all live ids and is not below the configured start |
| Restore.Server.RestoreBackup | internal/data/backup.go:91-222 | Restoring succeeds exactly for a whole archive with a sound database when no needed rename fails; success installs the archive's files and keeps the old ones and the journals aside; an error leaves the old files in place or aside, and everything as it was exactly if nothing was moved yet or all of it could be moved back |
| Restore.Server.ReplaceBy | internal/data/backup.go:186-222 | The replacement alone, with the same exact condition for undoing it |
| Restore.BackedUpIsRestored | internal/data/backup.go:24-222 | What a backup writes can be restored exactly if it is not too large and its names are plain, and restoring it installs the same database and kept files |
| Restore.Server.Stage | internal/data/backup.go:97-169 | An archive is unpacked exactly if its manifest entries, taken together, are readable and complete, and it holds the listed files, each once, with its digest, under allowed names, and with declared sizes whose 64-bit sum stays within the limit at every entry |
| Restore.ReadManifest | internal/data/backup.go:97-111 | All entries of the manifest's name are decoded into one manifest, one after another; one that cannot be decoded refuses the archive |
| Restore.LimitHoldsExactlyWhen | internal/data/backup.go:134-137 | An archive that passes the limit keeps to it in sum if and only if no entry declares a size of at least 2^64 less the limit |
| Restore.LimitIsOnTheSum | internal/data/backup.go:134-153 | Without such an entry the limit is on the sum of the declared sizes, and what is written exceeds it by at most a byte per entry |
| Restore.LimitCanWrap | internal/data/backup.go:134-137 | Two entries that pass although their sum is far over the limit |
| Restore.BackupIsWhole | internal/data/backup.go:24-88 | A backup can be restored if and only if it is not too large and no data file has a backslash or "../" in its name |
| Restore.RestoreUndoesBackup | internal/data/backup.go:24-222 | Restoring a backup gives back the same database and the same kept files |
| Restore.BackupWriter.WriteBackup | internal/data/backup.go:24-88 | The archive holds the database and exactly the regular, visible, non-temporary data files, uploads only if wanted, with their digests |
| Restore.KeptIsWalked | internal/data/backup.go:50-72 | What is archived is what the walk comes to: regular files, not hidden or temporary, in directories it enters, which are not hidden nor, unless wanted, the uploads |
| Restore.JournalsMove | internal/data/backup.go:216-221 | After a restore each of the two journals is aside exactly if it was there and could be moved |
| Common.InsertUnique | internal/data/db.go:104-111 | Inserting rows under a UNIQUE column succeeds exactly for distinct keys |

## Left out

- Fleet.EndToEndAtMostOnce: assumes that no process stops between a send and its ledger row, because the sends come first and ledger errors are ignored (modules `LostMarks` and `LostJobMarks` have the exact conditions for rooms and cloud), and that deletions are quiet in the sense of `Fleet.Quiet`, which is the exact condition on both levels.
- Fleet.EndToEndAtMostOnce: assumes one relay database per room identity; a copied database that connects later would execute old requests again.
- PostCommand.PostCommandAtMostOnce: assumes existing receipts can be read; `PostCommand.LookIsSafeExactlyWhen` has the exact condition.
- BroadcastStore.RevisionsIncrease: assumes the publisher's own tables are not replaced by an older backup, which would set the counter back.
- Reassembly.Download.Run: models downloads with an expected digest, the only ones the client starts; without one the file is written under its final name directly.
- Reassembly.Download.RunRound: concurrent chunk fetches write disjoint ranges, so a round is any sequence of them; writing one chunk and its list are atomic, so the process ends before or after; the shuffle, the eight-way limit and progress percentages are not modelled.
- Restore.Server.RestoreBackup: creating the staging folder and removing it afterwards are not modelled.
- Restore.BackedUpIsRestored: assumes that no file has 2^63 - 1 bytes or more.
- Publications.CompletedPublicationIsHeld: assumes that the room's database is not replaced by an older backup.
- Distribution.ConfirmationsSurvive: resetting a task, which deletes it with its file on disk, is not modelled; a restart that finds no version of the task ends it.
- Identity.IDAssigner.AssignIdentity: trimming, lower-casing and parsing of the MAC address are a parameter, and lower-casing of stored addresses is ASCII only.
- Tracker.Session.Choose: scores are exact reals where the source uses floating point.
- Ledger.SnapshotManager.ReplayToDevice: distribution and schedule operations only succeed or fail; what they do in turn is not traced to devices.
- Power schedules: whether a fleet schedule fires once is not decided by the code around its due time.
- Liveness: a job answered 102 stays sent while its room is online, and rows sent before a cloud restart are not queued again at start.
- Marking devices when a fleet schedule fires, and the commands for one device or a list outside snapshots, which use the same sends without a ledger.
- HTTP routing, the list of paths a relay accepts, URL checks, authentication, terminals, screens, the React frontend, display rendering, Excel exports and health data.
- The parent status summary of a broadcast command, janitor timers, log and admin events.
- Upload slots, buffer pools and connection pools of the transfer protocol; the peer's connection count is only shown not to fall below zero.
