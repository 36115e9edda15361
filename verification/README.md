# Asynchronous volume lifecycle: a Dafny model

This project models the block-storage service's volume lifecycle engine and proves
what it keeps. A volume has a record in a database and, separately, a volume in a
storage backend. API calls change the record synchronously and start a worker; the
worker calls the backend, retries with back-off, and applies events to the record.
Every transition is persisted, appended to an audit log and published to event
streams. At startup, records left in progress by an earlier process are reconciled
with the backend.

`dafny verify dfyconfig.toml` checks everything.

## How it is built

The **protocol on values** (`Storage`, `Fsm`, `Lifecycle`) says what one API call's
synchronous part, one stage of a retry worker and one backend call do to the two
stores, the log and the feed of published events, including DB reads that fail, DB
writes that fail with or without taking effect, and backend calls that are lost or
take effect although an error is reported. Two layers are proved against it.

*The step relation.* `Engine` interleaves API calls, worker stages and cancellation
for any number of volumes. Over all its runs: a step touches one volume and keeps the
records filed (`Filing`); the two stores agree and a volume has at most one live worker
(`Agreement`); without DB faults a volume has a worker exactly while it is in progress or
failed, and the system drains (`Exact`, `Shutdown`); when nothing goes wrong every first try
succeeds (`FirstTry`); the audit log replays to the
database, accounts for every retry and reads as a sequence of whole operations and
repairs (`Audit`, `Accounting`, `Chronicle`); deleted and pending volumes, and volumes left
in progress without a worker, never change again (`Permanence`, `Requests`); nodes agree
(`Nodes`); one worker refines the sequence
of its backend results (`Retry`), and an effect whose answer was lost is recovered by a
reconcile (`Recovery`), in every run (`Aftermath`); event streams over the running system have no gap, keep their
closing event and end, and their frames tell what was published (`Channel`, `Feed`, `Streams`,
`SlowSubscriber`, `StreamResults`, `Frames`).
`Startup`, `StartupResults` and `Importing` do the same for the goroutines of the startup
pass under every schedule of their stages; `Restart` joins both over any number of crashes
and restarts, and `Saga` tells the story of the audit log across them. `Races` looks below the
atomic steps. `Witnesses` holds runs from the empty system in which the code does not do what
one might expect.

*The heap.* The source's objects are classes with the source's loops:
`Repository.InMemoryRepository`, `Mock.MockBackend`, `Broker.EventBroker` with slices of
channels over arrays, `Application.Application` (API calls, `applyEvent`, the retry loop),
`Factory.VolumeFeature` (the startup pass), `Conduct.Service` (the application with all its
worker goroutines: any run of the step relation over the heap) and the stream handler in
`Handler`, which runs beside such a service. Each method's contract ties the new heap to a function of the old one, and what the source
promises is proved about those functions. `Isolation` plays a caller that keeps and changes
every object it exchanges with the repository. `Backoff` does the back-off arithmetic.

## Assumptions

- One API call's synchronous part, and one worker load-then-apply, is one atomic step.
  The code has no row version and no lock around them. `Races` shows what depends on
  this: creates stay exclusive without it, two requests on one volume do not.
- Startup is a phase that ends before the first request; in the code it runs beside them, and
  then it can erase a record whose create is under way, which leaves a backend volume without
  a record (`Witnesses.OverlapBreaksAgreement`).
- Volume IDs are fresh. The retry policy is one that `config.validate` accepts
  (`config/config.go:119-130`).
- The HTTP layer rejects an attach without a node (`volume/controller_http.go:335-338`).
- The back-off multiplier is exact and durations do not overflow.
- A timeout of any kind is one of the DB or backend faults above.

## What the code does not do

Properties that one might expect, with the exact condition or a run that shows the failure:

- *An API call is not atomic.* Two requests that a volume's state admits, such as two attaches
  or an attach and a delete, are both accepted exactly when each loads before the other's update
  and the database does all that both ask for (`Races.BothAcceptedExactlyWhenOverlapping`). So a
  volume can get two workers (`Races.TwoWorkersForOneVolume`), one that is attached can be taken to
  be deleted (`Races.DeletedWhileAttached`), and the node write of an attach can undo another one's
  transition (`Races.WriteBackUndoesAttach`).
- *Pending is a dead end.* Reconciling a volume that the backend does not hold leads to
  `pending` (line 285 of the service's own README), described there as "volume requested"
  (line 245), but no call ever applies the create event to an existing record
  (`Permanence.ReconcileToPendingIsFinal`; `Witnesses.ReconciledToPending` is a run into it). A
  create whose record was inserted but whose event was not stored blocks its name in the same
  way (`Requests.HalfDoneCreateBlocksName`).
- *A transitional volume can lose its worker*; then nothing but a restart ever moves it again
  (`Permanence.OrphansAreForever`). A worker's stage does this exactly when it sees the shutdown
  or, stage by stage, when its read fails, its update is refused or reported as failed, or the
  record is still failed (`Permanence.WorkStrandsExactlyWhen`); a call exactly when its
  request takes effect while it is reported as failed (`Permanence.CallOrphansExactlyWhen`); and a
  run exactly when one of its steps does (`Permanence.RunOrphansExactlyWhen`).
  `Witnesses.CreateLeavesOrphan` and `Witnesses.ShutdownLeavesOrphan` are runs into it.
- *The audit log can fall behind.* A step keeps it in step with every record exactly when a change
  of state that it makes is logged: the entry is saved, and the update was not reported as failed
  although it took effect (`Audit.StepStaysAuditedExactlyWhen`, `Audit.RunStaysAuditedExactlyWhen`;
  `Witnesses.CreateGoesUnlogged` is a run in which it is not).
- *An attach writes its node before it is accepted.* The nodes of record, backend and worker
  stay in order exactly when the attach moves an available record on, or finds the volume in
  error, or finds it on its way to a node, on one or on its way off it, and names that very node
  (`Nodes.AttachKeepsNodeExactlyWhen`). Otherwise the record can come to name another node than
  the backend: for a volume that is attached (`Nodes.RejectedAttachOverwritesNode`), or later,
  when the attach under way succeeds (`Witnesses.RejectedAttachWins`).
- *An empty node would break reconciliation*, which decides by the node and not by the
  state (`Nodes.AttachIsRecognisable`, `Nodes.ReconcileRepairsExactlyWhen`).
- *A slow stream can lose its closing event*: with more than seven attempts
  (`SlowSubscriber.ClosingEventIsSafeExactlyUpToSeven`), and with any number of attempts when
  updates take effect while they are reported as failed
  (`SlowSubscriber.SilentUpdatesLoseClosingEvent`).
- *A stream can close on a stale event.* When nothing that matters was dropped, it delivers what
  came after its snapshot exactly when no terminal state was published between its subscription
  and its snapshot (`StreamResults.StreamReachesPastSnapshotExactlyWhen`);
  `StreamResults.StaleEventClosesStream` is a session in which a stream that was told "detaching"
  closes on an older "attached".
- *Repairs are not published.* A step that changes a state goes unpublished exactly when it is
  an API reconcile, or its update took effect while it was reported as failed
  (`Feed.MovesSilentlyExactlyWhen`); at startup the same holds of aligning a record
  (`StartupResults.StageIsSilentExactlyWhen`).
- *A restart does not always lead back to agreement.* Startup records an attached volume as
  available when it finds it in progress; the stores agree again exactly when every repair
  that is made fits what the backend holds (`StartupResults.RepairAgreesExactlyWhen`,
  `Restart.RestartAgreesExactlyWhen`); `Witnesses.NoRestartFits` is a run after which no policy
  helps. Startup also logs a repair even when the record was not written
  (`StartupResults.AlignFollowsExactlyWhen`, `Witnesses.RepairIsOnlyLogged`).
- *Import does not look at the state of a backend volume*: the new record agrees exactly when
  the volume is available there (`Importing.ImportAgreesExactlyWhenIdle`).
- *A lost answer costs the operation.* Backend calls are not idempotent
  (`Recovery.ServedOnceNeverAgain`), so a call that took effect but was reported as failed
  makes every retry fail. A reconcile recovers the target state, except that a volume
  deleted in this way ends pending and not deleted (`Recovery.LostAnswerIsRecovered`, and in
  every sound run `Aftermath.LostAnswersAreRecovered`; `Witnesses.DeleteEndsPending`).
- *The in-memory backend reports absence as an error* (`storage/mock/mock.go:100-103`)
  where the application expects an empty answer, so on it a reconcile never leads to
  `pending`, and startup repairs a record exactly when its volume is held, the same under
  every policy (`Requests.ReconcileOnMockExactlyWhenHeld`, `StartupResults.PassOnMock`,
  `Restart.RestartOnMockAgreesExactlyWhen`).
- Line 270 of the service's own README lists three delays for three attempts; the code sleeps
  before the second and the third attempt only (`Application.Application.RunWithRetry`).
- `volume/contract.go:26-28` says that a subscription is closed at a terminal state; the
  broker closes it only on unsubscribe, and the handler stops by itself
  (`Broker.EventBroker.Publish`, `Handler.StreamVolumeEvents`).

## Model

| member | source | states |
|---|---|---|
| Fsm.TransitionIsTheTable | volume/fsm.go:75-124 | the transition the code looks up is allowed by some row of the table and by no row with another result: the table is deterministic and nothing else is allowed |
| Filing.StepKeepsFiled | volume/application.go:117-527 | whatever fails, records stay filed under their own names with distinct, known IDs, and nobody works on a volume without a record; this needs no agreement of the stores |
| Filing.RunKeepsVolumes | volume/application.go:117-527 | in every run, whatever fails, a record keeps its ID, name, size and backend for ever |
| Filing.StepKeepsVolumes | volume/application.go:117-527 | every step, whatever fails, leaves these as they were, and gives a new record what the create asked for and no node |
| Agreement.StepKeeps | volume/application.go:117-527 | every API call and worker stage, under any DB fault, lost or unreported backend effect or cancellation, keeps: the stores fit each other at every name, at most one live worker a volume, and the worker's stage facts, including the window between backend success and DB event |
| Agreement.RunKeeps | volume/application.go:117-527 | that invariant holds after every run of any interleaving over any number of volumes |
| Agreement.StoresAlwaysAgree | volume/application.go:117-527 | from empty stores on: the backend holds nothing without a record of its size, available and attached records are held so, pending and deleted ones are not held, and two live workers never serve one volume |
| Agreement.CallOk | storage/mock/mock.go:41-145 | a backend call keeps the stores in agreement whatever its reply, and one that reports success shows the operation's target |
| Exact.OneWorkerExactlyWhileTransitional | volume/application.go:117-527 | without DB faults and cancellation a volume has exactly one live worker while it is in progress or failed and none otherwise, and the worker's operation and stage tell which of the two it is |
| Exact.RunStaysExact | volume/application.go:452-519 | the same as an inductive invariant of all such runs |
| Exact.WorkSpends | volume/application.go:439-526 | every worker stage strictly decreases the worker's budget of attempts and stages |
| Exact.RunsDrain | volume/application.go:439-526 | with no new requests any interleaving of workers is no longer than their total budget, faults or not |
| Exact.DrainExists | volume/application.go:439-526 | from every state the workers can be run to their end, shutting down or not: nothing blocks the drain |
| Exact.SoundRunsSettle | volume/application.go:439-526 | once drained, every volume of a run without faults and cancellation is pending, available, attached, deleted or in error |
| FirstTry.FirstTriesSucceed | volume/application.go:117-527 | in every run from empty stores without faults, lost answers and shutdown, no error is ever logged, every worker that still works is on its first attempt, and a volume is available, attached or deleted exactly while nobody works on it |
| FirstTry.ReadyIsServed | storage/mock/mock.go:41-145 | a create of a positive size and a free name, an attach or delete of an idle volume and a detach of an attached one succeed |
| Exact.WorkIsSafe | volume/application.go:441-519 | under any DB fault and cancellation a worker stage leaves the record alone or moves it along the one edge of the table that belongs to the stage, within in-progress, failed, target and error of its own operation |
| Shutdown.CancelledRunsDrain | volume/factory.go:106-122 | after cancellation the workers are done after at most five more stages each, however many attempts the policy allows |
| Shutdown.NoNewCalls | volume/application.go:440-450 | after cancellation no worker begins a backend call it had not already been about to make |
| Shutdown.ClosedSystemIsConsistent | volume/factory.go:106-122 | after cancel and drain the stores still agree, volumes at rest are as they were, and an interrupted volume is in a state of its own operation |
| Audit.LogTellsState | volume/application.go:368-397 | from empty stores, in every run of calls and workers in which entries are saved, a volume's entries chain from pending to its current state, each an edge of the table or a repair that leaves the error state |
| Audit.RunStaysAudited | volume/application.go:346-397 | from any audited state, also one whose log holds startup repairs, and whether or not the stores agree: the log keeps replaying to the database, each volume from its own state at insertion |
| Audit.StepStaysAuditedExactlyWhen | volume/application.go:346-397 | under any faults: a step keeps the log replaying to every record exactly when, if it changes a state, its entry is saved and its update is not reported as failed after taking effect |
| Audit.RunStaysAuditedExactlyWhen | volume/application.go:346-397 | under any faults: the log replays to the database at every moment of a run exactly when every step that changes a state does so |
| Witnesses.CreateGoesUnlogged | volume/application.go:385-395 | a create whose entry is not saved, after which the log no longer replays to the record |
| Audit.ErrorsAreAnswered | volume/fsm.go:89-106 | in any log that chains, errors are retries plus fails plus startup repairs of failed volumes plus one if the volume is failed now |
| Audit.RetriesAddUp | volume/application.go:483-519 | per operation at most MaxAttempts errors and MaxAttempts - 1 retries; a fail is logged exactly when there were MaxAttempts errors and the last is no longer open; and the totals balance across any number of reconciles |
| Restart.RebootStaysAudited | volume/factory.go:139-308 | a startup pass keeps the log in step with every record, repaired, left alone or imported, at every moment of every schedule, whether or not the backend answers |
| Restart.NewRecordsNameNoNode | volume/factory.go:139-208 | after any startup pass, whatever fails: the backend is as before, a record that was not there has the fresh ID, its name, the backend's size and no node, and is available; and one that was there and is kept has its ID, name, size and backend |
| Restart.LogTellsEveryLife | volume/application.go:346-397 | over any number of crashes and restarts, at any moment: every entry is an edge of the table or a repair that leaves error or, at startup, a transitional state; each volume's entries chain from its insertion (imported ones from available) to its state; and every error is answered |
| Restart.RestartAgreesExactlyWhen | volume/factory.go:139-308 | crash in any reachable state, then a complete pass in any schedule on a working database, with a backend that answers for some volumes and not for others: the invariant of all later runs holds again exactly when every repair that is made fits what the backend holds |
| Restart.RestartOnMockAgreesExactlyWhen | volume/factory.go:219-282 | on the in-memory backend, under every policy: exactly when no volume that is found in progress is on a node, unless it was to be deleted |
| Restart.RestartIsExactExactlyWhen | volume/factory.go:139-308 | after it a worker serves exactly the transitional volumes, here none, exactly when the backend answered for every one and no missing one was ignored |
| Restart.StoresAgreeAfterRestart | volume/application.go:117-527 | after a restart whose repairs fit, the stores agree in every later run and no volume has two live workers |
| Restart.OneWorkerAfterRestart | volume/application.go:117-527 | and if the pass left nothing transitional, without faults a worker serves a volume exactly while it is transitional |
| Restart.RetriesAddUpAfterRestart | volume/application.go:483-519 | and in the entries since a restart whose repairs fit no operation logs more than MaxAttempts - 1 retries, and a fail exactly after MaxAttempts errors |
| Witnesses.NoRestartFits | volume/factory.go:247-282 | a run after which, under every policy, a restart leaves the stores in disagreement |
| Accounting.RetriesAddUpFromNowOn | volume/application.go:483-519 | from any moment at which nobody works, whatever the log held before, the retry accounting holds for the entries since |
| Chronicle.LogIsAStory | volume/application.go:368-527 | in every run without faults and cancellation a volume's own entries are whole operations (request, errors and retries, success or last failure) and repairs, followed, exactly while a worker serves it, by the opening of one more operation as far as that worker has come |
| Chronicle.RunStaysTold | volume/application.go:117-527 | every run keeps that story, from any state that has one, under all faults and cancellation but lost entries and updates that take effect while reported failed |
| Chronicle.EntryContinues | volume/fsm.go:75-124 | whatever the table or a startup repair lets an operation under way log next either takes its opening further or completes a chapter |
| Saga.EveryLifeIsAStory | volume/application.go:346-527 | over any number of crashes and restarts, under the same assumptions as `Restart.LogTellsEveryLife` and one policy for all lives: a volume's own entries are whole operations, reconciles, and operations cut short (as far as they had come, and the one startup repair or fail that ended them), followed, exactly in a transitional state, by the opening of an operation that led to that state, and whose worker, if there is one, has come as far |
| Permanence.DeadEndsAreForever | volume/application.go:117-357 | a deleted or pending record keeps state and ID in every later run, its name is never inserted again, no worker serves it and the backend never holds it |
| Permanence.OrphansAreForever | volume/application.go:439-527 | a record in progress or failed without a worker keeps state and ID in every later run under any faults, and no worker ever serves it |
| Permanence.WorkStrandsExactlyWhen | volume/application.go:439-526 | whatever fails: a stage ends its worker on a volume still in progress or failed exactly when it sees the shutdown at the check or the wait, or, when it reports a success or the last failure, its read fails, its update is refused or the record was still failed, or, when it reports an error, its read fails, its update is reported as failed or the record was still failed, or, on the way back, the record is read and its update is reported as failed |
| Permanence.CallOrphansExactlyWhen | volume/application.go:117-287 | whatever fails: a call on a volume at rest leaves it in progress without a worker exactly when the request is valid, all before its update works, and the update takes effect while it is reported as failed |
| Permanence.RunOrphansExactlyWhen | volume/application.go:117-527 | after any run under any faults a volume is in progress or failed without a worker exactly when it was so before or some step abandoned it in one of these ways |
| Witnesses.CreateLeavesOrphan | volume/application.go:145-152 | a create, accepted by the database and reported as failed, leaves a creating volume that nobody creates |
| Witnesses.ShutdownLeavesOrphan | volume/application.go:440-446 | a shutdown that catches a worker before its call leaves its volume in progress |
| Permanence.ReconcileToPendingIsFinal | volume/application.go:317-320 | a reconcile of a volume the backend does not hold leaves it pending for ever |
| Witnesses.ReconciledToPending | volume/application.go:317-320 | a run, for every MaxAttempts, to a volume in error that the backend does not hold, and that its reconcile leaves pending |
| Requests.CreateAnswers | volume/application.go:117-152 | whatever fails, which answer a create gives by its input: invalid size, volume exists, database error, or none of them |
| Requests.AttachAnswers | volume/application.go:222-242 | the same for attach: volume not found exactly when the read works and no record has the name; invalid transition exactly when the record is read, written and not available; database error exactly when a read or write that it needs fails |
| Requests.ReleaseAnswers | volume/application.go:176-287 | the same for detach, which wants an attached volume, and delete, which wants an available one |
| Requests.ReconcileAnswers | volume/application.go:298-345 | the same for reconcile, which wants a volume in error and a backend that answers |
| Requests.AcceptedCreateDoes | volume/application.go:129-171 | an accepted create leaves exactly its creating record, its entry if that is saved, its event and its worker's task |
| Requests.AcceptedAttachDoes | volume/application.go:231-257 | an accepted attach leaves the record attaching on the requested node, its entry, event and task, and nothing else |
| Requests.AcceptedReleaseDoes | volume/application.go:176-287 | the same for detach and delete, which leave the node as it is |
| Requests.AcceptedReconcileDoes | volume/application.go:315-357 | an accepted reconcile sets state and node by what the backend holds and logs that; it publishes nothing and starts nobody |
| Requests.RefusedLeavesNoTrace | volume/application.go:117-357 | on a working DB a refused create, delete, detach or reconcile changes neither store, log nor feed |
| Requests.ReconcileOnMockExactlyWhenHeld | storage/mock/mock.go:96-105 | with the in-memory backend's answers a reconcile succeeds exactly for a held volume in error, and never leads to pending |
| Requests.FailedCreateInsertsExactlyWhen | volume/application.go:145-152 | a failed create has inserted a pending record exactly when the insertion took effect and what follows did not |
| Requests.HalfDoneCreateBlocksName | volume/application.go:129-152 | after such a create the name is pending in every later run and every further create of it is refused |
| Nodes.AttachKeepsNodeExactlyWhen | volume/application.go:231-242 | whatever fails: an attach keeps the nodes of record, backend and live workers in order exactly when it writes none, or moves an available record, or the volume is in error, or is on its way to, on, or on its way off a node and the request names the node of backend and attach worker |
| Nodes.RejectedAttachOverwritesNode | volume/application.go:231-242 | a concrete rejected attach after which record and backend name different nodes |
| Nodes.AttachIsRecognisable | storage/mock/mock.go:109-125 | an attached backend volume shows as attached to reconciliation exactly when its node is not empty |
| Nodes.ReconcileRepairsExactlyWhen | volume/application.go:315-330 | an answered reconcile makes the stores agree exactly when the backend's own state and node are consistent |
| Nodes.RunKeepsNodes | volume/application.go:222-287 | in every run whose attaches meet that condition, rejected ones included, an attached record names the backend's node and no other settled record but one in error names any |
| Witnesses.RejectedAttachWins | volume/application.go:231-242 | a run in which an attach is rejected while another one is under way, and the record ends up attached to its node and not to the backend's |
| Retry.WorkerRefinesResults | volume/application.go:429-527 | without faults a finished worker's calls failed some times and then succeeded, or failed MaxAttempts times; the log gained exactly an error and a retry for each failure but the last, then the success event or error and fail; the record is in the target state (without node after a detach) or in error |
| Retry.CallsAreBounded | volume/application.go:439-527 | under any faults and cancellation one worker calls the backend at most MaxAttempts times and ends within five stages an attempt, also when a failed reload skips the retry event |
| Recovery.ServedOnceNeverAgain | storage/mock/mock.go:41-145 | no backend call can be served twice in a row, whatever the operation |
| Recovery.ServedExactlyWhen | storage/mock/mock.go:41-145 | what the backend serves: a create of a positive size and a free name, an attach of an available volume, a detach of an attached one, a delete of any that is not attached |
| Recovery.DeleteUndoesCreate | storage/mock/mock.go:41-83 | round trip: a create and then a delete leave the backend as it was |
| Recovery.DetachUndoesAttach | storage/mock/mock.go:107-145 | round trip: an attach and then a detach leave the backend as it was, and in between every other operation on the volume is refused |
| Recovery.ServeIsLocal | storage/mock/mock.go:41-145 | a served call changes no other volume |
| Recovery.NothingSucceedsAfterwards | volume/application.go:439-526 | after a call that took effect but was reported failed, every later call of the worker fails and the backend keeps the effect |
| Recovery.LostAnswerIsRecovered | volume/application.go:298-527 | such an operation uses all its attempts and ends in error, and a reconcile then brings the record to the operation's target with its node; after a delete to pending |
| Aftermath.LostAnswersAreRecovered | volume/application.go:298-527 | in every sound run of the whole system after such a call, whatever else is called and whoever else works: the backend keeps the effect, the worker fails up to its last attempt and leaves the record in error, and the first answered reconcile that finds it there brings it to the target with its node, or to pending after a delete |
| Aftermath.StepRecoversOrNot | volume/application.go:117-527 | every sound step of the system either leaves such an operation unanswered, or is that reconcile |
| Witnesses.DeleteEndsPending | volume/application.go:298-527 | a run, for every MaxAttempts, in which a delete loses its answer, ends in error and is reconciled to pending |
| Backoff.WaitsCapped | volume/application.go:521-525 | every wait after the first is at most MaxWait |
| Backoff.WaitsAreProducts | volume/application.go:521-525 | for every valid policy the first wait is InitialWait, and each later one is MaxWait, where the previous one times the multiplier reaches it, and otherwise the whole part of that product: less than one time unit is lost |
| Backoff.WaitsNeverDecreaseExactlyWhen | volume/application.go:521-525 | waits never decrease exactly when the first one does not exceed MaxWait |
| Backoff.CeilingAbsorbs | volume/application.go:521-525 | once a wait is MaxWait all later ones are |
| Backoff.IdealIsExponential | volume/application.go:521-525 | the untruncated, uncapped waits are InitialWait times a power of the multiplier |
| Backoff.WaitWithinIdeal | volume/application.go:521-525 | the wait after k multiplications is at most the smaller of InitialWait times multiplier to the k and MaxWait |
| Backoff.WaitNearIdeal | volume/application.go:521-525 | a wait below MaxWait is less than the accumulated truncation under the uncapped exponential |
| Backoff.WholeMultiplierIsExact | volume/application.go:521-525 | with a whole multiplier it is exactly that |
| Backoff.SleepBounded | volume/application.go:437-525 | with at least two attempts an operation sleeps at most InitialWait + (MaxAttempts - 2) * MaxWait in all |
| Channel.OfferOk | volume/application.go:42-51 | a send that never blocks keeps the queue within 16 and what got through an in-order subsequence of what was sent, with every loss counted |
| Channel.SixteenWait | volume/application.go:42-57 | the sixteenth event that waits is kept, the seventeenth is dropped and counted |
| Channel.NothingLostIsEverything | volume/application.go:42-51 | everything sent got through, in order, exactly when the queue was never found full |
| Feed.MovesSilentlyExactlyWhen | volume/application.go:339-404 | whatever fails, a step that changes a volume's state goes unpublished exactly when it is a reconcile, or its update took effect while it was reported as failed |
| Streams.ClosingEventGetsThrough | volume/application.go:439-519 | from any state of the invariant, unless an update takes effect while its caller is told it failed: at most 2 * MaxAttempts + 1 events are published to a subscriber up to the first terminal one, and with at most seven attempts none of them is dropped, however slowly it reads and whether or not audit entries are saved |
| Streams.StreamHasNoGap | volume/controller_http.go:459-535 | whatever fails, when nothing that matters was dropped: a stream's frames are its snapshot and then, in order, exactly what was published from its subscription up to the first terminal event, what came before the snapshot and all after it |
| Streams.OneClosingFrame | volume/controller_http.go:499-533 | in any session, under any faults: a finished stream ends with exactly one closing frame; an open one has written none |
| Streams.ActionKeepsClients | volume/controller_http.go:456-535 | every protocol step under any faults, and every action of any number of clients, keeps frames and queues sound and each queue what was published since subscribing |
| Streams.ActionKeeps | volume/controller_http.go:456-535 | and, unless an update takes effect while its caller is told it failed, the bound on what a client is sent |
| StreamResults.StreamTellsLog | volume/application.go:385-404 | when entries are saved, what a client was sent is exactly what the log records from its subscription on |
| StreamResults.StreamReachesPastSnapshotExactlyWhen | volume/controller_http.go:459-535 | when nothing that matters was dropped, a finished stream with a non-terminal snapshot delivers what came after the snapshot, up to the first terminal event of it, exactly when no terminal event was published between subscription and snapshot |
| StreamResults.StaleEventClosesStream | volume/controller_http.go:459-535 | a session in which a stream closes on a stale event and a later transition is not delivered |
| StreamResults.StreamsEnd | volume/controller_http.go:506-534 | without faults and with at most seven attempts, once the workers have drained, a client still reading after a snapshot that was not pending has its closing event queued |
| Frames.TerminalIsSettled | volume/controller_http.go:481-486 | a stream closes at a state exactly when nothing is under way in it, and the volume is not pending |
| Frames.StreamsCloseAtTheEnd | volume/controller_http.go:506-534 | in every session, whatever fails: an open stream has received no event that ends an operation, and one that closed on an event closed on the first such event it received |
| Frames.EndedStreamsRest | volume/controller_http.go:466 | a stream that has ended hears and writes nothing more, whatever goes on |
| Frames.LeavingEndsStream | volume/controller_http.go:508-510 | a client that leaves ends its stream with the frames it has |
| Frames.EndsExactlyWhenDone | volume/application.go:452-519 | in sound runs a step publishes an event that ends an operation exactly when its worker is done with it |
| Frames.ClosesOnSnapshotExactlyAtRest | volume/controller_http.go:488-504 | in every sound session a stream closes on its snapshot exactly when at that moment no worker serves the volume, and it is not pending |
| Frames.SnapshotTellsRecord | volume/controller_http.go:488-504 | the snapshot's frame has the record's name and state, as far as the record is found and the write works; otherwise the stream goes on without one |
| Frames.ReceiveTellsEvent | volume/controller_http.go:507-534 | a receive takes the oldest waiting event and writes its data frame and, for available, attached, deleted and error, a closing frame, as far as the writes work; the stream goes on exactly if they all do and it is not closed |
| Frames.FramesTellEvents | volume/controller_http.go:507-534 | in every session, whatever fails, the frames of a stream that has not broken off are the snapshot's and then one for each event received, with its name, state and cause, in order, and the last message again as the closing frame of a finished stream |
| SlowSubscriber.ClosingEventIsSafeExactlyUpToSeven | volume/application.go:42-59 | no client of any session in which no update takes effect while it is reported as failed ever loses an event up to its closing event if and only if MaxAttempts is at most seven |
| SlowSubscriber.SilentUpdatesLoseClosingEvent | volume/application.go:385-404 | for every MaxAttempts, a session with such updates in which the closing event of a stream that is not read never gets through |
| Handler.StreamIsSound | volume/controller_http.go:456-535 | whatever calls, workers and other streams do meanwhile, under any faults, however slowly the client reads and wherever its connection breaks, the frames are those of the snapshot and of received events, in published order and complete if nothing was dropped, with one closing frame at the end of a finished stream |
| Handler.StreamIsSession | volume/controller_http.go:456-535 | a stream is the client of a session over the running system, so that what holds of all sessions holds of it |
| Handler.NothingAfterTheEnd | volume/controller_http.go:508-510 | once the client has disconnected or the stream has ended, nothing more is written |
| Handler.Write | volume/controller_http.go:484-503 | writes a message and, exactly for available, attached, deleted and error, one closing frame; the first failed write ends the stream |
| Handler.OneTurn | volume/controller_http.go:506-534 | over the heap, one turn: a step of the service that the stream's channel hears of if the name is its own, another stream that comes or goes, a received event, or a disconnect |
| Handler.Drain | volume/controller_http.go:506-534 | the loop follows the client protocol turn by turn until a terminal event, a failed write or a disconnect, while calls, workers and other streams go on |
| Handler.StreamVolumeEvents | volume/controller_http.go:456-535 | over the heap, beside a running service: reads the record for the subscription and for the snapshot, subscribes before it looks, while others take any steps of the protocol in between; on every way out the own channel is gone, who was there before is registered as before, and behind them who came meanwhile and stayed |
| Broker.EventBroker.Publish | volume/application.go:42-51 | offers the event to every channel of the name and to no other; never sends on a closed channel; every registered channel was sent exactly what was published under its name since it was made |
| Broker.EventBroker.Subscribe | volume/application.go:53-59 | registers a new open channel behind the others of the name |
| Broker.Append | volume/application.go:57 | the slice shows one channel more, in place while there is room and in a copy otherwise |
| Broker.Remove | volume/application.go:67 | the shift in place closes the gap and leaves everything else in its order |
| Broker.WithoutOne | volume/application.go:65-70 | closing the gap of a channel that is listed once leaves exactly the others, in order |
| Broker.EventBroker.Unsubscribe | volume/application.go:61-72 | by a shift in the backing array, leaves the list without the given channel, all others in order and under other names untouched, and closes it once |
| Repository.InMemoryRepository.SaveVolume | volume/repository/inmemory.go:27-36 | stores a copy under a free name; a taken name is an error and changes nothing |
| Repository.InMemoryRepository.UpdateVolume | volume/repository/inmemory.go:38-47 | replaces the record by a copy; a missing one is an error and changes nothing |
| Repository.InMemoryRepository.LoadVolume | volume/repository/inmemory.go:49-59 | a fresh object showing the record, or nothing without an error |
| Repository.InMemoryRepository.ListVolumesByState | volume/repository/inmemory.go:72-87 | fresh, separate objects showing each record in a wanted state exactly once, and no other |
| Repository.InMemoryRepository.DeleteVolume | volume/repository/inmemory.go:89-94 | the record is gone, all others stay |
| Repository.InMemoryRepository.SaveEvent | volume/repository/inmemory.go:96-101 | appends to the log and changes no record |
| Repository.InMemoryRepository.ListVolumes | volume/repository/inmemory.go:61-70 | fresh, separate objects showing each record exactly once |
| Isolation.Caller.Do | volume/repository/inmemory.go:27-101 | one call, or one change to any object the caller holds, does to records, log and objects what it does to values, and nothing the caller holds is ever in the representation |
| Isolation.Play | volume/repository/inmemory.go:27-101 | after any sequence of calls and changes to objects passed in or handed out, records, log and objects are at every moment what they would be if every call copied values |
| Mock.MockBackend.CreateVolume | storage/mock/mock.go:41-66 | holds a new available volume, for a positive size and a free name only, and hands out a copy |
| Mock.MockBackend.DeleteVolume | storage/mock/mock.go:69-83 | no longer holds the volume; fails without effect if absent or attached |
| Mock.MockBackend.AttachVolume | storage/mock/mock.go:109-125 | in place, state attached and node set, from available only |
| Mock.MockBackend.DetachVolume | storage/mock/mock.go:129-145 | in place, state available and node cleared, from attached only |
| Mock.MockBackend.GetVolume | storage/mock/mock.go:96-105 | a fresh copy of what is held, or a failure when nothing is |
| Mock.MockBackend.ListVolumes | storage/mock/mock.go:85-94 | fresh copies of everything held, each volume exactly once, and of nothing else |
| Application.Application.ApplyEvent | volume/application.go:368-407 | guard, transition, persist, log, publish over the heap are the protocol's event under every DB fault |
| Application.Application.CreateVolume | volume/application.go:117-174 | the heap after the call, the error and the started worker are the protocol's; the caller gets its own creating record |
| Application.Application.AttachVolume | volume/application.go:222-257 | the same for attach, with the node written before the guard |
| Application.Application.DetachVolume | volume/application.go:259-287 | the same for detach |
| Application.Application.DeleteVolume | volume/application.go:176-203 | the same for delete |
| Application.Application.ReconcileVolume | volume/application.go:298-357 | the same for reconcile, for all three answers of the backend; the caller gets its own realigned record |
| Application.Application.Subscribe | volume/application.go:411-416 | a channel of the caller's own behind the others of the name, exactly if the record is found |
| Application.Application.Unsubscribe | volume/application.go:419-421 | closes the channel and leaves all others registered |
| Application.Application.CallBackend | volume/application.go:448-450 | a worker's backend call over the heap, lost, served, or served and reported failed, is the protocol's |
| Application.Application.TryOnce | volume/application.go:441-486 | the first half of an attempt leads to the protocol's stage after success, after a logged error, or after any early exit |
| Application.Application.Attempt | volume/application.go:439-526 | one pass of the loop performs the protocol's stages in order and goes round again exactly when the protocol's worker does |
| Application.Application.RunWithRetry | volume/application.go:429-527 | the retry loop performs the stages of the protocol's worker until that worker is done, and sleeps once for each wait that the worker completes, for the first waits of the back-off, fewer than MaxAttempts |
| Conduct.Service.WorkOnce | volume/application.go:439-526 | over the heap, one stage of a worker is the protocol's stage |
| Conduct.Service.TakeStep | volume/application.go:117-527 | over the heap, one call, stage or cancellation is the step of the step relation, and every channel hears exactly what it publishes under its name |
| Conduct.Service.Conduct | volume/application.go:117-527 | over the heap, calls, stages of any workers and cancellation in any order are the run of the step relation, for every run with creates on the in-memory backend |
| Conduct.FromEmpty | volume/application.go:117-527 | and so the heap of a service started on empty stores has agreeing stores after any such run, whatever fails |
| Startup.SchedulesAreIndependent | volume/factory.go:154-162 | whatever the schedule of the goroutines and whatever fails, each is where it would be on its own, its volume's record, entries and events are what they would be, and other records are untouched |
| Startup.WritesLeaveOthers | volume/factory.go:211-308 | a goroutine's writes change nothing that belongs to another volume |
| Startup.StepSeesOwn | volume/factory.go:211-308 | what a goroutine does depends on nothing but its own volume |
| StartupResults.CompleteSchedulesAgree | volume/factory.go:154-162 | any two complete schedules lead to the same records and to the same entries and events for every volume |
| StartupResults.AloneRepairs | volume/factory.go:211-308 | on a working database one goroutine brings its record to what the policy and the backend's answer demand, and leaves it alone if there is no answer |
| StartupResults.AloneUnderFaults | volume/factory.go:211-308 | the record that a startup goroutine leaves, by which of its reads and writes work: which faults leave it alone, which leave it failed, and which let the repair be made |
| StartupResults.PassUnderFaults | volume/factory.go:139-308 | every complete schedule of the pass leaves each listed volume's record so |
| StartupResults.RepairTable | volume/factory.go:226-282 | state by state and policy by policy, the record that a repair leads to |
| StartupResults.AloneKeepsVolume | volume/factory.go:211-308 | whatever fails, a startup goroutine never changes the ID, name, size or backend of its record |
| StartupResults.PassRepairsExactly | volume/factory.go:139-162 | on a working database the pass repairs exactly the transitional records that the backend answers for, and leaves every other record alone |
| StartupResults.PassRepairsEverything | volume/factory.go:139-162 | with a backend that always answers, whatever is still transitional is missing from the backend and was to be ignored |
| StartupResults.PassOnMock | volume/factory.go:219-226 | on the in-memory backend a transitional record is repaired exactly when its volume is held and every other record is unchanged, the same under every policy and schedule |
| Importing.SecondPassChangesNothing | volume/factory.go:139-308 | a second pass, repair and import, changes neither records, log nor feed, for every policy, whatever its schedule, IDs and faults |
| StartupResults.RepairAgreesExactlyWhen | volume/factory.go:247-282 | a repaired record agrees with the backend exactly when the volume is not on a node, or was to be deleted, or is missing and may be |
| StartupResults.StageIsSilentExactlyWhen | volume/factory.go:269-305 | whatever fails, a stage that changes a state goes unpublished exactly when it aligns the record, or its update took effect while it was reported as failed |
| StartupResults.StepLogsProperly | volume/factory.go:269-305 | whatever fails, startup logs only edges of the table and repairs from a transitional state to available |
| StartupResults.AlignFollowsExactlyWhen | volume/factory.go:269-282 | a startup repair keeps the log in step with the record exactly when the entry is saved if and only if the record is written |
| Witnesses.RepairIsOnlyLogged | volume/factory.go:269-282 | a run after which startup logs a repair whose update the database refuses, so that the log no longer replays to the record |
| StartupResults.PassKeepsAudit | volume/factory.go:139-308 | as long as an entry is saved exactly when its record is written, the pass keeps every listed record in step with its log, at every moment of every schedule |
| Importing.ImportCoversBackend | volume/factory.go:169-207 | after an import every backend volume has a record, records that existed are unchanged, and each new one has the fresh ID, its own name, the backend's size, state available, backend "mock" and no node |
| Importing.ImportSparesRecords | volume/repository/inmemory.go:27-36 | whatever else runs, an import stage never changes a record that exists |
| Importing.ImportAgreesExactlyWhenIdle | volume/factory.go:187-195 | an imported record agrees with the backend exactly when the volume is available there |
| Importing.ImportIsIdempotent | volume/factory.go:175-207 | a second import finds nothing to do |
| Importing.ImportsCombine | volume/factory.go:175-207 | importing in two parts is importing at once, whatever fails |
| Importing.ImportSchedulesAgree | volume/factory.go:175-207 | however the loads and saves of the import's goroutines interleave and whatever fails, once all have ended the world is the one that imports everything at once |
| Factory.SequentialIsComplete | volume/factory.go:154-162 | one goroutine after the other is a complete schedule |
| Factory.ListingFindsTransitional | volume/factory.go:143-152 | listing by state, in whatever order, lists exactly the transitional records |
| Factory.VolumeFeature.ReconcileDBVolume | volume/factory.go:211-283 | one volume's reconciliation over the heap is what its goroutine does on its own |
| Factory.VolumeFeature.ReconcileToError | volume/factory.go:287-308 | the two guarded events over the heap are the goroutine's two stages |
| Factory.VolumeFeature.TakeTurn | volume/factory.go:211-308 | over the heap, one stage of one goroutine is the protocol's stage |
| Factory.VolumeFeature.ReconcileAll | volume/factory.go:154-162 | over the heap, the goroutines take their stages in any given schedule, and lead to what that schedule leads to on values |
| Factory.VolumeFeature.ReconcileListed | volume/factory.go:143-162 | lists exactly the transitional records and runs their goroutines in any schedule |
| Factory.VolumeFeature.ImportAll | volume/factory.go:175-207 | over the heap, the import's goroutines load and save in any given schedule |
| Factory.VolumeFeature.ImportBackendVolumes | volume/factory.go:169-207 | lists the whole backend, each volume once, and imports it in any schedule |
| Factory.VolumeFeature.ReconcileOnStartup | volume/factory.go:139-208 | the whole pass over the heap, in any schedules: repair, then import if the policy says so; it ends where a listing fails, and leads to what the pass on values leads to |
| Races.AtMostOneInserts | volume/application.go:129-171 | however concurrent creates interleave between their loads, saves and updates, and whatever else writes, at most one inserts a name, whatever it is told, and only an inserter starts a worker |
| Races.TakenNamesStayTaken | volume/repository/inmemory.go:27-36 | the save decides the race: once a name is taken no other create ever inserts it |
| Races.TakenExactlyWhenInserted | volume/application.go:129-152 | however creates interleave, and whatever fails, a name is taken exactly when it was taken before or one of them has inserted it |
| Races.LoneCreateIsAccepted | volume/application.go:129-152 | a create of a free name that nobody interferes with is accepted on a working database |
| Races.TakenCreateIsRefused | volume/application.go:129-150 | a create that finds its name taken, when it looks or when it saves, writes nothing and is refused |
| Races.BothAcceptedExactlyWhenOverlapping | volume/application.go:176-287 | two requests that the volume's state admits (attach, delete, detach), under any DB faults and with stages of an accepted one's worker in between, are both accepted exactly when the database does all that both ask for and each loads before the other's guarded update |
| Races.TwoWorkersForOneVolume | volume/application.go:222-257 | an interleaving of two attaches in which that happens although the first one's worker has finished in between |
| Races.WriteBackUndoesAttach | volume/application.go:231-242 | an interleaving in which the node write of a second attach makes the record available again, although the first was accepted and the volume is attached |
| Races.DeletedWhileAttached | volume/application.go:176-257 | an interleaving in which a delete is accepted for a volume that an overlapping attach has attached |
| Witnesses.OverlapBreaksAgreement | volume/factory.go:211-243 | a startup goroutine that overlaps a create erases its record, and the backend is left with a volume without one |

## Left out

- HTTP routing, JSON, SSE text framing, error-to-status mapping, the flusher check and the other handlers: transport only.
- PostgreSQL, Ceph and NVMe-oF: foreign calls. `PostgresRepository.UpdateVolume` also accepts a missing row, which this model does not.
- Tracing, metrics, log lines, clocks, timestamps and UUID generation.
- Wall-clock timeouts and the caller's deadline in `Close`; `Close`'s closing of other resources.
- Float rounding and overflow in the back-off; the multiplier is a real number.
- A backend call that takes effect only after its error was reported and the worker has moved on.
- A DB write that takes effect after the call that made it returned; entries and events of different volumes that overlap within one `applyEvent`.
- `ListVolumes`, `GetVolume` and `HealthCheck` of the application: they only read.
- State and event strings outside the constants of `volume/fsm.go`.
- Broker.EventBroker.Publish: is called with the name of the event itself, as its only caller does (`volume/application.go:399-404`).
- Handler.StreamVolumeEvents: whoever has subscribed before it stays subscribed while it lasts; other streams come and go, but what they write is not followed.
- Audit.LogTellsState: requires that audit entries are saved and that no update takes effect while its caller is told that it failed.
- Audit.RunStaysAudited: makes the same assumption as `Audit.LogTellsState`; `Audit.RunStaysAuditedExactlyWhen` says when it can be dropped.
- Audit.RetriesAddUp: makes the same assumption as `Audit.LogTellsState`.
- Restart.LogTellsEveryLife: makes the same assumption, and at startup that an entry is saved exactly when its record is written.
- Streams.StreamHasNoGap: requires a queue that dropped nothing, or at most seven attempts and no update that takes effect while its caller is told that it failed.
- Streams.ClosingEventGetsThrough: requires that no update takes effect while its caller is told that it failed; without that it is false (`SlowSubscriber.SilentUpdatesLoseClosingEvent`).
- Saga.EveryLifeIsAStory: makes the same assumptions as `Restart.LogTellsEveryLife`, and that all lives have the same MaxAttempts.
- Chronicle.LogIsAStory: is about runs without faults; `Chronicle.RunStaysTold` and `Saga.EveryLifeIsAStory` allow them.
- Conduct.Service.Conduct: a worker is followed stage by stage, not as the loop of `Application.Application.RunWithRetry`, and without its sleeps.
- Recovery.LostAnswerIsRecovered: is about the worker alone; `Aftermath.LostAnswersAreRecovered` has the other calls and workers, on a working database and without cancellation.
