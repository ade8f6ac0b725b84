# Verification of the Mac mini AI hub

A Dafny model of the crash-tolerant task engine of the hub, with proofs. The engine keeps tasks, an
append-only event log, runs, reply routes, gateway reservations and delivery receipts in one SQLite
file; workers, gateway requests and a Slack notifier share that file, any of them may be interrupted
between two awaits, and a crash kills everything in flight and keeps the tables.

`dafny verify dfyconfig.toml` checks the whole project.

## How the model is built

- **The store.** `StoreModel.dfy` gives every transaction as a function on a value `Db`, with the
  rejections, the rollbacks and the foreign key of the code. `SQLiteStores.dfy` is the mutable store: a
  class whose methods change the tables in place, roll back on failure and loop over rows as the code
  does; each is proved to end in exactly the tables and result the function gives.
- **The log.** `Events.dfy` says what a well-formed task log is, `Projections.dfy` is the projector as a
  class and as a fold. `StoreRuns.dfy` proves over every run of transactions that columns, version
  counter and log agree, and *exactly when* replaying the log gives the stored task.
  `StoreHistory.dfy` proves what is never undone, what a restart repairs, and what a queue listing
  returns.
- **One worker.** `Workers.dfy` cuts `process_task` at its awaits. `Orchestrator.dfy` is the same code as
  methods over the mutable store, with an arbitrary list of other people's transactions run at every
  await (`Interference.dfy`), and is proved to refine the cut form. `Settlement.dfy` proves that a
  worker settles its task.
- **One request.** `Gateway.dfy` cuts the gateway's `handle` at its awaits, `GatewayService.dfy` is the
  code, proved to refine it.
- **The hub.** `Engine.dfy` puts any number of workers and requests, storage failures, interruptions,
  orphaned threads, crashes, restarts with another configuration and restart reconciliation into one
  step system. `AtMostOnce.dfy`, `OneTaskPerEvent.dfy` and `EngineReplay.dfy` prove its three laws over
  every run. `StaleClaims.dfy` and `Contention.dfy` say what becomes of a task that several workers
  compete for, `StrandedTask.dfy` is a run that strands one, `CancellationRaces.dfy` are runs of a
  cancellation that crosses a worker, `Retries.dfy` follows a repeated request to its answer.
- **Around it.** `FileLock.dfy` and `ProjectLocks.dfy` (the project lock among several processes),
  `ProjectExecution.dfy` (the lock around the workers of one project) and `WorkspaceInterruptions.dfy`
  (what a worker interrupted while it opens its workspace leaves behind),
  `Delivery.dfy` and `Notifications.dfy` (bounded retry, receipts, startup replay), `Configuration.dfy` and
  `Selection.dfy`, `SlackRoutes.dfy`, `Migrations.dfy`, `Deduplication.dfy`, `BoundedReader.dfy`,
  `BranchNames.dfy`.

## What the proofs show about the code

- Replay agrees with the store exactly when no event is committed behind a later one of its task. The
  store does not enforce this: an event is stamped when it is built
  (`src/macmini_ai_hub/orchestrator/service.py:300-320`) and committed later, and the store compares the
  stamp only with the creation and start times. A cancellation stamped before, and committed after, the
  worker's move to running is accepted and leaves a log the projector refuses
  (`EngineReplay.CancellationRaceBreaksReplay`). The whole hub gets to such a log from an empty store
  (`CancellationRaces.BrokenReplayIsReachable`); a cancellation that crosses the claim and the assignment
  keeps the replay exactly when the three are stamped in the order they commit
  (`CancellationRaces.CrossingExact`).
- A blocked task may be claimed a second time, by a call of `process_task` that read it while it was
  queued: a claim is accepted exactly from queued or blocked (`StaleClaims.ClaimAcceptance`). At most once
  therefore holds of run records, not of claims. The second call chooses the same developer, the store
  refuses to assign an agent twice, and `assign_task` stands outside the `try`
  (`src/macmini_ai_hub/orchestrator/service.py:110-126`), so the call raises and the task stays in planning
  with nobody at work. A claim followed by its assignment ends so exactly when the task already lists the
  developer chosen (`StaleClaims.StrandingExact`); two overlapping calls on one task get there from an empty
  store (`StrandedTask.StrandingIsReachable`). Competing workers that are not interrupted leave their task
  settled exactly when none of them claims it again so, or it is cancelled afterwards
  (`Contention.SettledUnlessClaimedAgain`). One polling loop does not overlap its own calls: `run_once`
  waits for all it started.
- A cancellation is not always accepted: a worker may conclude the task between the read and the move. It is
  accepted exactly while the stored task is not over and the clock not behind it
  (`StaleClaims.CancellationAcceptance`); the hub gets to a refused one from an empty store
  (`CancellationRaces.RefusedCancellationIsReachable`).
- A worker cancelled inside the awaited `lock.acquire` never sets `acquired`
  (`src/macmini_ai_hub/application/adapters.py:217-237`), so the lock its thread takes is not released. While
  the process lives a held lock can still be given up exactly when its worker was not interrupted there
  (`WorkspaceInterruptions.LeftBehindExactly`, `WorkspaceInterruptions.InterruptionLeavesTheLock`); otherwise
  no later worker of the project comes inside until the process dies
  (`WorkspaceInterruptions.LeakedLockBlocks`), and any worker that finds the lock free may be interrupted so
  (`WorkspaceInterruptions.LeakIsReachable`).
- A worker cancelled inside the awaited `create_task_branch` releases the lock while the thread goes on. As
  long as no interruption falls inside a preparation, at most one block of the project prepares or works
  (`WorkspaceInterruptions.OneBlockAtWork`); an interrupted preparation may go on while the next worker is
  inside (`WorkspaceInterruptions.InterruptedPreparationOverlaps`).
- Pruning the in-memory deduplicator is not a full expiry: a hit moves an entry to the end without
  renewing its time. A remembered key is answered exactly while its own time lasts or a fresher entry stands
  before it (`Deduplication.AnsweredWhenKept`); `Deduplication.ExpiredResponseIsServed` is four calls
  that get an answer two past its life.

## Model

| member | source | states |
|---|---|---|
| `Lifecycle.TransitionAcceptance` | src/macmini_ai_hub/domain/tasks.py:167-197 | a transition of a valid snapshot is accepted exactly when the table allows it and the time is not behind creation or start; validating the result again never refuses; identity, agents and an existing start time are kept |
| `Lifecycle.TerminalEndsPath` | src/macmini_ai_hub/domain/tasks.py:56-110 | a terminal status can only be the last of a path of legal transitions |
| `Runs.FinishAcceptance` | src/macmini_ai_hub/storage/models.py:162-182 | closing an active run is refused by its validator only for a time before its start or for a success with an error code |
| `Events.OneCreation` | src/macmini_ai_hub/storage/sqlite.py:184-274 | a well-formed task log announces its creation exactly once, as its first event |
| `Events.TerminalClosesStory` | src/macmini_ai_hub/domain/tasks.py:107-109 | once a log has announced a terminal status, no later event changes the status |
| `Projections.TaskProjector.Receive` | src/macmini_ai_hub/observability/projections.py:60-75 | consuming an event either moves the projector to the state the fold gives or fails and leaves it unchanged |
| `Projections.ReplayTask` | src/macmini_ai_hub/observability/projections.py:150-156 | the replay loop returns what folding all events gives, including the first error |
| `Projections.RedeliveryIsHarmless` | src/macmini_ai_hub/observability/projections.py:61-69 | delivering any event again, at any later point of any stream, changes neither the projection nor the error |
| `Projections.ReplayExact` | src/macmini_ai_hub/observability/projections.py:60-147 | replaying a well-formed log succeeds exactly when time never goes back and every observation names the own project and team or none; the result then is the log's status, agents, times, last event and count |
| `StoreRuns.AgreementExact` | src/macmini_ai_hub/observability/projections.py:150-156 | in a sound store a task agrees with its replay exactly when its log is monotone and in context and its agents are those the log assigned |
| `StoreRuns.CommitExact` | src/macmini_ai_hub/storage/sqlite.py:442-472 | committing a row with its event keeps the store sound, and keeps agreement exactly when the event is not older than the task's last and names its own context |
| `StoreRuns.CreateQueuedExact` | src/macmini_ai_hub/storage/sqlite.py:213-274 | a queued creation, accepted, refused or rolled back, keeps the store sound, and agreement exactly when the new task carries no agents |
| `StoreRuns.MoveExact` | src/macmini_ai_hub/storage/sqlite.py:334-375 | a transition, accepted, refused or retried, keeps the store sound, and agreement exactly when a committed event is not older than the task's last |
| `StoreRuns.AssignExact` | src/macmini_ai_hub/storage/sqlite.py:377-429 | the same for an assignment |
| `StoreRuns.AppendExact` | src/macmini_ai_hub/storage/sqlite.py:434-472 | the same for an observation, which must also name its own project and team or none |
| `StoreRuns.ReconcileExact` | src/macmini_ai_hub/storage/sqlite.py:1003-1076 | the same for restart reconciliation, for all stuck tasks at once |
| `StoreRuns.EveryRunIsSound` | src/macmini_ai_hub/storage/sqlite.py:184-478 | over every run of transactions: columns repeat the document, the version counts the atomic events, the update time is the last one's, the status is the log's, foreign keys hold, run columns and receipts are valid |
| `StoreRuns.ReplayRefinesStore` | src/macmini_ai_hub/storage/sqlite.py:184-478 | over every run from a sound store, all tasks agree with their replays at the end exactly when they did at the start and every committing step met a condition its caller can check beforehand |
| `StoreRuns.ReplayRefinesStoreFromScratch` | src/macmini_ai_hub/observability/projections.py:150-156 | the same from an empty store, where only the conditions on the steps remain |
| `StoreHistory.SettledForGood` | src/macmini_ai_hub/storage/sqlite.py:334-375 | over every run of transactions the log only grows, a task's first terminal status and completion time stay, finished runs, remembered responses, delivered receipts and routes never change |
| `StoreHistory.ReconcileCompleteAndMinimal` | src/macmini_ai_hub/storage/sqlite.py:1003-1076 | after reconciliation no run is open and no task planning or running; each affected task has one more version and one blocked event; everything else is as before |
| `StoreHistory.ReconcileIdempotent` | src/macmini_ai_hub/storage/sqlite.py:1003-1076 | a second reconciliation, at any time, returns empty results and changes nothing |
| `StoreHistory.ListingServesOldestQueued` | src/macmini_ai_hub/storage/sqlite.py:288-303 | in a sound store the listing over the status column is exactly the first `limit` tasks whose document is queued, in creation time and id order |
| `SQLiteStores.SQLiteStore.CreateTask` | src/macmini_ai_hub/storage/sqlite.py:184-211 | the mutable store ends in the tables and result of the specification, rolled back on failure |
| `SQLiteStores.SQLiteStore.CreateQueuedTask` | src/macmini_ai_hub/storage/sqlite.py:213-274 | the same for task, two events and route in one transaction |
| `SQLiteStores.SQLiteStore.ListQueuedTasks` | src/macmini_ai_hub/storage/sqlite.py:288-303 | returns the oldest queued tasks, or refuses a limit outside 1 to 1000 |
| `SQLiteStores.SQLiteStore.TransitionTask` | src/macmini_ai_hub/storage/sqlite.py:334-375 | row, version and event change together or not at all; a retried event changes nothing; a reused id with another envelope conflicts |
| `SQLiteStores.SQLiteStore.AssignTask` | src/macmini_ai_hub/storage/sqlite.py:377-429 | the same for an assignment, refused for a listed agent or a status other than the event's |
| `SQLiteStores.SQLiteStore.AppendEvent` | src/macmini_ai_hub/storage/sqlite.py:434-472 | appends an observation once; refuses lifecycle types and unknown tasks |
| `SQLiteStores.SQLiteStore.FinishRun` | src/macmini_ai_hub/storage/sqlite.py:568-595 | closes an open run, refuses a closed one, and writes only validated records |
| `SQLiteStores.SQLiteStore.RememberGatewayResponse` | src/macmini_ai_hub/storage/sqlite.py:745-785 | records the first response; accepts the same again, conflicts on another |
| `SQLiteStores.SQLiteStore.ReleaseGatewayRequest` | src/macmini_ai_hub/storage/sqlite.py:787-800 | removes an open reservation, refuses an answered one |
| `SQLiteStores.SQLiteStore.ReconcileIncompleteGatewayRequests` | src/macmini_ai_hub/storage/sqlite.py:802-816 | removes exactly the open reservations and returns them in order |
| `SQLiteStores.SQLiteStore.MarkDeliveryDelivered` | src/macmini_ai_hub/storage/sqlite.py:933-970 | turns a reservation into a valid delivered receipt once, and refuses a time before the reservation |
| `SQLiteStores.SQLiteStore.ListTaskRoutes` | src/macmini_ai_hub/storage/sqlite.py:859-881 | returns the first `limit` routes in task id order, each once |
| `SQLiteStores.SQLiteStore.ReconcileInterruptedRunning` | src/macmini_ai_hub/storage/sqlite.py:1003-1076 | the two row loops together compute the declarative reconciliation, or roll all of it back |
| `Workers.EveryStepAdvances` | src/macmini_ai_hub/orchestrator/service.py:98-176 | every step of an unfinished worker brings it closer to its end, so a worker takes a bounded number of awaits |
| `Settlement.BesideLook` | src/macmini_ai_hub/orchestrator/service.py:178-195 | what runs beside a worker leaves its task's runs alone and its document as it was or cancelled |
| `Settlement.CalmStep` | src/macmini_ai_hub/orchestrator/service.py:98-176 | every step with working storage and clock takes the task from one phase of the worker to the next |
| `Orchestrator.WorkerSettlesItsTask` | src/macmini_ai_hub/orchestrator/service.py:98-195 | from a queued, unassigned, never-run task, whatever workspace, runtime and concurrent cancellations do: when the worker returns or raises the task is blocked or terminal, its runs are closed, a completed task has a successful run, and a returned status is the task's |
| `Orchestrator.SingleDeveloperOrchestrator.ProcessTask` | src/macmini_ai_hub/orchestrator/service.py:98-176 | the code over the mutable store ends where the worker machine ends, for every script of awaits and interference |
| `Orchestrator.SingleDeveloperOrchestrator.ProcessQueuedTask` | src/macmini_ai_hub/orchestrator/service.py:98-176 | what a caller gets: processing a queued task leaves it settled in the mutable store |
| `Orchestrator.SingleDeveloperOrchestrator.ConcludeRun` | src/macmini_ai_hub/orchestrator/service.py:209-249 | closing the run and concluding the task follow the machine, with the exception handler on every failure |
| `Orchestrator.SingleDeveloperOrchestrator.HandleFailure` | src/macmini_ai_hub/orchestrator/service.py:155-173 | the exception handler returns a terminal status it finds, and otherwise fails the task |
| `Orchestrator.SingleDeveloperOrchestrator.SettleTask` | src/macmini_ai_hub/orchestrator/service.py:278-298 | blocking and failing read the task again and move what they read |
| `Engine.EngineUsesTransactions` | src/macmini_ai_hub/storage/sqlite.py:161-182 | every step of the hub changes the store by one of its transactions on validated records, or not at all |
| `Engine.RunKeepsStore` | src/macmini_ai_hub/storage/sqlite.py:161-182 | over every run of the hub the store stays sound and no settled fact is lost to any step, crash or restart |
| `AtMostOnce.AssignGivesOut` | src/macmini_ai_hub/orchestrator/service.py:110-122 | an accepted assignment is the task's first, even for a stale worker that claimed a blocked task again |
| `AtMostOnce.StepKeepsInv` | src/macmini_ai_hub/orchestrator/service.py:98-142 | every step of the hub keeps: a waiting task is unassigned, at most one worker may still create a task's run, and none exists while it may |
| `AtMostOnce.AtMostOneRunPerTask` | src/macmini_ai_hub/orchestrator/service.py:98-176 | over every interleaving of workers, requests, cancellations, storage failures, crashes and restarts: at most one run record per task, a waiting task has neither agents nor runs, and a completed task has a run that succeeded |
| `StaleClaims.ClaimAcceptance` | src/macmini_ai_hub/domain/tasks.py:58-105 | with working storage and a new event id a claim is accepted exactly from queued or blocked with a clock not behind the task, and then moves it to planning; otherwise nothing changes |
| `StaleClaims.CancellationAcceptance` | src/macmini_ai_hub/orchestrator/service.py:178-195 | with working storage and a new event id a cancellation is accepted exactly while the stored task is not terminal and the clock not behind it |
| `StaleClaims.AssignmentStrands` | src/macmini_ai_hub/orchestrator/service.py:110-122 | whatever happened since the claim, an assignment leaves its task in planning with its worker failed exactly when the task is still in planning and already lists the agent |
| `StaleClaims.StrandingExact` | src/macmini_ai_hub/orchestrator/service.py:104-122 | an accepted claim followed by its assignment strands the task in planning exactly when it already lists the developer chosen |
| `StaleClaims.StepKeepsMind` | src/macmini_ai_hub/orchestrator/service.py:98-176 | over every step of the hub the task a worker carries keeps the identity of the one it was started on |
| `StrandedTask.TwoCallsStrand` | src/macmini_ai_hub/orchestrator/service.py:98-142 | in any hub state with a queued, unassigned task, two overlapping calls can run so that one returns blocked and the other fails with the task in planning |
| `StrandedTask.StrandingIsReachable` | src/macmini_ai_hub/orchestrator/service.py:98-142 | the same as one allowed run of the hub from an empty store, with the request that creates the task |
| `Contention.ClaimInOrder` | src/macmini_ai_hub/orchestrator/service.py:98-113 | a claim among competing workers keeps the task in one worker's hand and phase, unless it is a second claim of a task that lists the developer |
| `Contention.SettledUnlessClaimedAgain` | src/macmini_ai_hub/orchestrator/service.py:98-195 | from any reachable state with the task queued and no worker on it, over every run in which workers on it are not interrupted and find storage and clock working: when all of them are done, the task is settled exactly when nobody claimed it while it already listed the developer chosen, or it was cancelled after that; otherwise it is in planning |
| `OneTaskPerEvent.SubmitVerdict` | src/macmini_ai_hub/application/adapters.py:68-122 | with working storage and clock a submission is refused as duplicate exactly when its task exists, and accepted otherwise |
| `OneTaskPerEvent.OwnReservation` | src/macmini_ai_hub/gateway/service.py:89-168 | a request's step touches the reservation of its own key only, and serves the key only while that reservation is open |
| `OneTaskPerEvent.OneTaskPerKey` | src/macmini_ai_hub/gateway/service.py:63-168 | over every interleaving of duplicates, interruptions, orphaned threads, crashes and restarts: each key has at most one accepted creation, every task and route is the one accepted for its key and was created by exactly one event, every accepted answer names its key's task, and no two requests serve one key together |
| `OneTaskPerEvent.SubmissionOutcome` | src/macmini_ai_hub/gateway/service.py:185-218 | with working storage and clock the first submission of a key makes its task, and any later one goes on to compare |
| `OneTaskPerEvent.RetryVerdict` | src/macmini_ai_hub/application/adapters.py:113-120 | the comparison lets through exactly the request accepted before, field for field and with the same route, with that task's view; anything else becomes a conflict |
| `OneTaskPerEvent.OwnerRecordsItsAnswer` | src/macmini_ai_hub/gateway/service.py:153-168 | with working storage the owner of a reservation stores its answer as given |
| `Retries.EnqueuedTask` | src/macmini_ai_hub/application/adapters.py:159-185 | with working storage a request past the comparison is answered accepted with the key's task as it stands; in the hub no task is ever found pending there |
| `Retries.RepeatedRequestIsAnswered` | src/macmini_ai_hub/gateway/service.py:89-218 | in every reachable state: a dispatched request under a key accepted before, not interrupted and with working storage on its own steps, is answered after at most nine of them, with anything else in between; accepted with the key's task if it asks for what was accepted, a conflict otherwise; and that answer is recorded under the key |
| `GatewayService.DriveAnswers` | src/macmini_ai_hub/gateway/service.py:63-168 | every request is answered within a bounded number of awaits |
| `GatewayService.AgentGateway.Handle` | src/macmini_ai_hub/gateway/service.py:63-168 | the code over the mutable store ends where the request machine ends, for every script of awaits and interference |
| `GatewayService.AgentGateway.CreateTask` | src/macmini_ai_hub/application/adapters.py:68-122 | creation with its error mapping and replay branch follows the machine |
| `GatewayService.AgentGateway.Enqueue` | src/macmini_ai_hub/application/adapters.py:159-185 | only a pending task is moved to queued; the answer shows the present state |
| `GatewayService.AgentGateway.Cancel` | src/macmini_ai_hub/orchestrator/service.py:178-195 | a terminal task is returned as it is, any other is moved to cancelled or the refusal reported |
| `EngineReplay.EngineReplayExact` | src/macmini_ai_hub/orchestrator/service.py:300-320 | over every run of the hub all tasks replay to their stored status and agents exactly when no event was committed behind a later one of its task |
| `EngineReplay.CancellationRaceBreaksReplay` | src/macmini_ai_hub/orchestrator/service.py:178-195 | a concrete run of accepted transactions after which a cancelled task's log cannot be replayed |
| `CancellationRaces.CrossingExact` | src/macmini_ai_hub/orchestrator/service.py:178-195 | in any hub state where a worker is to claim and a request to cancel the same queued task: a cancellation that commits after claim and assignment and is not stamped before the claim is accepted, and the log still replays exactly when it did before and no stamp is behind the one committed before it |
| `CancellationRaces.ConcludedFirst` | src/macmini_ai_hub/orchestrator/service.py:178-195 | from any such state without an eligible developer the worker may fail the task first; the cancellation is then refused as a conflict and the task stays failed |
| `CancellationRaces.BrokenReplayIsReachable` | src/macmini_ai_hub/orchestrator/service.py:300-320 | a legal run of the whole hub from an empty store after which a cancelled task's log does not replay to the store |
| `CancellationRaces.RefusedCancellationIsReachable` | src/macmini_ai_hub/orchestrator/service.py:178-195 | a legal run of the whole hub from an empty store in which a cancellation is refused because the worker concluded between its read and its move |
| `FileLock.RemovalsAreSafe` | src/macmini_ai_hub/locks/file_lock.py:279-315 | in every run, even with an operator editing the directory: a lock file is taken away only by its creator's failed write, by a recovery whose twice-read dead and old owner it still names, or by a release that still finds its own token |
| `FileLock.WaitingIsBounded` | src/macmini_ai_hub/locks/file_lock.py:164-199 | however recoveries interleave, an instance asks for at most the wait timeout of sleep, naps fewer than timeout / interval + 1 times, and gives up only at its deadline |
| `FileLock.AtMostOneHolder` | src/macmini_ai_hub/locks/file_lock.py:153-213 | over every interleaving of acquires, recoveries, releases, failed writes and crashes at most one live instance holds the lock, and the path carries its metadata |
| `FileLock.ReleaseGoesThrough` | src/macmini_ai_hub/locks/file_lock.py:201-213 | short of an I/O error a holder's release never finds its file missing or changed |
| `ProjectLocks.ProjectFileLock.Acquire` | src/macmini_ai_hub/locks/file_lock.py:153-199 | the retry loop ends with the directory, the metadata and the recovered metadata the lock machine ends with, whatever others do to the directory meanwhile |
| `ProjectLocks.ProjectFileLock.TryRecover` | src/macmini_ai_hub/locks/file_lock.py:176-189 | inspection, second read and compare-and-delete follow the machine |
| `ProjectLocks.ProjectFileLock.Release` | src/macmini_ai_hub/locks/file_lock.py:201-213 | the instance forgets its metadata exactly when its own file was removed |
| `ProjectLocks.StaleLockIsTakenOver` | src/macmini_ai_hub/locks/file_lock.py:164-199 | a dead owner's old file does not block an undisturbed acquire: it is recovered, reported and replaced without sleeping |
| `ProjectExecution.OneWorkerPerProject` | src/macmini_ai_hub/application/adapters.py:202-237 | from an empty store and any leftover lock directory, over every interleaving of hub, lock instances, interrupted acquires and preparations, other processes, crashes and restarts: at most one worker is inside a project's workspace block, it holds the project's lock, and nobody else does |
| `WorkspaceInterruptions.LeftBehindExactly` | src/macmini_ai_hub/application/adapters.py:217-237 | in any reachable state a lock held by the process can still be given up while the process lives exactly when its worker was not interrupted inside the awaited acquire |
| `WorkspaceInterruptions.InterruptionLeavesTheLock` | src/macmini_ai_hub/application/adapters.py:217-237 | a worker interrupted while it opens its workspace, the lock taken, leaves the lock held for as long as the process lives exactly when its acquire had not been seen to return |
| `WorkspaceInterruptions.LeakedLockBlocks` | src/macmini_ai_hub/application/adapters.py:217-237 | over every run in which the process lives a lock left behind stays held: no worker of the project comes inside and no other instance, of any process, holds the lock |
| `WorkspaceInterruptions.LeakIsReachable` | src/macmini_ai_hub/application/adapters.py:217-221 | from any state in which a worker comes to open the workspace while the lock is free, a legal run leaves the lock behind |
| `WorkspaceInterruptions.OneBlockAtWork` | src/macmini_ai_hub/application/adapters.py:222-237 | over every run from an empty store in which no interruption falls inside a preparation, at most one block of the project prepares its branch or has its worker inside |
| `WorkspaceInterruptions.InterruptedPreparationOverlaps` | src/macmini_ai_hub/application/adapters.py:222-237 | from any reachable state with a preparation at work and another worker come to open the workspace, interrupting the preparation lets that worker inside while the preparation's thread goes on |
| `Delivery.RetryingSlackDelivery.SendWithRetry` | src/macmini_ai_hub/integrations/slack.py:244-267 | at most the allowed sends, only retryable failures before the last, total sleep within the bound |
| `Delivery.RetryingSlackDelivery.Deliver` | src/macmini_ai_hub/integrations/slack.py:236-271 | duplicates and deliveries in progress send nothing; sent means the receipt is delivered; a raise after sending with a working release leaves no receipt; an accepted message is reported as a failure only if its receipt could not be written |
| `Delivery.AcceptedOncePlusLosses` | src/macmini_ai_hub/integrations/slack.py:236-271 | over every interleaving of deliverers, interruptions, failed writes, orphaned threads, crashes and restarts the service takes a delivery at most once plus once for every message it took in a send that was interrupted, reported as failed, or lost before it was recorded; every deliverer keeps its attempt and sleep bounds |
| `Notifications.UpdateIdsAreUnique` | src/macmini_ai_hub/application/notifications.py:74 | two updates share a receipt exactly when task and status are the same |
| `Notifications.StoredRouteResultNotifier.NotifyTask` | src/macmini_ai_hub/application/notifications.py:42-60 | touches one receipt only; a Slack-routed task without one is delivered, or the call raises |
| `Notifications.StoredRouteResultNotifier.ReconcilePending` | src/macmini_ai_hub/application/notifications.py:62-87 | after receipt reconciliation every Slack-routed task with a replayable status among the first 1000 routes ends delivered for its status or named as failed; nothing delivered is sent again, nothing is accepted twice, only receipts change |
| `Configuration.ValidateRelationships` | src/macmini_ai_hub/config/models.py:288-368 | the loops report only real problems, and none exactly when the registries are consistent |
| `Configuration.CheckProjects` | src/macmini_ai_hub/config/models.py:330-356 | the workspace dictionary detects exactly the shared workspaces, besides ownership and location |
| `Configuration.CheckRooms` | src/macmini_ai_hub/config/models.py:358-364 | the room dictionary detects exactly the shared rooms |
| `Configuration.TeamsAndProjectsCorrespond` | src/macmini_ai_hub/config/models.py:319-341 | in an accepted bundle product teams and projects correspond one to one |
| `Configuration.TeamsPartitionAgents` | src/macmini_ai_hub/config/models.py:296-317 | in an accepted bundle every agent is listed by exactly one team, once, and every listed agent is registered with a known profile |
| `Selection.SelectDeveloper` | src/macmini_ai_hub/orchestrator/selection.py:28-72 | in an accepted bundle no lookup misses, and an agent is returned exactly when it is the one eligible member of the product team that owns the project |
| `Selection.ChoiceIsLocal` | src/macmini_ai_hub/orchestrator/selection.py:31-36 | the chosen agent belongs to that team, and no other pairing of the team or the project yields a choice |
| `SlackRoutes.RoundTrip` | src/macmini_ai_hub/integrations/slack.py:105-138 | decoding what encode accepted gives the route back, an absent thread staying absent |
| `SlackRoutes.DecodeIsCanonical` | src/macmini_ai_hub/integrations/slack.py:123-135 | a current-format target that decodes is the printed form of its route |
| `SlackRoutes.TargetsAreUnique` | src/macmini_ai_hub/integrations/slack.py:105-138 | two current-format targets decode to one route exactly when they are one string, and a safe short one is encoded back to itself |
| `Migrations.PrecheckExact` | src/macmini_ai_hub/storage/migrations.py:149-160 | a database passes the checks exactly when its history is a prefix of the application's |
| `Migrations.Connection.ApplyOne` | src/macmini_ai_hub/storage/migrations.py:165-179 | statements, history row and version tag of one migration are all applied or all rolled back |
| `Migrations.Connection.ApplyMigrations` | src/macmini_ai_hub/storage/migrations.py:132-179 | a mismatching database is refused untouched; otherwise the run ends at the full list or, at the first failure, at a prefix with exactly its statements and tag |
| `Migrations.ResumeIsSeamless` | src/macmini_ai_hub/storage/migrations.py:162-164 | stopping anywhere and resuming gives the database an uninterrupted run gives; a finished one is left alone |
| `Deduplication.InMemoryRequestDeduplicator.Get` | src/macmini_ai_hub/gateway/dedup.py:56-63 | prunes, then answers a key that remains and makes it the most recent; a remembered key is answered exactly while its own time lasts or a fresher entry stands before it, expired or not |
| `Deduplication.InMemoryRequestDeduplicator.Reserve` | src/macmini_ai_hub/gateway/dedup.py:65-71 | reserves exactly a key that is neither in flight nor remembered after pruning |
| `Deduplication.InMemoryRequestDeduplicator.Remember` | src/macmini_ai_hub/gateway/dedup.py:73-79 | the key becomes the most recent with its response, the size bound holds, keys in flight and remembered stay apart |
| `Deduplication.InMemoryRequestDeduplicator.Prune` | src/macmini_ai_hub/gateway/dedup.py:85-91 | removes exactly the leading run of expired entries |
| `Deduplication.RecencyOfUse` | src/macmini_ai_hub/gateway/dedup.py:62-77 | moving a used key to the end keeps the dictionary ordered by last use |
| `Deduplication.EvictionDropsLeastRecent` | src/macmini_ai_hub/gateway/dedup.py:78-79 | every evicted key was last used before every kept one, and nothing is evicted while there is room |
| `Deduplication.AnsweredWhenKept` | src/macmini_ai_hub/gateway/dedup.py:85-91 | a key survives pruning exactly while its own time lasts or a fresh entry stands before it |
| `Deduplication.ExpiredResponseIsServed` | src/macmini_ai_hub/gateway/dedup.py:56-91 | four calls after which a fresh entry stands before an expired one and the expired response is answered |
| `BoundedReader.ReadBounded` | src/macmini_ai_hub/runtime/codex.py:222-236 | for every chunking the result is the first `limit` bytes, and truncated exactly when there were more |
| `BranchNames.BranchNameIsSafe` | src/macmini_ai_hub/projects/manager.py:297-306 | the name has at most 120 characters; the slug is not empty, uses lower-case letters, digits and single inner hyphens, also after cutting, and is its own slug |

## Left out

- Event payloads are reduced to their status field and an opaque remainder; secret-shaped fields are not modelled.
- Identifier patterns and text limits, except where a proof needs them (no colon in a route component, non-empty identifiers, lengths of names).
- Timestamps are integers; the code orders and stores ISO text, which for mixed UTC offsets may sort otherwise (`ListQueuedTasks`). Wall clocks are arbitrary, except that `ProcessQueuedTask` and the lock's own monotonic clock never go back; ids from uuid4 are new when minted, and uuid5 is a function from keys to task ids whose collisions are excluded where a lemma says so.
- SQL text, connections, busy timeouts, WAL and error codes: a transaction is a function that commits or leaves the tables alone.
- Artifacts and the paginated listings of tasks, events and runs.
- Settlement.BesideLook: rules out other workers on the same task; `Contention.SettledUnlessClaimedAgain` covers them.
- ProjectExecution.OneWorkerPerProject: has one hub process at a time; other processes take part through the lock only, and nobody edits the lock directory.
- Notifications inside `process_task` and `cancel_task`: their failures are swallowed and they touch receipts only, which the engine lets anybody do at any time.
- `runtime.cancel` and the runtime's process bookkeeping: an execution may end in any way at any time.
- The worker semaphore and the polling loop: the engine may start any number of workers on any task at any time.
- `append_event`, single-step `create_task` and `save_task_route` have no caller in the running hub; they are in the store's own runs, not in the engine.
- StoreRuns.ReplayRefinesStore: compares status, agents, project and team, not the projection's creation time, which is the creation event's and not the task's.
- GatewayService.AgentGateway.Cancel: does not promise success; `StaleClaims.CancellationAcceptance` says when it succeeds.
- GatewayService.AgentGateway.Handle: message texts and the read-only commands are opaque; interruption of a request is a step of the engine.
- FileLock.AtMostOneHolder: assumes that a liveness probe never denies a live owner (an unexpected OS error in the probe would) and that no operator edits the directory; comparing a file's signature and unlinking it is one step.
- FileLock.RemovalsAreSafe: the clean-up after a creator's failed write unlinks the path without comparing, so it is not covered by the promise about replaced files.
- Delivery.RetryingSlackDelivery.Deliver: is stated for one caller at a time; concurrent deliverers are covered by `AcceptedOncePlusLosses`.
- Notifications.StoredRouteResultNotifier.ReconcilePending: assumes no concurrent deliverer and no reserved receipt left, as at startup.
- SlackRoutes.Decode: does not model the trimming of surrounding whitespace in legacy targets.
- BranchNames.TaskSlug: starts from a description already reduced to lower-case ASCII.
- Config loading, path resolution, repository and branch name patterns, permission profiles' own checks.
- Slack Bolt, FastAPI, the CLI, the doctor, launchd and bootstrap scripts, Git and Codex subprocesses.
