# TokenMaster: verified models

TokenMaster watches the usage logs of coding agents, keeps an inventory of provider benefits and reminds
its user before they expire. This project models the parts of it whose correctness only shows over whole
runs, and proves what those parts promise.

| files | what they model |
|---|---|
| `Commands`, `Operations`, `OperationInvariant`, `OperationTheorems`, `OperationAnswers`, `OperationProgress`, `CommandObjects` | the command coordinator and the operation worker: one active command, one queued follow-up with its payload, cancellation racing commitment, a one-slot wake channel, shutdown and faults |
| `Notifications`, `NotificationTheorems`, `NotificationProgress`, `NotificationStops` | the reminder presentation lease shared by pump callers, receipts, a receipt worker and shutdown |
| `Presenter` | the in-app notification bridge that shows a batch and calls its receipt |
| `Presentation` | the lease protocol and the presenter together |
| `SnapshotBridge`, `SnapshotBridgeTheorems`, `SnapshotBridgeProgress` | the desktop bridge that coalesces snapshots and terminal intents into one event-loop task |
| `ActivationBridge`, `ActivationBridgeTheorems`, `ActivationBridgeProgress` | the session activation bridge and its accounting of requests |
| `Benefits`, `Reconcile`, `ReconcileTheorems`, `ReconcileAnswers` | the benefit inventory, its reconciliation with an observation, and the change log |
| `Reminders`, `ReminderTheorems` | scheduling reminders and collapsing the due ones |
| `Replay`, `ReplayTheorems` | deciding which events of a forked session repeat its parent's |
| `Bytes`, `ResumeText`, `ResumeTextTheorems`, `CheckpointCodec`, `CheckpointCodecTheorems` | the reader checkpoint's byte layout, and the JSON text of the parser state in it |
| `HashPreimages`, `BenefitIdentity` | the bytes that event, replay and benefit identities are hashed from |
| `ReminderSync`, `ReminderSyncAnswers` | durable settings, the archive's reminder profile and the flag that says they agree |
| `Prelude` | optional values, results and integer bounds |

`dafny verify dfyconfig.toml` checks everything.

## How the models are built

**Protocols.** Each concurrent protocol is a transition system: a state with a program counter for every
thread, and a total function `Step` in which one atomic access, one mutex section or one call of a foreign
component is one event. An event that is not enabled leaves the state alone. A run is a sequence of states
that starts in the initial one and in which every two neighbours are linked by some event; the theorems
speak about every state of every run. Memory is sequentially consistent. Some state components are
histories, kept only so that theorems can speak about the past: they never influence a step.

**Objects.** Code that updates fields or walks over a buffer is a class or a method with loops. Each method
is proved equal to a function on values, and the theorems are about that function; so a theorem about
`Reconciled` is a theorem about the method `ReconcileInventory`.

**Three kinds of theorem.** An invariant says what holds in every state of every run. A theorem named
*…ExactlyWhen*, *…IsExact* or *…Exactly* gives each answer or effect its own condition on the fields a
caller can see, both ways. A theorem named *…Can…* starts from any reachable state and builds the steps that
bring something to its end, so that an invariant cannot be kept by doing nothing.

**Foreign components.** The clock, the event loop, the executor, the stores and the presentation port
appear as replies chosen freely by the environment. The port contract is that an error leaves the leases as
they were.

**Where the source and its own words differ, the model follows the code.**

- `retry_last` stores no payload when the coordinator answers Queued. `MismatchExactlyAfterQueuedRetry`
  gives the exact condition under which a finish then faults the worker, and `QueuedRetryFaultIsReachable`
  builds such a run from the start.
- A comment in the presenter calls a hidden window retryable. The code closes the bridge:
  `HiddenWindowIsReachable`, `HiddenWindowEndsPresentation` and, for every way the bridge closes,
  `RefusedExactlyWhenClosed` and `CallIsDecidedByOneEvent`.
- A decision about a forked session made while the parent's log was still open can be overturned when the
  log grows. `GrowthKeepsDecisions` gives the exact condition, `GrowthCanOverturn` an instance.

## Model

| member | source | states |
|---|---|---|
| Commands.SubmitAnswers | crates/app/src/command.rs:684-730 | what each answer of a submission did: a started or queued command took the next id and nothing else changed, every other answer left the coordinator as it was |
| Commands.SubmitAnswersExactlyWhen | crates/app/src/command.rs:684-730 | every answer of a submission if and only if its own condition on the fields: closed, joined to the active or the queued command under that command's id, started, queued, busy, out of ids |
| Commands.SubmitReplaceableAnswers | crates/app/src/command.rs:732-773 | a replaceable submission coalesces only with the queued command, never with the running one, so its payload can still be exchanged |
| Commands.SubmitReplaceableAnswersExactlyWhen | crates/app/src/command.rs:732-773 | the same for a replaceable submission, which never joins the running command and may queue behind its equal |
| Commands.RetryAnswersExactlyWhen | crates/app/src/command.rs:775-783 | a retry is refused for want of a command exactly if none is remembered, and otherwise answered as a submission of it |
| Commands.AdmissionOpensAndShuts | crates/app/src/command.rs:846-867 | pausing and closing shut admission and drop the queued command, and only a coordinator that is not closed for good opens again |
| Commands.FinishAnswers | crates/app/src/command.rs:802-844 | a finish is taken if and only if it names the active command and reports a cancellation exactly if there was one; its completion tells that command and what was reported, a failure decides what may be retried, and exactly the queued command is promoted under its own later id |
| Commands.PlainRequests | crates/app/src/command.rs:300-309 | a request without a payload can be built exactly for the commands that permit it |
| CommandObjects.CommandPermit.constructor | crates/app/src/command.rs:424-432 | a new permit is neither cancelled nor committed |
| CommandObjects.CommandPermit.Cancel | crates/app/src/command.rs:453-467 | succeeds exactly on a running permit, and then both the state and the flag say cancelled |
| CommandObjects.CommandPermit.BeginIrreversible | crates/app/src/command.rs:469-479 | succeeds exactly on a running permit, and leaves a cancelled one alone |
| CommandObjects.CommandCoordinator.constructor | crates/app/src/command.rs:674-682 | a new coordinator is the empty one of the value model |
| CommandObjects.CommandCoordinator.AllocateRequestId | crates/app/src/command.rs:891-897 | ids are handed out in order until the last one, then never again |
| CommandObjects.CommandCoordinator.Enter | crates/app/src/command.rs:710-729 | a command that may enter is queued behind the active one or starts with a fresh permit, shared by reference with the caller |
| CommandObjects.CommandCoordinator.Submit | crates/app/src/command.rs:684-730 | in-place submission refines the value function that SubmitAnswers is about |
| CommandObjects.CommandCoordinator.SubmitReplaceable | crates/app/src/command.rs:732-773 | the same for replaceable submissions |
| CommandObjects.CommandCoordinator.RetryLast | crates/app/src/command.rs:775-783 | a retry submits the last retryable command, or is refused when there is none |
| CommandObjects.CommandCoordinator.Cancel | crates/app/src/command.rs:785-800 | cancels the active permit through its atomics or drops the queued command, and nothing else |
| CommandObjects.CommandCoordinator.Finish | crates/app/src/command.rs:802-844 | refines the value function that FinishAnswers is about, reading the flag from the shared permit |
| CommandObjects.CommandCoordinator.Close | crates/app/src/command.rs:846-853 | drops the queue, cancels a running active permit and admits nothing more |
| CommandObjects.CommandCoordinator.PauseAdmission | crates/app/src/command.rs:855-860 | drops the queue and keeps the active command |
| CommandObjects.CommandCoordinator.ResumeAdmission | crates/app/src/command.rs:862-867 | undoes a pause unless admission is closed |
| CommandObjects.ClosingIsTwoSteps | crates/app/src/command.rs:846-853 | what closing does to the active permit in one call is what the transition system does in its two steps, compare-exchange and flag |
| CommandObjects.WorkerState.constructor | crates/app/src/operation.rs:331-374 | the worker starts running with empty slots |
| CommandObjects.WorkerState.SubmitRequest | crates/app/src/operation.rs:155-223 | the guarded section of a submission: the payload goes to the start slot, to the follow-up slot or nowhere, as the coordinator's answer says |
| CommandObjects.WorkerState.RetryLast | crates/app/src/operation.rs:225-244 | the guarded section of a retry: only a started retry stores a payload |
| CommandObjects.WorkerState.Cancel | crates/app/src/operation.rs:256-270 | true exactly when the queued command was dropped, its payload with it, or the active permit's race was won, which sets both atomics of that permit and nothing else |
| CommandObjects.WorkerState.PauseAdmission | crates/app/src/operation.rs:390-401 | a pause drops queue and payload together |
| CommandObjects.WorkerState.ResumeAdmission | crates/app/src/operation.rs:403-414 | only a running worker resumes |
| CommandObjects.WorkerState.BeginShutdown | crates/app/src/operation.rs:455-466 | the stop is announced, admission closes, the payload is dropped and a running active permit is cancelled |
| CommandObjects.WorkerState.Fault | crates/app/src/operation.rs:603-610 | a fault empties every slot, closes admission and cancels a running active permit |
| CommandObjects.WorkerState.Leave | crates/app/src/operation.rs:593-601 | a leaving worker never turns a fault into a normal stop, and cancels a running active permit |
| CommandObjects.WorkerState.FinishCommand | crates/app/src/operation.rs:551-592 | the follow-up starts with its own payload and a fresh permit, or the worker faults and the permit that is active then is cancelled; the finished permit is left as it was unless the finish was refused |
| OperationInvariant.StepKeepsInv | crates/app/src/operation.rs:155-610 | every event of every thread keeps the seven-part invariant of the worker, its queue, its permits, its logs and its wakeups |
| OperationInvariant.RunKeepsInv | crates/app/src/operation.rs:155-610 | the invariant holds in every state of every run |
| OperationTheorems.QueueAgreesWithPayload | crates/app/src/operation.rs:155-270 | while running, a payload is stored exactly for the queued command that a submission queued, under its id, and a task waiting to start carries the active permit |
| OperationTheorems.MismatchExactlyAfterQueuedRetry | crates/app/src/operation.rs:551-590 | a finish faults over a missing payload if and only if it would promote a command that a retry queued |
| OperationTheorems.NoMismatchWithoutQueuedRetry | crates/app/src/operation.rs:551-590 | no run in which a retry is never answered Queued meets the mismatch |
| OperationTheorems.RetryIsQueuedExactlyWhen | crates/app/src/command.rs:775-783 | a retry is answered Queued if and only if the worker runs, admission is open and another, non-exclusive command without a follow-up is active |
| OperationTheorems.RetryIsQueuedWithoutPayload | crates/app/src/operation.rs:225-244 | a retry answered Queued leaves no payload, and the worker thread where it was |
| OperationTheorems.QueuedRetryFaultsWorker | crates/app/src/operation.rs:225-244 | from every reachable state in which a retry is answered Queued, wherever the worker thread is, the run extends to a fault, over the missing payload unless the finish at hand was abnormal |
| OperationTheorems.DoomedRunFaults | crates/app/src/operation.rs:498-592 | from every reachable state with a command queued by a retry some steps lead to the fault: a sender wakes the worker, it starts the task and finishes it |
| OperationTheorems.DoomedFinishFaults | crates/app/src/operation.rs:551-592 | and the finish of the running command is always a fault |
| OperationTheorems.QueuedRetryFaultIsReachable | crates/app/src/operation.rs:225-244 | such a run exists: a backup fails, a verification runs, the backup is retried |
| OperationTheorems.FinishWithoutPayloadFaults | crates/app/src/operation.rs:568-590 | a queued command without a payload turns the finish of the running one into a fault |
| OperationTheorems.NoWakeupIsLost | crates/app/src/operation.rs:272-289 | a worker committed to receive while there is work or a stop has a token waiting or a thread that has yet to send one |
| OperationTheorems.ActiveCommandHasOneOwner | crates/app/src/operation.rs:507-552 | a running worker's active command is waiting to start or with the worker thread, never both, never neither |
| OperationTheorems.ExecutorSeesEachRequestOnce | crates/app/src/operation.rs:526-590 | the executor sees ids strictly rising, each with the payload last accepted under it, and an exclusive command has no follow-up |
| OperationTheorems.StageIsFinal | crates/app/src/command.rs:453-479 | no event of any thread takes a cancellation or a commitment back |
| OperationTheorems.StageStaysFinal | crates/app/src/command.rs:453-479 | a permit that was cancelled or committed is so in every later state, so at most one of the two ever succeeds |
| OperationTheorems.CancelledExactlyWhenCancellationWon | crates/app/src/command.rs:802-826 | a set flag means a won cancellation, a completion is Cancelled exactly then, and a committed command never completes as Cancelled |
| OperationTheorems.RetryRepeatsLastFailure | crates/app/src/command.rs:802-826 | in every state of every run, what a retry would submit is the command of the last failed completion, unless that command cannot be retried |
| OperationAnswers.SubmissionIsAnsweredExactly | crates/app/src/operation.rs:155-223 | in every state of every run each answer of a submission if and only if its own condition; in particular a settings update that meets its equal in the queue always joins it |
| OperationAnswers.SubmissionStoresPayload | crates/app/src/operation.rs:155-223 | the payload goes to the task that starts, to the command that is queued, or in place of the queued update's |
| OperationAnswers.RetryIsAnsweredExactly | crates/app/src/operation.rs:225-244 | in every run a retry is answered as a submission of the last command that failed, or refused because there is none |
| OperationAnswers.PausesAndResumes | crates/app/src/operation.rs:390-414 | a pause shuts a running worker, a resume opens it again, a stopped one stays shut |
| OperationProgress.PhaseMovesExactly | crates/app/src/operation.rs:446-610 | the phase after every step: faulted if and only if it was or the event faults it, stopped when the thread leaves or is joined, stopping on shutdown of a running worker |
| OperationProgress.PhasesOnlyMoveOn | crates/app/src/operation.rs:446-610 | over a run the phase only moves on, and a fault is final |
| OperationProgress.FinishIsExact | crates/app/src/operation.rs:540-592 | a finish logs exactly the completion it owes, and a follow-up with a payload starts with that payload under a fresh permit |
| OperationProgress.CommitOrCancel | crates/app/src/command.rs:453-479 | whichever of cancellation and commitment comes first wins a running permit, and the other then changes nothing |
| OperationProgress.CancelledBeforeStartNeverRuns | crates/app/src/operation.rs:527-533 | a command whose flag was stored before the executor was called for it never runs |
| OperationProgress.NothingRunsAfterStopToken | crates/app/src/operation.rs:520-525 | after the worker took the stop token the executor is never called again, even if a task was waiting |
| OperationProgress.ActiveCommandCanComplete | crates/app/src/operation.rs:498-592 | from every reachable state of a running worker the active command can run to its end, with the outcome the executor reports unless it was cancelled |
| OperationProgress.ShutdownCanFinish | crates/app/src/operation.rs:446-486 | from every reachable state in which shutdown has begun it can run to its end, leaving Stopped or Faulted |
| OperationProgress.PanicFaults | crates/app/src/operation.rs:531-566 | a panic faults the worker and completes the command as failed, unless its cancellation had won |
| OperationProgress.DisconnectedCallerFaults | crates/app/src/operation.rs:272-289 | a caller whose wake-up finds the worker gone faults it |
| OperationProgress.CompletionsAreHandedOverOnce | crates/app/src/operation.rs:420-428 | in every run a completion is handed to the caller at most once, in the order logged |
| NotificationTheorems.RunKeepsInv | crates/app/src/notification.rs:162-523 | what every step of pumps, receipts, worker and shutdown keeps |
| NotificationTheorems.OneLeaseAtATime | crates/app/src/notification.rs:340-378 | at most one lease is out, none while the in-flight flag is down, and a queued action speaks for a spent receipt of the current lease |
| NotificationTheorems.NoReceiptIsDroppedBeforeStop | crates/app/src/notification.rs:191-199 | the slot's occupied guard refuses no live receipt before a stop |
| NotificationTheorems.EveryLeaseEndsOneWay | crates/app/src/notification.rs:402-441 | a lease is acknowledged only after its own receipt's first call said presented, and never both acknowledged and released |
| NotificationTheorems.ShutdownOkLeavesNoLease | crates/app/src/notification.rs:300-321 | when shutdown returns Ok no lease is out |
| NotificationTheorems.NoLeaseAfterShutdown | crates/app/src/notification.rs:300-321 | and with no pump in progress none is ever out again |
| NotificationProgress.LeasesAreAttended | crates/app/src/notification.rs:340-523 | in every run, until a stop, a lease that is out is with a pump that has yet to make its receipt, has an unspent receipt, is on its way to the slot or in it, or is what the worker acts on; the only other case is that the port refused for good to release it |
| NotificationProgress.ActionIsCarriedOut | crates/app/src/notification.rs:380-523 | from every reachable state with an action in the slot and no stop, granted worker steps acknowledge the lease of a presented batch, release that of a failed one, and leave the flag down |
| NotificationProgress.FailedBatchIsPresentedAgain | crates/app/src/notification.rs:477-491 | and after the release of a failed batch the worker starts a pump of its own |
| NotificationProgress.LeaseCanEnd | crates/app/src/notification.rs:340-523 | until a stop every lease that is out and not refused for good can still be ended, from wherever it is |
| NotificationStops.ReleasedForAReason | crates/app/src/notification.rs:414-441 | until a stop a lease is released only if its batch failed or the port refused for good to acknowledge it |
| NotificationStops.RefusedIsNeverAcknowledged | crates/app/src/notification.rs:414-441 | a lease whose acknowledgement was refused for good is never acknowledged |
| NotificationStops.PresentsAgainOnlyAfterRelease | crates/app/src/notification.rs:477-491 | the worker presents again only after it has released the failed lease |
| NotificationStops.FlagIsUpForAReason | crates/app/src/notification.rs:340-364 | the in-flight flag is up only while a lease is out or somebody is about to take one or to lower it |
| NotificationStops.NothingIsPresentedAfterStop | crates/app/src/notification.rs:340-441 | after a stop no batch reaches the presenter, the slot takes no action, no acknowledgement begins and no lease is taken but by a pump past its check |
| NotificationStops.StoppedPumpGivesBack | crates/app/src/notification.rs:365-368 | a pump that took a lease and then sees the stop gives it back and lowers the flag |
| NotificationStops.StoppedWorkerLeaves | crates/app/src/notification.rs:380-523 | after a stop every step of the worker brings it nearer to leaving, whatever the port answers |
| NotificationStops.StoppedWorkerGivesBack | crates/app/src/notification.rs:386-390 | a waiting worker that sees the stop releases the lease that is out and leaves |
| Presentation.RunKeepsInv | crates/app/src/notification.rs:340-378 | what every step of the lease protocol and the presenter, joined at present and at the receipt, keeps |
| Presentation.AcknowledgedMeansShown | crates/app/src/notification.rs:414-441 | end to end: a lease is acknowledged only if its batch was shown |
| Presentation.ReceiptSaysWhatHappened | crates/app/src/notification.rs:366-377 | a receipt is spent by the presenter's own call, with what that call said, or by the pump whose batch the presenter refused |
| Presentation.LeaseIsAttendedEndToEnd | crates/app/src/notification.rs:340-441 | until a stop a lease that is out is with the pump that took it, the presenter's task that shows its batch, on its way to the receipt worker or in its hands, unless the port refused to release it |
| Presentation.AcknowledgementIsReachable | crates/app/src/notification.rs:340-441 | the two together can show a batch and acknowledge its lease |
| Presenter.RunKeepsInv | crates/desktop/src/in_app_notification.rs:523-633 | what every step of presenting calls and event-loop tasks keeps |
| Presenter.OneTaskAtATime | crates/desktop/src/in_app_notification.rs:523-554 | the scheduled flag has at most one owner |
| Presenter.ReceiptsAreCalledOnce | crates/desktop/src/in_app_notification.rs:556-596 | no receipt is called twice, and at rest it was called exactly if its batch had been accepted |
| Presenter.PresentedMeansShown | crates/desktop/src/in_app_notification.rs:567-596 | a receipt is told presented if and only if its batch was shown |
| Presenter.ClosingDeliveryIsLast | crates/desktop/src/in_app_notification.rs:567-626 | once a delivery closed the bridge nothing is ever delivered again |
| Presenter.HiddenWindowEndsPresentation | crates/desktop/src/in_app_notification.rs:581-583 | after a delivery to a hidden window every later call is refused at its first step |
| Presenter.RefusedExactlyWhenClosed | crates/desktop/src/in_app_notification.rs:523-633 | in every state of every run a call is refused at its first step if and only if the bridge was closed from outside, found the event loop gone or made a closing delivery, so a shown or stale batch never prevents the next |
| Presenter.CallIsDecidedByOneEvent | crates/desktop/src/in_app_notification.rs:523-633 | in every run, however the threads interleave, a call at rest was refused with an answer if and only if one of its steps met the reason for it: an ended bridge, a flag owned by another call or task, an event loop that did not take the task; it ran to its receipt if and only if the loop took the task; one event decided it |
| Presenter.HiddenWindowIsReachable | crates/desktop/src/in_app_notification.rs:523-626 | a run in which a batch meets a hidden window and the next call is refused |
| Presenter.FailedScheduleCloses | crates/desktop/src/in_app_notification.rs:545-614 | a failed schedule call lowers the flag, and closes the bridge unless the loop was only unavailable |
| Presenter.NothingIsShownAfterClose | crates/desktop/src/in_app_notification.rs:556-566 | on a closed bridge no delivery begins, so once none is under way nothing is ever shown again |
| Presenter.ReceiptCanBeCalled | crates/desktop/src/in_app_notification.rs:556-596 | from every reachable state an accepted batch can be brought to the call of its receipt, told presented exactly if it is shown |
| SnapshotBridgeTheorems.RunKeepsInv | crates/desktop/src/bridge.rs:342-528 | what every step of publishers and tasks keeps |
| SnapshotBridgeTheorems.NothingIsLost | crates/desktop/src/bridge.rs:342-483 | while running, unless the last schedule call failed, a filled slot is watched by a task, a publisher about to schedule one or a run that has yet to re-check; a later success restores this |
| SnapshotBridgeTheorems.QuietBridgeIsEmpty | crates/desktop/src/bridge.rs:396-483 | at rest, everything published was handed over |
| SnapshotBridgeTheorems.FlagHasOneOwner | crates/desktop/src/bridge.rs:342-362 | the scheduled flag is up exactly while one task or thread owns it |
| SnapshotBridgeTheorems.HandoverIsNewest | crates/desktop/src/bridge.rs:364-394 | a terminal hand-over carries the greatest generation requested since the slot was emptied, a snapshot hand-over the last one published |
| SnapshotBridgeTheorems.StepNeverRestarts | crates/desktop/src/bridge.rs:514-528 | no step restarts a stopped bridge |
| SnapshotBridgeTheorems.RunningIsNeverReentered | crates/desktop/src/bridge.rs:514-528 | a bridge that stopped running never runs again |
| SnapshotBridgeProgress.StopsExactlyWhen | crates/desktop/src/bridge.rs:396-528 | at every step the bridge is closed exactly by its drop, a closed window or a terminated loop, faulted exactly by an unavailable state or a broken loop, and otherwise keeps its phase |
| SnapshotBridgeProgress.FailureIsReported | crates/desktop/src/bridge.rs:342-362 | a schedule call that failed is reported with its own error |
| SnapshotBridgeProgress.ReportsTellPhase | crates/desktop/src/bridge.rs:396-528 | in every run the bridge runs if and only if no such report was made, and the last one made tells closed from faulted |
| SnapshotBridgeProgress.HandoversAreAnswered | crates/desktop/src/bridge.rs:396-467 | what is taken from the slots is delivered and answered in that order, each once |
| SnapshotBridgeProgress.SlotsCanBeEmptied | crates/desktop/src/bridge.rs:342-483 | from every reachable state of a running bridge whose last schedule call did not fail, what lies in a slot can be handed over: steps exist that leave every slot empty and every hand-over answered |
| SnapshotBridgeProgress.StoppedBridgeIsInert | crates/desktop/src/bridge.rs:342-400 | a stopped bridge whose threads have wound down schedules nothing, hands nothing over and takes no terminal intent |
| ActivationBridgeTheorems.RunKeepsInv | crates/app/src/application.rs:1058-1142 | what every step of requests, flushes, tasks and closes keeps, however many threads there are |
| ActivationBridgeTheorems.NoRequestIsLost | crates/app/src/application.rs:1058-1123 | on an open bridge a pending request with no task and no thread left to schedule one means that the last schedule call failed |
| ActivationBridgeTheorems.FlagHasOneOwner | crates/app/src/application.rs:1069-1123 | the scheduled flag is up exactly while one task or thread owns it |
| ActivationBridgeTheorems.RequestsAreAccountedFor | crates/app/src/application.rs:1058-1142 | at rest, received equals coalesced plus delivered plus rejected plus panicked plus the one pending |
| ActivationBridgeTheorems.CountersAreExact | crates/app/src/application.rs:1058-1142 | at rest and without overflow each of the six counters is the number of its own events, so no update is lost |
| ActivationBridgeProgress.ClosedExactlyWhen | crates/app/src/application.rs:1069-1130 | with nobody on the way to closing it the bridge is closed if and only if it was asked to or a schedule call found the event loop terminated |
| ActivationBridgeProgress.PendingCanBeDelivered | crates/app/src/application.rs:1058-1123 | from every reachable state of an open bridge whose last schedule call did not fail a pending request can be delivered |
| ActivationBridgeProgress.ClosedBridgeDeliversNothing | crates/app/src/application.rs:1058-1130 | once the bridge is closed and no delivery is under way no request is received and none delivered |
| Reconcile.ReconcileInventory | crates/benefits/src/reconcile.rs:353-505 | the in-place reconciliation refines the value function that AnswersExactlyWhen, InventoryIs and ChangesAre pin down |
| Reconcile.ObserveLot | crates/benefits/src/reconcile.rs:382-412 | one observed lot is awarded, kept or replaced with the next revision |
| Reconcile.ObserveLots | crates/benefits/src/reconcile.rs:380-413 | after the first loop exactly the observed lots are settled and the rest is untouched |
| Reconcile.SettleOne | crates/benefits/src/reconcile.rs:415-446 | one unobserved lot is kept, retired or made ambiguous |
| Reconcile.SettleRest | crates/benefits/src/reconcile.rs:415-446 | the second loop settles the rest in id order |
| Reconcile.SettleUnobserved | crates/benefits/src/reconcile.rs:414-446 | after both loops the next inventory and the drafts cover every lot, unless a revision ran out |
| Reconcile.Gather | crates/benefits/src/reconcile.rs:371-450 | an exhausted revision is reported before too many lots |
| Reconcile.NumberChanges | crates/benefits/src/reconcile.rs:464-483 | drafts get the consecutive sequence numbers, or the sequence runs out |
| Reconcile.Publish | crates/benefits/src/reconcile.rs:452-505 | a repeated observation id is a duplicate without changes and a conflict with them; otherwise the revision rises by one |
| ReconcileTheorems.ChangesReproduceLots | crates/benefits/src/reconcile.rs:371-505 | replaying the emitted changes over the old lots gives exactly the new lots with their revisions |
| ReconcileTheorems.ChangesTellBefore | crates/benefits/src/reconcile.rs:371-485 | each change names the entry it replaces, at its place in the log |
| ReconcileTheorems.UnobservedAreAmbiguous | crates/benefits/src/reconcile.rs:414-446 | every observed lot is held as observed; an unlisted lot is unchanged after a partial observation, and otherwise gone exactly if its state was terminal and the same lot made ambiguous if not |
| ReconcileTheorems.ReapplyingIsDuplicate | crates/benefits/src/reconcile.rs:452-462 | applying an accepted observation to its own result is a duplicate that changes nothing |
| ReconcileTheorems.AcceptedIsValid | crates/benefits/src/reconcile.rs:353-505 | an accepted observation leaves an ordered inventory within its limits |
| ReconcileTheorems.OthersChangeNothing | crates/benefits/src/reconcile.rs:360-370 | stale and duplicate observations change neither inventory nor log |
| ReconcileTheorems.KindTellsDifference | crates/benefits/src/reconcile.rs:507-535 | the kind of a change says exactly which part of the lot differs |
| ReconcileTheorems.LogReproducesInventory | crates/benefits/src/reconcile.rs:353-505 | over every run the whole log, replayed from nothing, is the inventory, and its sequence numbers have no gap |
| ReconcileTheorems.InventoryStaysOrdered | crates/benefits/src/reconcile.rs:353-505 | over every run the lots are strictly ordered by id and the revision counts the accepted observations |
| ReconcileTheorems.LastAcceptedIsDuplicate | crates/benefits/src/reconcile.rs:452-462 | at any point of any run the last accepted observation is a duplicate |
| ReconcileTheorems.AdvanceMovesOn | crates/benefits/src/reconcile.rs:464-504 | the revision rises by one exactly on an accepted observation |
| ReconcileTheorems.NothingGoesBack | crates/benefits/src/reconcile.rs:360-370 | along a run the observed time and the revision never fall and the log only grows |
| ReconcileAnswers.AnswersExactlyWhen | crates/benefits/src/reconcile.rs:353-505 | each status and each of the five errors if and only if its condition on the fields of inventory and observation: scope, time, identity, lots that must change at the last revision, lots afterwards, sequence and revision |
| ReconcileAnswers.ChangedMeansOtherLots | crates/benefits/src/reconcile.rs:464-489 | an accepted observation is Changed if and only if the lots by id are others than before |
| ReconcileAnswers.InventoryIs | crates/benefits/src/reconcile.rs:371-504 | an accepted observation leaves exactly the lots described, each at its revision and in id order, and moves revision, sequence, identity and time as described |
| ReconcileAnswers.ChangesAre | crates/benefits/src/reconcile.rs:371-485 | it publishes one change for each lot that changed, with kind, revision, before and after as described, listed lots first and in id order, numbered on |
| Reminders.ScheduleLot | crates/benefits/src/reminder.rs:86-107 | the nested loops push one row for each lead and channel |
| Reminders.ScheduleReminders | crates/benefits/src/reminder.rs:64-121 | the schedule is a permutation of all rows, ordered by due time, or the capacity is exceeded |
| Reminders.CollectSlots | crates/benefits/src/reminder.rs:135-150 | the map keeps, for each lot and channel with a due row, one with the smallest lead |
| Reminders.CollapseDueReminders | crates/benefits/src/reminder.rs:123-163 | the page is that selection, ordered by expiry, lot and channel and cut, for every schedule in any order |
| Benefits.ConservativeIsFirst | crates/domain/src/benefit.rs:477-484 | an instant is given if and only if some instant of expiry is possible, and then it is the first possible one |
| ReminderTheorems.AllRowsAre | crates/benefits/src/reminder.rs:78-108 | a row is scheduled exactly if an available lot with a known expiry, a lead and a channel of the profile give it |
| ReminderTheorems.CollapseIsDirect | crates/benefits/src/reminder.rs:64-163 | collapsing any order of the schedule selects exactly the rows of the direct rule: the smallest lead already due |
| ReminderTheorems.PageIsUnique | crates/benefits/src/reminder.rs:152-160 | a page is determined by its rows |
| ReminderTheorems.ScheduleOrderIsIrrelevant | crates/benefits/src/reminder.rs:109-163 | two orders of one schedule give the same page |
| ReminderTheorems.DueReminders | crates/benefits/src/reminder.rs:64-163 | scheduling and collapsing give the first rows, by expiry, lot and channel, of exactly those that remind of a lot: available, every instant it can expire at still to come, the lead the smallest that reaches back from the first such instant to now; each error exactly when |
| ReminderTheorems.LeadNeverGrows | crates/benefits/src/reminder.rs:136-150 | until its lot expires a slot keeps exactly one reminder, whose lead never grows |
| ReplayTheorems.DispositionsAre | crates/accounting/src/replay.rs:232-317 | each disposition, and exactly when it is given |
| ReplayTheorems.NextStatesAre | crates/accounting/src/replay.rs:232-317 | each next state, and exactly which disposition leads to it |
| ReplayTheorems.RankNeverFalls | crates/accounting/src/replay.rs:232-260 | with arbitrary inputs a session never moves back towards counting normally |
| ReplayTheorems.RepeatsPrecedeEligible | crates/accounting/src/replay.rs:293-317 | in a compared session every repeat precedes every event that counts |
| ReplayTheorems.RootNeverRepeats | crates/accounting/src/replay.rs:244-259 | a session without a parent never repeats anything |
| ReplayTheorems.TroubleStays | crates/accounting/src/replay.rs:232-260 | a conflict is absorbing and a pending session stays pending or becomes a conflict |
| ReplayTheorems.PendingRootConflicts | crates/accounting/src/replay.rs:240-291 | a parentless session that could not be decided is a conflict from its next event on |
| ReplayTheorems.RepeatsAreCommonPrefix | crates/accounting/src/replay.rs:232-317 | against a complete, strong, conflict-free parent exactly the longest common signature prefix is repeated and the rest counts |
| ReplayTheorems.GrowthKeepsState | crates/accounting/src/replay.rs:263-317 | what appears in an open parent's log leaves a decided session's state alone or makes it a conflict |
| ReplayTheorems.GrowthKeepsDecisions | crates/accounting/src/replay.rs:263-317 | a decision made against an open parent survives its growth if and only if every parent event that appeared up to it fits the child |
| ReplayTheorems.GrowthCanOverturn | crates/accounting/src/replay.rs:276-281 | an instance: the parent's next event declares a conflict |
| Bytes.LittleEndianDigit | crates/codex/src/checkpoint_codec.rs:272-286 | byte i of a number is its digit of weight 256^i |
| Bytes.LittleEndianRoundTrip | crates/codex/src/checkpoint_codec.rs:272-302 | a number that fits its width is read back |
| Bytes.LittleEndianInverse | crates/codex/src/checkpoint_codec.rs:288-302 | bytes of any width are the writing of the number they are read as |
| Bytes.BigEndianMirrors | crates/accounting/src/hash.rs:36-40 | most significant first is least significant first, the other way round |
| Bytes.BigEndianInjective | crates/accounting/src/hash.rs:36-62 | numbers that fit their width are told apart |
| ResumeText.EscapedAtMostDoubles | crates/domain/src/usage.rs:278-291 | a text free of control characters at most doubles when it is escaped |
| ResumeText.WrittenLength | crates/codex/src/parser/state.rs:319-374 | the JSON text of every resume state within the limits of its field types and of restoring has at most 26673 bytes |
| ResumeTextTheorems.WrittenInjective | crates/codex/src/parser/state.rs:135-158 | no two resume states within the limits are written as the same JSON text |
| CheckpointCodec.Encode | crates/codex/src/checkpoint_codec.rs:92-148 | pushing field after field gives the 154-byte layout followed by the resume text |
| CheckpointCodec.Cursor.Take | crates/codex/src/checkpoint_codec.rs:304-313 | takes exactly the next bytes, never past the end |
| CheckpointCodec.Cursor.TakeNumber | crates/codex/src/checkpoint_codec.rs:288-298 | reads the next bytes as an unsigned number |
| CheckpointCodec.Cursor.TakeSigned | crates/codex/src/checkpoint_codec.rs:300-302 | reads the next eight bytes as a two's-complement number |
| CheckpointCodec.DecodeHead | crates/codex/src/checkpoint_codec.rs:165-209 | the moving cursor reads every field at its fixed place and reports the first failing check |
| CheckpointCodec.Decode | crates/codex/src/checkpoint_codec.rs:150-260 | the same for the whole input, whatever its bytes are |
| CheckpointCodecTheorems.EnvelopeIs | crates/codex/src/checkpoint_codec.rs:124-143 | the first 150 bytes are an envelope exactly if every field stands at its place |
| CheckpointCodecTheorems.DecodeAcceptsSpellings | crates/codex/src/checkpoint_codec.rs:150-260 | decoding accepts exactly the spellings of a valid checkpoint with the expected identity, and gives that checkpoint |
| CheckpointCodecTheorems.DecodeErrorsExactlyWhen | crates/codex/src/checkpoint_codec.rs:150-260 | each of the eight errors if and only if its condition on the bytes, in the order they are noticed, and acceptance if and only if every check passes and the checkpoint is sound |
| CheckpointCodecTheorems.EncodeErrorsExactlyWhen | crates/codex/src/checkpoint_codec.rs:92-116 | encoding fails exactly if the state cannot be written or its text does not fit |
| CheckpointCodecTheorems.DecodeUndoesEncode | crates/codex/src/checkpoint_codec.rs:92-260 | every valid checkpoint is encoded and decoding undoes it, for any resume codec that round-trips and leaves room for the envelope |
| CheckpointCodecTheorems.ParserCodecExists | crates/codex/src/parser/state.rs:135-158 | so a reader that undoes the writing exists for all of them |
| CheckpointCodecTheorems.ParserLeavesRoom | crates/codex/src/reader/checkpoint.rs:159-182 | the parser's own resume codec leaves that room |
| CheckpointCodecTheorems.ReaderCheckpointsRoundTrip | crates/codex/src/checkpoint_codec.rs:92-260 | so every valid reader checkpoint is encoded and read back |
| CheckpointCodecTheorems.AcceptedArePrefixFree | crates/codex/src/checkpoint_codec.rs:213-234 | no accepted input is a proper prefix or extension of another, whatever identities they are decoded for |
| CheckpointCodecTheorems.SameCheckpointSameEnvelope | crates/codex/src/checkpoint_codec.rs:150-260 | two accepted inputs with one checkpoint share their first 150 bytes |
| HashPreimages.Hasher.UpdateText | crates/accounting/src/hash.rs:36-40 | a text is fed after its length, capped at four bytes |
| HashPreimages.Hasher.UpdateCount | crates/accounting/src/hash.rs:54-62 | an unavailable count is told from every available one |
| HashPreimages.Hasher.UpdateUsage | crates/accounting/src/hash.rs:42-52 | the loop feeds the five counts in order |
| HashPreimages.EventFingerprint | crates/accounting/src/hash.rs:9-19 | the bytes fed are the event preimage |
| HashPreimages.ReplaySignature | crates/accounting/src/hash.rs:21-34 | the bytes fed are the replay preimage |
| HashPreimages.EventPreimageInjective | crates/accounting/src/hash.rs:9-19 | two drafts have one event preimage exactly when they agree on provider, profile, session, ordinal, model and the five counts |
| HashPreimages.ReplayPreimageInjective | crates/accounting/src/hash.rs:21-34 | the same for model, delta and the optional cumulative counts |
| HashPreimages.DomainsAreApart | crates/accounting/src/hash.rs:6-7 | an event preimage is never a replay preimage |
| BenefitIdentity.UpdateField | crates/benefits/src/identity.rs:98-101 | a field is fed after its eight-byte length |
| BenefitIdentity.ScopeId | crates/benefits/src/identity.rs:41-54 | the bytes fed are the scope preimage |
| BenefitIdentity.ChangeId | crates/benefits/src/identity.rs:56-71 | the bytes fed are the change preimage |
| BenefitIdentity.DeliveryId | crates/benefits/src/identity.rs:74-89 | the bytes fed are the delivery preimage |
| BenefitIdentity.ScopePreimageInjective | crates/benefits/src/identity.rs:41-54 | scope preimages tell scopes apart, a missing workspace included |
| BenefitIdentity.ChangePreimageInjective | crates/benefits/src/identity.rs:56-71 | change preimages tell changes apart |
| BenefitIdentity.DeliveryPreimageInjective | crates/benefits/src/identity.rs:74-89 | delivery preimages tell deliveries apart |
| BenefitIdentity.DeliveriesOfScopesDiffer | crates/benefits/src/identity.rs:74-89 | whatever the hash, two deliveries share a preimage only if they and their scopes are equal or the scopes' preimages collide |
| BenefitIdentity.IdentitiesAreApart | crates/benefits/src/identity.rs:8-10 | no preimage serves two kinds of identity |
| BenefitIdentity.LogIdentitiesDiffer | crates/benefits/src/reconcile.rs:464-483 | in any run no two published changes share an identity preimage |
| ReminderSync.StateOwner.constructor | crates/app/src/state.rs:155-165 | an owner starts with the flag down and nothing staged |
| ReminderSync.StateOwner.Save | crates/state/src/settings/store.rs:211-225 | a save that reports an error may still have changed the settings |
| ReminderSync.StateOwner.UpdateBackupPolicy | crates/app/src/state.rs:579-619 | replaces the backup policy and keeps reminders, presentation and device settings |
| ReminderSync.StateOwner.UpdatePresentationSettings | crates/app/src/state.rs:621-656 | the same for the presentation; an equal one is not saved |
| ReminderSync.StateOwner.UpdateReminderPolicy | crates/app/src/state.rs:658-700 | the flag is down before the settings change, and restored when the publication fails |
| ReminderSync.StateOwner.SynchronizeReminderProfile | crates/app/src/state.rs:702-724 | the flag goes up only after the archive took the profile of the durable settings |
| ReminderSync.StateOwner.SetGlobalProfile | crates/store/src/usage/benefit_write.rs:220-302 | the archive takes a newer profile, accepts its own again and refuses any other |
| ReminderSync.StateOwner.StageConfigImport | crates/app/src/state.rs:758-781 | an import is staged only into an empty slot, with the settings it was previewed on |
| ReminderSync.StateOwner.CommitImportOf | crates/state/src/settings/store.rs:245-273 | an import previewed on other settings is refused |
| ReminderSync.StateOwner.CommitPendingConfigImport | crates/app/src/state.rs:804-857 | the staged import survives a refused permit and a failed publication |
| ReminderSync.StateOwner.CancelPendingConfigImport | crates/app/src/state.rs:859-872 | empties the slot |
| ReminderSync.ProfileCarries | crates/app/src/state.rs:1182-1209 | the profile made from valid settings has their leads, unchanged by sorting and removal of repetitions, and a channel exactly when reminders are enabled |
| ReminderSync.RunKeepsInv | crates/app/src/state.rs:579-872 | what every call keeps with failure possible at every store call |
| ReminderSync.SynchronizedMeansCarried | crates/app/src/state.rs:702-724 | in every state of every sequential run, a raised flag means that the archive's profile carries the durable reminder policy |
| ReminderSync.FailedPublicationChangesNothing | crates/app/src/state.rs:688-697 | a failed publication leaves settings, archive, flag and staged import as they were |
| ReminderSync.AcceptedPolicyIsDurable | crates/app/src/state.rs:658-700 | a reminder update that reports success made its policy durable, and leaves the flag up only if nothing changed |
| ReminderSync.SynchronizeRaisesFlag | crates/app/src/state.rs:702-724 | the flag is up after a synchronisation if and only if it succeeded, and then the archive carries the policy |
| ReminderSyncAnswers.WritesExactly | crates/app/src/state.rs:579-857 | a writing call succeeds if and only if nothing goes wrong or nothing was to be done; then the settings are as asked; otherwise they are as before, or written and not confirmed |
| ReminderSyncAnswers.FlagIsLoweredFirst | crates/app/src/state.rs:658-857 | exactly when the flag goes down and when a commit empties its slot, whatever the write does afterwards |
| ReminderSyncAnswers.StagesExactly | crates/app/src/state.rs:758-872 | an import is staged exactly into an empty slot, cancelled exactly from a full one, and nothing else changes |
| ReminderSyncAnswers.ImportsCommitOnTheirBase | crates/state/src/settings/store.rs:245-273 | in every run a staged import was previewed on the settings durable at that moment, and commits only if they still are |
| ReminderSyncAnswers.SynchronizesExactly | crates/app/src/state.rs:702-724 | a synchronisation succeeds if and only if the archive takes the newer profile or holds that very one, and the archive changes exactly for a newer one |
| ReminderSyncAnswers.ArchiveNeverGoesBack | crates/store/src/usage/benefit_write.rs:220-302 | over a run the archive's profile is only replaced by one of a later revision |

## Left out

- Completion of every started command: a stop token can end the worker's loop with a task still waiting to start, so the source does not promise it.
- Monotone lot revisions over the life of a lot id: a retired lot that is awarded again restarts at revision 1.
- Lock poisoning, memory orders weaker than sequential consistency, and wall-clock durations: a timed wait is a wake-up at any moment.
- The protocols of the presentation lease, the presenter and the two bridges are modelled on values: one thread's statements must interleave with another's, which a method body cannot express, so update in place and shared references are not captured there.
- A presentation port whose acknowledgement fails after it was committed: the model's port leaves the leases alone on an error.
- What a pump call and an activation request return to their caller: their effects are modelled, the values returned are not.
- Counters and the last failure code of the snapshot bridge and of the presenter: they are diagnostics that no branch reads.
- An event loop that drops a scheduled task without running it: such a task stays queued in the model.
- Activation and deactivation of presenter epochs: an outdated epoch appears as the outcome Stale.
- Payloads of commands, backup policies, presentation settings, device settings and local expiry dates: opaque values, because nothing modelled looks inside them.
- Settings records damaged on disk: loading gives the durable settings or fails; the fallback to an older copy is not modelled.
- Restoring settings from a backup, which replaces them outside the calls modelled here.
- The SHA-256 digest: preimages stand for it.
- Parsing the JSON form of the parser's resume state: foreign code, assumed to undo the writing that is modelled.
- HashPreimages.EventPreimageInjective: for texts shorter than 2^32 bytes only, because a longer text has its length capped.
- HashPreimages.ReplayPreimageInjective: for texts shorter than 2^32 bytes only, for the same reason.
- BenefitIdentity.DeliveryPreimageInjective: tells scopes apart only as far as the hash of the scope does, because the preimage holds that hash.
- Constructors of domain values (observations, lots, profiles): their checks are the validity predicates of the model.
- Dashboards, routers, file discovery, quota windows, encryption, backup packages and the lifecycle of the application.
