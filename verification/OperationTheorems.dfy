/** The operation worker's promises, for every state of every run. */
module OperationTheorems {
  import opened Prelude
  import opened Commands
  import opened Operations
  import opened OperationInvariant

  // ------------------------------------------------------------------
  // The queue and its payload

  /** While the worker runs, it stores a payload exactly for the queued command
      that a submission queued, and a task waiting to start is the active one. */
  lemma QueueAgreesWithPayload(states: seq<System>, k: nat)
    requires IsRun(states) && k < |states| && states[k].w.phase.PhaseRunning?
    ensures var s := states[k];
            var pending := s.w.coordinator.PendingCommand();
            && (s.w.followUp.Some? <==> pending.Some? && pending.value.id !in s.history.queuedByRetry)
            && (s.w.followUp.Some? ==> s.w.followUp.value.requestId == pending.value.id)
            && (s.w.pendingStart.Some? ==>
                  && s.w.coordinator.active.Some?
                  && s.w.pendingStart.value.permit == s.w.coordinator.active.value.permit)
  {
    RunKeepsInv(states, k);
  }

  /** A finish faults over a missing payload exactly when it would otherwise
      promote a command that retry_last queued. */
  lemma MismatchExactlyAfterQueuedRetry(states: seq<System>, k: nat)
    requires IsRun(states) && k < |states| && states[k].storing.None? && states[k].pc.AtFinish?
    ensures var s := states[k];
            var pending := s.w.coordinator.PendingCommand();
            var end := FinishNext(s, s.pc.permit, s.pc.execution, s.pc.panicked).1;
            end.MismatchFault? <==>
              && s.w.phase.PhaseRunning?
              && !s.pc.panicked
              && (s.pc.execution.ReportsCancelled? ==> FlagOf(s, s.pc.permit.id))
              && pending.Some? && pending.value.id in s.history.queuedByRetry
  {
    RunKeepsInv(states, k);
    FinishSectionEffect(states[k]);
  }

  /** No run in which retry_last is never answered Queued meets a mismatch. */
  lemma NoMismatchWithoutQueuedRetry(states: seq<System>, k: nat)
    requires IsRun(states) && k < |states| && states[k].history.queuedByRetry == {}
    ensures !states[k].history.mismatch
  {
    RunKeepsInv(states, k);
  }

  /** A retry that would be queued: another command is active, can take a
      follow-up and has none. */
  predicate RetryWouldQueue(c: Coordinator) {
    && !c.closed && !c.paused && c.lastRetryable.Some? && c.nextId.Some?
    && c.active.Some? && c.active.value.pending.None?
    && !c.active.value.permit.command.IsExclusive() && c.active.value.permit.command != c.lastRetryable.value
  }

  /** A retry is answered Queued exactly then, wherever the worker thread is. */
  lemma RetryIsQueuedExactlyWhen(w: Worker)
    requires w.coordinator.Valid()
    ensures RetrySection(w).1.Queued? <==> w.phase.PhaseRunning? && RetryWouldQueue(w.coordinator)
  {
  }

  /** While running with the mutex free, the queued command came from a retry. */
  ghost predicate Doomed(s: System) {
    && s.storing.None? && s.w.phase.PhaseRunning? && s.w.coordinator.PendingCommand().Some?
    && s.w.coordinator.PendingCommand().value.id in s.history.queuedByRetry
  }

  /** The finish at hand, if there is one, is neither a panic nor a report of a
      cancellation that did not happen. */
  predicate Normal(s: System) {
    s.pc.AtFinish? ==>
      !s.pc.panicked && (s.pc.execution.ReportsCancelled? ==> FlagOf(s, s.pc.permit.id))
  }

  /** A queued retry leaves no payload, and the worker where it was. */
  lemma RetryIsQueuedWithoutPayload(s: System, thread: nat)
    requires Inv(s) && s.storing.None? && thread !in s.callers && RetrySection(s.w).1.Queued?
    ensures var r := Step(s, RetryCall(thread));
            && Doomed(r) && r.w.followUp.None? && r.pc == s.pc && r.wake == s.wake && (Normal(s) ==> Normal(r))
  {
    hide Request.WellFormed;
    RetryIsQueuedExactlyWhen(s.w);
  }

  lemma DoomedFinishFaults(s: System)
    requires Inv(s) && Doomed(s) && s.pc.AtFinish?
    ensures var r := Step(s, WorkerFinish);
            r.w.phase.PhaseFaulted? && r.pc.AtExit? && (Normal(s) ==> r.history.mismatch)
  {
    hide Request.WellFormed, FinishSection;
    FinishSectionEffect(s);
    hide Inv;
    var end := FinishNext(s, s.pc.permit, s.pc.execution, s.pc.panicked).1;
    if Normal(s) { DoomedFinishMismatches(s); }
  }

  lemma DoomedFinishMismatches(s: System)
    requires Inv(s) && Doomed(s) && s.pc.AtFinish? && Normal(s)
    ensures FinishNext(s, s.pc.permit, s.pc.execution, s.pc.panicked).1.MismatchFault?
  {
    hide Request.WellFormed;
    FinishSectionEffect(s);
  }

  /** How far the worker thread is from its next finish. */
  function Distance(s: System): nat {
    match s.pc
    case AtRecv => if s.wake.None? then 5 else 4
    case AtTop => 3
    case AtCheck(_) => 2
    case Executing(_) => 1
    case _ => 0
  }

  /** Some thread's next step brings a doomed worker nearer to its finish. */
  lemma DoomedMovesOn(s: System, execution: Execution) returns (e: Event)
    requires Inv(s) && Doomed(s) && !s.pc.AtFinish? && !execution.ReportsCancelled?
    ensures Doomed(Step(s, e)) && Normal(Step(s, e)) && Distance(Step(s, e)) < Distance(s)
  {
    hide Request.WellFormed, FinishSection, SubmitSection, RetrySection, Payloads, ExecutedInOrder, CompletedFaithfully;
    match s.pc
    case AtRecv =>
      if s.wake.Some? {
        e := WorkerRecv;
      } else {
        assert s.w.pendingStart.Some?;
        var t :| t in s.callers && s.callers[t].AtSend?;
        e := SendCall(t);
      }
    case AtTop => e := WorkerTop;
    case AtCheck(_) => e := WorkerCheck;
    case Executing(_) => e := ExecutorReturns(execution);
    case AtExit =>
    case AtDrop =>
    case Gone =>
  }

  /** Every doomed run can be extended to the fault. */
  lemma {:induction false} DoomedRunFaults(states: seq<System>, execution: Execution) returns (longer: seq<System>)
    requires IsRun(states) && Doomed(states[|states| - 1]) && !execution.ReportsCancelled?
    ensures IsRun(longer) && states <= longer
    ensures longer[|longer| - 1].w.phase.PhaseFaulted? && longer[|longer| - 1].pc.AtExit?
    ensures Normal(states[|states| - 1]) ==> longer[|longer| - 1].history.mismatch
    decreases Distance(states[|states| - 1])
  {
    hide Step, Inv, Doomed, Normal, Distance, Linked;
    var s := states[|states| - 1];
    RunKeepsInv(states, |states| - 1);
    if s.pc.AtFinish? {
      DoomedFinishFaults(s);
      longer := Extend(states, WorkerFinish);
    } else {
      var e := DoomedMovesOn(s, execution);
      var more := Extend(states, e);
      longer := DoomedRunFaults(more, execution);
    }
  }

  /** One queued retry is enough: from every reachable state in which a retry is
      answered Queued, wherever the worker thread is, the retry leads to a fault,
      and to one over the missing payload unless the finish was abnormal. */
  lemma QueuedRetryFaultsWorker(states: seq<System>, thread: nat, execution: Execution)
    returns (longer: seq<System>)
    requires IsRun(states) && states[|states| - 1].storing.None? && thread !in states[|states| - 1].callers
    requires RetrySection(states[|states| - 1].w).1.Queued? && !execution.ReportsCancelled?
    ensures IsRun(longer) && states + [Step(states[|states| - 1], RetryCall(thread))] <= longer
    ensures longer[|longer| - 1].w.phase.PhaseFaulted? && longer[|longer| - 1].pc.AtExit?
    ensures Normal(states[|states| - 1]) ==> longer[|longer| - 1].history.mismatch
  {
    hide Step, Inv, Doomed, Normal, Linked, RetrySection;
    RunKeepsInv(states, |states| - 1);
    RetryIsQueuedWithoutPayload(states[|states| - 1], thread);
    var queued := Extend(states, RetryCall(thread));
    longer := DoomedRunFaults(queued, execution);
  }

  lemma Extend(states: seq<System>, e: Event) returns (longer: seq<System>)
    requires IsRun(states)
    ensures IsRun(longer) && longer == states + [Step(states[|states| - 1], e)]
  {
    hide Step, Initial;
    longer := states + [Step(states[|states| - 1], e)];
    forall i: nat | i + 1 < |longer| ensures Linked(longer, i) {
      if i + 1 < |states| {
        assert Linked(states, i);
        var f :| Step(states[i], f) == states[i + 1];
        assert Step(longer[i], f) == longer[i + 1];
      } else {
        assert Step(longer[i], e) == longer[i + 1];
      }
    }
  }

  /** The state after the first `n` events of a run in which a backup fails and
      a verification starts: the retry of the backup would be queued. */
  function BackupFailedVerifyRuns(n: nat): System
    requires n <= 8
  {
    var backup, verify := Permit(1, Backup), Permit(2, Verify);
    var failed := Completion(1, Backup, OutcomeFailed, Some(Unavailable));
    var c := if n == 0 then NewCoordinator()
             else if n < 5 then Coordinator(Some(2), Some(Active(backup, None)), None, false, false)
             else if n == 5 then Coordinator(Some(2), None, Some(Backup), false, false)
             else Coordinator(Some(3), Some(Active(verify, None)), Some(Backup), false, false);
    var start := if n == 1 then Some(Task(backup, Empty)) else if n == 6 then Some(Task(verify, Empty)) else None;
    var pc := if n == 2 then AtCheck(Task(backup, Empty)) else if n == 3 then Executing(Task(backup, Empty))
              else if n == 4 then AtFinish(backup, Failed(Unavailable), false)
              else if n == 7 then AtCheck(Task(verify, Empty)) else if n == 8 then Executing(Task(verify, Empty))
              else AtTop;
    System(Worker(c, start, None, if n < 5 then None else Some(failed), PhaseRunning),
           if n == 0 then map[] else if n < 6 then map[1 := NEW_CELL] else map[1 := NEW_CELL, 2 := NEW_CELL],
           None, None, pc,
           if n == 0 then map[] else if n < 6 then map[0 := AtSend] else map[0 := AtSend, 1 := AtSend],
           OwnerIdle,
           History(if n == 0 then map[] else if n < 6 then map[1 := Empty] else map[1 := Empty, 2 := Empty], {},
                   if n < 3 then [] else if n < 8 then [Task(backup, Empty)]
                   else [Task(backup, Empty), Task(verify, Empty)],
                   if n < 5 then [] else [failed], false, []))
  }

  function BackupFailedVerifyEvent(n: nat): Event
    requires n < 8
  {
    if n == 0 then SubmitCall(0, Request(Backup, Empty))
    else if n == 1 || n == 6 then WorkerTop
    else if n == 2 || n == 7 then WorkerCheck
    else if n == 3 then ExecutorReturns(Failed(Unavailable))
    else if n == 4 then WorkerFinish
    else SubmitCall(1, Request(Verify, Empty))
  }

  lemma BackupFailedStep(n: nat)
    requires n < 4
    ensures Step(BackupFailedVerifyRuns(n), BackupFailedVerifyEvent(n)) == BackupFailedVerifyRuns(n + 1)
  {
  }

  lemma VerifyStartsStep(n: nat)
    requires 4 <= n < 6
    ensures Step(BackupFailedVerifyRuns(n), BackupFailedVerifyEvent(n)) == BackupFailedVerifyRuns(n + 1)
  {
  }

  lemma VerifyRunsStep(n: nat)
    requires 6 <= n < 8
    ensures Step(BackupFailedVerifyRuns(n), BackupFailedVerifyEvent(n)) == BackupFailedVerifyRuns(n + 1)
  {
  }

  /** The fault is reachable. */
  lemma QueuedRetryFaultIsReachable() returns (states: seq<System>)
    ensures IsRun(states) && states[|states| - 1].w.phase.PhaseFaulted?
    ensures states[|states| - 1].history.mismatch
  {
    hide Step;
    states := [Initial()];
    for n := 0 to 8
      invariant IsRun(states) && states[|states| - 1] == BackupFailedVerifyRuns(n)
    {
      if n < 4 { BackupFailedStep(n); } else if n < 6 { VerifyStartsStep(n); } else { VerifyRunsStep(n); }
      states := Extend(states, BackupFailedVerifyEvent(n));
    }
    states := QueuedRetryFaultsWorker(states, 2, Succeeded);
  }

  /** Reachable or not, a queued command without a payload turns the finish of
      the running one into a fault. */
  lemma FinishWithoutPayloadFaults(s: System, execution: Execution)
    requires s.storing.None? && s.pc.Executing? && s.w.phase.PhaseRunning?
    requires s.w.followUp.None? && s.w.coordinator.PendingCommand().Some?
    requires s.w.coordinator.active.value.permit == s.pc.task.permit
    requires !FlagOf(s, s.pc.task.permit.id) && !execution.ReportsCancelled?
    ensures var r := Step(Step(s, ExecutorReturns(execution)), WorkerFinish);
            r.w.phase.PhaseFaulted? && r.history.mismatch && r.pc.AtExit?
  {
  }

  // ------------------------------------------------------------------
  // Wakeups

  /** A worker committed to `recv` while there is work, or a stop, always has a
      token waiting or a thread that has yet to send one. */
  lemma NoWakeupIsLost(states: seq<System>, k: nat)
    requires IsRun(states) && k < |states|
    requires states[k].pc.AtRecv? && (states[k].w.pendingStart.Some? || !states[k].w.phase.PhaseRunning?)
    ensures var s := states[k];
            || s.wake.Some?
            || (exists t :: t in s.callers && s.callers[t].AtSend?)
            || s.owner.OwnerSend?
  {
    RunKeepsInv(states, k);
  }

  /** A running worker's active command is waiting to start or is with the
      worker thread, never both and never neither. */
  lemma ActiveCommandHasOneOwner(states: seq<System>, k: nat)
    requires IsRun(states) && k < |states|
    requires states[k].w.phase.PhaseRunning? && states[k].w.coordinator.active.Some?
    ensures states[k].w.pendingStart.Some? <==> !states[k].pc.Busy()
  {
    RunKeepsInv(states, k);
  }

  // ------------------------------------------------------------------
  // What the executor sees

  /** The executor sees each identifier at most once, in increasing order, with
      the payload last accepted under it; an exclusive command has no follow-up. */
  lemma ExecutorSeesEachRequestOnce(states: seq<System>, k: nat)
    requires IsRun(states) && k < |states|
    ensures var s := states[k];
            && (forall i, j :: 0 <= i < j < |s.history.executed| ==>
                  s.history.executed[i].permit.id < s.history.executed[j].permit.id)
            && (forall i :: 0 <= i < |s.history.executed| ==>
                  var task := s.history.executed[i];
                  task.permit.id in s.history.accepted && s.history.accepted[task.permit.id] == task.payload)
            && (s.w.coordinator.active.Some? && s.w.coordinator.active.value.permit.command.IsExclusive() ==>
                  s.w.coordinator.active.value.pending.None?)
  {
    RunKeepsInv(states, k);
    var s := states[k];
    forall i | 0 <= i < |s.history.executed|
      ensures var task := s.history.executed[i];
              task.permit.id in s.history.accepted && s.history.accepted[task.permit.id] == task.payload
    {
      assert PayloadFor(s, s.history.executed[i].permit.id, s.history.executed[i].payload);
    }
  }

  // ------------------------------------------------------------------
  // Cancellation against commitment

  /** Sections that admit or finish a command. */
  lemma StageStaysInSections(s: System, e: Event, id: nat)
    requires Inv(s) && id in s.cells && !s.cells[id].stage.Running?
    requires e.SubmitCall? || e.RetryCall? || e.WorkerFinish?
    ensures id in Step(s, e).cells && Step(s, e).cells[id].stage == s.cells[id].stage
  {
    hide Request.WellFormed, FinishSection, SubmitSection, RetrySection, Payloads, ExecutedInOrder, CompletedFaithfully;
    hide NoLostWakeup;
    match e
    case SubmitCall(t, request) => if request.WellFormed() { SubmitAdmits(s.w, request); }
    case RetryCall(t) => if s.w.coordinator.lastRetryable.Some? { RetryAdmits(s.w); } else { NothingToRetry(s.w); }
    case WorkerFinish => if s.pc.AtFinish? { FinishSectionEffect(s); }
  }

  lemma StageStaysElsewhere(s: System, e: Event, id: nat)
    requires Inv(s) && id in s.cells && !s.cells[id].stage.Running?
    requires !e.SubmitCall? && !e.RetryCall? && !e.WorkerFinish?
    ensures id in Step(s, e).cells && Step(s, e).cells[id].stage == s.cells[id].stage
  {
    hide Request.WellFormed, FinishSection, SubmitSection, RetrySection, Payloads, ExecutedInOrder, CompletedFaithfully;
    hide NoLostWakeup;
    match e
    case SendCall(_) =>
    case FaultCall(_) =>
    case CancelCall(_) =>
    case StoreFlag =>
    case PauseCall =>
    case ResumeCall =>
    case TakeCompletion =>
    case ShutdownLock =>
    case ShutdownSend =>
    case ShutdownJoined =>
    case WorkerTop =>
    case WorkerRecv =>
    case WorkerCheck =>
    case CommitIrreversible =>
    case ExecutorReturns(_) =>
    case ExecutorPanics =>
    case WorkerExit =>
    case WorkerDrop =>
  }

  /** A permit that was cancelled or committed stays so: the race has one winner
      and no later step gives the permit back. */
  lemma StageIsFinal(s: System, e: Event, id: nat)
    requires Inv(s) && id in s.cells && !s.cells[id].stage.Running?
    ensures id in Step(s, e).cells && Step(s, e).cells[id].stage == s.cells[id].stage
  {
    hide Step, Inv;
    if e.SubmitCall? || e.RetryCall? || e.WorkerFinish? { StageStaysInSections(s, e, id); }
    else { StageStaysElsewhere(s, e, id); }
  }

  lemma NothingToRetry(w: Worker)
    requires w.coordinator.lastRetryable.None?
    ensures RetrySection(w).0 == w && RetrySection(w).1.Rejected?
  {
  }

  lemma {:induction false} StageStaysFinal(states: seq<System>, i: nat, j: nat, id: nat)
    requires IsRun(states) && i <= j < |states|
    requires id in states[i].cells && !states[i].cells[id].stage.Running?
    ensures id in states[j].cells && states[j].cells[id].stage == states[i].cells[id].stage
  {
    hide Inv, Step, Initial;
    if i < j {
      StageStaysFinal(states, i, j - 1, id);
      assert Linked(states, j - 1);
      var e :| Step(states[j - 1], e) == states[j];
      RunKeepsInv(states, j - 1);
      StageIsFinal(states[j - 1], e, id);
    }
  }

  /** The stored flag means the cancellation won, and a completion is Cancelled
      exactly when it did: a committed command never completes as Cancelled. */
  lemma CancelledExactlyWhenCancellationWon(states: seq<System>, k: nat)
    requires IsRun(states) && k < |states|
    ensures var s := states[k];
            && (forall id :: id in s.cells && s.cells[id].flag ==> s.cells[id].stage.Cancelled?)
            && (forall i :: 0 <= i < |s.history.completed| ==>
                  var done := s.history.completed[i];
                  && done.requestId in s.cells
                  && (done.outcome.OutcomeCancelled? <==> s.cells[done.requestId].stage.Cancelled?)
                  && (s.cells[done.requestId].stage.Irreversible? ==> !done.outcome.OutcomeCancelled?))
            && (forall i, j :: 0 <= i < j < |s.history.completed| ==>
                  s.history.completed[i].requestId < s.history.completed[j].requestId)
  {
    RunKeepsInv(states, k);
  }

  // ------------------------------------------------------------------
  // What a retry repeats

  /** The command of the last completion that failed, if it can be retried. */
  function LastFailure(log: seq<Completion>): Option<Command> {
    if log == [] then None
    else
      var last := log[|log| - 1];
      if !last.outcome.OutcomeFailed? then LastFailure(log[..|log| - 1])
      else if last.command.SupportsPayloadlessRetry() then Some(last.command)
      else None
  }

  predicate Remembers(s: System) {
    s.w.coordinator.lastRetryable == LastFailure(s.history.completed)
  }

  lemma LastFailureAppends(log: seq<Completion>, c: Completion)
    ensures LastFailure(log + [c]) ==
            if !c.outcome.OutcomeFailed? then LastFailure(log)
            else if c.command.SupportsPayloadlessRetry() then Some(c.command) else None
  {
    assert (log + [c])[..|log|] == log;
  }

  lemma SectionRemembers(w: Worker, flag: bool, permit: Permit, execution: Execution, panicked: bool)
    ensures var (after, end) := FinishSection(w, flag, permit, execution, panicked);
            if end.RefusedFault? then after.coordinator.lastRetryable == w.coordinator.lastRetryable
            else
              && after.latest.Some?
              && after.coordinator.lastRetryable ==
                 if !after.latest.value.outcome.OutcomeFailed? then w.coordinator.lastRetryable
                 else if after.latest.value.command.SupportsPayloadlessRetry() then Some(after.latest.value.command)
                 else None
  {
  }

  lemma FinishKeepsMemory(s: System)
    requires s.pc.AtFinish? && Remembers(s)
    ensures Remembers(DoFinish(s, s.pc.permit, s.pc.execution, s.pc.panicked))
  {
    hide FinishSection, LastFailure, CasCancel;
    var flag := FlagOf(s, s.pc.permit.id);
    SectionRemembers(s.w, flag, s.pc.permit, s.pc.execution, s.pc.panicked);
    var after := FinishSection(s.w, flag, s.pc.permit, s.pc.execution, s.pc.panicked).0;
    if after.latest.Some? { LastFailureAppends(s.history.completed, after.latest.value); }
  }

  lemma StepKeepsMemory(s: System, e: Event)
    requires s.w.coordinator.Valid() && Remembers(s)
    ensures Remembers(Step(s, e))
  {
    hide Request.WellFormed, DoFinish, SubmitSection, RetrySection, LastFailure, CasCancel, CasIrreversible;
    hide Coordinator.Valid;
    match e
    case SubmitCall(t, request) => if request.WellFormed() { SubmitRemembers(s.w, request); }
    case RetryCall(t) => RetryRemembers(s.w);
    case WorkerFinish => if s.pc.AtFinish? { FinishKeepsMemory(s); }
    case SendCall(_) =>
    case FaultCall(_) =>
    case CancelCall(_) =>
    case StoreFlag =>
    case PauseCall =>
    case ResumeCall =>
    case TakeCompletion =>
    case ShutdownLock =>
    case ShutdownSend =>
    case ShutdownJoined =>
    case WorkerTop =>
    case WorkerRecv =>
    case WorkerCheck =>
    case CommitIrreversible =>
    case ExecutorReturns(_) =>
    case ExecutorPanics =>
    case WorkerExit =>
    case WorkerDrop =>
  }

  lemma CoordinatorIsValid(s: System)
    requires Inv(s)
    ensures s.w.coordinator.Valid()
  {
  }

  lemma SubmitRemembers(w: Worker, request: Request)
    requires w.coordinator.Valid() && request.WellFormed()
    ensures SubmitSection(w, request).0.coordinator.lastRetryable == w.coordinator.lastRetryable
  {
    hide Submit, SubmitReplaceable;
    SubmitAnswers(w.coordinator, request.command);
    if request.Replaceable() { SubmitReplaceableAnswers(w.coordinator, request.command); }
  }

  lemma RetryRemembers(w: Worker)
    requires w.coordinator.Valid()
    ensures RetrySection(w).0.coordinator.lastRetryable == w.coordinator.lastRetryable
  {
    hide Submit;
    if w.coordinator.lastRetryable.Some? { SubmitAnswers(w.coordinator, w.coordinator.lastRetryable.value); }
  }

  /** In every state of every run, what a retry would submit is the command of
      the last failed completion, unless that command cannot be retried. */
  lemma {:induction false} RetryRepeatsLastFailure(states: seq<System>, k: nat)
    requires IsRun(states) && k < |states|
    ensures states[k].w.coordinator.lastRetryable == LastFailure(states[k].history.completed)
  {
    hide Inv, Step;
    if k > 0 {
      RetryRepeatsLastFailure(states, k - 1);
      assert Linked(states, k - 1);
      var e :| Step(states[k - 1], e) == states[k];
      RunKeepsInv(states, k - 1);
      CoordinatorIsValid(states[k - 1]);
      StepKeepsMemory(states[k - 1], e);
    }
  }
}
