/** How the operation worker's phases move, how a command ends, and that commands
    and shutdown can run to their end. */
module OperationProgress {
  import opened Prelude
  import opened Commands
  import opened Operations
  import opened OperationInvariant
  import opened OperationTheorems

  // ------------------------------------------------------------------
  // Phases

  /** The finish at hand reports a cancellation that did not happen. */
  predicate Misreports(s: System)
    requires s.pc.AtFinish?
  {
    s.pc.execution.ReportsCancelled? && !FlagOf(s, s.pc.permit.id)
  }

  /** The finish at hand would promote a command that a retry queued. */
  predicate LacksPayload(s: System) {
    && s.w.phase.PhaseRunning? && s.w.coordinator.PendingCommand().Some?
    && s.w.coordinator.PendingCommand().value.id in s.history.queuedByRetry
  }

  /** The event faults the worker: a sender found the channel disconnected, or a
      finish misreported, followed a panic or lacks a payload. */
  predicate FaultsBy(s: System, e: Event) {
    && s.storing.None?
    && (|| (e.FaultCall? && e.thread in s.callers && s.callers[e.thread].AtFault?)
        || (e.WorkerFinish? && s.pc.AtFinish? && (Misreports(s) || s.pc.panicked || LacksPayload(s))))
  }

  predicate StopsBy(s: System, e: Event) {
    e.ShutdownLock? && s.storing.None? && s.owner.OwnerIdle?
  }

  /** The worker thread leaves, or shutdown has joined it. */
  predicate LeavesBy(s: System, e: Event) {
    && s.storing.None?
    && ((e.WorkerExit? && s.pc.AtExit?) || (e.ShutdownJoined? && s.owner.OwnerJoin? && s.pc.Gone?))
  }

  /** The phase after every step: a fault is never taken back, a shutdown stops a
      running worker, and leaving ends anything but a fault. */
  lemma PhaseMovesExactly(s: System, e: Event)
    requires Inv(s)
    ensures Step(s, e).w.phase ==
            if s.w.phase.PhaseFaulted? || FaultsBy(s, e) then PhaseFaulted
            else if LeavesBy(s, e) then PhaseStopped
            else if StopsBy(s, e) && s.w.phase.PhaseRunning? then PhaseStopping
            else s.w.phase
  {
    hide Request.WellFormed, FinishSection, SubmitSection, RetrySection, Payloads, Atomics, ExecutedInOrder;
    hide CompletedFaithfully, NoLostWakeup;
    match e
    case SubmitCall(t, request) => if request.WellFormed() { SubmitAdmits(s.w, request); }
    case RetryCall(t) => if s.w.coordinator.lastRetryable.Some? { RetryAdmits(s.w); } else { NothingToRetry(s.w); }
    case WorkerFinish => if s.pc.AtFinish? { FinishEnds(s); }
    case SendCall(_) =>
    case FaultCall(_) =>
    case CancelCall(_) =>
    case StoreFlag =>
    case PauseCall =>
    case ResumeCall =>
    case TakeCompletion =>
    case ShutdownLock =>
    case ShutdownSend =>
    case ShutdownJoined =>
    case WorkerTop =>
    case WorkerRecv =>
    case WorkerCheck =>
    case CommitIrreversible =>
    case ExecutorReturns(_) =>
    case ExecutorPanics =>
    case WorkerExit =>
    case WorkerDrop =>
  }

  /** Which way a finish ends, and the phase it leaves. */
  lemma FinishEnds(s: System)
    requires Inv(s) && s.pc.AtFinish?
    ensures var (r, end) := FinishNext(s, s.pc.permit, s.pc.execution, s.pc.panicked);
            && (end.RefusedFault? <==> Misreports(s))
            && (end.PanicFault? <==> !Misreports(s) && s.pc.panicked)
            && (end.MismatchFault? <==> !Misreports(s) && !s.pc.panicked && LacksPayload(s))
            && r.w.phase == (if end.Continues? then s.w.phase else PhaseFaulted)
  {
    FinishSectionEffect(s);
    hide Atomics, Payloads, ExecutedInOrder, CompletedFaithfully, NoLostWakeup;
  }

  function Order(phase: Phase): nat {
    match phase
    case PhaseRunning => 0
    case PhaseStopping => 1
    case PhaseStopped => 2
    case PhaseFaulted => 3
  }

  /** Over a run the phase only moves on, and a fault is final. */
  lemma {:induction false} PhasesOnlyMoveOn(states: seq<System>, i: nat, j: nat)
    requires IsRun(states) && i <= j < |states|
    ensures Order(states[i].w.phase) <= Order(states[j].w.phase)
    decreases j
  {
    hide Inv, Step, Initial, FaultsBy, StopsBy, LeavesBy;
    if i < j {
      PhasesOnlyMoveOn(states, i, j - 1);
      assert Linked(states, j - 1);
      var e :| Step(states[j - 1], e) == states[j];
      RunKeepsInv(states, j - 1);
      PhaseMovesExactly(states[j - 1], e);
    }
  }

  // ------------------------------------------------------------------
  // How a command ends

  /** The completion that the finish at hand owes. */
  function Owed(s: System): Completion
    requires s.pc.AtFinish?
  {
    var x := s.pc.execution;
    if FlagOf(s, s.pc.permit.id) then Completion(s.pc.permit.id, s.pc.permit.command, OutcomeCancelled, None)
    else if x.Failed? then Completion(s.pc.permit.id, s.pc.permit.command, OutcomeFailed, Some(x.failure))
    else Completion(s.pc.permit.id, s.pc.permit.command,
                    if x.Succeeded? then OutcomeSucceeded else OutcomeCancelled, None)
  }

  /** In every run a finish that does not misreport logs the completion it owes,
      of the command that ran, even when it faults the worker; a follow-up with a
      payload starts with it under a fresh permit. */
  lemma FinishIsExact(states: seq<System>, k: nat)
    requires IsRun(states) && k < |states| && states[k].storing.None? && states[k].pc.AtFinish?
    ensures var s, r := states[k], Step(states[k], WorkerFinish);
            var pending := s.w.coordinator.PendingCommand();
            && (Misreports(s) ==> r.history == s.history && r.w.latest == s.w.latest)
            && (!Misreports(s) ==>
                  && r.history.completed == s.history.completed + [Owed(s)] && r.w.latest == Some(Owed(s)))
            && (!FaultsBy(s, WorkerFinish) ==> r.pc.AtTop?)
            && (!FaultsBy(s, WorkerFinish) && s.w.phase.PhaseRunning? && pending.Some? ==>
                  var permit := Permit(pending.value.id, pending.value.command);
                  && r.w.coordinator.active == Some(Active(permit, None)) && s.w.followUp.Some?
                  && r.w.pendingStart == Some(Task(permit, s.w.followUp.value.payload))
                  && permit.id in r.cells && r.cells[permit.id] == NEW_CELL)
            && (!FaultsBy(s, WorkerFinish) && s.w.phase.PhaseRunning? && pending.None? ==>
                  r.w.coordinator.active.None? && r.w.pendingStart.None?)
  {
    var s := states[k];
    RunKeepsInv(states, k);
    FinishEnds(s);
    FinishSectionEffect(s);
    if !Misreports(s) { FinishOwes(s); }
    hide Atomics, Payloads, ExecutedInOrder, CompletedFaithfully, NoLostWakeup, FinishSection, Request.WellFormed;
  }

  lemma FinishOwes(s: System)
    requires Inv(s) && s.pc.AtFinish? && !Misreports(s)
    ensures var w := FinishSection(s.w, FlagOf(s, s.pc.permit.id), s.pc.permit, s.pc.execution, s.pc.panicked).0;
            w.latest == Some(Owed(s))
  {
    hide Atomics, Payloads, ExecutedInOrder, CompletedFaithfully, NoLostWakeup, Request.WellFormed;
  }

  // ------------------------------------------------------------------
  // Cancellation, commitment and stopping

  /** Cancelling and committing race for a running permit: whichever comes first
      wins, and the other then changes nothing. */
  lemma CommitOrCancel(states: seq<System>, k: nat)
    requires IsRun(states) && k < |states| && states[k].storing.None? && states[k].pc.Executing?
    requires var id := states[k].pc.task.permit.id; id in states[k].cells && states[k].cells[id].stage.Running?
    ensures var s, id := states[k], states[k].pc.task.permit.id;
            var committed, cancelled := Step(s, CommitIrreversible), Step(s, CancelCall(id));
            && committed.cells == s.cells[id := Cell(Irreversible, false)]
            && Step(committed, CancelCall(id)).cells == committed.cells
            && cancelled.cells == s.cells[id := Cell(Cancelled, false)]
            && Step(cancelled, CommitIrreversible).cells == cancelled.cells
            && Step(cancelled, StoreFlag).cells == s.cells[id := Cell(Cancelled, true)]
  {
    RunKeepsInv(states, k);
    hide Payloads, ExecutedInOrder, CompletedFaithfully, NoLostWakeup, Agreement;
  }

  predicate HasRun(s: System, id: nat) {
    exists i :: 0 <= i < |s.history.executed| && s.history.executed[i].permit.id == id
  }

  /** Sections that admit or finish a command. */
  lemma FlagStaysInSections(s: System, e: Event, id: nat)
    requires Inv(s) && FlagOf(s, id) && (e.SubmitCall? || e.RetryCall? || e.WorkerFinish?)
    ensures FlagOf(Step(s, e), id)
  {
    hide Request.WellFormed, FinishSection, SubmitSection, RetrySection, Payloads, ExecutedInOrder, CompletedFaithfully;
    hide NoLostWakeup;
    hide Agreement;
    match e
    case SubmitCall(t, request) => if request.WellFormed() { SubmitAdmits(s.w, request); }
    case RetryCall(t) => if s.w.coordinator.lastRetryable.Some? { RetryAdmits(s.w); } else { NothingToRetry(s.w); }
    case WorkerFinish => if s.pc.AtFinish? { FinishSectionEffect(s); }
  }

  lemma FlagStaysElsewhere(s: System, e: Event, id: nat)
    requires Inv(s) && FlagOf(s, id) && !e.SubmitCall? && !e.RetryCall? && !e.WorkerFinish?
    ensures FlagOf(Step(s, e), id)
  {
    hide Request.WellFormed, FinishSection, SubmitSection, RetrySection, Payloads, ExecutedInOrder, CompletedFaithfully;
    hide NoLostWakeup;
    hide Agreement;
    match e
    case SendCall(_) =>
    case FaultCall(_) =>
    case CancelCall(_) =>
    case StoreFlag =>
    case PauseCall =>
    case ResumeCall =>
    case TakeCompletion =>
    case ShutdownLock =>
    case ShutdownSend =>
    case ShutdownJoined =>
    case WorkerTop =>
    case WorkerRecv =>
    case WorkerCheck =>
    case CommitIrreversible =>
    case ExecutorReturns(_) =>
    case ExecutorPanics =>
    case WorkerExit =>
    case WorkerDrop =>
  }

  /** Once a permit's flag is stored it stays. */
  lemma FlagStays(s: System, e: Event, id: nat)
    requires Inv(s) && FlagOf(s, id)
    ensures FlagOf(Step(s, e), id)
  {
    hide Step, Inv;
    if e.SubmitCall? || e.RetryCall? || e.WorkerFinish? { FlagStaysInSections(s, e, id); }
    else { FlagStaysElsewhere(s, e, id); }
  }

  /** The executor is called only by a check that finds the flag unset. */
  lemma OnlyChecksRun(s: System, e: Event)
    ensures Step(s, e).history.executed == s.history.executed || (e.WorkerCheck? && s.pc.AtCheck?)
  {
    hide Request.WellFormed, FinishSection, SubmitSection, RetrySection;
    match e
    case SubmitCall(_, _) =>
    case RetryCall(_) =>
    case WorkerFinish =>
    case SendCall(_) =>
    case FaultCall(_) =>
    case CancelCall(_) =>
    case StoreFlag =>
    case PauseCall =>
    case ResumeCall =>
    case TakeCompletion =>
    case ShutdownLock =>
    case ShutdownSend =>
    case ShutdownJoined =>
    case WorkerTop =>
    case WorkerRecv =>
    case WorkerCheck =>
    case CommitIrreversible =>
    case ExecutorReturns(_) =>
    case ExecutorPanics =>
    case WorkerExit =>
    case WorkerDrop =>
  }

  lemma CheckRunsUnflagged(s: System, id: nat)
    requires s.pc.AtCheck? && FlagOf(s, id)
    ensures HasRun(Step(s, WorkerCheck), id) ==> HasRun(s, id)
  {
  }

  lemma FlaggedDoesNotRun(s: System, e: Event, id: nat)
    requires FlagOf(s, id) && !HasRun(s, id)
    ensures !HasRun(Step(s, e), id)
  {
    hide Step, FlagOf;
    OnlyChecksRun(s, e);
    if e.WorkerCheck? && s.pc.AtCheck? { CheckRunsUnflagged(s, id); }
  }

  /** A command cancelled before the executor was called for it never runs. */
  lemma {:induction false} CancelledBeforeStartNeverRuns(states: seq<System>, i: nat, j: nat, id: nat)
    requires IsRun(states) && i <= j < |states| && FlagOf(states[i], id) && !HasRun(states[i], id)
    ensures FlagOf(states[j], id) && !HasRun(states[j], id)
    decreases j
  {
    hide Inv, Step, Initial, FlagOf, HasRun;
    if i < j {
      CancelledBeforeStartNeverRuns(states, i, j - 1, id);
      assert Linked(states, j - 1);
      var e :| Step(states[j - 1], e) == states[j];
      RunKeepsInv(states, j - 1);
      FlagStays(states[j - 1], e, id);
      assert !HasRun(states[j], id) by { FlaggedDoesNotRun(states[j - 1], e, id); }
    }
  }

  predicate OutOfLoop(s: System) {
    s.pc.AtExit? || s.pc.AtDrop? || s.pc.Gone?
  }

  lemma OutStaysOut(s: System, e: Event)
    requires OutOfLoop(s)
    ensures OutOfLoop(Step(s, e)) && Step(s, e).history.executed == s.history.executed
  {
    hide FinishSection, SubmitSection, RetrySection;
  }

  /** After the worker took the stop token the executor is never called again,
      even if a task was waiting to start. */
  lemma {:induction false} NothingRunsAfterStopToken(states: seq<System>, i: nat, j: nat)
    requires IsRun(states) && i < j < |states|
    requires states[i].pc.AtRecv? && states[i].wake == Some(Stop) && !states[i + 1].pc.AtRecv?
    ensures OutOfLoop(states[j]) && states[j].history.executed == states[i].history.executed
    decreases j
  {
    hide Inv, Initial;
    assert Linked(states, j - 1);
    var e :| Step(states[j - 1], e) == states[j];
    if i + 1 == j {
      StopTokenEndsLoop(states[i], e);
    } else {
      hide Step, OutOfLoop;
      NothingRunsAfterStopToken(states, i, j - 1);
      OutStaysOut(states[j - 1], e);
    }
  }

  lemma StopTokenEndsLoop(s: System, e: Event)
    requires s.pc.AtRecv? && s.wake == Some(Stop) && !Step(s, e).pc.AtRecv?
    ensures OutOfLoop(Step(s, e)) && Step(s, e).history.executed == s.history.executed
  {
    hide FinishSection, SubmitSection, RetrySection;
  }

  // ------------------------------------------------------------------
  // An active command can run to its end

  /** Running with the mutex free and a command active. */
  predicate Working(s: System, permit: Permit) {
    && s.storing.None? && s.w.phase.PhaseRunning?
    && s.w.coordinator.active.Some? && s.w.coordinator.active.value.permit == permit
  }

  /** What may not change on the way: the logs, the permits and the queue. */
  predicate Alike(s: System, r: System) {
    r.history.completed == s.history.completed && r.cells == s.cells
  }

  /** Some thread's next step brings the worker nearer to its finish. */
  lemma WorkMovesOn(s: System, permit: Permit, execution: Execution) returns (e: Event)
    requires Inv(s) && Working(s, permit) && !s.pc.AtFinish? && !execution.ReportsCancelled?
    ensures var r := Step(s, e);
            && Working(r, permit) && Alike(s, r) && Distance(r) < Distance(s)
            && (r.pc.AtFinish? ==>
                  !Misreports(r) && !r.pc.panicked
                  && (!FlagOf(r, permit.id) ==> r.pc.execution == execution))
  {
    hide Request.WellFormed, FinishSection, SubmitSection, RetrySection, Payloads, ExecutedInOrder, CompletedFaithfully;
    match s.pc
    case AtRecv =>
      if s.wake.Some? {
        e := WorkerRecv;
      } else {
        assert s.w.pendingStart.Some?;
        var t :| t in s.callers && s.callers[t].AtSend?;
        e := SendCall(t);
      }
    case AtTop => e := WorkerTop;
    case AtCheck(_) => e := WorkerCheck;
    case Executing(_) => e := ExecutorReturns(execution);
    case AtExit =>
    case AtDrop =>
    case Gone =>
  }

  /** From every reachable state of a running worker, the active command can run
      to its end: the worker is woken if need be, takes the task, calls the
      executor unless the command was cancelled, and logs what was reported. */
  lemma {:induction false} ActiveCommandCanComplete(states: seq<System>, permit: Permit, execution: Execution)
    returns (longer: seq<System>)
    requires IsRun(states) && Working(states[|states| - 1], permit) && !execution.ReportsCancelled?
    requires states[|states| - 1].pc.AtFinish? ==> !Misreports(states[|states| - 1])
    ensures IsRun(longer) && states <= longer
    ensures var s, r := states[|states| - 1], longer[|longer| - 1];
            && |r.history.completed| == |s.history.completed| + 1 && s.history.completed <= r.history.completed
            && var done := r.history.completed[|s.history.completed|];
            && done.requestId == permit.id && done.command == permit.command
            && (FlagOf(s, permit.id) ==> done.outcome.OutcomeCancelled?)
            && (!FlagOf(s, permit.id) && !s.pc.AtFinish? ==> done.outcome == OutcomeOf(execution))
    decreases Distance(states[|states| - 1])
  {
    hide Step, Inv, Distance, Linked, Initial, FlagOf;
    var s := states[|states| - 1];
    RunKeepsInv(states, |states| - 1);
    if s.pc.AtFinish? {
      longer := Extend(states, WorkerFinish);
      FinishIsExact(states, |states| - 1);
      BusyWithActive(s);
      assert FlagOf(s, permit.id) ==> Owed(s).outcome.OutcomeCancelled?;
    } else {
      var e := WorkMovesOn(s, permit, execution);
      var more := Extend(states, e);
      var n := more[|more| - 1];
      assert FlagOf(n, permit.id) == FlagOf(s, permit.id) by { AlikeFlags(s, n, permit.id); }
      if n.pc.AtFinish? {
        longer := Extend(more, WorkerFinish);
        FinishIsExact(more, |more| - 1);
        RunKeepsInv(more, |more| - 1);
        BusyWithActive(n);
      } else {
        longer := ActiveCommandCanComplete(more, permit, execution);
      }
    }
  }

  lemma AlikeFlags(s: System, r: System, id: nat)
    requires Alike(s, r)
    ensures FlagOf(r, id) == FlagOf(s, id)
  {
  }

  lemma BusyWithActive(s: System)
    requires Inv(s) && s.pc.AtFinish?
    ensures s.w.coordinator.active.Some? && s.pc.permit == s.w.coordinator.active.value.permit
  {
  }

  // ------------------------------------------------------------------
  // Shutdown can run to its end

  /** How far the worker thread is from being gone. */
  function Left(s: System): nat {
    match s.pc
    case AtRecv => if s.wake.None? then 10 else 9
    case AtTop => if s.w.pendingStart.Some? then 8 else 4
    case AtCheck(_) => 7
    case Executing(_) => 6
    case AtFinish(_, _, _) => 5
    case AtExit => 3
    case AtDrop => 2
    case Gone => 1
  }

  function ToShutDown(s: System): nat {
    2 * (Left(s) + if s.owner.OwnerSend? then 20 else if s.owner.OwnerJoin? then 10 else 0)
    + if s.storing.Some? then 1 else 0
  }

  predicate ShuttingDown(s: System) {
    s.owner.OwnerSend? || s.owner.OwnerJoin?
  }

  predicate ShutDown(s: System) {
    s.owner.OwnerDone? && s.pc.Gone? && (s.w.phase.PhaseStopped? || s.w.phase.PhaseFaulted?)
  }

  /** The worker's next step brings it nearer to its exit. */
  lemma WorkerNearsExit(s: System) returns (e: Event)
    requires Inv(s) && s.owner.OwnerJoin? && s.storing.None? && !s.pc.Gone?
    ensures Step(s, e).owner.OwnerJoin? && Left(Step(s, e)) < Left(s)
  {
    hide Request.WellFormed, FinishSection, Payloads, ExecutedInOrder, CompletedFaithfully, Agreement, Atomics;
    match s.pc
    case AtRecv =>
      if s.wake.Some? {
        e := WorkerRecv;
      } else {
        var t :| t in s.callers && s.callers[t].AtSend?;
        e := SendCall(t);
      }
    case AtTop => e := WorkerTop;
    case AtCheck(_) => e := WorkerCheck;
    case Executing(_) => e := ExecutorReturns(Succeeded);
    case AtFinish(_, _, _) =>
      FinishSectionEffect(s);
      e := WorkerFinish;
    case AtExit => e := WorkerExit;
    case AtDrop => e := WorkerDrop;
  }

  lemma ShutdownMovesOn(s: System) returns (e: Event)
    requires Inv(s) && ShuttingDown(s)
    ensures var r := Step(s, e); (ShuttingDown(r) && ToShutDown(r) < ToShutDown(s)) || ShutDown(r)
  {
    if s.storing.Some? {
      e := StoreFlag;
      StoreMoves(s);
    } else if s.owner.OwnerSend? {
      e := ShutdownSend;
    } else if s.pc.Gone? {
      e := ShutdownJoined;
      JoinShutsDown(s);
    } else {
      hide Step, Left;
      e := WorkerNearsExit(s);
    }
  }

  lemma StoreMoves(s: System)
    requires s.storing.Some?
    ensures var r := Step(s, StoreFlag); r.storing.None? && Left(r) == Left(s) && r.owner == s.owner
  {
  }

  lemma JoinShutsDown(s: System)
    requires Inv(s) && s.owner.OwnerJoin? && s.storing.None? && s.pc.Gone?
    ensures ShutDown(Step(s, ShutdownJoined))
  {
  }

  /** From every reachable state in which shutdown has begun, it can run to its
      end: the worker finishes what it is at, leaves and is joined, and the phase
      is Stopped or Faulted. */
  lemma {:induction false} ShutdownCanFinish(states: seq<System>) returns (longer: seq<System>)
    requires IsRun(states) && ShuttingDown(states[|states| - 1])
    ensures IsRun(longer) && states <= longer && ShutDown(longer[|longer| - 1])
    decreases ToShutDown(states[|states| - 1])
  {
    hide Step, Inv, ToShutDown, Linked, Initial, ShutDown, ShuttingDown;
    var s := states[|states| - 1];
    RunKeepsInv(states, |states| - 1);
    var e := ShutdownMovesOn(s);
    longer := Extend(states, e);
    if !ShutDown(longer[|longer| - 1]) {
      longer := ShutdownCanFinish(longer);
    }
  }

  // ------------------------------------------------------------------
  // Panics, disconnections and completions

  /** A panic of the executor faults the worker; the command completes as failed,
      unless its cancellation had won. */
  lemma PanicFaults(states: seq<System>, k: nat)
    requires IsRun(states) && k < |states| && states[k].storing.None? && states[k].pc.Executing?
    ensures var s := states[k];
            var r := Step(Step(s, ExecutorPanics), WorkerFinish);
            var permit := s.pc.task.permit;
            && r.w.phase.PhaseFaulted? && r.pc.AtExit?
            && r.history.completed == s.history.completed
                 + [if FlagOf(s, permit.id) then Completion(permit.id, permit.command, OutcomeCancelled, None)
                    else Completion(permit.id, permit.command, OutcomeFailed, Some(Internal))]
  {
    RunKeepsInv(states, k);
    StepKeepsInv(states[k], ExecutorPanics);
    hide Inv, DoFinish;
    var s := Step(states[k], ExecutorPanics);
    FinishLogs(s);
    PhaseMovesExactly(s, WorkerFinish);
    FaultingFinishExits(s);
  }

  lemma FaultingFinishExits(s: System)
    requires Inv(s) && s.storing.None? && s.pc.AtFinish? && s.pc.panicked
    ensures Step(s, WorkerFinish).pc.AtExit?
  {
    FinishEnds(s);
    hide Inv, FinishSection;
  }

  /** A caller whose wake-up finds the worker gone faults it. */
  lemma DisconnectedCallerFaults(s: System, t: nat)
    requires s.storing.None? && s.pc.Gone? && t in s.callers && s.callers[t].AtSend?
    ensures var r := Step(Step(s, SendCall(t)), FaultCall(t)); r.w.phase.PhaseFaulted? && t !in r.callers
  {
  }

  /** The latest completion is the last one logged, and was not handed over yet;
      what was handed over was logged, in order. */
  predicate HandsOverOnce(s: System) {
    var log, taken := s.history.completed, s.history.taken;
    && (forall i, j :: 0 <= i < j < |taken| ==> taken[i].requestId < taken[j].requestId)
    && (forall i :: 0 <= i < |taken| ==> taken[i] in log)
    && (s.w.latest.Some? ==>
          && log != [] && s.w.latest.value == log[|log| - 1]
          && forall i :: 0 <= i < |taken| ==> taken[i].requestId < s.w.latest.value.requestId)
  }

  /** A step that logs nothing and leaves the latest completion alone. */
  lemma QuietHandsOver(s: System, r: System)
    requires HandsOverOnce(s) && r.history.completed == s.history.completed && r.history.taken == s.history.taken
    requires r.w.latest == s.w.latest
    ensures HandsOverOnce(r)
  {
  }

  lemma TakeHandsOver(s: System)
    requires HandsOverOnce(s)
    ensures HandsOverOnce(DoTake(s))
  {
  }

  lemma FinishHandsOver(s: System)
    requires Inv(s) && HandsOverOnce(s) && s.storing.None? && s.pc.AtFinish?
    ensures HandsOverOnce(Step(s, WorkerFinish))
  {
    FinishLogs(s);
    var r := Step(s, WorkerFinish);
    hide Step, Positions, Atomics, Agreement, Payloads, ExecutedInOrder, NoLostWakeup;
    if !Misreports(s) {
      var log := r.history.completed;
      assert log[|log| - 1] == Owed(s);
      forall i | 0 <= i < |s.history.taken| ensures s.history.taken[i].requestId < Owed(s).requestId {
        assert s.history.taken[i] in s.history.completed;
      }
      forall i | 0 <= i < |s.history.taken| ensures s.history.taken[i] in log {
        assert s.history.taken[i] in s.history.completed;
      }
    }
  }

  lemma FinishLogs(s: System)
    requires Inv(s) && s.storing.None? && s.pc.AtFinish?
    ensures var r := Step(s, WorkerFinish);
            && r.history.taken == s.history.taken
            && (Misreports(s) ==> r.history == s.history && r.w.latest == s.w.latest)
            && (!Misreports(s) ==>
                  && r.history.completed == s.history.completed + [Owed(s)] && r.w.latest == Some(Owed(s)))
            && s.w.coordinator.active.Some? && s.w.coordinator.active.value.permit == s.pc.permit
  {
    FinishEnds(s);
    if !Misreports(s) { FinishOwes(s); }
    hide Atomics, Payloads, ExecutedInOrder, CompletedFaithfully, NoLostWakeup, FinishSection, Request.WellFormed;
  }

  lemma StepHandsOver(s: System, e: Event)
    requires Inv(s) && HandsOverOnce(s)
    ensures HandsOverOnce(Step(s, e))
  {
    hide Inv, HandsOverOnce, FinishSection;
    match e
    case WorkerFinish => if s.storing.None? && s.pc.AtFinish? { FinishHandsOver(s); }
    case TakeCompletion => TakeHandsOver(s);
    case SubmitCall(_, _) => QuietHandsOver(s, Step(s, e));
    case RetryCall(_) => QuietHandsOver(s, Step(s, e));
    case SendCall(_) => QuietHandsOver(s, Step(s, e));
    case FaultCall(_) => QuietHandsOver(s, Step(s, e));
    case CancelCall(_) => QuietHandsOver(s, Step(s, e));
    case StoreFlag => QuietHandsOver(s, Step(s, e));
    case PauseCall => QuietHandsOver(s, Step(s, e));
    case ResumeCall => QuietHandsOver(s, Step(s, e));
    case ShutdownLock => QuietHandsOver(s, Step(s, e));
    case ShutdownSend => QuietHandsOver(s, Step(s, e));
    case ShutdownJoined => QuietHandsOver(s, Step(s, e));
    case WorkerTop => QuietHandsOver(s, Step(s, e));
    case WorkerRecv => QuietHandsOver(s, Step(s, e));
    case WorkerCheck => QuietHandsOver(s, Step(s, e));
    case CommitIrreversible => QuietHandsOver(s, Step(s, e));
    case ExecutorReturns(_) => QuietHandsOver(s, Step(s, e));
    case ExecutorPanics => QuietHandsOver(s, Step(s, e));
    case WorkerExit => QuietHandsOver(s, Step(s, e));
    case WorkerDrop => QuietHandsOver(s, Step(s, e));
  }

  /** In every run a completion is handed over at most once, in the order logged;
      the one kept for the caller is the last. */
  lemma {:induction false} CompletionsAreHandedOverOnce(states: seq<System>, k: nat)
    requires IsRun(states) && k < |states|
    ensures HandsOverOnce(states[k])
  {
    if k > 0 {
      hide Inv, Step, HandsOverOnce, Initial;
      CompletionsAreHandedOverOnce(states, k - 1);
      RunKeepsInv(states, k - 1);
      assert Linked(states, k - 1);
      var e :| Step(states[k - 1], e) == states[k];
      StepHandsOver(states[k - 1], e);
    }
  }
}
