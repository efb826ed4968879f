/** What a submission to the operation worker is answered, exactly, in every
    state of every run. */
module OperationAnswers {
  import opened Prelude
  import opened Commands
  import opened Operations
  import opened OperationInvariant
  import opened OperationTheorems

  /** Only a command that can be retried without a payload is queued without one. */
  predicate RetryableQueue(s: System) {
    var pending := s.w.coordinator.PendingCommand();
    pending.Some? && pending.value.id in s.history.queuedByRetry ==> pending.value.command.SupportsPayloadlessRetry()
  }

  /** Sections that admit or finish a command. */
  lemma RetryableQueueInSections(s: System, e: Event)
    requires Inv(s) && RetryableQueue(s) && (e.SubmitCall? || e.RetryCall? || e.WorkerFinish?)
    ensures RetryableQueue(Step(s, e))
  {
    hide Request.WellFormed, FinishSection, SubmitSection, RetrySection, Payloads, ExecutedInOrder, CompletedFaithfully;
    hide NoLostWakeup;
    hide Atomics;
    match e
    case SubmitCall(t, request) => if request.WellFormed() { SubmitAdmits(s.w, request); }
    case RetryCall(t) => if s.w.coordinator.lastRetryable.Some? { RetryAdmits(s.w); } else { NothingToRetry(s.w); }
    case WorkerFinish => if s.pc.AtFinish? { FinishSectionEffect(s); }
  }

  lemma RetryableQueueElsewhere(s: System, e: Event)
    requires Inv(s) && RetryableQueue(s) && !e.SubmitCall? && !e.RetryCall? && !e.WorkerFinish?
    ensures RetryableQueue(Step(s, e))
  {
    hide Request.WellFormed, FinishSection, SubmitSection, RetrySection, Payloads, ExecutedInOrder, CompletedFaithfully;
    hide NoLostWakeup;
    hide Atomics;
    match e
    case SendCall(_) =>
    case FaultCall(_) =>
    case CancelCall(_) =>
    case StoreFlag =>
    case PauseCall =>
    case ResumeCall =>
    case TakeCompletion =>
    case ShutdownLock =>
    case ShutdownSend =>
    case ShutdownJoined =>
    case WorkerTop =>
    case WorkerRecv =>
    case WorkerCheck =>
    case CommitIrreversible =>
    case ExecutorReturns(_) =>
    case ExecutorPanics =>
    case WorkerExit =>
    case WorkerDrop =>
  }

  lemma StepKeepsRetryableQueue(s: System, e: Event)
    requires Inv(s) && RetryableQueue(s)
    ensures RetryableQueue(Step(s, e))
  {
    hide Step, Inv;
    if e.SubmitCall? || e.RetryCall? || e.WorkerFinish? { RetryableQueueInSections(s, e); }
    else { RetryableQueueElsewhere(s, e); }
  }

  lemma {:induction false} RunKeepsRetryableQueue(states: seq<System>, k: nat)
    requires IsRun(states) && k < |states|
    ensures RetryableQueue(states[k])
  {
    hide Inv, Step;
    if k > 0 {
      hide RetryableQueue;
      RunKeepsRetryableQueue(states, k - 1);
      assert Linked(states, k - 1);
      var e :| Step(states[k - 1], e) == states[k];
      RunKeepsInv(states, k - 1);
      StepKeepsRetryableQueue(states[k - 1], e);
    }
  }

  /** The worker runs and admits commands. */
  predicate Open(w: Worker) {
    w.phase.PhaseRunning? && !w.coordinator.paused
  }

  /** The request joins a command that is already there: a settings update joins
      the queued one, a request without a payload the active or the queued one. */
  predicate Joins(c: Coordinator, request: Request) {
    && Follows(c)
    && if request.Replaceable() then IsQueued(c, request.command)
       else request.payload.Empty? && (IsActive(c, request.command) || IsQueued(c, request.command))
  }

  /** The request finds the queue free: a settings update may queue behind
      another one, other commands not behind themselves. */
  predicate Queues(c: Coordinator, request: Request) {
    Follows(c) && c.PendingCommand().None? && (request.Replaceable() || !IsActive(c, request.command))
  }

  /** In every run a submission is refused as closed exactly if the worker is
      stopped or paused, joins, starts or queues exactly under its condition, and
      is refused as busy or over capacity in exactly the cases left. */
  lemma SubmissionIsAnsweredExactly(states: seq<System>, k: nat, request: Request)
    requires IsRun(states) && k < |states| && request.WellFormed()
    ensures var s := states[k];
            var c, answer := s.w.coordinator, SubmitSection(s.w, request).1;
            && (answer == Rejected(Closed) <==> !Open(s.w))
            && (answer.Coalesced? <==> Open(s.w) && Joins(c, request))
            && (answer.Started? <==> Open(s.w) && c.active.None? && c.nextId.Some?)
            && (answer.Queued? <==> Open(s.w) && Queues(c, request) && c.nextId.Some?)
            && (answer == Rejected(CapacityExceeded) <==>
                  Open(s.w) && (c.active.None? || Queues(c, request)) && c.nextId.None?)
            && (answer == Rejected(Busy) <==>
                  Open(s.w) && c.active.Some? && !Joins(c, request) && !Queues(c, request))
  {
    hide Submit, SubmitReplaceable, Inv, Request.WellFormed, IsRun;
    var s := states[k];
    RunKeepsInv(states, k);
    RunKeepsRetryableQueue(states, k);
    PhasesAgree(s);
    if request.Replaceable() {
      SubmitReplaceableAnswersExactlyWhen(s.w.coordinator, request.command);
      UpdatesHavePayloads(s, request.command);
    } else {
      SubmitAnswersExactlyWhen(s.w.coordinator, request.command);
    }
  }

  lemma PhasesAgree(s: System)
    requires Inv(s)
    ensures s.w.coordinator.Valid() && (s.w.phase.PhaseRunning? <==> !s.w.coordinator.closed)
  {
  }

  /** A queued settings update has a payload to exchange. */
  lemma UpdatesHavePayloads(s: System, command: Command)
    requires Inv(s) && RetryableQueue(s) && !command.SupportsPayloadlessRetry()
    ensures s.w.phase.PhaseRunning? && IsQueued(s.w.coordinator, command) ==>
              s.w.followUp.Some? && s.w.followUp.value.requestId == s.w.coordinator.PendingCommand().value.id
  {
  }

  /** And where its payload goes: to the task that starts, to the command that is
      queued, or, for a settings update that joins, in place of the queued one's. */
  lemma SubmissionStoresPayload(states: seq<System>, k: nat, request: Request)
    requires IsRun(states) && k < |states| && request.WellFormed()
    ensures var s := states[k];
            var (after, answer) := SubmitSection(s.w, request);
            && (answer.Started? ==> after.pendingStart == Some(Task(answer.permit, request.payload)))
            && (!answer.Started? ==> after.pendingStart == s.w.pendingStart)
            && (answer.Queued? || (answer.Coalesced? && request.Replaceable()) ==>
                  after.followUp == Some(FollowUp(answer.requestId, request.payload)))
            && (answer.Started? || answer.Rejected? || (answer.Coalesced? && !request.Replaceable()) ==>
                  after.followUp == s.w.followUp)
  {
    hide Submit, SubmitReplaceable, Inv, Request.WellFormed, IsRun;
    RunKeepsInv(states, k);
    PhasesAgree(states[k]);
    var c := states[k].w.coordinator;
    if request.Replaceable() { SubmitReplaceableAnswersExactlyWhen(c, request.command); }
    else { SubmitAnswersExactlyWhen(c, request.command); }
  }

  /** In every run a retry repeats the last failure: it is refused for want of one
      exactly if no command failed last or the one that did cannot be retried, and
      otherwise answered as a submission of that command without a payload. */
  lemma RetryIsAnsweredExactly(states: seq<System>, k: nat)
    requires IsRun(states) && k < |states|
    ensures var s := states[k];
            var c, answer, last := s.w.coordinator, RetrySection(s.w).1, LastFailure(s.history.completed);
            && (answer == Rejected(Closed) <==> !s.w.phase.PhaseRunning? || (last.Some? && c.paused))
            && (answer == Rejected(NoRetryAvailable) <==> s.w.phase.PhaseRunning? && last.None?)
            && (last.Some? && Open(s.w) ==>
                  && (answer.Started? <==> c.active.None? && c.nextId.Some?)
                  && (answer.Coalesced? <==> Joins(c, Request(last.value, Empty)))
                  && (answer.Queued? <==> Queues(c, Request(last.value, Empty)) && c.nextId.Some?)
                  && (answer == Rejected(CapacityExceeded) <==>
                        (c.active.None? || Queues(c, Request(last.value, Empty))) && c.nextId.None?))
  {
    hide Submit, Inv, Request.WellFormed, IsRun, LastFailure;
    var s := states[k];
    RunKeepsInv(states, k);
    PhasesAgree(s);
    RetryRepeatsLastFailure(states, k);
    RetryAnswersExactlyWhen(s.w.coordinator);
    if s.w.coordinator.lastRetryable.Some? {
      SubmitAnswersExactlyWhen(s.w.coordinator, s.w.coordinator.lastRetryable.value);
    }
  }

  /** A pause shuts a running worker to submissions, a resume opens it again; a
      stopped one stays shut. */
  lemma PausesAndResumes(s: System)
    requires Inv(s) && s.storing.None?
    ensures !Open(Step(s, PauseCall).w) && (Open(Step(s, ResumeCall).w) <==> s.w.phase.PhaseRunning?)
  {
  }
}
