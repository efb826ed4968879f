/** What every step of the operation worker keeps.  Each conjunct is proved over
    all events; the theorems about whole runs are in OperationTheorems.dfy. */
module OperationInvariant {
  import opened Prelude
  import opened Commands
  import opened Operations

  // ------------------------------------------------------------------
  // Who holds the active permit, and which atomics exist

  predicate Positions(s: System) {
    var active := s.w.coordinator.active;
    && s.w.coordinator.Valid()
    && (s.w.phase.PhaseRunning? <==> !s.w.coordinator.closed)
    && (s.w.pendingStart.Some? ==>
          active.Some? && s.w.pendingStart.value.permit == active.value.permit && !s.pc.Busy())
    && (s.pc.Busy() ==> active.Some? && s.pc.BusyPermit() == active.value.permit)
    && (s.w.phase.PhaseRunning? && active.Some? ==> s.w.pendingStart.Some? || s.pc.Busy())
    && (s.wake == Some(Stop) || s.pc.AtExit? || s.pc.AtDrop? || s.pc.Gone? ==> !s.w.phase.PhaseRunning?)
    && (s.owner.OwnerIdle? || !s.w.phase.PhaseRunning?)
    && (forall t :: t in s.callers && s.callers[t].AtFault? ==> s.pc.Gone?)
  }

  /** A permit's flag is stored exactly when its cancellation won, except for the
      permit whose flag the mutex holder is about to store. */
  predicate Atomics(s: System) {
    var c := s.w.coordinator;
    && (forall id :: id in s.cells ==> 0 < id < c.Bound())
    && (c.active.Some? ==> c.active.value.permit.id in s.cells)
    && (c.active.Some? ==> forall id :: id in s.cells ==> id <= c.active.value.permit.id)
    && (s.storing.Some? ==>
          s.storing.value in s.cells && s.cells[s.storing.value] == Cell(Cancelled, false))
    && (forall id :: id in s.cells && s.storing != Some(id) ==>
          (s.cells[id].flag <==> s.cells[id].stage.Cancelled?))
  }

  // ------------------------------------------------------------------
  // The coordinator's queue and the worker's payload

  /** While running, a stored payload belongs to the queued command, and the
      queued command lacks a payload exactly when retry_last queued it. */
  predicate Agreement(s: System) {
    var pending := s.w.coordinator.PendingCommand();
    && (forall id :: id in s.history.queuedByRetry ==> id < s.w.coordinator.Bound())
    && (s.w.phase.PhaseRunning? ==>
          && (s.w.followUp.Some? ==> pending.Some? && pending.value.id == s.w.followUp.value.requestId)
          && (pending.Some? ==> (s.w.followUp.None? <==> pending.value.id in s.history.queuedByRetry)))
    && (s.history.mismatch ==> s.history.queuedByRetry != {})
  }

  predicate PayloadFor(s: System, id: nat, payload: Payload) {
    id in s.history.accepted && s.history.accepted[id] == payload
  }

  /** Every place that holds a payload holds the last one accepted. */
  predicate Payloads(s: System) {
    var c := s.w.coordinator;
    && (forall id :: id in s.history.accepted ==> id < c.Bound())
    && (c.active.Some? ==>
          && c.active.value.permit.id in s.history.accepted
          && Request(c.active.value.permit.command, s.history.accepted[c.active.value.permit.id]).WellFormed())
    && (c.PendingCommand().Some? ==>
          && c.PendingCommand().value.id in s.history.accepted
          && Request(c.PendingCommand().value.command,
                     s.history.accepted[c.PendingCommand().value.id]).WellFormed())
    && (s.w.pendingStart.Some? ==>
          PayloadFor(s, s.w.pendingStart.value.permit.id, s.w.pendingStart.value.payload))
    && (s.w.followUp.Some? && s.w.phase.PhaseRunning? ==>
          PayloadFor(s, s.w.followUp.value.requestId, s.w.followUp.value.payload))
    && (s.pc.AtCheck? || s.pc.Executing? ==> PayloadFor(s, s.pc.task.permit.id, s.pc.task.payload))
    && (forall i :: 0 <= i < |s.history.executed| ==>
          PayloadFor(s, s.history.executed[i].permit.id, s.history.executed[i].payload))
  }

  // ------------------------------------------------------------------
  // What the executor and the completion log have seen

  predicate ExecutedInOrder(s: System) {
    var log := s.history.executed;
    && (forall i, j :: 0 <= i < j < |log| ==> log[i].permit.id < log[j].permit.id)
    && (forall i :: 0 <= i < |log| ==> log[i].permit.id < s.w.coordinator.Bound())
    && (s.w.coordinator.active.Some? ==>
          forall i :: 0 <= i < |log| ==>
            if s.w.pendingStart.Some? || s.pc.AtCheck?
            then log[i].permit.id < s.w.coordinator.active.value.permit.id
            else log[i].permit.id <= s.w.coordinator.active.value.permit.id)
  }

  predicate CompletedFaithfully(s: System) {
    var log := s.history.completed;
    && (forall i, j :: 0 <= i < j < |log| ==> log[i].requestId < log[j].requestId)
    && (forall i :: 0 <= i < |log| ==>
          && log[i].requestId in s.cells
          && s.storing != Some(log[i].requestId)
          && (log[i].outcome.OutcomeCancelled? <==> s.cells[log[i].requestId].stage.Cancelled?))
    && (s.w.coordinator.active.Some? ==>
          forall i :: 0 <= i < |log| ==> log[i].requestId < s.w.coordinator.active.value.permit.id)
  }

  // ------------------------------------------------------------------
  // Wakeups

  /** The worker never sleeps on work or on a stop nobody will announce. */
  predicate NoLostWakeup(s: System) {
    s.pc.AtRecv? && (s.w.pendingStart.Some? || !s.w.phase.PhaseRunning?) ==>
      || s.wake.Some?
      || (exists t :: t in s.callers && s.callers[t].AtSend?)
      || s.owner.OwnerSend?
  }

  predicate Inv(s: System) {
    && Positions(s) && Atomics(s) && Agreement(s) && Payloads(s)
    && ExecutedInOrder(s) && CompletedFaithfully(s) && NoLostWakeup(s)
  }

  lemma InitialInv()
    ensures Inv(Initial())
  {
  }

  // ------------------------------------------------------------------
  // Admission

  /** What an admission section does, whichever way the command entered. */
  predicate Admits(before: Worker, after: Worker, answer: Admission, command: Command, payload: Payload,
                   stored: bool)
  {
    var c := before.coordinator;
    && after.coordinator.Valid()
    && after.phase == before.phase && after.latest == before.latest
    && after.coordinator.closed == c.closed && c.Bound() <= after.coordinator.Bound()
    && (answer.Rejected? || before.phase.PhaseRunning?)
    && match answer
       case Started(permit) =>
         && c.active.None? && after.coordinator.active == Some(Active(permit, None))
         && permit.command == command && permit.id == c.Bound() && permit.id < after.coordinator.Bound()
         && after.pendingStart == Some(Task(permit, payload)) && after.followUp == before.followUp
       case Queued(id, _) =>
         && c.active.Some? && c.PendingCommand().None? && id == c.Bound() && id < after.coordinator.Bound()
         && after.coordinator.active == Some(c.active.value.(pending := Some(Pending(id, command))))
         && after.pendingStart == before.pendingStart
         && after.followUp == (if stored then Some(FollowUp(id, payload)) else before.followUp)
       case Coalesced(id, _) =>
         && after.coordinator == c && after.pendingStart == before.pendingStart && c.active.Some?
         && (|| (after.followUp == before.followUp && payload.Empty?
                 && (|| (id == c.active.value.permit.id && c.active.value.permit.command == command)
                     || c.PendingCommand() == Some(Pending(id, command))))
             || (&& c.PendingCommand() == Some(Pending(id, command))
                 && before.followUp.Some? && before.followUp.value.requestId == id
                 && after.followUp == Some(FollowUp(id, payload))))
       case Rejected(_) => after.coordinator == c && after.pendingStart == before.pendingStart
                           && after.followUp == before.followUp
  }

  lemma SubmitAdmits(w: Worker, request: Request)
    requires w.coordinator.Valid() && request.WellFormed()
    ensures var (after, answer) := SubmitSection(w, request);
            Admits(w, after, answer, request.command, request.payload, true)
  {
    if request.Replaceable() {
      SubmitReplaceableAnswers(w.coordinator, request.command);
    } else {
      SubmitAnswers(w.coordinator, request.command);
    }
  }

  lemma RetryAdmits(w: Worker)
    requires w.coordinator.Valid() && w.coordinator.lastRetryable.Some?
    ensures var (after, answer) := RetrySection(w);
            Admits(w, after, answer, w.coordinator.lastRetryable.value, Empty, false)
  {
    SubmitAnswers(w.coordinator, w.coordinator.lastRetryable.value);
  }

  /** One admission step, abstractly. */
  predicate AdmissionStep(s: System, r: System, answer: Admission, command: Command, payload: Payload,
                          byRetry: bool, thread: nat)
  {
    var h := Record(s.history, answer, payload);
    && s.storing.None? && thread !in s.callers && Request(command, payload).WellFormed()
    && Admits(s.w, r.w, answer, command, payload, !byRetry)
    && r.cells == WithNewCell(s.cells, answer)
    && r.storing == s.storing && r.wake == s.wake && r.pc == s.pc && r.owner == s.owner
    && r.history == (if byRetry && answer.Queued?
                     then h.(queuedByRetry := h.queuedByRetry + {answer.requestId}) else h)
    && r.callers == (if answer.Started? then s.callers[thread := AtSend] else s.callers)
  }

  lemma AdmissionKeepsPlaces(s: System, r: System, answer: Admission, command: Command, payload: Payload,
                             byRetry: bool, thread: nat)
    requires Inv(s) && AdmissionStep(s, r, answer, command, payload, byRetry, thread)
    ensures Positions(r) && Atomics(r) && NoLostWakeup(r)
  {
    if answer.Started? {
      assert thread in r.callers && r.callers[thread].AtSend?;
    }
  }

  lemma AdmissionKeepsAgreement(s: System, r: System, answer: Admission, command: Command, payload: Payload,
                                byRetry: bool, thread: nat)
    requires Inv(s) && AdmissionStep(s, r, answer, command, payload, byRetry, thread)
    ensures Agreement(r)
  {
  }

  lemma EmptyFitsAlone(command: Command, payload: Payload)
    requires Request(command, payload).WellFormed() && Request(command, Empty).WellFormed()
    ensures payload == Empty
  {
  }

  /** Coalescing either repeats an empty payload or replaces the payload of the
      queued command, which nothing has started. */
  lemma CoalescingKeepsPayloads(s: System, r: System, answer: Admission, command: Command, payload: Payload,
                                byRetry: bool, thread: nat)
    requires Inv(s) && AdmissionStep(s, r, answer, command, payload, byRetry, thread) && answer.Coalesced?
    ensures Payloads(r)
  {
    hide Request.WellFormed, NoLostWakeup, CompletedFaithfully, Atomics;
    var id := answer.requestId;
    if payload.Empty? {
      EmptyFitsAlone(command, s.history.accepted[id]);
      assert r.history.accepted == s.history.accepted;
    } else {
      assert forall k :: k in s.history.accepted && k != id ==> r.history.accepted[k] == s.history.accepted[k];
    }
  }

  lemma AdmissionKeepsPayloads(s: System, r: System, answer: Admission, command: Command, payload: Payload,
                               byRetry: bool, thread: nat)
    requires Inv(s) && AdmissionStep(s, r, answer, command, payload, byRetry, thread)
    ensures Payloads(r)
  {
    hide Request.WellFormed, NoLostWakeup, CompletedFaithfully, Atomics;
    match answer
    case Started(permit) =>
    case Queued(id, _) =>
    case Coalesced(id, _) => CoalescingKeepsPayloads(s, r, answer, command, payload, byRetry, thread);
    case Rejected(_) =>
  }

  lemma AdmissionKeepsLogs(s: System, r: System, answer: Admission, command: Command, payload: Payload,
                           byRetry: bool, thread: nat)
    requires Inv(s) && AdmissionStep(s, r, answer, command, payload, byRetry, thread)
    ensures ExecutedInOrder(r) && CompletedFaithfully(r)
  {
  }

  lemma AdmissionKeepsInv(s: System, r: System, answer: Admission, command: Command, payload: Payload,
                          byRetry: bool, thread: nat)
    requires Inv(s) && AdmissionStep(s, r, answer, command, payload, byRetry, thread)
    ensures Inv(r)
  {
    AdmissionKeepsPlaces(s, r, answer, command, payload, byRetry, thread);
    AdmissionKeepsAgreement(s, r, answer, command, payload, byRetry, thread);
    AdmissionKeepsPayloads(s, r, answer, command, payload, byRetry, thread);
    AdmissionKeepsLogs(s, r, answer, command, payload, byRetry, thread);
  }

  lemma SubmitKeepsInv(s: System, thread: nat, request: Request)
    requires Inv(s) && s.storing.None? && thread !in s.callers && request.WellFormed()
    ensures Inv(DoSubmit(s, thread, request))
  {
    SubmitAdmits(s.w, request);
    AdmissionKeepsInv(s, DoSubmit(s, thread, request), SubmitSection(s.w, request).1,
                      request.command, request.payload, false, thread);
  }

  lemma RetryKeepsInv(s: System, thread: nat)
    requires Inv(s) && s.storing.None? && thread !in s.callers
    ensures Inv(DoRetry(s, thread))
  {
    if s.w.coordinator.lastRetryable.Some? {
      RetryAdmits(s.w);
      AdmissionKeepsInv(s, DoRetry(s, thread), RetrySection(s.w).1,
                        s.w.coordinator.lastRetryable.value, Empty, true, thread);
    } else {
      assert DoRetry(s, thread) == s;
    }
  }

  // ------------------------------------------------------------------
  // Cancellation and closing

  /** A section that only drops the queue, possibly closing, followed by the
      compare-exchange on the active permit. */
  predicate QuietsDown(before: System, after: System) {
    && after.w.coordinator == CloseAdmission(before.w.coordinator)
    && !after.w.phase.PhaseRunning?
    && (after.w.pendingStart == before.w.pendingStart || after.w.pendingStart.None?)
    && after.cells == before.cells && after.storing == before.storing && after.history == before.history
    && (after.pc == before.pc || (after.pc.AtDrop? && before.pc.AtExit?))
    && after.wake == before.wake
    && (after.pc.AtRecv? ==> after.owner.OwnerSend? )
    && (after.owner.OwnerIdle? ==> before.owner.OwnerIdle?)
  }

  lemma CasActiveKeepsInv(s: System)
    requires Inv(s) && s.storing.None?
    ensures Inv(CasActive(s))
  {
    hide Request.WellFormed;
  }

  lemma QuietKeepsInv(before: System, after: System)
    requires Inv(before) && before.storing.None? && QuietsDown(before, after)
    requires forall t :: t in after.callers ==> t in before.callers && after.callers[t] == before.callers[t]
    ensures Inv(CasActive(after))
  {
    hide Request.WellFormed;
    CasActiveKeepsInv(after);
  }

  lemma FaultersOutliveWorker(s: System, thread: nat)
    requires Inv(s) && thread in s.callers && s.callers[thread].AtFault?
    ensures s.pc.Gone?
  {
  }

  /** Cancelling the queued command drops its payload with it. */
  lemma CancelPendingKeepsInv(s: System, id: nat)
    requires Inv(s) && HitsPending(s.w.coordinator, id)
    ensures Inv(s.(w := CancelSection(s.w, id, true)))
  {
    hide Request.WellFormed;
  }

  /** Cancelling the active command touches the payload slot only after a stop. */
  lemma CancelActiveKeepsInv(s: System, id: nat, cancelled: bool)
    requires Inv(s) && !HitsPending(s.w.coordinator, id) && (cancelled ==> HitsActive(s.w.coordinator, id))
    ensures Inv(s.(w := CancelSection(s.w, id, cancelled)))
  {
    hide Request.WellFormed;
    assert s.w.phase.PhaseRunning? ==> CancelSection(s.w, id, cancelled) == s.w;
  }

  lemma CancelKeepsInv(s: System, id: nat)
    requires Inv(s) && s.storing.None?
    ensures Inv(DoCancel(s, id))
  {
    hide Inv;
    if HitsActive(s.w.coordinator, id) {
      var wins := id in s.cells && s.cells[id].stage.Running?;
      CancelActiveKeepsInv(s, id, wins);
      CasActiveKeepsInv(s.(w := CancelSection(s.w, id, wins)));
    } else if HitsPending(s.w.coordinator, id) {
      CancelPendingKeepsInv(s, id);
    } else {
      CancelActiveKeepsInv(s, id, false);
    }
  }

  lemma StoreKeepsInv(s: System)
    requires Inv(s) && s.storing.Some?
    ensures Inv(DoStore(s))
  {
    hide Request.WellFormed;
  }

  // ------------------------------------------------------------------
  // The worker thread

  lemma TopKeepsInv(s: System)
    requires Inv(s) && s.storing.None? && s.pc.AtTop?
    ensures Inv(DoTop(s))
  {
    hide Request.WellFormed;
  }

  lemma CheckKeepsInv(s: System)
    requires Inv(s) && s.pc.AtCheck?
    ensures Inv(DoCheck(s, s.pc.task))
  {
    hide Request.WellFormed;
  }

  lemma CommitKeepsInv(s: System)
    requires Inv(s) && s.pc.Executing?
    ensures Inv(DoCommit(s, s.pc.task))
  {
    hide Request.WellFormed;
  }

  lemma SendKeepsInv(s: System, thread: nat)
    requires Inv(s) && thread in s.callers && s.callers[thread].AtSend?
    ensures Inv(DoSend(s, thread))
  {
    hide Request.WellFormed;
  }

  /** What one finish section does to the worker: the active command is the
      one that ran, so it is refused only when the executor reports a
      cancellation that did not happen. */
  lemma FinishSectionEffect(s: System)
    requires Positions(s) && s.pc.AtFinish?
    ensures var flag := FlagOf(s, s.pc.permit.id);
            var (w, end) := FinishSection(s.w, flag, s.pc.permit, s.pc.execution, s.pc.panicked);
            var c := s.w.coordinator;
            var pending := c.PendingCommand();
            && w.coordinator.Valid() && w.coordinator.nextId == c.nextId
            && w.coordinator.PendingCommand().None? && (!end.Continues? ==> w.pendingStart.None?)
            && (end.RefusedFault? <==> !flag && s.pc.execution.ReportsCancelled?)
            && (end.RefusedFault? ==> w.coordinator.active == Some(c.active.value.(pending := None)))
            && (!end.RefusedFault? ==>
                  && w.latest.Some? && w.latest.value.requestId == s.pc.permit.id
                  && (w.latest.value.outcome.OutcomeCancelled? <==> flag)
                  && (w.coordinator.active ==
                        if pending.Some? then Some(Active(Permit(pending.value.id, pending.value.command), None))
                        else None))
            && (end.Continues? ==> w.phase == s.w.phase && w.coordinator.closed == c.closed)
            && (!end.Continues? ==> w.phase.PhaseFaulted? && w.coordinator.closed)
            && (end.Continues? && w.phase.PhaseRunning? ==>
                  && w.followUp.None?
                  && (pending.None? ==> w.pendingStart.None?)
                  && (pending.Some? ==>
                        && s.w.followUp.Some? && s.w.followUp.value.requestId == pending.value.id
                        && w.pendingStart == Some(Task(w.coordinator.active.value.permit, s.w.followUp.value.payload))))
            && (end.Continues? && !w.phase.PhaseRunning? ==> w.pendingStart == s.w.pendingStart)
            && (end.MismatchFault? ==>
                  && s.w.phase.PhaseRunning? && pending.Some?
                  && (s.w.followUp.Some? ==> s.w.followUp.value.requestId != pending.value.id))
  {
    var flag := FlagOf(s, s.pc.permit.id);
    FinishAnswers(s.w.coordinator, flag, s.pc.permit.id,
                  if flag then ReportsCancelled else s.pc.execution);
  }

  lemma FinishKeepsPlaces(s: System)
    requires Inv(s) && s.storing.None? && s.pc.AtFinish?
    ensures var next := FinishNext(s, s.pc.permit, s.pc.execution, s.pc.panicked).0;
            Positions(next) && Atomics(next) && NoLostWakeup(next)
  {
    FinishSectionEffect(s);
  }

  lemma FinishKeepsAgreement(s: System)
    requires Inv(s) && s.storing.None? && s.pc.AtFinish?
    ensures Agreement(FinishNext(s, s.pc.permit, s.pc.execution, s.pc.panicked).0)
  {
    FinishSectionEffect(s);
  }

  lemma FinishKeepsPayloads(s: System)
    requires Inv(s) && s.storing.None? && s.pc.AtFinish?
    ensures Payloads(FinishNext(s, s.pc.permit, s.pc.execution, s.pc.panicked).0)
  {
    FinishSectionEffect(s);
  }

  lemma FinishKeepsLogs(s: System)
    requires Inv(s) && s.storing.None? && s.pc.AtFinish?
    ensures var next := FinishNext(s, s.pc.permit, s.pc.execution, s.pc.panicked).0;
            ExecutedInOrder(next) && CompletedFaithfully(next)
  {
    FinishSectionEffect(s);
  }

  lemma FinishKeepsInv(s: System)
    requires Inv(s) && s.storing.None? && s.pc.AtFinish?
    ensures Inv(DoFinish(s, s.pc.permit, s.pc.execution, s.pc.panicked))
  {
    hide Request.WellFormed;
    FinishKeepsPlaces(s);
    FinishKeepsAgreement(s);
    FinishKeepsPayloads(s);
    FinishKeepsLogs(s);
    CasActiveKeepsInv(FinishNext(s, s.pc.permit, s.pc.execution, s.pc.panicked).0);
  }

  lemma PauseKeepsInv(s: System)
    requires Inv(s)
    ensures Inv(s.(w := PauseSection(s.w)))
  {
    hide Request.WellFormed;
  }

  lemma ResumeKeepsInv(s: System)
    requires Inv(s)
    ensures Inv(s.(w := ResumeSection(s.w)))
  {
    hide Request.WellFormed;
  }

  lemma TakeCompletionKeepsInv(s: System)
    requires Inv(s)
    ensures Inv(DoTake(s))
  {
    hide Request.WellFormed;
  }

  lemma JoinedKeepsInv(s: System)
    requires Inv(s)
    ensures Inv(Step(s, ShutdownJoined))
  {
    hide Request.WellFormed;
  }

  lemma ShutdownSendKeepsInv(s: System)
    requires Inv(s)
    ensures Inv(Step(s, ShutdownSend))
  {
    hide Request.WellFormed;
  }

  lemma ExecutorEndsKeepsInv(s: System, execution: Execution, panicked: bool)
    requires Inv(s) && s.pc.Executing?
    ensures Inv(s.(pc := AtFinish(s.pc.task.permit, execution, panicked)))
  {
  }

  lemma RecvKeepsInv(s: System)
    requires Inv(s)
    ensures Inv(Step(s, WorkerRecv))
  {
    hide Request.WellFormed;
  }

  lemma CallerStepKeepsInv(s: System, e: Event)
    requires Inv(s)
    requires e.SubmitCall? || e.RetryCall? || e.SendCall? || e.FaultCall? || e.CancelCall? || e.StoreFlag?
    ensures Inv(Step(s, e))
  {
    hide Inv;
    match e
    case SubmitCall(t, request) =>
      if s.storing.None? && t !in s.callers && request.WellFormed() { SubmitKeepsInv(s, t, request); }
    case RetryCall(t) => if s.storing.None? && t !in s.callers { RetryKeepsInv(s, t); }
    case SendCall(t) => if t in s.callers && s.callers[t].AtSend? { SendKeepsInv(s, t); }
    case FaultCall(t) =>
      if s.storing.None? && t in s.callers && s.callers[t].AtFault? {
        FaultersOutliveWorker(s, t);
        QuietKeepsInv(s, s.(w := FaultSection(s.w), callers := s.callers - {t}));
      }
    case CancelCall(id) => if s.storing.None? { CancelKeepsInv(s, id); }
    case StoreFlag => if s.storing.Some? { StoreKeepsInv(s); }
  }

  lemma OwnerStepKeepsInv(s: System, e: Event)
    requires Inv(s)
    requires e.PauseCall? || e.ResumeCall? || e.TakeCompletion? || e.ShutdownLock? || e.ShutdownSend?
          || e.ShutdownJoined?
    ensures Inv(Step(s, e))
  {
    hide Inv;
    match e
    case PauseCall => PauseKeepsInv(s);
    case ResumeCall => ResumeKeepsInv(s);
    case TakeCompletion => TakeCompletionKeepsInv(s);
    case ShutdownLock =>
      if s.storing.None? && s.owner.OwnerIdle? {
        QuietKeepsInv(s, s.(w := ShutdownSection(s.w), owner := OwnerSend));
      }
    case ShutdownSend => ShutdownSendKeepsInv(s);
    case ShutdownJoined => JoinedKeepsInv(s);
  }

  lemma DropKeepsInv(s: System)
    requires Inv(s)
    ensures Inv(Step(s, WorkerDrop))
  {
    hide Request.WellFormed;
  }

  lemma WorkerStepKeepsInv(s: System, e: Event)
    requires Inv(s)
    requires e.WorkerTop? || e.WorkerRecv? || e.WorkerCheck? || e.CommitIrreversible? || e.ExecutorReturns?
          || e.ExecutorPanics? || e.WorkerFinish? || e.WorkerExit? || e.WorkerDrop?
    ensures Inv(Step(s, e))
  {
    hide Inv;
    match e
    case WorkerTop => if s.storing.None? && s.pc.AtTop? { TopKeepsInv(s); }
    case WorkerRecv => RecvKeepsInv(s);
    case WorkerCheck => if s.pc.AtCheck? { CheckKeepsInv(s); }
    case CommitIrreversible => if s.pc.Executing? { CommitKeepsInv(s); }
    case ExecutorReturns(x) => if s.pc.Executing? { ExecutorEndsKeepsInv(s, x, false); }
    case ExecutorPanics => if s.pc.Executing? { ExecutorEndsKeepsInv(s, Failed(Internal), true); }
    case WorkerFinish => if s.storing.None? && s.pc.AtFinish? { FinishKeepsInv(s); }
    case WorkerExit =>
      if s.storing.None? && s.pc.AtExit? { QuietKeepsInv(s, s.(w := ExitSection(s.w), pc := AtDrop)); }
    case WorkerDrop => DropKeepsInv(s);
  }

  lemma StepKeepsInv(s: System, e: Event)
    requires Inv(s)
    ensures Inv(Step(s, e))
  {
    hide Inv;
    if e.SubmitCall? || e.RetryCall? || e.SendCall? || e.FaultCall? || e.CancelCall? || e.StoreFlag? {
      CallerStepKeepsInv(s, e);
    } else if e.PauseCall? || e.ResumeCall? || e.TakeCompletion? || e.ShutdownLock? || e.ShutdownSend?
              || e.ShutdownJoined? {
      OwnerStepKeepsInv(s, e);
    } else {
      WorkerStepKeepsInv(s, e);
    }
  }

  /** Every state of every run meets the invariant. */
  lemma {:induction false} RunKeepsInv(states: seq<System>, k: nat)
    requires IsRun(states) && k < |states|
    ensures Inv(states[k])
  {
    hide Inv;
    if k == 0 {
      InitialInv();
    } else {
      RunKeepsInv(states, k - 1);
      assert Linked(states, k - 1);
      var e :| Step(states[k - 1], e) == states[k];
      StepKeepsInv(states[k - 1], e);
    }
  }
}
