/** The coordinator and the worker's guarded state as the source keeps them:
    objects whose methods update fields in place, with permits shared by
    reference.  Each method is proved against the function of the same name on
    values, so the theorems about runs are theorems about these methods. */
module CommandObjects {
  import opened Prelude
  import C = Commands
  import O = Operations

  /** One permit; all its holders share the two atomics. */
  class CommandPermit {
    const id: nat
    const command: C.Command
    var stage: C.Stage
    var cancelled: bool

    constructor (id: nat, command: C.Command)
      ensures Value() == C.Permit(id, command) && Cell() == C.NEW_CELL
    {
      this.id, this.command := id, command;
      stage, cancelled := C.Running, false;
    }

    function Value(): C.Permit {
      C.Permit(id, command)
    }

    function Cell(): C.Cell
      reads this
    {
      C.Cell(stage, cancelled)
    }

    /** Compare-exchange, then the flag: at most one of this and
        BeginIrreversible ever succeeds on a permit. */
    method Cancel() returns (won: bool)
      modifies this
      ensures won <==> old(stage).Running?
      ensures Cell() == if won then C.CasCancel(old(Cell())).(flag := true) else old(Cell())
    {
      won := stage.Running?;
      if won {
        stage := C.Cancelled;
        cancelled := true;
      }
    }

    method BeginIrreversible() returns (ok: bool)
      modifies this
      ensures ok <==> old(stage).Running?
      ensures Cell() == C.CasIrreversible(old(Cell()))
    {
      ok := stage.Running?;
      if ok {
        stage := C.Irreversible;
      }
    }
  }

  /** What closing makes of a permit's atomics: a running one is cancelled. */
  function Closed(cell: C.Cell): C.Cell {
    if cell.stage.Running? then C.Cell(C.Cancelled, true) else cell
  }

  /** The two steps that closing takes on the active permit in the transition
      system, compare-exchange and flag, do the same. */
  lemma ClosingIsTwoSteps(s: O.System)
    requires s.storing.None? && s.w.coordinator.active.Some? && s.w.coordinator.active.value.permit.id in s.cells
    ensures var id := s.w.coordinator.active.value.permit.id;
            var cas := O.CasActive(s);
            var r := if cas.storing.Some? then O.DoStore(cas) else cas;
            r == s.(cells := s.cells[id := Closed(s.cells[id])])
  {
    var id := s.w.coordinator.active.value.permit.id;
    if !s.cells[id].stage.Running? { assert s.cells[id := s.cells[id]] == s.cells; }
  }

  class CommandCoordinator {
    var nextId: Option<nat>
    var permit: CommandPermit?
    var pending: Option<C.Pending>
    var lastRetryable: Option<C.Command>
    var paused: bool
    var closed: bool

    constructor ()
      ensures Model() == C.NewCoordinator()
    {
      nextId, permit, pending := Some(1), null, None;
      lastRetryable, paused, closed := None, false, false;
    }

    function Model(): C.Coordinator
      reads this
    {
      C.Coordinator(nextId, if permit == null then None else Some(C.Active(permit.Value(), pending)),
                    lastRetryable, paused, closed)
    }

    method AllocateRequestId() returns (id: Option<nat>)
      modifies this
      ensures (Model(), id) == C.Allocate(old(Model()))
      ensures permit == old(permit)
    {
      id := nextId;
      if id.Some? {
        nextId := if id.value + 1 < U64_LIMIT then Some(id.value + 1) else None;
      }
    }

    /** The tail that both submissions share. */
    method Enter(command: C.Command) returns (answer: C.Admission)
      modifies this
      ensures (Model(), answer) == C.Enter(old(Model()), command)
      ensures answer.Started? ==> fresh(permit) && permit.Cell() == C.NEW_CELL
      ensures !answer.Started? ==> permit == old(permit)
    {
      var id := AllocateRequestId();
      if id.None? {
        return C.Rejected(C.CapacityExceeded);
      }
      if permit != null {
        pending := Some(C.Pending(id.value, command));
        return C.Queued(id.value, permit.id);
      }
      permit := new CommandPermit(id.value, command);
      pending := None;
      return C.Started(permit.Value());
    }

    method Submit(command: C.Command) returns (answer: C.Admission)
      modifies this
      ensures (Model(), answer) == C.Submit(old(Model()), command)
      ensures answer.Started? ==> fresh(permit) && permit.Cell() == C.NEW_CELL
      ensures !answer.Started? ==> permit == old(permit)
    {
      if closed || paused {
        return C.Rejected(C.Closed);
      }
      if permit != null {
        if permit.command.IsExclusive() {
          return C.Rejected(C.Busy);
        }
        if permit.command == command {
          return C.Coalesced(permit.id, permit.id);
        }
        if pending.Some? {
          if pending.value.command == command {
            return C.Coalesced(pending.value.id, permit.id);
          }
          return C.Rejected(C.Busy);
        }
      }
      answer := Enter(command);
    }

    method SubmitReplaceable(command: C.Command) returns (answer: C.Admission)
      modifies this
      ensures (Model(), answer) == C.SubmitReplaceable(old(Model()), command)
      ensures answer.Started? ==> fresh(permit) && permit.Cell() == C.NEW_CELL
      ensures !answer.Started? ==> permit == old(permit)
    {
      if closed || paused {
        return C.Rejected(C.Closed);
      }
      if permit != null {
        if permit.command.IsExclusive() {
          return C.Rejected(C.Busy);
        }
        if permit.command == command {
          if pending.Some? {
            if pending.value.command == command {
              return C.Coalesced(pending.value.id, permit.id);
            }
            return C.Rejected(C.Busy);
          }
          answer := Enter(command);
          return;
        }
      }
      answer := Submit(command);
    }

    method RetryLast() returns (answer: C.Admission)
      modifies this
      ensures (Model(), answer) == C.RetryLast(old(Model()))
      ensures answer.Started? ==> fresh(permit) && permit.Cell() == C.NEW_CELL
      ensures !answer.Started? ==> permit == old(permit)
    {
      if lastRetryable.None? {
        return C.Rejected(C.NoRetryAvailable);
      }
      answer := Submit(lastRetryable.value);
    }

    /** True exactly when the active permit's race was won or the queued command
        was dropped; nothing else changes. */
    method Cancel(requestId: nat) returns (cancelled: bool)
      modifies this, permit
      ensures permit == old(permit)
      ensures Model() == if C.HitsPending(old(Model()), requestId) then C.DropPending(old(Model())) else old(Model())
      ensures cancelled <==> || C.HitsPending(old(Model()), requestId)
                             || (C.HitsActive(old(Model()), requestId) && old(permit.stage).Running?)
      ensures permit != null ==>
                permit.Cell() == if cancelled && C.HitsActive(old(Model()), requestId)
                                 then C.Cell(C.Cancelled, true) else old(permit.Cell())
    {
      if permit == null {
        return false;
      }
      if permit.id == requestId {
        cancelled := permit.Cancel();
        return;
      }
      if pending.Some? && pending.value.id == requestId {
        pending := None;
        return true;
      }
      return false;
    }

    method Finish(requestId: nat, execution: C.Execution) returns (transition: Option<C.Transition>)
      modifies this
      ensures (Model(), transition) ==
              C.Finish(old(Model()), old(permit) != null && old(permit.cancelled), requestId, execution)
      ensures transition.None? ==> permit == old(permit)
      ensures transition.Some? && permit != null ==> fresh(permit) && permit.Cell() == C.NEW_CELL
    {
      if permit == null {
        return None;
      }
      if permit.id != requestId || permit.cancelled != execution.ReportsCancelled? {
        return None;
      }
      var active, queued := permit, pending;
      var failure := None;
      if execution.Failed? {
        lastRetryable := if active.command.SupportsPayloadlessRetry() then Some(active.command) else None;
        failure := Some(execution.failure);
      }
      var completion := C.Completion(requestId, active.command, C.OutcomeOf(execution), failure);
      if queued.Some? {
        permit := new CommandPermit(queued.value.id, queued.value.command);
        pending := None;
        return Some(C.Transition(completion, Some(permit.Value())));
      }
      permit, pending := null, None;
      return Some(C.Transition(completion, None));
    }

    /** Closing drops the queue and cancels the active permit unless it committed. */
    method Close()
      modifies this, permit
      ensures Model() == C.CloseAdmission(old(Model())) && permit == old(permit)
      ensures permit != null ==> permit.Cell() == Closed(old(permit.Cell()))
    {
      closed, paused := true, true;
      if permit != null {
        pending := None;
        var _ := permit.Cancel();
      }
    }

    method PauseAdmission()
      modifies this
      ensures Model() == C.PauseAdmission(old(Model())) && permit == old(permit)
    {
      paused := true;
      if permit != null {
        pending := None;
      }
    }

    method ResumeAdmission()
      modifies this
      ensures Model() == C.ResumeAdmission(old(Model())) && permit == old(permit)
    {
      if !closed {
        paused := false;
      }
    }
  }

  datatype StartTask = StartTask(permit: CommandPermit, payload: C.Payload)

  /** The state behind the worker's mutex; each method is one critical section. */
  class WorkerState {
    const coordinator: CommandCoordinator
    var pendingStart: Option<StartTask>
    var followUp: Option<O.FollowUp>
    var latest: Option<C.Completion>
    var phase: O.Phase

    constructor ()
      ensures Model() == O.NewWorker() && fresh(coordinator)
    {
      coordinator := new CommandCoordinator();
      pendingStart, followUp, latest, phase := None, None, None, O.PhaseRunning;
    }

    function Model(): O.Worker
      reads this, coordinator
    {
      O.Worker(coordinator.Model(),
               if pendingStart.None? then None
               else Some(O.Task(pendingStart.value.permit.Value(), pendingStart.value.payload)),
               followUp, latest, phase)
    }

    method SubmitRequest(request: C.Request) returns (answer: C.Admission)
      modifies this, coordinator
      ensures (Model(), answer) == O.SubmitSection(old(Model()), request)
      ensures answer.Started? ==> pendingStart.Some? && pendingStart.value.permit == coordinator.permit
      ensures answer.Started? ==> fresh(coordinator.permit) && coordinator.permit.Cell() == C.NEW_CELL
      ensures !answer.Started? ==> coordinator.permit == old(coordinator.permit)
    {
      if phase != O.PhaseRunning {
        return C.Rejected(C.Closed);
      }
      var exchanges := request.Replaceable();
      if exchanges {
        answer := coordinator.SubmitReplaceable(request.command);
      } else {
        answer := coordinator.Submit(request.command);
      }
      match answer
      case Started(_) => pendingStart := Some(StartTask(coordinator.permit, request.payload));
      case Queued(id, _) => followUp := Some(O.FollowUp(id, request.payload));
      case Coalesced(id, _) =>
        if exchanges {
          if followUp.None? || followUp.value.requestId != id {
            return C.Rejected(C.Closed);
          }
          followUp := Some(followUp.value.(payload := request.payload));
        } else if !request.payload.Empty? {
          return C.Rejected(C.Busy);
        }
      case Rejected(_) =>
    }

    method RetryLast() returns (answer: C.Admission)
      modifies this, coordinator
      ensures (Model(), answer) == O.RetrySection(old(Model()))
      ensures answer.Started? ==> pendingStart.Some? && pendingStart.value.permit == coordinator.permit
      ensures answer.Started? ==> fresh(coordinator.permit) && coordinator.permit.Cell() == C.NEW_CELL
      ensures !answer.Started? ==> coordinator.permit == old(coordinator.permit)
    {
      if phase != O.PhaseRunning {
        return C.Rejected(C.Closed);
      }
      answer := coordinator.RetryLast();
      if answer.Started? {
        pendingStart := Some(StartTask(coordinator.permit, C.Empty));
      }
    }

    /** True exactly when the queued command was dropped or the active permit's
        race was won; winning sets both atomics of that permit. */
    method Cancel(requestId: nat) returns (cancelled: bool)
      modifies this, coordinator, coordinator.permit
      ensures Model() == O.CancelSection(old(Model()), requestId, cancelled)
      ensures coordinator.permit == old(coordinator.permit)
      ensures var c := old(coordinator.Model());
              cancelled <==> || C.HitsPending(c, requestId)
                             || (C.HitsActive(c, requestId) && old(coordinator.permit.stage).Running?)
      ensures coordinator.permit != null ==>
                coordinator.permit.Cell() == if cancelled && C.HitsActive(old(coordinator.Model()), requestId)
                                             then C.Cell(C.Cancelled, true) else old(coordinator.permit.Cell())
    {
      cancelled := coordinator.Cancel(requestId);
      if cancelled && followUp.Some? && followUp.value.requestId == requestId {
        followUp := None;
      }
    }

    method PauseAdmission() returns (ok: bool)
      modifies this, coordinator
      ensures Model() == O.PauseSection(old(Model())) && ok == old(phase).PhaseRunning?
      ensures coordinator.permit == old(coordinator.permit)
    {
      if phase != O.PhaseRunning {
        return false;
      }
      coordinator.PauseAdmission();
      followUp := None;
      return true;
    }

    method ResumeAdmission() returns (ok: bool)
      modifies this, coordinator
      ensures Model() == O.ResumeSection(old(Model())) && ok == old(phase).PhaseRunning?
      ensures coordinator.permit == old(coordinator.permit)
    {
      if phase != O.PhaseRunning {
        return false;
      }
      coordinator.ResumeAdmission();
      return true;
    }

    method BeginShutdown()
      modifies this, coordinator, coordinator.permit
      ensures Model() == O.ShutdownSection(old(Model()))
      ensures coordinator.permit == old(coordinator.permit)
      ensures coordinator.permit != null ==>
                coordinator.permit.Cell() == Closed(old(coordinator.permit.Cell()))
    {
      if phase == O.PhaseRunning {
        phase := O.PhaseStopping;
      }
      coordinator.Close();
      followUp := None;
    }

    method Fault()
      modifies this, coordinator, coordinator.permit
      ensures Model() == O.FaultSection(old(Model()))
      ensures coordinator.permit == old(coordinator.permit)
      ensures coordinator.permit != null ==>
                coordinator.permit.Cell() == Closed(old(coordinator.permit.Cell()))
    {
      phase, pendingStart, followUp := O.PhaseFaulted, None, None;
      coordinator.Close();
    }

    /** The worker thread's last section. */
    method Leave()
      modifies this, coordinator, coordinator.permit
      ensures Model() == O.ExitSection(old(Model()))
      ensures coordinator.permit == old(coordinator.permit)
      ensures coordinator.permit != null ==>
                coordinator.permit.Cell() == Closed(old(coordinator.permit.Cell()))
    {
      if phase != O.PhaseFaulted {
        phase := O.PhaseStopped;
      }
      pendingStart, followUp := None, None;
      coordinator.Close();
    }

    /** Ends the command that `permit` ran; false when the worker loop must stop. */
    method FinishCommand(permit: CommandPermit, execution: C.Execution, panicked: bool) returns (goesOn: bool)
      requires coordinator.permit == permit
      modifies this, coordinator, coordinator.permit
      ensures var (w, end) := O.FinishSection(old(Model()), old(permit.cancelled), permit.Value(), execution, panicked);
              Model() == w && goesOn == end.Continues?
      ensures var end := O.FinishSection(old(Model()), old(permit.cancelled), permit.Value(), execution, panicked).1;
              if end.RefusedFault? then
                coordinator.permit == permit && permit.Cell() == Closed(old(permit.Cell()))
              else
                && permit.Cell() == old(permit.Cell())
                && (coordinator.permit != null ==>
                      && fresh(coordinator.permit)
                      && coordinator.permit.Cell() == if end.Continues? then C.NEW_CELL else Closed(C.NEW_CELL))
      ensures goesOn && phase.PhaseRunning? && pendingStart.Some? ==> pendingStart.value.permit == coordinator.permit
    {
      var reported := if permit.cancelled then C.ReportsCancelled else execution;
      var transition := coordinator.Finish(permit.id, reported);
      if transition.None? {
        phase, pendingStart := O.PhaseFaulted, None;
        coordinator.Close();
        return false;
      }
      latest := Some(transition.value.completion);
      if panicked {
        phase, pendingStart, followUp := O.PhaseFaulted, None, None;
        coordinator.Close();
        return false;
      }
      if phase == O.PhaseRunning {
        if transition.value.followUp.Some? {
          var queued := followUp;
          followUp := None;
          if queued.None? || queued.value.requestId != transition.value.followUp.value.id {
            phase := O.PhaseFaulted;
            coordinator.Close();
            return false;
          }
          pendingStart := Some(StartTask(coordinator.permit, queued.value.payload));
        } else {
          pendingStart, followUp := None, None;
        }
      }
      return true;
    }
  }
}
