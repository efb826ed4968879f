/** The operation worker of crates/app/src/operation.rs as a transition system.
    Every mutex section, every atomic operation on a permit and every channel
    operation is one step; an event that is not enabled changes nothing, so a
    run is any sequence of events.  A thread that won a cancellation may take its
    next unlocked step before the flag is stored; that only adds runs. */
module Operations {
  import opened Prelude
  import opened Commands

  datatype Phase = PhaseRunning | PhaseStopping | PhaseStopped | PhaseFaulted

  datatype Task = Task(permit: Permit, payload: Payload)

  datatype FollowUp = FollowUp(requestId: nat, payload: Payload)

  /** The state behind the worker's mutex. */
  datatype Worker = Worker(coordinator: Coordinator, pendingStart: Option<Task>,
                           followUp: Option<FollowUp>, latest: Option<Completion>, phase: Phase)

  function NewWorker(): Worker {
    Worker(NewCoordinator(), None, None, None, PhaseRunning)
  }

  // ------------------------------------------------------------------
  // Mutex sections

  function SubmitSection(w: Worker, request: Request): (r: (Worker, Admission)) {
    if w.phase != PhaseRunning then (w, Rejected(Closed))
    else
      var (c, answer) := if request.Replaceable()
                         then SubmitReplaceable(w.coordinator, request.command)
                         else Submit(w.coordinator, request.command);
      var admitted := w.(coordinator := c);
      match answer
      case Started(permit) =>
        (admitted.(pendingStart := Some(Task(permit, request.payload))), answer)
      case Queued(id, _) =>
        (admitted.(followUp := Some(FollowUp(id, request.payload))), answer)
      case Coalesced(id, _) =>
        if request.Replaceable() then
          if w.followUp.Some? && w.followUp.value.requestId == id
          then (admitted.(followUp := Some(FollowUp(id, request.payload))), answer)
          else (admitted, Rejected(Closed))
        else if request.payload.Empty? then (admitted, answer)
        else (admitted, Rejected(Busy))
      case Rejected(_) => (admitted, answer)
  }

  /** Stores a task only when the coordinator answers Started. */
  function RetrySection(w: Worker): (r: (Worker, Admission)) {
    if w.phase != PhaseRunning then (w, Rejected(Closed))
    else
      var (c, answer) := RetryLast(w.coordinator);
      var admitted := w.(coordinator := c);
      if answer.Started? then (admitted.(pendingStart := Some(Task(answer.permit, Empty))), answer)
      else (admitted, answer)
  }

  /** Cancelling the queued command, or clearing the payload of a cancelled one. */
  function CancelSection(w: Worker, id: nat, cancelled: bool): (r: Worker) {
    var c := if HitsPending(w.coordinator, id) then DropPending(w.coordinator) else w.coordinator;
    var drop := cancelled && w.followUp.Some? && w.followUp.value.requestId == id;
    w.(coordinator := c, followUp := if drop then None else w.followUp)
  }

  function PauseSection(w: Worker): (r: Worker) {
    if w.phase != PhaseRunning then w
    else w.(coordinator := PauseAdmission(w.coordinator), followUp := None)
  }

  function ResumeSection(w: Worker): (r: Worker) {
    if w.phase != PhaseRunning then w
    else w.(coordinator := ResumeAdmission(w.coordinator))
  }

  function ShutdownSection(w: Worker): (r: Worker) {
    w.(phase := if w.phase.PhaseRunning? then PhaseStopping else w.phase,
       coordinator := CloseAdmission(w.coordinator),
       followUp := None)
  }

  function ExitSection(w: Worker): (r: Worker) {
    w.(phase := if w.phase.PhaseFaulted? then PhaseFaulted else PhaseStopped,
       pendingStart := None, followUp := None,
       coordinator := CloseAdmission(w.coordinator))
  }

  function FaultSection(w: Worker): (r: Worker) {
    w.(phase := PhaseFaulted, pendingStart := None, followUp := None,
       coordinator := CloseAdmission(w.coordinator))
  }

  function JoinedSection(w: Worker): (r: Worker) {
    if w.phase.PhaseFaulted? then w else w.(phase := PhaseStopped)
  }

  datatype FinishEnd = Continues | RefusedFault | PanicFault | MismatchFault

  /** The section that ends one command; `flag` is the permit's cancellation
      flag, read while the mutex is held. */
  function FinishSection(w: Worker, flag: bool, permit: Permit, execution: Execution, panicked: bool)
    : (r: (Worker, FinishEnd))
  {
    var reported := if flag then ReportsCancelled else execution;
    var (c, transition) := Finish(w.coordinator, flag, permit.id, reported);
    if transition.None? then
      (w.(phase := PhaseFaulted, pendingStart := None, coordinator := CloseAdmission(c)), RefusedFault)
    else
      var finished := w.(coordinator := c, latest := Some(transition.value.completion));
      var next := transition.value.followUp;
      if panicked then
        (finished.(phase := PhaseFaulted, pendingStart := None, followUp := None,
                   coordinator := CloseAdmission(c)), PanicFault)
      else if w.phase != PhaseRunning then (finished, Continues)
      else if next.None? then (finished.(pendingStart := None, followUp := None), Continues)
      else if w.followUp.Some? && w.followUp.value.requestId == next.value.id then
        (finished.(pendingStart := Some(Task(next.value, w.followUp.value.payload)),
                   followUp := None), Continues)
      else
        (finished.(phase := PhaseFaulted, followUp := None,
                   coordinator := CloseAdmission(c)), MismatchFault)
  }

  // ------------------------------------------------------------------
  // Threads

  datatype Wake = Work | Stop

  /** Where the worker thread is in `run_worker`. */
  datatype LoopPc =
    | AtTop
    | AtRecv
    | AtCheck(task: Task)
    | Executing(task: Task)
    | AtFinish(permit: Permit, execution: Execution, panicked: bool)
    | AtExit
    | AtDrop                         // out of the exit section, the receiver not yet dropped
    | Gone
  {
    predicate Busy() {
      AtCheck? || Executing? || AtFinish?
    }

    function BusyPermit(): Permit
      requires Busy()
    {
      if AtFinish? then permit else task.permit
    }
  }

  /** A submitter whose command started still has to wake the worker, and
      faults it when the channel is disconnected. */
  datatype CallerPc = AtSend | AtFault

  datatype OwnerPc = OwnerIdle | OwnerSend | OwnerJoin | OwnerDone

  /** What an observer of the run remembers; no step reads it. */
  datatype History = History(
    accepted: map<nat, Payload>,    // payload of the last submission answered under an identifier
    queuedByRetry: set<nat>,        // identifiers that retry_last was told are queued
    executed: seq<Task>,            // the calls of the executor
    completed: seq<Completion>,     // the completions the coordinator issued
    mismatch: bool,                 // a finish found no matching payload
    taken: seq<Completion>)         // the completions handed to the caller

  datatype System = System(
    w: Worker,
    cells: map<nat, Cell>,          // the atomics of every permit, by identifier
    storing: Option<nat>,           // the mutex is held between the two atomics of permit.cancel
    wake: Option<Wake>,             // the one-slot channel
    pc: LoopPc,
    callers: map<nat, CallerPc>,
    owner: OwnerPc,
    history: History)

  function Initial(): System {
    System(NewWorker(), map[], None, None, AtTop, map[], OwnerIdle, History(map[], {}, [], [], false, []))
  }

  datatype Event =
    | SubmitCall(thread: nat, request: Request)
    | RetryCall(thread: nat)
    | SendCall(thread: nat)
    | FaultCall(thread: nat)
    | CancelCall(id: nat)
    | StoreFlag
    | PauseCall
    | ResumeCall
    | TakeCompletion
    | ShutdownLock
    | ShutdownSend
    | ShutdownJoined
    | WorkerTop
    | WorkerRecv
    | WorkerCheck
    | CommitIrreversible
    | ExecutorReturns(execution: Execution)
    | ExecutorPanics
    | WorkerFinish
    | WorkerExit
    | WorkerDrop

  function Record(h: History, answer: Admission, payload: Payload): (r: History) {
    match answer
    case Started(permit) => h.(accepted := h.accepted[permit.id := payload])
    case Queued(id, _) => h.(accepted := h.accepted[id := payload])
    case Coalesced(id, _) => h.(accepted := h.accepted[id := payload])
    case Rejected(_) => h
  }

  function WithNewCell(cells: map<nat, Cell>, answer: Admission): (r: map<nat, Cell>) {
    if answer.Started? then cells[answer.permit.id := NEW_CELL] else cells
  }

  /** The compare-exchange of `permit.cancel()` on the active permit; if it wins,
      the mutex stays held until the flag is stored. */
  function CasActive(s: System): (r: System) {
    var active := s.w.coordinator.active;
    if active.Some? && active.value.permit.id in s.cells
       && s.cells[active.value.permit.id].stage.Running? then
      var id := active.value.permit.id;
      s.(cells := s.cells[id := CasCancel(s.cells[id])], storing := Some(id))
    else s
  }

  function DoSubmit(s: System, thread: nat, request: Request): (r: System) {
    var (w, answer) := SubmitSection(s.w, request);
    s.(w := w, cells := WithNewCell(s.cells, answer),
       history := Record(s.history, answer, request.payload),
       callers := if answer.Started? then s.callers[thread := AtSend] else s.callers)
  }

  function DoRetry(s: System, thread: nat): (r: System) {
    var (w, answer) := RetrySection(s.w);
    var h := Record(s.history, answer, Empty);
    s.(w := w, cells := WithNewCell(s.cells, answer),
       history := if answer.Queued?
                  then h.(queuedByRetry := h.queuedByRetry + {answer.requestId}) else h,
       callers := if answer.Started? then s.callers[thread := AtSend] else s.callers)
  }

  function DoSend(s: System, thread: nat): (r: System) {
    if s.pc.Gone? then s.(callers := s.callers[thread := AtFault])
    else s.(wake := if s.wake.None? then Some(Work) else s.wake, callers := s.callers - {thread})
  }

  function DoFault(s: System, thread: nat): (r: System) {
    CasActive(s.(w := FaultSection(s.w), callers := s.callers - {thread}))
  }

  function DoCancel(s: System, id: nat): (r: System) {
    if HitsActive(s.w.coordinator, id) then
      var wins := id in s.cells && s.cells[id].stage.Running?;
      CasActive(s.(w := CancelSection(s.w, id, wins)))
    else s.(w := CancelSection(s.w, id, HitsPending(s.w.coordinator, id)))
  }

  function DoStore(s: System): (r: System)
    requires s.storing.Some?
  {
    var id := s.storing.value;
    s.(cells := if id in s.cells then s.cells[id := s.cells[id].(flag := true)] else s.cells,
       storing := None)
  }

  /** `try_completion` hands the latest completion over and forgets it. */
  function DoTake(s: System): (r: System) {
    if s.w.latest.None? then s
    else s.(w := s.w.(latest := None), history := s.history.(taken := s.history.taken + [s.w.latest.value]))
  }

  function DoTop(s: System): (r: System) {
    if s.w.pendingStart.Some? then
      s.(pc := AtCheck(s.w.pendingStart.value), w := s.w.(pendingStart := None))
    else s.(pc := if s.w.phase.PhaseRunning? then AtRecv else AtExit)
  }

  function DoCheck(s: System, task: Task): (r: System) {
    if task.permit.id in s.cells && s.cells[task.permit.id].flag then
      s.(pc := AtFinish(task.permit, ReportsCancelled, false))
    else
      s.(pc := Executing(task), history := s.history.(executed := s.history.executed + [task]))
  }

  function DoCommit(s: System, task: Task): (r: System) {
    var id := task.permit.id;
    if id in s.cells then s.(cells := s.cells[id := CasIrreversible(s.cells[id])]) else s
  }

  function FlagOf(s: System, id: nat): bool {
    id in s.cells && s.cells[id].flag
  }

  /** The finish section, before a fault's cancellation of what became active. */
  function FinishNext(s: System, permit: Permit, execution: Execution, panicked: bool)
    : (r: (System, FinishEnd))
  {
    var (w, end) := FinishSection(s.w, FlagOf(s, permit.id), permit, execution, panicked);
    if end.RefusedFault? then (s.(w := w, pc := AtExit), end)
    else
      var issued := if w.latest.Some? then [w.latest.value] else [];
      var cells := if w.coordinator.active.Some?
                   then s.cells[w.coordinator.active.value.permit.id := NEW_CELL] else s.cells;
      (s.(w := w, cells := cells,
          history := s.history.(completed := s.history.completed + issued,
                                mismatch := s.history.mismatch || end.MismatchFault?),
          pc := if end.Continues? then AtTop else AtExit), end)
  }

  function DoFinish(s: System, permit: Permit, execution: Execution, panicked: bool): (r: System) {
    var (next, end) := FinishNext(s, permit, execution, panicked);
    if end.Continues? then next else CasActive(next)
  }

  function DoExit(s: System): (r: System) {
    CasActive(s.(w := ExitSection(s.w), pc := AtDrop))
  }

  function Step(s: System, e: Event): (r: System) {
    var free := s.storing.None?;
    match e
    case SubmitCall(t, request) =>
      if free && t !in s.callers && request.WellFormed() then DoSubmit(s, t, request) else s
    case RetryCall(t) => if free && t !in s.callers then DoRetry(s, t) else s
    case SendCall(t) => if t in s.callers && s.callers[t].AtSend? then DoSend(s, t) else s
    case FaultCall(t) => if free && t in s.callers && s.callers[t].AtFault? then DoFault(s, t) else s
    case CancelCall(id) => if free then DoCancel(s, id) else s
    case StoreFlag => if s.storing.Some? then DoStore(s) else s
    case PauseCall => if free then s.(w := PauseSection(s.w)) else s
    case ResumeCall => if free then s.(w := ResumeSection(s.w)) else s
    case TakeCompletion => if free then DoTake(s) else s
    case ShutdownLock =>
      if free && s.owner.OwnerIdle? then CasActive(s.(w := ShutdownSection(s.w), owner := OwnerSend)) else s
    case ShutdownSend =>
      if s.owner.OwnerSend?
      then s.(wake := if s.pc.Gone? || s.wake.Some? then s.wake else Some(Stop), owner := OwnerJoin)
      else s
    case ShutdownJoined =>
      if free && s.owner.OwnerJoin? && s.pc.Gone?
      then s.(w := JoinedSection(s.w), owner := OwnerDone) else s
    case WorkerTop => if free && s.pc.AtTop? then DoTop(s) else s
    case WorkerRecv =>
      if s.pc.AtRecv? && s.wake.Some?
      then s.(wake := None, pc := if s.wake.value.Work? then AtTop else AtExit) else s
    case WorkerCheck => if s.pc.AtCheck? then DoCheck(s, s.pc.task) else s
    case CommitIrreversible => if s.pc.Executing? then DoCommit(s, s.pc.task) else s
    case ExecutorReturns(x) =>
      if s.pc.Executing? then s.(pc := AtFinish(s.pc.task.permit, x, false)) else s
    case ExecutorPanics =>
      if s.pc.Executing? then s.(pc := AtFinish(s.pc.task.permit, Failed(Internal), true)) else s
    case WorkerFinish =>
      if free && s.pc.AtFinish? then DoFinish(s, s.pc.permit, s.pc.execution, s.pc.panicked) else s
    case WorkerExit => if free && s.pc.AtExit? then DoExit(s) else s
    case WorkerDrop => if s.pc.AtDrop? then s.(pc := Gone) else s
  }

  /** Some event leads from the i-th state to the next one. */
  ghost predicate Linked(states: seq<System>, i: nat)
    requires i + 1 < |states|
  {
    exists e :: Step(states[i], e) == states[i + 1]
  }

  ghost predicate IsRun(states: seq<System>) {
    && states != [] && states[0] == Initial()
    && (forall i: nat :: i + 1 < |states| ==> Linked(states, i))
  }
}
