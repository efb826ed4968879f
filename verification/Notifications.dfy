/** The reminder presentation lease of crates/app/src/notification.rs as a
    transition system.  Pump callers, receipt calls, the receipt worker and
    shutdown interleave freely; each atomic access, each mutex section and each
    call of the port is one step.  The port is a contract: a take may grant a
    lease, an acknowledgement or release ends what is outstanding, and an error
    leaves the leases as they were. */
module Notifications {
  import opened Prelude

  datatype Action = Presented | Failed

  /** An action in the worker's slot; the lease it speaks for is remembered. */
  datatype Queued = Queued(lease: nat, action: Action)

  datatype PortReply = Granted | NothingThere | RetryableError | PermanentError

  /** Where a thread is in `pump_presentation`. */
  datatype PumpPc =
    | StopCheck
    | CasInFlight
    | Take
    | ClearUntaken
    | StopRecheck(lease: nat)
    | ReleaseLoad
    | ReleasePort
    | ReleaseClear
    | Presenting(lease: nat)
    | Failing(lease: nat)
  {
    /** The thread owns the in-flight flag and no lease is out. */
    predicate Holds() {
      Take? || ClearUntaken? || ReleaseClear?
    }

    /** The thread has a lease that no receipt speaks for. */
    predicate Unreceipted() {
      StopRecheck? || ReleaseLoad? || ReleasePort?
    }
  }

  /** Why the worker releases: it decides whether to retry and what follows. */
  datatype Goal = OnExit | OnStop(lease: nat) | OnAckError(lease: nat) | OnFailed(lease: nat)
  {
    predicate Retries() {
      OnAckError? || OnFailed?
    }
  }

  datatype WorkerPc =
    | Waiting
    | AckCheck(lease: nat)
    | Acking(lease: nat)
    | AckRetry(lease: nat)
    | AckClear
    | RelLoad(goal: Goal)
    | RelPort(goal: Goal)
    | RelRetry(goal: Goal)
    | RelClear(goal: Goal)
    | PresentWait
    | PresenterCheck
    | Pumping
    | Done
  {
    predicate Clears() {
      AckClear? || RelClear?
    }

    /** The lease the worker is about to end. */
    function ActsOn(): Option<nat> {
      if AckCheck? || Acking? || AckRetry? then Some(lease)
      else if (RelLoad? || RelPort? || RelRetry?) && !goal.OnExit? then Some(goal.lease)
      else None
    }

    predicate Acknowledges() {
      AckCheck? || Acking? || AckRetry?
    }

    predicate Leaves() {
      Done? || ((RelLoad? || RelPort? || RelRetry? || RelClear?) && goal.OnExit?)
    }
  }

  datatype ShutdownPc =
    | ShutIdle
    | ShutStop
    | ShutJoin
    | ShutLoad
    | ShutPort
    | ShutClear
    | ShutReturned(ok: bool)

  /** The slot, the stop flag, the in-flight flag and the presenter handle. */
  datatype Signal = Signal(presenter: bool, stopping: bool, action: Option<Queued>, inFlight: bool)

  /** The leases and what became of each. */
  datatype Leases = Leases(
    outstanding: set<nat>,           // taken and not ended
    next: nat,
    receipts: map<nat, bool>,        // by lease: has the receipt been spent
    submitting: map<nat, Action>,    // receipt calls on their way to the slot
    firstCall: map<nat, Action>,     // history: the call that spent each receipt
    acknowledged: set<nat>,          // history
    released: set<nat>,              // history
    dropped: set<nat>,               // history: receipt calls the slot refused
    refused: set<nat>,               // history: a release call answered with an error not to be retried
    unacknowledged: set<nat>)        // history: the same of an acknowledgement

  datatype System = System(
    signal: Signal,
    leases: Leases,
    pumps: map<nat, PumpPc>,         // thread 0 is the receipt worker
    worker: WorkerPc,
    shutdown: ShutdownPc)
  {
    function WithFlag(raised: bool): System {
      this.(signal := signal.(inFlight := raised))
    }
  }

  function Initial(): System {
    System(Signal(true, false, None, false), Leases({}, 0, map[], map[], map[], {}, {}, {}, {}, {}),
           map[], Waiting, ShutIdle)
  }

  datatype Event =
    | PumpCall(thread: nat)
    | PumpStep(thread: nat, reply: PortReply, presented: bool)
    | ReceiptCall(lease: nat, action: Action)
    | SubmitAction(lease: nat)
    | WorkerStep(reply: PortReply, timedOut: bool)
    | ShutdownCall
    | ShutdownStep(reply: PortReply)

  // ------------------------------------------------------------------
  // The port

  function Acknowledge(s: System): (r: System) {
    s.(leases := s.leases.(acknowledged := s.leases.acknowledged + s.leases.outstanding, outstanding := {}))
  }

  function AcknowledgeFails(s: System): (r: System) {
    s.(leases := s.leases.(unacknowledged := s.leases.unacknowledged + s.leases.outstanding))
  }

  function Release(s: System): (r: System) {
    s.(leases := s.leases.(released := s.leases.released + s.leases.outstanding, outstanding := {}))
  }

  /** `port.release()` answers true exactly when it ended a lease. */
  predicate ReleaseSucceeds(s: System, reply: PortReply) {
    reply.Granted? && s.leases.outstanding != {}
  }

  /** Any other answer leaves the lease out; an error that may pass is not noted. */
  function ReleaseFails(s: System, reply: PortReply): (r: System) {
    if reply.RetryableError? then s
    else s.(leases := s.leases.(refused := s.leases.refused + s.leases.outstanding))
  }

  // ------------------------------------------------------------------
  // Receipts

  function SpendReceipt(s: System, lease: nat, action: Action): (r: System) {
    if lease in s.leases.receipts && !s.leases.receipts[lease] then
      s.(leases := s.leases.(receipts := s.leases.receipts[lease := true],
                             submitting := s.leases.submitting[lease := action],
                             firstCall := s.leases.firstCall[lease := action]))
    else s
  }

  function DoSubmit(s: System, lease: nat): (r: System)
    requires lease in s.leases.submitting
  {
    var left := s.leases.submitting - {lease};
    if !s.signal.stopping && s.signal.action.None?
    then s.(signal := s.signal.(action := Some(Queued(lease, s.leases.submitting[lease]))),
            leases := s.leases.(submitting := left))
    else s.(leases := s.leases.(submitting := left, dropped := s.leases.dropped + {lease}))
  }

  // ------------------------------------------------------------------
  // Pumps

  function PumpTo(s: System, thread: nat, pc: PumpPc): (r: System) {
    s.(pumps := s.pumps[thread := pc])
  }

  function PumpEnds(s: System, thread: nat): (r: System) {
    s.(pumps := s.pumps - {thread})
  }

  function PumpChecksStop(s: System, thread: nat): (r: System) {
    if s.signal.stopping then PumpEnds(s, thread) else PumpTo(s, thread, CasInFlight)
  }

  function PumpRaisesFlag(s: System, thread: nat): (r: System) {
    if s.signal.inFlight then PumpEnds(s, thread) else PumpTo(s.WithFlag(true), thread, Take)
  }

  function PumpTakes(s: System, thread: nat, reply: PortReply): (r: System) {
    if reply.Granted? then
      var lease := s.leases.next;
      PumpTo(s.(leases := s.leases.(outstanding := s.leases.outstanding + {lease}, next := lease + 1)),
             thread, StopRecheck(lease))
    else PumpTo(s, thread, ClearUntaken)
  }

  function PumpClears(s: System, thread: nat): (r: System) {
    PumpEnds(s.WithFlag(false), thread)
  }

  function PumpRechecksStop(s: System, thread: nat, lease: nat): (r: System) {
    if s.signal.stopping then PumpTo(s, thread, ReleaseLoad)
    else PumpTo(s.(leases := s.leases.(receipts := s.leases.receipts[lease := false])), thread, Presenting(lease))
  }

  function PumpLoadsFlag(s: System, thread: nat): (r: System) {
    if s.signal.inFlight then PumpTo(s, thread, ReleasePort) else PumpEnds(s, thread)
  }

  function PumpReleases(s: System, thread: nat, reply: PortReply): (r: System) {
    if ReleaseSucceeds(s, reply) then PumpTo(Release(s), thread, ReleaseClear)
    else PumpEnds(ReleaseFails(s, reply), thread)
  }

  function PumpPresents(s: System, thread: nat, lease: nat, presented: bool): (r: System) {
    if presented then PumpEnds(s, thread) else PumpTo(s, thread, Failing(lease))
  }

  function PumpFails(s: System, thread: nat, lease: nat): (r: System) {
    PumpEnds(SpendReceipt(s, lease, Failed), thread)
  }

  function DoPump(s: System, thread: nat, reply: PortReply, presented: bool): (r: System)
    requires thread in s.pumps
    ensures r.shutdown == s.shutdown
    ensures r.signal.presenter == s.signal.presenter && r.signal.stopping == s.signal.stopping
            && r.worker == s.worker
  {
    match s.pumps[thread]
    case StopCheck => PumpChecksStop(s, thread)
    case CasInFlight => PumpRaisesFlag(s, thread)
    case Take => PumpTakes(s, thread, reply)
    case ClearUntaken => PumpClears(s, thread)
    case StopRecheck(lease) => PumpRechecksStop(s, thread, lease)
    case ReleaseLoad => PumpLoadsFlag(s, thread)
    case ReleasePort => PumpReleases(s, thread, reply)
    case ReleaseClear => PumpClears(s, thread)
    case Presenting(lease) => PumpPresents(s, thread, lease, presented)
    case Failing(lease) => PumpFails(s, thread, lease)
  }

  // ------------------------------------------------------------------
  // The receipt worker

  /** What follows `release_in_flight` for each goal. */
  function AfterRelease(goal: Goal, released: bool): WorkerPc {
    match goal
    case OnExit => Done
    case OnFailed(_) => if released then PresentWait else Waiting
    case _ => Waiting
  }

  function WorkerWaits(s: System): (r: System) {
    if s.signal.stopping then s.(worker := RelLoad(OnExit))
    else if s.signal.action.Some? then
      s.(signal := s.signal.(action := None),
         worker := if s.signal.action.value.action.Presented? then AckCheck(s.signal.action.value.lease)
                   else RelLoad(OnFailed(s.signal.action.value.lease)))
    else s
  }

  function WorkerChecksStop(s: System, lease: nat): (r: System) {
    if s.signal.stopping then s.(worker := RelLoad(OnStop(lease))) else s.(worker := Acking(lease))
  }

  function WorkerAcknowledges(s: System, lease: nat, reply: PortReply): (r: System) {
    match reply
    case RetryableError => s.(worker := AckRetry(lease))
    case PermanentError => AcknowledgeFails(s).(worker := RelLoad(OnAckError(lease)))
    case _ => Acknowledge(s).(worker := AckClear)
  }

  function WorkerRetriesAck(s: System, lease: nat, timedOut: bool): (r: System) {
    if s.signal.stopping then s.(worker := RelLoad(OnStop(lease)))
    else if timedOut then s.(worker := AckCheck(lease)) else s
  }

  function WorkerClears(s: System, next: WorkerPc): (r: System) {
    s.WithFlag(false).(worker := next)
  }

  function WorkerLoadsFlag(s: System, goal: Goal): (r: System) {
    if s.signal.inFlight then s.(worker := RelPort(goal)) else s.(worker := AfterRelease(goal, false))
  }

  function WorkerReleases(s: System, goal: Goal, reply: PortReply): (r: System) {
    if ReleaseSucceeds(s, reply) then Release(s).(worker := RelClear(goal))
    else if reply.RetryableError? && goal.Retries() then s.(worker := RelRetry(goal))
    else ReleaseFails(s, reply).(worker := AfterRelease(goal, false))
  }

  function WorkerRetriesRelease(s: System, goal: Goal, timedOut: bool): (r: System) {
    if s.signal.stopping then s.(worker := AfterRelease(goal, false))
    else if timedOut then s.(worker := RelLoad(goal)) else s
  }

  function WorkerWaitsToPresent(s: System, timedOut: bool): (r: System) {
    if s.signal.stopping || s.signal.action.Some? then s.(worker := Waiting)
    else if timedOut then s.(worker := PresenterCheck) else s
  }

  function WorkerFindsPresenter(s: System): (r: System) {
    if s.signal.presenter then PumpTo(s.(worker := Pumping), 0, StopCheck) else s.(worker := Waiting)
  }

  function WorkerPumps(s: System): (r: System) {
    if 0 in s.pumps then s else s.(worker := Waiting)
  }

  function DoWorker(s: System, reply: PortReply, timedOut: bool): (r: System)
    ensures r.shutdown == s.shutdown
    ensures r.signal.presenter == s.signal.presenter && r.signal.stopping == s.signal.stopping
    ensures s.worker.Done? ==> r == s
  {
    match s.worker
    case Waiting => WorkerWaits(s)
    case AckCheck(lease) => WorkerChecksStop(s, lease)
    case Acking(lease) => WorkerAcknowledges(s, lease, reply)
    case AckRetry(lease) => WorkerRetriesAck(s, lease, timedOut)
    case AckClear => WorkerClears(s, Waiting)
    case RelLoad(goal) => WorkerLoadsFlag(s, goal)
    case RelPort(goal) => WorkerReleases(s, goal, reply)
    case RelRetry(goal) => WorkerRetriesRelease(s, goal, timedOut)
    case RelClear(goal) => WorkerClears(s, AfterRelease(goal, true))
    case PresentWait => WorkerWaitsToPresent(s, timedOut)
    case PresenterCheck => WorkerFindsPresenter(s)
    case Pumping => WorkerPumps(s)
    case Done => s
  }

  // ------------------------------------------------------------------
  // Shutdown

  function DoShutdown(s: System, reply: PortReply): (r: System) {
    match s.shutdown
    case ShutIdle => s
    case ShutStop => s.(signal := s.signal.(stopping := true), shutdown := ShutJoin)
    case ShutJoin => if s.worker.Done? then s.(shutdown := ShutLoad) else s
    case ShutLoad => s.(shutdown := if s.signal.inFlight then ShutPort else ShutReturned(true))
    case ShutPort =>
      if ReleaseSucceeds(s, reply) then Release(s).(shutdown := ShutClear)
      else ReleaseFails(s, reply).(shutdown := ShutReturned(false))
    case ShutClear => s.WithFlag(false).(shutdown := ShutReturned(true))
    case ShutReturned(_) => s
  }

  function Step(s: System, e: Event): (r: System) {
    match e
    case PumpCall(t) =>
      if t != 0 && t !in s.pumps && s.signal.presenter then PumpTo(s, t, StopCheck) else s
    case PumpStep(t, reply, presented) => if t in s.pumps then DoPump(s, t, reply, presented) else s
    case ReceiptCall(lease, action) => SpendReceipt(s, lease, action)
    case SubmitAction(lease) => if lease in s.leases.submitting then DoSubmit(s, lease) else s
    case WorkerStep(reply, timedOut) => DoWorker(s, reply, timedOut)
    case ShutdownCall =>
      if s.shutdown.ShutIdle? || s.shutdown.ShutReturned?
      then s.(signal := s.signal.(presenter := false), shutdown := ShutStop) else s
    case ShutdownStep(reply) => DoShutdown(s, reply)
  }

  ghost predicate Linked(states: seq<System>, i: nat)
    requires i + 1 < |states|
  {
    exists e :: Step(states[i], e) == states[i + 1]
  }

  ghost predicate IsRun(states: seq<System>) {
    && states != [] && states[0] == Initial()
    && (forall i: nat :: i + 1 < |states| ==> Linked(states, i))
  }
}
