/** ApplicationSessionActivationBridge of crates/app/src/application.rs: a
    `pending` flag collects activation requests, a `scheduled` flag admits one
    event-loop task, and six checked counters account for every request.  Threads
    are anonymous: the state holds how many are at each program point. */
module ActivationBridge {
  import opened Prelude

  datatype Admission = Accepted | Refused | Panicked

  datatype ScheduleReply = Scheduled | LoopUnavailable | LoopTerminated

  datatype Pc =
    | ReqClosed                        // request
    | ReqReceived
    | ReqPending
    | ReqCoalesced
    | SchClosed                        // schedule_pending
    | SchDrop
    | SchPending
    | SchSwap
    | SchCall
    | SchFailCount(terminated: bool)
    | SchFailReset(terminated: bool)
    | SchClose
    | SchClosePending
    | RunClosed                        // run_scheduled
    | RunDropPending
    | RunDropScheduled
    | RunTake
    | RunDeliver
    | RunCount(admission: Admission)
    | RunReset
    | RunPending
    | RunRecheckClosed
    | CloseFlag                        // close
    | ClosePending

  /** The six counters of the bridge. */
  datatype Counter = Received | Coalesced | Delivered | Rejected | LostToPanic | Failures

  datatype Counters = Counters(received: nat, coalesced: nat, delivered: nat, rejected: nat,
                               panicked: nat, failures: nat)
  {
    function At(k: Counter): nat {
      match k
      case Received => received
      case Coalesced => coalesced
      case Delivered => delivered
      case Rejected => rejected
      case LostToPanic => panicked
      case Failures => failures
    }

    function Plus(k: Counter): Counters {
      match k
      case Received => this.(received := received + 1)
      case Coalesced => this.(coalesced := coalesced + 1)
      case Delivered => this.(delivered := delivered + 1)
      case Rejected => this.(rejected := rejected + 1)
      case LostToPanic => this.(panicked := panicked + 1)
      case Failures => this.(failures := failures + 1)
    }
  }

  const NOTHING := Counters(0, 0, 0, 0, 0, 0)

  /** Why the bridge may be closed: it was asked to, or the event loop was gone. */
  datatype Stops = Stops(asked: bool, loopGone: bool)

  /** What happened: the events each counter is there to count, whether the last
      schedule call failed, and what may have closed the bridge. */
  datatype History = History(tally: Counters, failed: bool, stops: Stops)

  datatype Bridge = Bridge(pending: bool, scheduled: bool, closed: bool, overflowed: bool,
                           counters: Counters,
                           history: History,
                           tasks: nat,                 // scheduled and not yet started
                           threads: multiset<Pc>)

  function Initial(): Bridge {
    Bridge(false, false, false, false, NOTHING, History(NOTHING, false, Stops(false, false)), 0, multiset{})
  }

  datatype Event =
    | Request
    | Flush
    | Close
    | StartTask
    | ThreadStep(pc: Pc, reply: ScheduleReply, admission: Admission)

  /** A counter that would pass the 64-bit range stays and raises the flag. */
  function CountUp(b: Bridge, k: Counter): (r: Bridge) {
    if b.counters.At(k) + 1 >= U64_LIMIT then b.(overflowed := true)
    else b.(counters := b.counters.Plus(k))
  }

  /** The event happens; its counter follows at the thread's next step. */
  function Note(b: Bridge, k: Counter): (r: Bridge) {
    b.(history := b.history.(tally := b.history.tally.Plus(k)))
  }

  function NoteFailure(b: Bridge, reply: ScheduleReply): (r: Bridge) {
    var stops := if reply == LoopTerminated then b.history.stops.(loopGone := true) else b.history.stops;
    b.(history := History(b.history.tally.Plus(Failures), true, stops))
  }

  function NoteClose(b: Bridge): (r: Bridge) {
    b.(history := b.history.(stops := b.history.stops.(asked := true)))
  }

  /** The delivery answered, or panicked. */
  function NoteAdmission(b: Bridge, admission: Admission): (r: Bridge) {
    var tally := b.history.tally;
    b.(history := b.history.(tally := if admission == Accepted then tally.(delivered := tally.delivered + 1)
                                      else if admission == Refused then tally.(rejected := tally.rejected + 1)
                                      else tally.(panicked := tally.panicked + 1)))
  }

  function NoteSuccess(b: Bridge): (r: Bridge) {
    b.(tasks := b.tasks + 1, history := b.history.(failed := false))
  }

  function CounterOf(admission: Admission): Counter {
    match admission
    case Accepted => Delivered
    case Refused => Rejected
    case Panicked => LostToPanic
  }

  function Goes(b: Bridge, from: Pc, to: Pc): (r: Bridge) {
    b.(threads := b.threads - multiset{from} + multiset{to})
  }

  function Ends(b: Bridge, from: Pc): (r: Bridge) {
    b.(threads := b.threads - multiset{from})
  }

  function RequestStep(b: Bridge, pc: Pc): (r: Bridge)
    requires pc.ReqClosed? || pc.ReqReceived? || pc.ReqPending? || pc.ReqCoalesced?
  {
    match pc
    case ReqClosed => if b.closed then Ends(b, pc) else Goes(Note(b, Received), pc, ReqReceived)
    case ReqReceived => Goes(CountUp(b, Received), pc, ReqPending)
    case ReqPending =>
      if b.pending then Goes(Note(b, Coalesced), pc, ReqCoalesced) else Goes(b.(pending := true), pc, SchClosed)
    case ReqCoalesced => Goes(CountUp(b, Coalesced), pc, SchClosed)
  }

  function ScheduleStep(b: Bridge, pc: Pc, reply: ScheduleReply): (r: Bridge)
    requires pc.SchClosed? || pc.SchDrop? || pc.SchPending? || pc.SchSwap? || pc.SchCall?
  {
    match pc
    case SchClosed => if b.closed then Goes(b, pc, SchDrop) else Goes(b, pc, SchPending)
    case SchDrop => Ends(b.(pending := false), pc)
    case SchPending => if b.pending then Goes(b, pc, SchSwap) else Ends(b, pc)
    case SchSwap => if b.scheduled then Ends(b, pc) else Goes(b.(scheduled := true), pc, SchCall)
    case SchCall =>
      if reply.Scheduled? then Ends(NoteSuccess(b), pc)
      else Goes(NoteFailure(b, reply), pc, SchFailCount(reply.LoopTerminated?))
  }

  function FailureStep(b: Bridge, pc: Pc): (r: Bridge)
    requires pc.SchFailCount? || pc.SchFailReset? || pc.SchClose? || pc.SchClosePending?
          || pc.CloseFlag? || pc.ClosePending?
  {
    match pc
    case SchFailCount(terminated) => Goes(CountUp(b, Failures), pc, SchFailReset(terminated))
    case SchFailReset(terminated) =>
      if terminated then Goes(b.(scheduled := false), pc, SchClose) else Ends(b.(scheduled := false), pc)
    case SchClose => Goes(b.(closed := true), pc, SchClosePending)
    case SchClosePending => Ends(b.(pending := false), pc)
    case CloseFlag => Goes(NoteClose(b).(closed := true), pc, ClosePending)
    case ClosePending => Ends(b.(pending := false), pc)
  }

  function RunStep(b: Bridge, pc: Pc, admission: Admission): (r: Bridge)
    requires pc.RunClosed? || pc.RunDropPending? || pc.RunDropScheduled? || pc.RunTake? || pc.RunDeliver?
          || pc.RunCount? || pc.RunReset? || pc.RunPending? || pc.RunRecheckClosed?
  {
    match pc
    case RunClosed => if b.closed then Goes(b, pc, RunDropPending) else Goes(b, pc, RunTake)
    case RunDropPending => Goes(b.(pending := false), pc, RunDropScheduled)
    case RunDropScheduled => Ends(b.(scheduled := false), pc)
    case RunTake => if b.pending then Goes(b.(pending := false), pc, RunDeliver) else Goes(b, pc, RunReset)
    case RunDeliver => Goes(NoteAdmission(b, admission), pc, RunCount(admission))
    case RunCount(counted) => Goes(CountUp(b, CounterOf(counted)), pc, RunReset)
    case RunReset => Goes(b.(scheduled := false), pc, RunPending)
    case RunPending => if b.pending then Goes(b, pc, RunRecheckClosed) else Ends(b, pc)
    case RunRecheckClosed => if b.closed then Ends(b, pc) else Goes(b, pc, SchClosed)
  }

  function DoThread(b: Bridge, pc: Pc, reply: ScheduleReply, admission: Admission): (r: Bridge) {
    if pc.ReqClosed? || pc.ReqReceived? || pc.ReqPending? || pc.ReqCoalesced? then RequestStep(b, pc)
    else if pc.SchClosed? || pc.SchDrop? || pc.SchPending? || pc.SchSwap? || pc.SchCall?
    then ScheduleStep(b, pc, reply)
    else if pc.SchFailCount? || pc.SchFailReset? || pc.SchClose? || pc.SchClosePending? || pc.CloseFlag?
            || pc.ClosePending?
    then FailureStep(b, pc)
    else RunStep(b, pc, admission)
  }

  function Step(b: Bridge, e: Event): (r: Bridge) {
    match e
    case Request => b.(threads := b.threads + multiset{ReqClosed})
    case Flush => b.(threads := b.threads + multiset{SchClosed})
    case Close => b.(threads := b.threads + multiset{CloseFlag})
    case StartTask =>
      if b.tasks > 0 then b.(tasks := b.tasks - 1, threads := b.threads + multiset{RunClosed}) else b
    case ThreadStep(pc, reply, admission) =>
      if pc in b.threads then DoThread(b, pc, reply, admission) else b
  }

  ghost predicate Linked(states: seq<Bridge>, i: nat)
    requires i + 1 < |states|
  {
    exists e :: Step(states[i], e) == states[i + 1]
  }

  ghost predicate IsRun(states: seq<Bridge>) {
    && states != [] && states[0] == Initial()
    && (forall i: nat :: i + 1 < |states| ==> Linked(states, i))
  }
}
