/** The event-coalescing bridge of crates/desktop/src/bridge.rs: publishers fill
    a one-slot mailbox or one of two terminal slots, a `scheduled` flag admits one
    event-loop task at a time, and the task drains the slots.  Every atomic
    access, slot access and scheduler call is one step of some thread. */
module SnapshotBridge {
  import opened Prelude

  datatype Phase = BridgeRunning | BridgeClosed | BridgeFaulted

  datatype ScheduleError = LoopUnavailable | LoopTerminated | LoopInternal

  datatype Outcome = Delivered | Ignored | WindowClosed | StateUnavailable

  /** Slot 0 is the snapshot mailbox; 1 and 2 are the navigation and history
      terminal slots. */
  const SNAPSHOT := 0
  const SLOTS := 3

  datatype Pc =
    | Gate(slot: nat, generation: nat)      // request_terminal, before its phase check
    | Store(slot: nat, generation: nat)     // before the slot is written
    | ReqPhase                              // request, before its phase check
    | ReqSwap
    | ReqSchedule
    | ReqFail(error: ScheduleError)
    | ReqReset
    | RunPhase                              // run_once, before its phase check
    | RunAbort
    | RunTake(slot: nat)
    | RunDeliver(slot: nat, generation: nat)
    | RunReset
    | RunRecheckPhase
    | RunRecheck(slot: nat, found: bool)
  {
    /** The thread is the one that may clear the scheduled flag. */
    predicate Owns() {
      || ReqSchedule? || ReqFail? || ReqReset? || RunPhase? || RunAbort?
      || RunTake? || RunDeliver? || RunReset?
    }

    /** The thread will still look at slot `i`, or see to it that a task does. */
    predicate Covers(i: nat) {
      || ReqPhase? || ReqSwap? || ReqSchedule? || RunPhase? || RunTake? || RunDeliver? || RunReset?
      || RunRecheckPhase? || (RunRecheck? && (found || slot <= i))
    }
  }

  datatype Handover = Handover(slot: nat, generation: nat, requested: seq<nat>)

  /** What the bridge is told: its owner drops it, a delivery answers, the event
      loop refuses a task. */
  datatype Report =
    | Dropped
    | Answered(slot: nat, generation: nat, outcome: Outcome)
    | NotScheduled(error: ScheduleError)

  /** What was put into each slot since it was last emptied, each hand-over and
      each report, in order. */
  datatype Log = Log(sinceTake: seq<seq<nat>>, handovers: seq<Handover>, reports: seq<Report>)

  datatype Bridge = Bridge(phase: Phase, scheduled: bool,
                           failed: bool,          // history: the last schedule call failed
                           tasks: nat,            // scheduled and not yet started
                           slots: seq<Option<nat>>,
                           threads: map<nat, Pc>,
                           log: Log)

  function Initial(): Bridge {
    Bridge(BridgeRunning, false, false, 0, [None, None, None], map[], Log([[], [], []], [], []))
  }

  datatype Event =
    | Publish(thread: nat, generation: nat)
    | RequestTerminal(thread: nat, slot: nat, generation: nat)
    | StartTask(thread: nat)
    | ThreadStep(thread: nat, scheduling: Option<ScheduleError>, outcome: Outcome)
    | DropBridge

  function Goes(b: Bridge, thread: nat, pc: Pc): (r: Bridge) {
    b.(threads := b.threads[thread := pc])
  }

  function Ends(b: Bridge, thread: nat): (r: Bridge) {
    b.(threads := b.threads - {thread})
  }

  function Note(b: Bridge, report: Report): (r: Bridge) {
    b.(log := b.log.(reports := b.log.reports + [report]))
  }

  predicate Running(b: Bridge) {
    b.phase.BridgeRunning?
  }

  /** The mailbox keeps the latest publication, a terminal slot the newest
      generation. */
  function Merge(slot: nat, current: Option<nat>, generation: nat): (r: Option<nat>) {
    if slot == SNAPSHOT || current.None? || generation > current.value then Some(generation) else current
  }

  function StoreStep(b: Bridge, thread: nat, slot: nat, generation: nat): (r: Bridge)
    requires slot < |b.slots| && slot < |b.log.sinceTake|
  {
    Goes(b.(slots := b.slots[slot := Merge(slot, b.slots[slot], generation)],
            log := b.log.(sinceTake := b.log.sinceTake[slot := b.log.sinceTake[slot] + [generation]])),
         thread, ReqPhase)
  }

  function SwapStep(b: Bridge, thread: nat): (r: Bridge) {
    if b.scheduled then Ends(b, thread) else Goes(b.(scheduled := true), thread, ReqSchedule)
  }

  function ScheduleStep(b: Bridge, thread: nat, scheduling: Option<ScheduleError>): (r: Bridge) {
    if scheduling.None? then Ends(b.(tasks := b.tasks + 1, failed := false), thread)
    else Goes(b.(failed := true), thread, ReqFail(scheduling.value))
  }

  function FailStep(b: Bridge, thread: nat, error: ScheduleError): (r: Bridge) {
    match error
    case LoopUnavailable => Goes(b, thread, ReqReset)
    case LoopTerminated => Goes(b.(phase := BridgeClosed), thread, ReqReset)
    case LoopInternal => Goes(b.(phase := BridgeFaulted), thread, ReqReset)
  }

  /** Empty one slot; a delivery follows if it held something. */
  function TakeStep(b: Bridge, thread: nat, slot: nat): (r: Bridge)
    requires slot < |b.slots| && slot < |b.log.sinceTake|
  {
    if b.slots[slot].None? then Goes(b, thread, AfterSlot(slot))
    else
      var generation := b.slots[slot].value;
      Goes(b.(slots := b.slots[slot := None],
              log := b.log.(sinceTake := b.log.sinceTake[slot := []],
                            handovers := b.log.handovers + [Handover(slot, generation, b.log.sinceTake[slot])])),
           thread, RunDeliver(slot, generation))
  }

  function AfterSlot(slot: nat): Pc {
    if slot + 1 < SLOTS then RunTake(slot + 1) else RunReset
  }

  function DeliverStep(b: Bridge, thread: nat, slot: nat, outcome: Outcome): (r: Bridge) {
    match outcome
    case WindowClosed => Goes(b.(phase := BridgeClosed), thread, AfterSlot(slot))
    case StateUnavailable => Goes(b.(phase := BridgeFaulted), thread, AfterSlot(slot))
    case _ => Goes(b, thread, AfterSlot(slot))
  }

  function RecheckStep(b: Bridge, thread: nat, slot: nat, found: bool): (r: Bridge)
    requires slot < |b.slots|
  {
    var seen := found || b.slots[slot].Some?;
    if slot + 1 < SLOTS then Goes(b, thread, RunRecheck(slot + 1, seen))
    else if seen then Goes(b, thread, ReqPhase)
    else Ends(b, thread)
  }

  /** One step of a thread.  `Shaped` gives every slot index a slot. */
  predicate Shaped(b: Bridge) {
    && |b.slots| == SLOTS && |b.log.sinceTake| == SLOTS
    && (forall t :: t in b.threads ==>
          match b.threads[t]
          case Gate(slot, _) => 0 < slot < SLOTS
          case Store(slot, _) => slot < SLOTS
          case RunTake(slot) => slot < SLOTS
          case RunDeliver(slot, _) => slot < SLOTS
          case RunRecheck(slot, _) => slot < SLOTS
          case _ => true)
  }

  function DoThread(b: Bridge, thread: nat, scheduling: Option<ScheduleError>, outcome: Outcome): (r: Bridge)
    requires thread in b.threads && Shaped(b)
  {
    match b.threads[thread]
    case Gate(slot, generation) =>
      if Running(b) then Goes(b, thread, Store(slot, generation)) else Ends(b, thread)
    case Store(slot, generation) => StoreStep(b, thread, slot, generation)
    case ReqPhase => if Running(b) then Goes(b, thread, ReqSwap) else Ends(b, thread)
    case ReqSwap => SwapStep(b, thread)
    case ReqSchedule => ScheduleStep(b, thread, scheduling)
    case ReqFail(error) => FailStep(Note(b, NotScheduled(error)), thread, error)
    case ReqReset => Ends(b.(scheduled := false), thread)
    case RunPhase => if Running(b) then Goes(b, thread, RunTake(0)) else Goes(b, thread, RunAbort)
    case RunAbort => Ends(b.(scheduled := false), thread)
    case RunTake(slot) => TakeStep(b, thread, slot)
    case RunDeliver(slot, generation) =>
      DeliverStep(Note(b, Answered(slot, generation, outcome)), thread, slot, outcome)
    case RunReset => Goes(b.(scheduled := false), thread, RunRecheckPhase)
    case RunRecheckPhase => if Running(b) then Goes(b, thread, RunRecheck(0, false)) else Ends(b, thread)
    case RunRecheck(slot, found) => RecheckStep(b, thread, slot, found)
  }

  function Step(b: Bridge, e: Event): (r: Bridge)
    requires Shaped(b)
  {
    match e
    case Publish(t, generation) =>
      if t !in b.threads then Goes(b, t, Store(SNAPSHOT, generation)) else b
    case RequestTerminal(t, slot, generation) =>
      if t !in b.threads && 0 < slot < SLOTS then Goes(b, t, Gate(slot, generation)) else b
    case StartTask(t) =>
      if t !in b.threads && b.tasks > 0 then Goes(b.(tasks := b.tasks - 1), t, RunPhase) else b
    case ThreadStep(t, scheduling, outcome) => if t in b.threads then DoThread(b, t, scheduling, outcome) else b
    case DropBridge => Note(b, Dropped).(phase := BridgeClosed)
  }

  ghost predicate Linked(states: seq<Bridge>, i: nat)
    requires i + 1 < |states|
  {
    Shaped(states[i]) && exists e :: Step(states[i], e) == states[i + 1]
  }

  ghost predicate IsRun(states: seq<Bridge>) {
    && states != [] && states[0] == Initial()
    && (forall i: nat :: i + 1 < |states| ==> Linked(states, i))
  }
}
