/** NotificationBridgeInner of crates/desktop/src/in_app_notification.rs: a call of
    `present` may put one task on the event loop, which shows the batch and calls
    its receipt.  Each call of `present` and the task it schedules is one thread,
    named by the receipt it carries. */
module Presenter {
  import opened Prelude

  datatype Outcome = Presented | Stale | WindowClosed | WindowNotVisible | StateUnavailable

  /** Which outcomes close the bridge. */
  predicate Closes(o: Outcome) {
    o.WindowClosed? || o.WindowNotVisible? || o.StateUnavailable?
  }

  datatype ScheduleReply = Scheduled | LoopUnavailable | LoopTerminated | LoopInternal

  /** What `present` answers when it refuses a batch. */
  datatype Refusal = NotRunning | AlreadyScheduled | LoopRefused

  datatype Pc =
    | Asking                         // present
    | Swapping
    | Scheduling
    | Unscheduling(closes: bool)
    | Closing
    | Refused(why: Refusal)
    | Queued                         // run
    | Delivering
    | Failing
    | Clearing(presented: bool)
    | Calling(presented: bool)
    | Called(presented: bool)

  datatype Delivery = Delivery(receipt: nat, outcome: Outcome)

  datatype Call = Call(receipt: nat, presented: bool)

  datatype Shared = Shared(closed: bool, scheduled: bool, owner: Option<nat>)

  /** Why the bridge may be closed other than by a delivery: from outside, or by
      a schedule call that found the event loop gone. */
  datatype Stops = Stops(outside: bool, loopGone: bool)

  datatype History = History(accepted: set<nat>, deliveries: seq<Delivery>, calls: seq<Call>, stops: Stops)

  /** `owner` and `history` record who raised the flag and what happened. */
  datatype Bridge = Bridge(shared: Shared, threads: map<nat, Pc>, history: History)

  function Initial(): Bridge {
    Bridge(Shared(false, false, None), map[], History({}, [], [], Stops(false, false)))
  }

  datatype Event =
    | Present(receipt: nat)
    | CloseBridge
    | Thread(receipt: nat, reply: ScheduleReply, outcome: Outcome)

  function Goes(b: Bridge, t: nat, pc: Pc): Bridge {
    b.(threads := b.threads[t := pc])
  }

  function Ask(b: Bridge, t: nat): Bridge {
    Goes(b, t, if b.shared.closed then Refused(NotRunning) else Swapping)
  }

  function Swap(b: Bridge, t: nat): Bridge {
    if b.shared.scheduled then Goes(b, t, Refused(AlreadyScheduled))
    else Goes(b.(shared := b.shared.(scheduled := true, owner := Some(t))), t, Scheduling)
  }

  function Schedule(b: Bridge, t: nat, reply: ScheduleReply): Bridge {
    if reply.Scheduled? then Goes(b.(history := b.history.(accepted := b.history.accepted + {t})), t, Queued)
    else Goes(b, t, Unscheduling(!reply.LoopUnavailable?))
  }

  function Lower(b: Bridge): Bridge {
    b.(shared := b.shared.(scheduled := false, owner := None))
  }

  function Shut(b: Bridge): Bridge {
    b.(shared := b.shared.(closed := true))
  }

  function NoteStop(b: Bridge, stops: Stops): Bridge {
    b.(history := b.history.(stops := stops))
  }

  function Start(b: Bridge, t: nat): Bridge {
    Goes(b, t, if b.shared.closed then Clearing(false) else Delivering)
  }

  function Deliver(b: Bridge, t: nat, outcome: Outcome): Bridge {
    var done := b.(history := b.history.(deliveries := b.history.deliveries + [Delivery(t, outcome)]));
    Goes(done, t, if Closes(outcome) then Failing else Clearing(outcome.Presented?))
  }

  function CallReceipt(b: Bridge, t: nat, presented: bool): Bridge {
    Goes(b.(history := b.history.(calls := b.history.calls + [Call(t, presented)])), t, Called(presented))
  }

  function DoThread(b: Bridge, t: nat, reply: ScheduleReply, outcome: Outcome): Bridge
    requires t in b.threads
  {
    match b.threads[t]
    case Asking => Ask(b, t)
    case Swapping => Swap(b, t)
    case Scheduling => Schedule(b, t, reply)
    case Unscheduling(closes) => Goes(Lower(b), t, if closes then Closing else Refused(LoopRefused))
    case Closing => Goes(NoteStop(Shut(b), b.history.stops.(loopGone := true)), t, Refused(LoopRefused))
    case Refused(_) => b
    case Queued => Start(b, t)
    case Delivering => Deliver(b, t, outcome)
    case Failing => Goes(Shut(b), t, Clearing(false))
    case Clearing(presented) => Goes(Lower(b), t, Calling(presented))
    case Calling(presented) => CallReceipt(b, t, presented)
    case Called(_) => b
  }

  function Step(b: Bridge, e: Event): Bridge {
    match e
    case Present(t) => if t in b.threads then b else Goes(b, t, Asking)
    case CloseBridge => NoteStop(Shut(b), b.history.stops.(outside := true))
    case Thread(t, reply, outcome) => if t in b.threads then DoThread(b, t, reply, outcome) else b
  }

  ghost predicate Linked(states: seq<Bridge>, i: nat)
    requires i + 1 < |states|
  {
    exists e :: Step(states[i], e) == states[i + 1]
  }

  ghost predicate IsRun(states: seq<Bridge>) {
    && states != [] && states[0] == Initial()
    && (forall i: nat :: i + 1 < |states| ==> Linked(states, i))
  }

  // ------------------------------------------------------------------
  // The invariant

  /** Points at which a thread may still lower the flag. */
  predicate Owns(pc: Pc) {
    pc.Scheduling? || pc.Unscheduling? || pc.Queued? || pc.Delivering? || pc.Failing? || pc.Clearing?
  }

  predicate IsAccepted(pc: Pc) {
    pc.Queued? || pc.Delivering? || pc.Failing? || pc.Clearing? || pc.Calling? || pc.Called?
  }

  predicate Shows(pc: Pc) {
    pc == Clearing(true) || pc == Calling(true) || pc == Called(true)
  }

  function Times(calls: seq<Call>, t: nat): nat {
    if calls == [] then 0
    else Times(calls[..|calls| - 1], t) + if calls[|calls| - 1].receipt == t then 1 else 0
  }

  ghost predicate OwnerInv(b: Bridge) {
    && b.shared.scheduled == b.shared.owner.Some?
    && (b.shared.owner.Some? ==> b.shared.owner.value in b.threads)
    && (forall t :: t in b.threads ==> (Owns(b.threads[t]) <==> b.shared.owner == Some(t)))
  }

  ghost predicate AcceptedInv(b: Bridge) {
    forall t :: t in b.history.accepted <==> t in b.threads && IsAccepted(b.threads[t])
  }

  ghost predicate ReceiptInv(b: Bridge) {
    && (forall t :: Times(b.history.calls, t) == if t in b.threads && b.threads[t].Called? then 1 else 0)
    && (forall i :: 0 <= i < |b.history.calls| ==>
          var c := b.history.calls[i]; c.receipt in b.threads && b.threads[c.receipt] == Called(c.presented))
  }

  /** Only the last delivery can be a closing one; after it the bridge is closed,
      or its thread is about to close it. */
  ghost predicate ClosingInv(b: Bridge) {
    var d := b.history.deliveries;
    && (forall i :: 0 <= i < |d| - 1 ==> !Closes(d[i].outcome))
    && (d != [] && Closes(d[|d| - 1].outcome) ==>
          || (b.shared.closed && forall t :: t in b.threads ==> !b.threads[t].Delivering? && !b.threads[t].Failing?)
          || (b.shared.owner.Some? && b.shared.owner.value in b.threads
              && b.threads[b.shared.owner.value].Failing?))
    && (forall t :: t in b.threads && b.threads[t].Failing? ==> d != [] && Closes(d[|d| - 1].outcome))
  }

  /** A closing delivery was made and its thread has closed the bridge. */
  ghost predicate ClosedByDelivery(b: Bridge) {
    var d := b.history.deliveries;
    d != [] && Closes(d[|d| - 1].outcome) && forall t :: t in b.threads ==> !b.threads[t].Failing?
  }

  /** The bridge was closed from outside, found the event loop gone, or made a
      closing delivery. */
  ghost predicate Ended(b: Bridge) {
    b.history.stops.outside || b.history.stops.loopGone || ClosedByDelivery(b)
  }

  ghost predicate ClosedInv(b: Bridge) {
    b.shared.closed <==> Ended(b)
  }

  ghost predicate ShownInv(b: Bridge) {
    forall t: nat :: Delivery(t, Presented) in b.history.deliveries <==> t in b.threads && Shows(b.threads[t])
  }

  lemma StepKeepsOwner(b: Bridge, e: Event)
    requires OwnerInv(b)
    ensures OwnerInv(Step(b, e))
  {
  }

  lemma TimesGrow(calls: seq<Call>, c: Call, t: nat)
    ensures Times(calls + [c], t) == Times(calls, t) + if c.receipt == t then 1 else 0
  {
    assert (calls + [c])[..|calls|] == calls;
  }

  lemma StepKeepsAccepted(b: Bridge, e: Event)
    requires AcceptedInv(b)
    ensures AcceptedInv(Step(b, e))
  {
  }

  lemma CallKeepsReceipts(b: Bridge, t: nat, presented: bool)
    requires ReceiptInv(b) && t in b.threads && b.threads[t] == Calling(presented)
    ensures ReceiptInv(CallReceipt(b, t, presented))
  {
    hide Times;
    forall u { TimesGrow(b.history.calls, Call(t, presented), u); }
  }

  lemma StepKeepsReceipts(b: Bridge, e: Event)
    requires ReceiptInv(b)
    ensures ReceiptInv(Step(b, e))
  {
    hide Times;
    if e.Thread? && e.receipt in b.threads && b.threads[e.receipt].Calling? {
      hide ReceiptInv, CallReceipt;
      CallKeepsReceipts(b, e.receipt, b.threads[e.receipt].presented);
    }
  }

  lemma StepKeepsClosing(b: Bridge, e: Event)
    requires OwnerInv(b) && ClosingInv(b)
    ensures ClosingInv(Step(b, e))
  {
  }

  /** Steps of a thread that do not deliver, and new calls, leave the failing
      threads alone. */
  lemma QuietStepKeepsClosed(b: Bridge, r: Bridge, t: nat)
    requires ClosedInv(b) && r.history.deliveries == b.history.deliveries
    requires r.shared.closed == b.shared.closed && r.history.stops == b.history.stops
    requires (t in b.threads ==> !b.threads[t].Failing?) && t in r.threads && !r.threads[t].Failing?
    requires forall u :: u != t ==> (u in r.threads <==> u in b.threads)
    requires forall u :: u != t && u in b.threads ==> r.threads[u] == b.threads[u]
    ensures ClosedInv(r)
  {
    assert ClosedByDelivery(r) <==> ClosedByDelivery(b);
  }

  lemma DeliverKeepsClosed(b: Bridge, t: nat, outcome: Outcome)
    requires OwnerInv(b) && ClosingInv(b) && ClosedInv(b) && t in b.threads && b.threads[t].Delivering?
    ensures ClosedInv(Deliver(b, t, outcome))
  {
    assert Owns(b.threads[t]);
    assert !ClosedByDelivery(b);
    var r := Deliver(b, t, outcome);
    assert Closes(outcome) ==> r.threads[t].Failing?;
    assert !ClosedByDelivery(r);
  }

  lemma FailKeepsClosed(b: Bridge, t: nat)
    requires OwnerInv(b) && ClosingInv(b) && t in b.threads && b.threads[t].Failing?
    ensures ClosedInv(Goes(Shut(b), t, Clearing(false)))
  {
    assert Owns(b.threads[t]);
    assert forall u :: u in b.threads && Owns(b.threads[u]) ==> u == t;
    assert ClosedByDelivery(Goes(Shut(b), t, Clearing(false)));
  }

  lemma StepKeepsClosed(b: Bridge, e: Event)
    requires OwnerInv(b) && ClosingInv(b) && ClosedInv(b)
    ensures ClosedInv(Step(b, e))
  {
    match e
    case Present(t) => if t !in b.threads { QuietStepKeepsClosed(b, Step(b, e), t); }
    case CloseBridge =>
    case Thread(t, reply, outcome) =>
      if t in b.threads {
        match b.threads[t]
        case Delivering => DeliverKeepsClosed(b, t, outcome);
        case Failing => FailKeepsClosed(b, t);
        case Closing =>
        case Asking => QuietStepKeepsClosed(b, Step(b, e), t);
        case Swapping => QuietStepKeepsClosed(b, Step(b, e), t);
        case Scheduling => QuietStepKeepsClosed(b, Step(b, e), t);
        case Unscheduling(_) => QuietStepKeepsClosed(b, Step(b, e), t);
        case Queued => QuietStepKeepsClosed(b, Step(b, e), t);
        case Clearing(_) => QuietStepKeepsClosed(b, Step(b, e), t);
        case Calling(_) => QuietStepKeepsClosed(b, Step(b, e), t);
        case Refused(_) =>
        case Called(_) =>
      }
  }

  lemma StepKeepsShown(b: Bridge, e: Event)
    requires ShownInv(b)
    ensures ShownInv(Step(b, e))
  {
  }

  ghost predicate Inv(b: Bridge) {
    OwnerInv(b) && AcceptedInv(b) && ReceiptInv(b) && ClosingInv(b) && ClosedInv(b) && ShownInv(b)
  }

  lemma StepKeepsInv(b: Bridge, e: Event)
    requires Inv(b)
    ensures Inv(Step(b, e))
  {
    hide Step, OwnerInv, AcceptedInv, ReceiptInv, ClosingInv, ClosedInv, ShownInv;
    StepKeepsOwner(b, e);
    StepKeepsAccepted(b, e);
    StepKeepsReceipts(b, e);
    StepKeepsClosing(b, e);
    StepKeepsClosed(b, e);
    StepKeepsShown(b, e);
  }

  lemma InitialInv(b: Bridge)
    requires b == Initial()
    ensures Inv(b)
  {
  }

  lemma {:induction false} RunKeepsInv(states: seq<Bridge>, k: nat)
    requires IsRun(states) && k < |states|
    ensures Inv(states[k])
  {
    hide Step, Inv, Initial;
    if k == 0 {
      InitialInv(states[0]);
    } else {
      RunKeepsInv(states, k - 1);
      assert Linked(states, k - 1);
      var e :| Step(states[k - 1], e) == states[k];
      StepKeepsInv(states[k - 1], e);
    }
  }

  // ------------------------------------------------------------------
  // The promises

  /** At most one task or call at a time may lower the flag. */
  lemma OneTaskAtATime(states: seq<Bridge>, k: nat, t: nat, u: nat)
    requires IsRun(states) && k < |states| && t in states[k].threads && u in states[k].threads
    requires Owns(states[k].threads[t]) && Owns(states[k].threads[u])
    ensures t == u && states[k].shared.scheduled
  {
    RunKeepsInv(states, k);
  }

  /** No receipt is called twice; once its thread is at rest it was called
      exactly if `present` had accepted it. */
  lemma ReceiptsAreCalledOnce(states: seq<Bridge>, k: nat, t: nat)
    requires IsRun(states) && k < |states|
    ensures Times(states[k].history.calls, t) <= 1
    ensures t in states[k].threads && (states[k].threads[t].Refused? || states[k].threads[t].Called?) ==>
              (t in states[k].history.accepted <==> Times(states[k].history.calls, t) == 1)
  {
    hide Times;
    RunKeepsInv(states, k);
  }

  /** A receipt is told `presented` exactly if its batch was shown. */
  lemma PresentedMeansShown(states: seq<Bridge>, k: nat, i: nat)
    requires IsRun(states) && k < |states| && i < |states[k].history.calls|
    ensures states[k].history.calls[i].presented <==>
            Delivery(states[k].history.calls[i].receipt, Presented) in states[k].history.deliveries
  {
    hide Times;
    RunKeepsInv(states, k);
  }

  /** Once a delivery closed the bridge nothing is ever delivered again. */
  lemma ClosingDeliveryIsLast(states: seq<Bridge>, k: nat, i: nat, j: nat)
    requires IsRun(states) && k < |states| && i < j < |states[k].history.deliveries|
    ensures !Closes(states[k].history.deliveries[i].outcome)
  {
    RunKeepsInv(states, k);
  }

  /** The last delivery found no window, a hidden one or no state to show the
      batch in, and its thread has acted on it. */
  ghost predicate LastDeliveryFailed(b: Bridge) {
    var d := b.history.deliveries;
    && d != [] && d[|d| - 1].outcome in {WindowClosed, WindowNotVisible, StateUnavailable}
    && forall t :: t in b.threads ==> !b.threads[t].Failing?
  }

  /** In every state of every run, a call of `present` is refused at its first
      step exactly if the bridge was closed from outside, found the event loop
      gone, or made a closing delivery; a shown or stale batch never closes it. */
  lemma RefusedExactlyWhenClosed(states: seq<Bridge>, k: nat, t: nat, reply: ScheduleReply, outcome: Outcome)
    requires IsRun(states) && k < |states| && t in states[k].threads && states[k].threads[t].Asking?
    ensures var b := states[k];
            Step(b, Thread(t, reply, outcome)).threads[t] == Refused(NotRunning) <==>
            b.history.stops.outside || b.history.stops.loopGone || LastDeliveryFailed(b)
  {
    RunKeepsInv(states, k);
  }

  lemma {:induction false} ClosedStays(states: seq<Bridge>, j: nat, k: nat)
    requires IsRun(states) && j <= k < |states| && states[j].shared.closed
    ensures states[k].shared.closed
    decreases k
  {
    if j < k {
      ClosedStays(states, j, k - 1);
      assert Linked(states, k - 1);
      var e :| Step(states[k - 1], e) == states[k];
    }
  }

  /** After a delivery to a hidden window the bridge stays closed, and every
      later call of `present` is refused at its first step. */
  lemma HiddenWindowEndsPresentation(states: seq<Bridge>, j: nat, k: nat, i: nat, t: nat, reply: ScheduleReply,
                                     outcome: Outcome)
    requires IsRun(states) && j <= k < |states| && i < |states[j].history.deliveries|
    requires states[j].history.deliveries[i].outcome == WindowNotVisible
    requires forall u :: u in states[j].threads ==> !states[j].threads[u].Failing?
    requires t in states[k].threads && states[k].threads[t].Asking?
    ensures states[k].shared.closed && Step(states[k], Thread(t, reply, outcome)).threads[t] == Refused(NotRunning)
  {
    RunKeepsInv(states, j);
    assert i == |states[j].history.deliveries| - 1;
    ClosedStays(states, j, k);
  }

  function Twice(b: Bridge, e: Event): Bridge {
    Step(Step(b, e), e)
  }

  /** A schedule call that fails lowers the flag, and closes the bridge unless
      the event loop was only unavailable. */
  lemma FailedScheduleCloses(b: Bridge, t: nat, reply: ScheduleReply, outcome: Outcome)
    requires !b.shared.closed && t in b.threads && b.threads[t].Scheduling? && !reply.Scheduled?
    ensures var r := Step(Twice(b, Thread(t, reply, outcome)), Thread(t, reply, outcome));
            && r.threads[t] == Refused(LoopRefused) && !r.shared.scheduled
            && r.history == b.history.(stops := r.history.stops)
            && (r.shared.closed <==> !reply.LoopUnavailable?)
  {
  }

  // ------------------------------------------------------------------
  // What decides a call

  /** Another task or call may still lower the flag. */
  ghost predicate OtherOwns(b: Bridge, t: nat) {
    exists u :: u in b.threads && u != t && Owns(b.threads[u])
  }

  /** The event refuses the call `t`: the bridge has ended, the flag belongs to
      somebody else, or the event loop does not take the task. */
  ghost predicate Refuses(b: Bridge, e: Event, t: nat, why: Refusal) {
    && e.Thread? && e.receipt == t && t in b.threads
    && match b.threads[t]
       case Asking => Ended(b) && why == NotRunning
       case Swapping => OtherOwns(b, t) && why == AlreadyScheduled
       case Scheduling => !e.reply.Scheduled? && why == LoopRefused
       case _ => false
  }

  predicate Accepts(b: Bridge, e: Event, t: nat) {
    e.Thread? && e.receipt == t && t in b.threads && b.threads[t].Scheduling? && e.reply.Scheduled?
  }

  ghost predicate RefusedAt(states: seq<Bridge>, i: nat, t: nat, why: Refusal)
    requires i + 1 < |states|
  {
    exists e :: Step(states[i], e) == states[i + 1] && Refuses(states[i], e, t, why)
  }

  ghost predicate AcceptedAt(states: seq<Bridge>, i: nat, t: nat)
    requires i + 1 < |states|
  {
    exists e :: Step(states[i], e) == states[i + 1] && Accepts(states[i], e, t)
  }

  ghost predicate DecidedAt(states: seq<Bridge>, i: nat, t: nat)
    requires i + 1 < |states|
  {
    (exists why :: RefusedAt(states, i, t, why)) || AcceptedAt(states, i, t)
  }

  /** Points that only a call refused for this reason reaches. */
  predicate TurnedAway(b: Bridge, t: nat, why: Refusal) {
    && t in b.threads
    && (b.threads[t] == Refused(why)
        || ((b.threads[t].Unscheduling? || b.threads[t].Closing?) && why == LoopRefused))
  }

  predicate TakenOn(b: Bridge, t: nat) {
    t in b.threads && IsAccepted(b.threads[t])
  }

  lemma StepRefuses(b: Bridge, e: Event, t: nat, why: Refusal)
    requires OwnerInv(b) && ClosedInv(b)
    ensures TurnedAway(Step(b, e), t, why) <==> TurnedAway(b, t, why) || Refuses(b, e, t, why)
  {
    hide ClosedByDelivery;
  }

  lemma StepAccepts(b: Bridge, e: Event, t: nat)
    ensures TakenOn(Step(b, e), t) <==> TakenOn(b, t) || Accepts(b, e, t)
  {
  }

  lemma RefusesUndecided(b: Bridge, e: Event, t: nat, why: Refusal)
    requires Refuses(b, e, t, why)
    ensures !TakenOn(b, t) && forall other :: !TurnedAway(b, t, other)
  {
  }

  lemma StepIsDecided(states: seq<Bridge>, i: nat, t: nat, why: Refusal)
    requires IsRun(states) && i + 1 < |states|
    ensures TurnedAway(states[i + 1], t, why) <==> TurnedAway(states[i], t, why) || RefusedAt(states, i, t, why)
    ensures TakenOn(states[i + 1], t) <==> TakenOn(states[i], t) || AcceptedAt(states, i, t)
    ensures DecidedAt(states, i, t) ==> !TurnedAway(states[i], t, why) && !TakenOn(states[i], t)
  {
    RunKeepsInv(states, i);
    assert Linked(states, i);
    hide Step, OwnerInv, ClosedInv, ReceiptInv, ClosingInv, AcceptedInv, ShownInv, Refuses;
    forall e | Step(states[i], e) == states[i + 1]
      ensures TurnedAway(states[i + 1], t, why) <==> TurnedAway(states[i], t, why) || Refuses(states[i], e, t, why)
      ensures TakenOn(states[i + 1], t) <==> TakenOn(states[i], t) || Accepts(states[i], e, t)
    {
      StepRefuses(states[i], e, t, why);
      StepAccepts(states[i], e, t);
    }
    forall e, other | Refuses(states[i], e, t, other)
      ensures !TurnedAway(states[i], t, why) && !TakenOn(states[i], t)
    {
      RefusesUndecided(states[i], e, t, other);
    }
  }

  lemma {:induction false} RunDecides(states: seq<Bridge>, k: nat, t: nat, why: Refusal)
    requires IsRun(states) && k < |states|
    ensures TurnedAway(states[k], t, why) <==> exists i: nat :: i < k && RefusedAt(states, i, t, why)
    ensures TakenOn(states[k], t) <==> exists i: nat :: i < k && AcceptedAt(states, i, t)
  {
    if k > 0 {
      hide Step, RefusedAt, AcceptedAt, TurnedAway, TakenOn;
      RunDecides(states, k - 1, t, why);
      StepIsDecided(states, k - 1, t, why);
    }
  }

  /** A call is decided once. */
  lemma DecidedOnce(states: seq<Bridge>, i: nat, j: nat, t: nat)
    requires IsRun(states) && i < j && j + 1 < |states| && DecidedAt(states, i, t)
    ensures !DecidedAt(states, j, t)
  {
    hide Step, RefusedAt, AcceptedAt, TurnedAway, TakenOn;
    if AcceptedAt(states, i, t) {
      RunDecides(states, j, t, NotRunning);
      StepIsDecided(states, j, t, NotRunning);
    } else {
      var why :| RefusedAt(states, i, t, why);
      RunDecides(states, j, t, why);
      StepIsDecided(states, j, t, why);
    }
  }

  /** In every run, whatever the other threads do in between: a call at rest was
      refused for a reason exactly if one of its steps met it - an ended bridge, a
      flag owned by somebody else, an event loop that does not take the task; it
      ran to the end exactly if the loop took the task; and one event decided it. */
  lemma CallIsDecidedByOneEvent(states: seq<Bridge>, k: nat, t: nat, why: Refusal)
    requires IsRun(states) && k < |states| && t in states[k].threads
    requires states[k].threads[t].Refused? || states[k].threads[t].Called?
    ensures states[k].threads[t] == Refused(why) <==> exists i: nat :: i < k && RefusedAt(states, i, t, why)
    ensures states[k].threads[t].Called? <==> exists i: nat :: i < k && AcceptedAt(states, i, t)
    ensures forall i: nat, j: nat :: i < k && j < k && DecidedAt(states, i, t) && DecidedAt(states, j, t) ==> i == j
  {
    hide RefusedAt, AcceptedAt, DecidedAt, Step;
    RunDecides(states, k, t, why);
    forall i: nat, j: nat | i < k && j < k && DecidedAt(states, i, t) && DecidedAt(states, j, t) ensures i == j {
      if i < j { DecidedOnce(states, i, j, t); }
      if j < i { DecidedOnce(states, j, i, t); }
    }
  }

  // ------------------------------------------------------------------
  // After a close, and to the end

  ghost predicate NobodyDelivers(b: Bridge) {
    b.shared.closed && forall t :: t in b.threads ==> !b.threads[t].Delivering?
  }

  lemma StepAfterClose(b: Bridge, e: Event)
    requires NobodyDelivers(b)
    ensures NobodyDelivers(Step(b, e)) && Step(b, e).history.deliveries == b.history.deliveries
  {
  }

  /** On a closed bridge no delivery begins: once none is under way, nothing is
      ever shown again. */
  lemma {:induction false} NothingIsShownAfterClose(states: seq<Bridge>, j: nat, k: nat)
    requires IsRun(states) && j <= k < |states| && NobodyDelivers(states[j])
    ensures NobodyDelivers(states[k]) && states[k].history.deliveries == states[j].history.deliveries
    decreases k
  {
    hide Step, Initial, NobodyDelivers;
    if j < k {
      NothingIsShownAfterClose(states, j, k - 1);
      assert Linked(states, k - 1);
      var e :| Step(states[k - 1], e) == states[k];
      StepAfterClose(states[k - 1], e);
    }
  }

  lemma Extend(states: seq<Bridge>, e: Event) returns (longer: seq<Bridge>)
    requires IsRun(states)
    ensures IsRun(longer) && longer == states + [Step(states[|states| - 1], e)]
  {
    hide Step, Initial;
    longer := states + [Step(states[|states| - 1], e)];
    forall i: nat | i + 1 < |longer| ensures Linked(longer, i) {
      if i + 1 < |states| {
        assert Linked(states, i);
        var f :| Step(states[i], f) == states[i + 1];
        assert Step(longer[i], f) == longer[i + 1];
      } else {
        assert Step(longer[i], e) == longer[i + 1];
      }
    }
  }

  /** How far an accepted batch is from its receipt being called. */
  function ToCall(pc: Pc): nat {
    match pc
    case Queued => 5
    case Delivering => 4
    case Failing => 3
    case Clearing(_) => 2
    case Calling(_) => 1
    case _ => 0
  }

  /** What the receipt of a batch at this point will be told. */
  predicate WillShow(b: Bridge, pc: Pc, outcome: Outcome) {
    match pc
    case Queued => !b.shared.closed && outcome.Presented?
    case Delivering => outcome.Presented?
    case Clearing(presented) => presented
    case Calling(presented) => presented
    case Called(presented) => presented
    case _ => false
  }

  lemma AcceptedMovesOn(b: Bridge, t: nat, outcome: Outcome)
    requires t in b.threads && IsAccepted(b.threads[t]) && !b.threads[t].Called?
    ensures var r := Step(b, Thread(t, Scheduled, outcome));
            && t in r.threads && IsAccepted(r.threads[t]) && ToCall(r.threads[t]) < ToCall(b.threads[t])
            && WillShow(r, r.threads[t], outcome) == WillShow(b, b.threads[t], outcome)
  {
  }

  /** From every reachable state an accepted batch can be brought to its end: its
      receipt is called, with `presented` exactly if the batch is shown. */
  lemma {:induction false} ReceiptCanBeCalled(states: seq<Bridge>, t: nat, outcome: Outcome)
    returns (longer: seq<Bridge>)
    requires IsRun(states)
    requires var b := states[|states| - 1]; t in b.threads && IsAccepted(b.threads[t])
    ensures IsRun(longer) && states <= longer
    ensures var b, r := states[|states| - 1], longer[|longer| - 1];
            t in r.threads && r.threads[t] == Called(WillShow(b, b.threads[t], outcome))
    decreases ToCall(states[|states| - 1].threads[t])
  {
    hide Step, Initial, Linked;
    var b := states[|states| - 1];
    longer := states;
    if !b.threads[t].Called? {
      AcceptedMovesOn(b, t, outcome);
      longer := Extend(states, Thread(t, Scheduled, outcome));
      longer := ReceiptCanBeCalled(longer, t, outcome);
    }
  }

  // ------------------------------------------------------------------
  // A run that meets a hidden window

  /** Where the first thread is after each of its steps. */
  function HiddenAt(n: nat): Pc
    requires n <= 8
  {
    [Asking, Swapping, Scheduling, Queued, Delivering, Failing, Clearing(false), Calling(false), Called(false)][n]
  }

  function HiddenRun(n: nat): Bridge
    requires n <= 8
  {
    var up := 2 <= n < 7;
    Bridge(Shared(n >= 6, up, if up then Some(1) else None), map[1 := HiddenAt(n)],
           History(if n >= 3 then {1} else {}, if n >= 5 then [Delivery(1, WindowNotVisible)] else [],
                   if n >= 8 then [Call(1, false)] else [], Stops(false, false)))
  }

  lemma HiddenStep(n: nat)
    requires n < 8
    ensures Step(HiddenRun(n), Thread(1, Scheduled, WindowNotVisible)) == HiddenRun(n + 1)
  {
  }

  /** A batch can meet a hidden window, and the next call is then refused. */
  lemma HiddenWindowIsReachable() returns (states: seq<Bridge>)
    ensures IsRun(states) && 2 in states[|states| - 1].threads && states[|states| - 1].threads[2] == Refused(NotRunning)
    ensures states[|states| - 1].history.deliveries == [Delivery(1, WindowNotVisible)]
  {
    states := Extend([Initial()], Present(1));
    assert states[|states| - 1] == HiddenRun(0);
    for n := 0 to 8
      invariant IsRun(states) && states[|states| - 1] == HiddenRun(n)
    {
      hide Step, HiddenRun;
      HiddenStep(n);
      states := Extend(states, Thread(1, Scheduled, WindowNotVisible));
    }
    states := Extend(states, Present(2));
    states := Extend(states, Thread(2, Scheduled, Presented));
  }
}
