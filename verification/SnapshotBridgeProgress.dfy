/** When the snapshot bridge stops, that each hand-over is answered, and that
    what lies in a slot can be handed over. */
module SnapshotBridgeProgress {
  import opened Prelude
  import opened SnapshotBridge
  import opened SnapshotBridgeTheorems

  // ------------------------------------------------------------------
  // When the bridge stops

  predicate Closes(report: Report) {
    || report.Dropped?
    || (report.Answered? && report.outcome.WindowClosed?)
    || (report.NotScheduled? && report.error.LoopTerminated?)
  }

  predicate Faults(report: Report) {
    || (report.Answered? && report.outcome.StateUnavailable?)
    || (report.NotScheduled? && report.error.LoopInternal?)
  }

  predicate Stops(report: Report) {
    Closes(report) || Faults(report)
  }

  /** What the event tells the bridge. */
  function ReportOf(b: Bridge, e: Event): Option<Report> {
    if e.DropBridge? then Some(Dropped)
    else if e.ThreadStep? && e.thread in b.threads then
      match b.threads[e.thread]
      case RunDeliver(slot, generation) => Some(Answered(slot, generation, e.outcome))
      case ReqFail(error) => Some(NotScheduled(error))
      case _ => None
    else None
  }

  /** A running bridge is closed exactly by its drop, a closed window or a loop
      that terminated; it is faulted exactly by a lost state or a broken loop; and
      nothing else is ever reported. */
  lemma StopsExactlyWhen(b: Bridge, e: Event)
    requires Shaped(b)
    ensures var r, report := Step(b, e), ReportOf(b, e);
            && r.log.reports == b.log.reports + (if report.Some? then [report.value] else [])
            && (report.Some? && Closes(report.value) ==> r.phase.BridgeClosed?)
            && (report.Some? && Faults(report.value) ==> r.phase.BridgeFaulted?)
            && (report.None? || !Stops(report.value) ==> r.phase == b.phase)
  {
    assert b.log.reports + [] == b.log.reports;
    if e.ThreadStep? && e.thread in b.threads {
      match b.threads[e.thread]
      case ReqFail(_) =>
      case RunDeliver(_, _) =>
      case _ =>
    }
  }

  /** A schedule call that failed is reported with its own error. */
  lemma FailureIsReported(b: Bridge, t: nat, error: ScheduleError, outcome: Outcome)
    requires Shaped(b) && t in b.threads && b.threads[t].ReqSchedule?
    ensures var told := Step(b, ThreadStep(t, Some(error), outcome));
            && Shaped(told) && told.phase == b.phase
            && ReportOf(told, ThreadStep(t, Some(error), outcome)) == Some(NotScheduled(error))
  {
  }

  ghost predicate StoppedBy(reports: seq<Report>, i: nat) {
    i < |reports| && Stops(reports[i]) && forall j :: i < j < |reports| ==> !Stops(reports[j])
  }

  /** The last report that stops the bridge decides its phase. */
  ghost predicate PhaseTold(b: Bridge) {
    && (b.phase.BridgeRunning? <==> forall i :: 0 <= i < |b.log.reports| ==> !Stops(b.log.reports[i]))
    && (forall i: nat :: StoppedBy(b.log.reports, i) ==>
          && (b.phase.BridgeClosed? <==> Closes(b.log.reports[i]))
          && (b.phase.BridgeFaulted? <==> Faults(b.log.reports[i])))
  }

  lemma ReportTellsPhase(b: Bridge, r: Bridge, report: Report)
    requires PhaseTold(b) && r.log.reports == b.log.reports + [report]
    requires Closes(report) ==> r.phase.BridgeClosed?
    requires Faults(report) ==> r.phase.BridgeFaulted?
    requires !Stops(report) ==> r.phase == b.phase
    ensures PhaseTold(r)
  {
    var n := |b.log.reports|;
    if Stops(report) {
      assert Stops(r.log.reports[n]);
      forall i: nat | StoppedBy(r.log.reports, i) ensures i == n {}
    } else {
      forall i: nat | StoppedBy(r.log.reports, i) ensures StoppedBy(b.log.reports, i) {
        assert forall j :: i < j < n ==> b.log.reports[j] == r.log.reports[j];
      }
      assert forall i :: 0 <= i < n ==> r.log.reports[i] == b.log.reports[i];
    }
  }

  lemma StepTellsPhase(b: Bridge, e: Event)
    requires Shaped(b) && PhaseTold(b)
    ensures PhaseTold(Step(b, e))
  {
    StopsExactlyWhen(b, e);
    var r, report := Step(b, e), ReportOf(b, e);
    hide Step, ReportOf, PhaseTold;
    if report.Some? {
      ReportTellsPhase(b, r, report.value);
    } else {
      assert r.log.reports == b.log.reports;
      SamePhaseTold(b, r);
    }
  }

  lemma SamePhaseTold(b: Bridge, r: Bridge)
    requires PhaseTold(b) && r.log.reports == b.log.reports && r.phase == b.phase
    ensures PhaseTold(r)
  {
  }

  lemma {:induction false} RunTellsPhase(states: seq<Bridge>, k: nat)
    requires IsRun(states) && k < |states|
    ensures PhaseTold(states[k])
  {
    if k > 0 {
      hide Step, PhaseTold, Shaped;
      RunTellsPhase(states, k - 1);
      assert Linked(states, k - 1);
      var e :| Step(states[k - 1], e) == states[k];
      StepTellsPhase(states[k - 1], e);
    }
  }

  /** In every run: the bridge runs exactly while nothing that stops it was
      reported; after that the last such report tells closed from faulted. */
  lemma ReportsTellPhase(states: seq<Bridge>, k: nat)
    requires IsRun(states) && k < |states|
    ensures var b := states[k];
            && (b.phase.BridgeRunning? <==> forall i :: 0 <= i < |b.log.reports| ==> !Stops(b.log.reports[i]))
            && (forall i: nat :: StoppedBy(b.log.reports, i) ==>
                  && (b.phase.BridgeClosed? <==> Closes(b.log.reports[i]))
                  && (b.phase.BridgeFaulted? <==> Faults(b.log.reports[i])))
  {
    RunTellsPhase(states, k);
  }

  // ------------------------------------------------------------------
  // Each hand-over is answered once, in order

  function Given(reports: seq<Report>): seq<(nat, nat)> {
    if reports == [] then []
    else
      var last := reports[|reports| - 1];
      Given(reports[..|reports| - 1]) + if last.Answered? then [(last.slot, last.generation)] else []
  }

  function Handed(handovers: seq<Handover>): seq<(nat, nat)> {
    seq(|handovers|, i requires 0 <= i < |handovers| => (handovers[i].slot, handovers[i].generation))
  }

  /** Everything taken was answered, but for what a task is just delivering. */
  ghost predicate Delivers(b: Bridge) {
    && (forall t :: t in b.threads && b.threads[t].RunDeliver? ==>
          Handed(b.log.handovers) == Given(b.log.reports) + [(b.threads[t].slot, b.threads[t].generation)])
    && ((forall t :: t in b.threads ==> !b.threads[t].RunDeliver?) ==>
          Handed(b.log.handovers) == Given(b.log.reports))
  }

  lemma GivenAppends(reports: seq<Report>, report: Report)
    ensures Given(reports + [report]) ==
            Given(reports) + if report.Answered? then [(report.slot, report.generation)] else []
  {
    assert (reports + [report])[..|reports|] == reports;
  }

  /** A step that neither takes nor is answered, and leaves no delivery behind. */
  lemma QuietKeepsDelivers(b: Bridge, r: Bridge)
    requires Delivers(b) && r.log.handovers == b.log.handovers && Given(r.log.reports) == Given(b.log.reports)
    requires forall t :: t in r.threads && r.threads[t].RunDeliver? ==> t in b.threads && b.threads[t] == r.threads[t]
    requires forall t :: t in b.threads && b.threads[t].RunDeliver? ==> t in r.threads && b.threads[t] == r.threads[t]
    ensures Delivers(r)
  {
  }

  lemma TakeKeepsDelivers(b: Bridge, t: nat)
    requires Inv(b) && Delivers(b) && t in b.threads && b.threads[t].RunTake?
    ensures Delivers(TakeStep(b, t, b.threads[t].slot))
  {
    var slot := b.threads[t].slot;
    var r := TakeStep(b, t, slot);
    assert OwnedBy(b, t);
    forall u | u in b.threads ensures !b.threads[u].RunDeliver? { assert u != t ==> !OwnedBy(b, u); }
    assert Handed(b.log.handovers) == Given(b.log.reports);
    if b.slots[slot].Some? {
      assert t in r.threads && r.threads[t].RunDeliver?;
      assert Handed(r.log.handovers) == Handed(b.log.handovers) + [(slot, b.slots[slot].value)];
    }
  }

  lemma AnswerKeepsDelivers(b: Bridge, t: nat, outcome: Outcome)
    requires Inv(b) && Delivers(b) && t in b.threads && b.threads[t].RunDeliver?
    ensures var report := Answered(b.threads[t].slot, b.threads[t].generation, outcome);
            Delivers(DeliverStep(Note(b, report), t, b.threads[t].slot, outcome))
  {
    var slot, generation := b.threads[t].slot, b.threads[t].generation;
    var report := Answered(slot, generation, outcome);
    OnlyOneDelivers(b, t);
    GivenAppends(b.log.reports, report);
    AnsweredIsDelivered(b, DeliverStep(Note(b, report), t, slot, outcome), t, report) by { hide Given, Handed, Inv; }
  }

  /** The delivery under way is the last hand-over, and its answer the last report. */
  lemma AnsweredIsDelivered(b: Bridge, r: Bridge, t: nat, report: Report)
    requires Delivers(b) && t in b.threads && b.threads[t].RunDeliver? && t in r.threads && !r.threads[t].RunDeliver?
    requires r.threads == b.threads[t := r.threads[t]]
    requires forall u :: u in b.threads && u != t ==> !b.threads[u].RunDeliver?
    requires r.log.handovers == b.log.handovers && r.log.reports == b.log.reports + [report]
    requires Given(r.log.reports) == Given(b.log.reports) + [(b.threads[t].slot, b.threads[t].generation)]
    ensures Delivers(r)
  {
    hide Given, Handed;
  }

  lemma OnlyOneDelivers(b: Bridge, t: nat)
    requires Inv(b) && t in b.threads && b.threads[t].RunDeliver?
    ensures forall u :: u in b.threads && u != t ==> !b.threads[u].RunDeliver?
  {
    assert OwnedBy(b, t);
    forall u | u in b.threads && u != t ensures !b.threads[u].RunDeliver? { assert !OwnedBy(b, u); }
  }

  lemma RunnerKeepsDelivers(b: Bridge, e: Event)
    requires Inv(b) && Delivers(b) && e.ThreadStep? && e.thread in b.threads
    requires b.threads[e.thread].RunTake? || b.threads[e.thread].RunDeliver?
    ensures Delivers(Step(b, e))
  {
    hide Given, Handed, Delivers, TakeStep, DeliverStep;
    if b.threads[e.thread].RunTake? { TakeKeepsDelivers(b, e.thread); }
    else { AnswerKeepsDelivers(b, e.thread, e.outcome); }
  }

  lemma StepKeepsDelivers(b: Bridge, e: Event)
    requires Inv(b) && Delivers(b)
    ensures Delivers(Step(b, e))
  {
    assert Shaped(b);
    hide Inv, Given, Handed, Delivers, Shaped, DoThread;
    match e
    case Publish(_, _) => QuietKeepsDelivers(b, Step(b, e));
    case RequestTerminal(_, _, _) => QuietKeepsDelivers(b, Step(b, e));
    case StartTask(_) => QuietKeepsDelivers(b, Step(b, e));
    case ThreadStep(t, _, outcome) =>
      if t in b.threads {
        if b.threads[t].RunTake? || b.threads[t].RunDeliver? {
          RunnerKeepsDelivers(b, e);
        } else {
          ThreadKeepsDelivers(b, e);
        }
      }
    case DropBridge =>
      GivenAppends(b.log.reports, Dropped);
      QuietKeepsDelivers(b, Step(b, e));
  }

  /** What the other steps of a thread leave alone. */
  lemma ThreadMovesOnly(b: Bridge, e: Event)
    requires Shaped(b) && e.ThreadStep? && e.thread in b.threads
    requires !b.threads[e.thread].RunTake? && !b.threads[e.thread].RunDeliver?
    ensures var r := Step(b, e);
            && r.log.handovers == b.log.handovers
            && (|| r.threads == b.threads - {e.thread}
                || (&& e.thread in r.threads && !r.threads[e.thread].RunDeliver?
                    && r.threads == b.threads[e.thread := r.threads[e.thread]]))
  {
    match b.threads[e.thread]
    case Gate(_, _) =>
    case Store(_, _) =>
    case ReqPhase =>
    case ReqSwap =>
    case ReqSchedule =>
    case ReqFail(_) =>
    case ReqReset =>
    case RunPhase =>
    case RunAbort =>
    case RunReset =>
    case RunRecheckPhase =>
    case RunRecheck(_, _) =>
  }

  lemma GivenStays(b: Bridge, e: Event)
    requires Shaped(b) && e.ThreadStep? && e.thread in b.threads
    requires !b.threads[e.thread].RunTake? && !b.threads[e.thread].RunDeliver?
    ensures Given(Step(b, e).log.reports) == Given(b.log.reports)
  {
    StopsExactlyWhen(b, e);
    hide Step, Given;
    assert b.log.reports + [] == b.log.reports;
    if b.threads[e.thread].ReqFail? { GivenAppends(b.log.reports, NotScheduled(b.threads[e.thread].error)); }
  }

  lemma ThreadKeepsDelivers(b: Bridge, e: Event)
    requires Shaped(b) && Delivers(b) && e.ThreadStep? && e.thread in b.threads
    requires !b.threads[e.thread].RunTake? && !b.threads[e.thread].RunDeliver?
    ensures Delivers(Step(b, e))
  {
    hide Given, Handed, Delivers, Step, Shaped;
    ThreadMovesOnly(b, e);
    GivenStays(b, e);
    QuietKeepsDelivers(b, Step(b, e));
  }

  lemma {:induction false} RunKeepsDelivers(states: seq<Bridge>, k: nat)
    requires IsRun(states) && k < |states|
    ensures Delivers(states[k])
  {
    if k > 0 {
      hide Step, Inv, Delivers, Shaped;
      RunKeepsDelivers(states, k - 1);
      RunKeepsInv(states, k - 1);
      assert Linked(states, k - 1);
      var e :| Step(states[k - 1], e) == states[k];
      StepKeepsDelivers(states[k - 1], e);
    }
  }

  /** In every run, what was taken from the slots is answered in that order, each
      once; only the last may still be with the task that delivers it. */
  lemma HandoversAreAnswered(states: seq<Bridge>, k: nat)
    requires IsRun(states) && k < |states|
    ensures var log := states[k].log;
            || Handed(log.handovers) == Given(log.reports)
            || (exists t :: && t in states[k].threads && states[k].threads[t].RunDeliver?
                            && Handed(log.handovers) ==
                               Given(log.reports) + [(states[k].threads[t].slot, states[k].threads[t].generation)])
  {
    RunKeepsDelivers(states, k);
  }

  // ------------------------------------------------------------------
  // What lies in a slot can be handed over

  lemma Extend(states: seq<Bridge>, e: Event) returns (longer: seq<Bridge>)
    requires IsRun(states) && Shaped(states[|states| - 1])
    ensures IsRun(longer) && longer == states + [Step(states[|states| - 1], e)]
  {
    hide Step, Initial, Shaped;
    longer := states + [Step(states[|states| - 1], e)];
    forall i: nat | i + 1 < |longer| ensures Linked(longer, i) {
      if i + 1 < |states| {
        assert Linked(states, i);
        var f :| Step(states[i], f) == states[i + 1];
        assert Step(longer[i], f) == longer[i + 1];
      } else {
        assert Step(longer[i], e) == longer[i + 1];
      }
    }
  }

  /** Some slot from `low` to below `high` is filled. */
  predicate Filled(b: Bridge, low: nat, high: nat) {
    exists i: nat :: low <= i < high && i < |b.slots| && b.slots[i].Some?
  }

  /** A thread that, left alone, gets every slot handed over: it owns the flag, is
      about to raise it, or will find a filled slot when it re-checks. */
  predicate Drives(b: Bridge, t: nat) {
    && Running(b) && t in b.threads
    && match b.threads[t]
       case RunRecheckPhase => !b.scheduled && Filled(b, 0, SLOTS)
       case RunRecheck(slot, found) => !b.scheduled && (found || Filled(b, slot, SLOTS))
       case ReqPhase => !b.scheduled
       case ReqSwap => !b.scheduled
       case ReqSchedule => true
       case RunPhase => true
       case RunTake(_) => true
       case RunDeliver(_, _) => true
       case RunReset => true
       case _ => false
  }

  /** How far it is from having emptied every slot; a task that has passed a
      filled slot must go round once more. */
  function Rank(b: Bridge, t: nat): int
    requires t in b.threads
  {
    match b.threads[t]
    case RunTake(slot) => (if Filled(b, 0, slot) then 20 else 0) + 2 * (SLOTS - slot) + 1
    case RunDeliver(slot, _) => (if Filled(b, 0, slot + 1) then 20 else 0) + 2 * (SLOTS - slot)
    case RunReset => if Filled(b, 0, SLOTS) then 20 else 0
    case RunPhase => 8
    case ReqSchedule => 10
    case ReqSwap => 11
    case ReqPhase => 12
    case RunRecheck(slot, _) => 13 + SLOTS - slot
    case RunRecheckPhase => 17
    case _ => 0
  }

  /** Every slot is empty and the task has nothing left to deliver. */
  predicate Emptied(b: Bridge, t: nat) {
    Running(b) && t in b.threads && b.threads[t].RunReset? && b.slots == [None, None, None]
  }

  predicate Harmless(outcome: Outcome) {
    outcome.Delivered? || outcome.Ignored?
  }

  /** A task that drains empties the slot before it. */
  lemma TakeMoves(b: Bridge, t: nat, outcome: Outcome)
    requires Shaped(b) && Running(b) && t in b.threads && b.threads[t].RunTake?
    ensures var r := Step(b, ThreadStep(t, None, outcome)); Drives(r, t) && 0 <= Rank(r, t) < Rank(b, t)
  {
    var r, slot := Step(b, ThreadStep(t, None, outcome)), b.threads[t].slot;
    assert r.slots[slot].None? && forall i: nat :: i < SLOTS && i != slot ==> r.slots[i] == b.slots[i];
    assert Filled(r, 0, slot + 1) ==> Filled(b, 0, slot);
  }

  lemma DeliverMoves(b: Bridge, t: nat, outcome: Outcome)
    requires Shaped(b) && Running(b) && t in b.threads && b.threads[t].RunDeliver? && Harmless(outcome)
    ensures var r := Step(b, ThreadStep(t, None, outcome)); Drives(r, t) && 0 <= Rank(r, t) < Rank(b, t)
  {
    var r := Step(b, ThreadStep(t, None, outcome));
    assert r.slots == b.slots;
    assert forall n: nat :: Filled(r, 0, n) <==> Filled(b, 0, n);
  }

  /** A re-check moves on to the next slot, or finds one filled and requests. */
  lemma RecheckMoves(b: Bridge, t: nat, outcome: Outcome)
    requires Shaped(b) && Drives(b, t) && (b.threads[t].RunRecheckPhase? || b.threads[t].RunRecheck?)
    ensures var r := Step(b, ThreadStep(t, None, outcome)); Drives(r, t) && 0 <= Rank(r, t) < Rank(b, t)
  {
    var r := Step(b, ThreadStep(t, None, outcome));
    assert r.slots == b.slots;
    if b.threads[t].RunRecheck? {
      var slot := b.threads[t].slot;
      assert Filled(b, slot, SLOTS) && b.slots[slot].None? ==> Filled(r, slot + 1, SLOTS);
    } else {
      assert Filled(r, 0, SLOTS);
    }
  }

  /** A task that passed a filled slot re-checks. */
  lemma ResetMoves(b: Bridge, t: nat, outcome: Outcome)
    requires Shaped(b) && Drives(b, t) && b.threads[t].RunReset? && Filled(b, 0, SLOTS)
    ensures var r := Step(b, ThreadStep(t, None, outcome)); Drives(r, t) && 0 <= Rank(r, t) < Rank(b, t)
  {
    var r := Step(b, ThreadStep(t, None, outcome));
    assert r.slots == b.slots;
    assert Filled(r, 0, SLOTS);
  }

  lemma RequestMoves(b: Bridge, t: nat, outcome: Outcome)
    requires Shaped(b) && Drives(b, t)
    requires b.threads[t].ReqPhase? || b.threads[t].ReqSwap? || b.threads[t].RunPhase?
    ensures var r := Step(b, ThreadStep(t, None, outcome)); Drives(r, t) && 0 <= Rank(r, t) < Rank(b, t)
  {
  }

  lemma DriverMoves(b: Bridge, t: nat, outcome: Outcome)
    requires Shaped(b) && Drives(b, t) && !Emptied(b, t) && !b.threads[t].ReqSchedule? && Harmless(outcome)
    ensures var r := Step(b, ThreadStep(t, None, outcome)); Drives(r, t) && 0 <= Rank(r, t) < Rank(b, t)
  {
    hide Step, Rank;
    if b.threads[t].RunTake? {
      TakeMoves(b, t, outcome);
    } else if b.threads[t].RunDeliver? {
      DeliverMoves(b, t, outcome);
    } else if b.threads[t].RunReset? {
      ResetMoves(b, t, outcome);
    } else if b.threads[t].RunRecheckPhase? || b.threads[t].RunRecheck? {
      RecheckMoves(b, t, outcome);
    } else {
      RequestMoves(b, t, outcome);
    }
  }

  /** The scheduled task starts in a thread of its own. */
  lemma TaskStarts(states: seq<Bridge>) returns (longer: seq<Bridge>, t: nat)
    requires IsRun(states) && Running(states[|states| - 1]) && states[|states| - 1].tasks > 0
    ensures IsRun(longer) && states <= longer
    ensures var b := longer[|longer| - 1];
            Running(b) && t in b.threads && b.threads[t].RunPhase? && b.slots == states[|states| - 1].slots
  {
    var b := states[|states| - 1];
    RunKeepsInv(states, |states| - 1);
    t := FreshThread(b.threads.Keys);
    hide Inv;
    longer := Extend(states, StartTask(t));
  }

  lemma {:induction false} FreshThread(used: set<nat>) returns (t: nat)
    ensures t !in used
  {
    t := 0;
    var seen: set<nat> := {};
    while t in used
      invariant seen <= used && forall i: nat :: i < t ==> i in seen
      invariant |seen| == t && forall i :: i in seen ==> i < t
      decreases |used| - t
    {
      assert t !in seen && seen + {t} <= used;
      assert |used| >= |seen + {t}| by { SubsetIsSmaller(seen + {t}, used); }
      seen, t := seen + {t}, t + 1;
    }
  }

  lemma {:induction false} SubsetIsSmaller(a: set<nat>, b: set<nat>)
    requires a <= b
    ensures |a| <= |b|
  {
    if a != {} {
      var x :| x in a;
      SubsetIsSmaller(a - {x}, b - {x});
    }
  }

  /** Left alone, a driver empties every slot. */
  lemma {:induction false} DriverEmpties(states: seq<Bridge>, t: nat, outcome: Outcome)
    returns (longer: seq<Bridge>, u: nat)
    requires IsRun(states) && Drives(states[|states| - 1], t) && Harmless(outcome)
    ensures IsRun(longer) && states <= longer && Emptied(longer[|longer| - 1], u)
    decreases Rank(states[|states| - 1], t)
  {
    hide Inv, Step, Initial, Linked;
    var b := states[|states| - 1];
    RunKeepsInv(states, |states| - 1);
    assert Shaped(b) by { InvIsShaped(b); }
    if Emptied(b, t) {
      return states, t;
    }
    var more := Extend(states, ThreadStep(t, None, outcome));
    if b.threads[t].ReqSchedule? {
      ScheduleMakesTask(b, t, outcome);
      var started, v := TaskStarts(more);
      longer, u := DriverEmpties(started, v, outcome);
    } else {
      DriverMoves(b, t, outcome);
      longer, u := DriverEmpties(more, t, outcome);
    }
  }

  lemma InvIsShaped(b: Bridge)
    requires Inv(b)
    ensures Shaped(b)
  {
  }

  lemma ScheduleMakesTask(b: Bridge, t: nat, outcome: Outcome)
    requires Shaped(b) && Running(b) && t in b.threads && b.threads[t].ReqSchedule?
    ensures var r := Step(b, ThreadStep(t, None, outcome)); Running(r) && r.tasks > 0
  {
  }

  /** A running bridge whose last schedule call did not fail has a driver, or a
      task, as soon as a slot is filled. */
  lemma SomeoneDrives(b: Bridge, i: nat) returns (t: nat)
    requires Inv(b) && Running(b) && !b.failed && i < SLOTS && b.slots[i].Some? && b.tasks == 0
    ensures Drives(b, t)
  {
    assert Watched(b, i);
    assert Filled(b, 0, SLOTS);
    if b.scheduled {
      t :| OwnedBy(b, t);
    } else {
      t :| CoveredBy(b, t, i);
      assert !OwnedBy(b, t);
      assert b.threads[t].RunRecheck? ==> b.threads[t].found || Filled(b, b.threads[t].slot, SLOTS);
    }
  }

  /** From every reachable state of a running bridge whose last schedule call did
      not fail, what lies in a slot can be handed over: some steps, with a loop
      that takes tasks and deliveries that do no harm, leave every slot empty and
      every hand-over answered. */
  lemma SlotsCanBeEmptied(states: seq<Bridge>, i: nat, outcome: Outcome)
    returns (longer: seq<Bridge>, t: nat)
    requires IsRun(states) && i < SLOTS && Harmless(outcome)
    requires var b := states[|states| - 1]; Running(b) && !b.failed && i < |b.slots| && b.slots[i].Some?
    ensures IsRun(longer) && states <= longer && Emptied(longer[|longer| - 1], t)
    ensures var log := longer[|longer| - 1].log; Handed(log.handovers) == Given(log.reports)
  {
    hide Step, Initial, Linked, Rank, Drives;
    var b := states[|states| - 1];
    RunKeepsInv(states, |states| - 1);
    if b.tasks > 0 {
      var started, u := TaskStarts(states);
      assert Drives(started[|started| - 1], u) by { StartedDrives(started[|started| - 1], u); }
      longer, t := DriverEmpties(started, u, outcome);
    } else {
      var u := SomeoneDrives(b, i);
      longer, t := DriverEmpties(states, u, outcome);
    }
    RunKeepsInv(longer, |longer| - 1);
    RunKeepsDelivers(longer, |longer| - 1);
    NoOtherDelivers(longer[|longer| - 1], t);
  }

  lemma StartedDrives(b: Bridge, t: nat)
    requires Running(b) && t in b.threads && b.threads[t].RunPhase?
    ensures Drives(b, t)
  {
  }

  lemma NoOtherDelivers(b: Bridge, t: nat)
    requires Inv(b) && Emptied(b, t)
    ensures forall u :: u in b.threads ==> !b.threads[u].RunDeliver?
  {
    assert OwnedBy(b, t);
    forall u | u in b.threads ensures !b.threads[u].RunDeliver? { assert u != t ==> !OwnedBy(b, u); }
  }

  // ------------------------------------------------------------------
  // After a stop

  /** Stopped, with no task and no thread past its phase check. */
  ghost predicate Wound(b: Bridge) {
    && !Running(b) && b.tasks == 0
    && forall t :: t in b.threads ==>
         b.threads[t].Gate? || b.threads[t].ReqPhase? || (b.threads[t].Store? && b.threads[t].slot == SNAPSHOT)
  }

  lemma StepAfterStop(b: Bridge, e: Event)
    requires Shaped(b) && Wound(b)
    ensures var r := Step(b, e);
            && Wound(r) && r.scheduled == b.scheduled && r.log.handovers == b.log.handovers
            && |r.slots| == SLOTS && r.slots[1..] == b.slots[1..]
  {
    if e.ThreadStep? && e.thread in b.threads {
      match b.threads[e.thread]
      case Gate(_, _) =>
      case Store(_, _) =>
      case ReqPhase =>
    }
  }

  /** A stopped bridge whose threads have wound down schedules no task, hands
      nothing over and takes no terminal intent any more: every later call ends at
      its phase check. */
  lemma {:induction false} StoppedBridgeIsInert(states: seq<Bridge>, j: nat, k: nat)
    requires IsRun(states) && j <= k < |states| && Wound(states[j])
    ensures Wound(states[k]) && states[k].scheduled == states[j].scheduled
    ensures states[k].log.handovers == states[j].log.handovers
    ensures |states[k].slots| == |states[j].slots| == SLOTS && states[k].slots[1..] == states[j].slots[1..]
    decreases k
  {
    hide Step, Initial, Wound, Inv;
    RunKeepsInv(states, j);
    assert Shaped(states[j]) by { InvIsShaped(states[j]); }
    if j < k {
      StoppedBridgeIsInert(states, j, k - 1);
      assert Linked(states, k - 1);
      var e :| Step(states[k - 1], e) == states[k];
      StepAfterStop(states[k - 1], e);
    }
  }
}
