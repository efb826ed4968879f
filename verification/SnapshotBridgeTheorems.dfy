/** What the snapshot bridge keeps over every interleaving. */
module SnapshotBridgeTheorems {
  import opened Prelude
  import opened SnapshotBridge

  ghost predicate OwnedBy(b: Bridge, t: nat) {
    t in b.threads && b.threads[t].Owns()
  }

  ghost predicate CoveredBy(b: Bridge, t: nat, i: nat) {
    t in b.threads && b.threads[t].Covers(i)
  }

  /** The scheduled flag is up exactly while one pending task or one thread owns
      it. */
  ghost predicate OneOwner(b: Bridge) {
    && b.tasks <= 1
    && (!b.scheduled ==> b.tasks == 0)
    && (!b.scheduled || b.tasks == 1 ==> forall t :: !OwnedBy(b, t))
    && (forall t, u :: OwnedBy(b, t) && OwnedBy(b, u) ==> t == u)
    && (b.scheduled && b.tasks == 0 ==> exists t :: OwnedBy(b, t))
  }

  /** A thread that gave up saw a failed schedule call or a bridge not running. */
  ghost predicate Reasons(b: Bridge) {
    && (forall t :: t in b.threads && (b.threads[t].ReqFail? || b.threads[t].ReqReset?) ==> b.failed)
    && (forall t :: t in b.threads && b.threads[t].RunAbort? ==> !Running(b))
  }

  ghost predicate Watched(b: Bridge, i: nat) {
    b.tasks > 0 || exists t :: CoveredBy(b, t, i)
  }

  ghost predicate NothingLost(b: Bridge) {
    Running(b) && !b.failed ==>
      forall i :: 0 <= i < |b.slots| && b.slots[i].Some? ==> Watched(b, i)
  }

  /** The last of what was requested, for the mailbox; the greatest, otherwise. */
  predicate IsNewest(slot: nat, generation: nat, requested: seq<nat>) {
    && generation in requested
    && (slot == SNAPSHOT ==> generation == requested[|requested| - 1])
    && (slot != SNAPSHOT ==> forall g :: g in requested ==> g <= generation)
  }

  /** A slot holds the newest of what was requested since it was emptied. */
  ghost predicate Newest(b: Bridge) {
    && (forall i :: 0 <= i < |b.slots| && i < |b.log.sinceTake| ==>
          && (b.slots[i].None? <==> b.log.sinceTake[i] == [])
          && (b.slots[i].Some? ==> IsNewest(i, b.slots[i].value, b.log.sinceTake[i])))
    && (forall h :: h in b.log.handovers ==> IsNewest(h.slot, h.generation, h.requested))
  }

  ghost predicate Inv(b: Bridge) {
    Shaped(b) && OneOwner(b) && Reasons(b) && NothingLost(b) && Newest(b)
  }

  lemma InitialInv()
    ensures Inv(Initial())
  {
  }

  /** Threads other than `thread`, and the tasks, watch slot `i`. */
  ghost predicate WatchedWithout(b: Bridge, thread: nat, i: nat) {
    b.tasks > 0 || exists t :: t != thread && CoveredBy(b, t, i)
  }

  /** The next state, if it changes threads only at `thread`, still watches what
      is watched without it. */
  lemma WatchSurvives(b: Bridge, r: Bridge, thread: nat, i: nat)
    requires WatchedWithout(b, thread, i) && r.tasks >= b.tasks
    requires forall t :: t != thread && t in b.threads ==> t in r.threads && r.threads[t] == b.threads[t]
    ensures Watched(r, i)
  {
    if b.tasks == 0 {
      var t :| t != thread && CoveredBy(b, t, i);
      assert CoveredBy(r, t, i);
    }
  }

  /** A thread that moves without touching the flag, the tasks or a slot. */
  lemma GoKeepsInv(b: Bridge, thread: nat, pc: Pc)
    requires Inv(b) && Shaped(Goes(b, thread, pc))
    requires pc.Owns() <==> OwnedBy(b, thread)
    requires pc.ReqFail? || pc.ReqReset? ==> b.failed
    requires pc.RunAbort? ==> !Running(b)
    requires Running(b) && !b.failed ==>
               forall i: nat :: i < SLOTS && b.slots[i].Some? && CoveredBy(b, thread, i) ==> pc.Covers(i)
    ensures Inv(Goes(b, thread, pc))
  {
    var r := Goes(b, thread, pc);
    if b.scheduled && b.tasks == 0 {
      var t :| OwnedBy(b, t);
      assert OwnedBy(r, t);
    }
    forall t, u | OwnedBy(r, t) && OwnedBy(r, u) ensures t == u {
      assert OwnedBy(b, t) && OwnedBy(b, u);
    }
    forall t | OwnedBy(r, t) ensures OwnedBy(b, t) {}
    forall i: nat | Running(b) && !b.failed && i < SLOTS && b.slots[i].Some? ensures Watched(r, i) {
      assert Watched(b, i);
      if CoveredBy(b, thread, i) {
        assert CoveredBy(r, thread, i);
      } else {
        assert WatchedWithout(b, thread, i);
        WatchSurvives(b, r, thread, i);
      }
    }
  }

  lemma EndKeepsInv(b: Bridge, thread: nat)
    requires Inv(b) && thread in b.threads && !OwnedBy(b, thread)
    requires Running(b) && !b.failed ==>
               forall i: nat :: i < SLOTS && b.slots[i].Some? ==> WatchedWithout(b, thread, i)
    ensures Inv(Ends(b, thread))
  {
    var r := Ends(b, thread);
    if b.scheduled && b.tasks == 0 {
      var t :| OwnedBy(b, t);
      assert OwnedBy(r, t);
    }
    forall t | OwnedBy(r, t) ensures OwnedBy(b, t) {}
    forall i: nat | Running(b) && !b.failed && i < SLOTS && b.slots[i].Some? ensures Watched(r, i) {
      WatchSurvives(b, r, thread, i);
    }
  }

  /** A report changes nothing else. */
  lemma NoteKeepsInv(b: Bridge, report: Report)
    requires Inv(b)
    ensures Inv(Note(b, report))
  {
    var r := Note(b, report);
    forall t ensures OwnedBy(r, t) <==> OwnedBy(b, t) {}
    forall t, i: nat ensures CoveredBy(r, t, i) <==> CoveredBy(b, t, i) {}
    forall i: nat | Watched(b, i) ensures Watched(r, i) {
      if b.tasks == 0 {
        var t :| CoveredBy(b, t, i);
        assert CoveredBy(r, t, i);
      }
    }
  }

  lemma LeaveRunningKeepsInv(b: Bridge, phase: Phase)
    requires Inv(b) && !phase.BridgeRunning?
    ensures Inv(b.(phase := phase))
  {
    forall t | OwnedBy(b.(phase := phase), t) ensures OwnedBy(b, t) {}
    if b.scheduled && b.tasks == 0 {
      var t :| OwnedBy(b, t);
      assert OwnedBy(b.(phase := phase), t);
    }
  }

  // ------------------------------------------------------------------
  // request

  /** Whoever owns the flag watches every slot, so coalescing loses nothing. */
  lemma CoalesceKeepsInv(b: Bridge, thread: nat)
    requires Inv(b) && thread in b.threads && b.threads[thread].ReqSwap? && b.scheduled
    ensures Inv(Ends(b, thread))
  {
    if Running(b) && !b.failed {
      forall i: nat | i < SLOTS ensures WatchedWithout(b, thread, i) {
        if b.tasks == 0 {
          var t :| OwnedBy(b, t);
          assert t != thread && CoveredBy(b, t, i);
        }
      }
    }
    EndKeepsInv(b, thread);
  }

  lemma AcquireKeepsInv(b: Bridge, thread: nat)
    requires Inv(b) && thread in b.threads && b.threads[thread].ReqSwap? && !b.scheduled
    ensures Inv(Goes(b.(scheduled := true), thread, ReqSchedule))
  {
    var r := Goes(b.(scheduled := true), thread, ReqSchedule);
    assert OwnedBy(r, thread);
    forall t | OwnedBy(r, t) ensures t == thread {
      assert !OwnedBy(b, t);
    }
    forall i: nat | i < SLOTS ensures Watched(r, i) {
      assert CoveredBy(r, thread, i);
    }
  }

  lemma ScheduleKeepsInv(b: Bridge, thread: nat, scheduling: Option<ScheduleError>)
    requires Inv(b) && thread in b.threads && b.threads[thread].ReqSchedule?
    ensures Inv(ScheduleStep(b, thread, scheduling))
  {
    var r := ScheduleStep(b, thread, scheduling);
    assert OwnedBy(b, thread);
    assert b.tasks == 0 && b.scheduled;
    if scheduling.None? {
      forall t ensures !OwnedBy(r, t) {
        assert OwnedBy(r, t) ==> OwnedBy(b, t);
      }
      assert forall t :: t in r.threads && (r.threads[t].ReqFail? || r.threads[t].ReqReset?) ==> OwnedBy(r, t);
    } else {
      assert OwnedBy(r, thread);
      forall t | OwnedBy(r, t) ensures OwnedBy(b, t) {}
    }
  }

  /** The owner lowers the flag after a failure or on a stopped bridge. */
  lemma LowerKeepsInv(b: Bridge, thread: nat)
    requires Inv(b) && thread in b.threads && (b.threads[thread].ReqReset? || b.threads[thread].RunAbort?)
    ensures Inv(Ends(b.(scheduled := false), thread))
  {
    var r := Ends(b.(scheduled := false), thread);
    assert OwnedBy(b, thread);
    forall t ensures !OwnedBy(r, t) {
      assert OwnedBy(r, t) ==> OwnedBy(b, t) && t != thread;
    }
  }

  lemma StoreKeepsInv(b: Bridge, thread: nat)
    requires Inv(b) && thread in b.threads && b.threads[thread].Store?
    ensures Inv(StoreStep(b, thread, b.threads[thread].slot, b.threads[thread].generation))
  {
    var r := StoreStep(b, thread, b.threads[thread].slot, b.threads[thread].generation);
    forall t ensures OwnedBy(r, t) <==> OwnedBy(b, t) {}
    forall i: nat | i < SLOTS ensures Watched(r, i) {
      assert CoveredBy(r, thread, i);
    }
  }

  // ------------------------------------------------------------------
  // run_once

  lemma StartKeepsInv(b: Bridge, thread: nat)
    requires Inv(b) && thread !in b.threads && b.tasks > 0
    ensures Inv(Goes(b.(tasks := b.tasks - 1), thread, RunPhase))
  {
    var r := Goes(b.(tasks := b.tasks - 1), thread, RunPhase);
    assert OwnedBy(r, thread);
    forall t | OwnedBy(r, t) ensures t == thread {
      assert !OwnedBy(b, t);
    }
    forall i: nat | i < SLOTS ensures Watched(r, i) {
      assert CoveredBy(r, thread, i);
    }
  }

  lemma TakeKeepsInv(b: Bridge, thread: nat)
    requires Inv(b) && thread in b.threads && b.threads[thread].RunTake?
    ensures Inv(TakeStep(b, thread, b.threads[thread].slot))
  {
    var slot := b.threads[thread].slot;
    var r := TakeStep(b, thread, slot);
    forall t ensures OwnedBy(r, t) <==> OwnedBy(b, t) {}
    forall i: nat | i < SLOTS ensures Watched(r, i) {
      assert CoveredBy(r, thread, i);
    }
  }

  lemma RunResetKeepsInv(b: Bridge, thread: nat)
    requires Inv(b) && thread in b.threads && b.threads[thread].RunReset?
    ensures Inv(Goes(b.(scheduled := false), thread, RunRecheckPhase))
  {
    var r := Goes(b.(scheduled := false), thread, RunRecheckPhase);
    assert OwnedBy(b, thread);
    forall t ensures !OwnedBy(r, t) {
      assert OwnedBy(r, t) ==> OwnedBy(b, t) && t != thread;
    }
    forall i: nat | i < SLOTS ensures Watched(r, i) {
      assert CoveredBy(r, thread, i);
    }
  }

  /** A re-check leaves a slot unwatched only after finding it empty. */
  lemma RecheckKeepsInv(b: Bridge, thread: nat)
    requires Inv(b) && thread in b.threads && b.threads[thread].RunRecheck?
    ensures Inv(RecheckStep(b, thread, b.threads[thread].slot, b.threads[thread].found))
  {
    var slot, found := b.threads[thread].slot, b.threads[thread].found;
    var seen := found || b.slots[slot].Some?;
    if slot + 1 < SLOTS {
      GoKeepsInv(b, thread, RunRecheck(slot + 1, seen));
    } else if seen {
      GoKeepsInv(b, thread, ReqPhase);
    } else {
      forall i: nat | Running(b) && !b.failed && i < SLOTS && b.slots[i].Some?
        ensures WatchedWithout(b, thread, i)
      {
        assert Watched(b, i) && !CoveredBy(b, thread, i);
      }
      EndKeepsInv(b, thread);
    }
  }

  lemma DeliverKeepsInv(b: Bridge, thread: nat, outcome: Outcome)
    requires Inv(b) && thread in b.threads && b.threads[thread].RunDeliver?
    ensures Inv(DeliverStep(b, thread, b.threads[thread].slot, outcome))
  {
    var slot := b.threads[thread].slot;
    GoKeepsInv(b, thread, AfterSlot(slot));
    hide Inv;
    LeaveRunningKeepsInv(Goes(b, thread, AfterSlot(slot)), BridgeClosed);
    LeaveRunningKeepsInv(Goes(b, thread, AfterSlot(slot)), BridgeFaulted);
  }

  lemma FailKeepsInv(b: Bridge, thread: nat)
    requires Inv(b) && thread in b.threads && b.threads[thread].ReqFail?
    ensures Inv(FailStep(b, thread, b.threads[thread].error))
  {
    GoKeepsInv(b, thread, ReqReset);
    hide Inv;
    LeaveRunningKeepsInv(Goes(b, thread, ReqReset), BridgeClosed);
    LeaveRunningKeepsInv(Goes(b, thread, ReqReset), BridgeFaulted);
  }

  /** A thread that only checks the phase. */
  lemma PhaseCheckKeepsInv(b: Bridge, thread: nat)
    requires Inv(b) && thread in b.threads
    requires var pc := b.threads[thread]; pc.Gate? || pc.ReqPhase? || pc.RunPhase? || pc.RunRecheckPhase?
    ensures Inv(DoThread(b, thread, None, Delivered))
  {
    var pc := b.threads[thread];
    if Running(b) {
      GoKeepsInv(b, thread, if pc.Gate? then Store(pc.slot, pc.generation) else if pc.ReqPhase? then ReqSwap
                            else if pc.RunPhase? then RunTake(0) else RunRecheck(0, false));
    } else if pc.RunPhase? {
      GoKeepsInv(b, thread, RunAbort);
    } else {
      EndKeepsInv(b, thread);
    }
  }

  lemma ThreadKeepsInv(b: Bridge, thread: nat, scheduling: Option<ScheduleError>, outcome: Outcome)
    requires Inv(b) && thread in b.threads
    ensures Inv(DoThread(b, thread, scheduling, outcome))
  {
    hide OneOwner, Reasons, NothingLost, Newest;
    match b.threads[thread]
    case Gate(_, _) => PhaseCheckKeepsInv(b, thread);
    case Store(_, _) => StoreKeepsInv(b, thread);
    case ReqPhase => PhaseCheckKeepsInv(b, thread);
    case ReqSwap => if b.scheduled { CoalesceKeepsInv(b, thread); } else { AcquireKeepsInv(b, thread); }
    case ReqSchedule => ScheduleKeepsInv(b, thread, scheduling);
    case ReqFail(error) =>
      NoteKeepsInv(b, NotScheduled(error));
      FailKeepsInv(Note(b, NotScheduled(error)), thread);
    case ReqReset => LowerKeepsInv(b, thread);
    case RunPhase => PhaseCheckKeepsInv(b, thread);
    case RunAbort => LowerKeepsInv(b, thread);
    case RunTake(_) => TakeKeepsInv(b, thread);
    case RunDeliver(slot, generation) =>
      NoteKeepsInv(b, Answered(slot, generation, outcome));
      DeliverKeepsInv(Note(b, Answered(slot, generation, outcome)), thread, outcome);
    case RunReset => RunResetKeepsInv(b, thread);
    case RunRecheckPhase => PhaseCheckKeepsInv(b, thread);
    case RunRecheck(_, _) => RecheckKeepsInv(b, thread);
  }

  lemma StepKeepsInv(b: Bridge, e: Event)
    requires Inv(b)
    ensures Inv(Step(b, e))
  {
    match e
    case Publish(t, generation) => if t !in b.threads { GoKeepsInv(b, t, Store(SNAPSHOT, generation)); }
    case RequestTerminal(t, slot, generation) =>
      if t !in b.threads && 0 < slot < SLOTS { GoKeepsInv(b, t, Gate(slot, generation)); }
    case StartTask(t) => if t !in b.threads && b.tasks > 0 { StartKeepsInv(b, t); }
    case ThreadStep(t, scheduling, outcome) => if t in b.threads { ThreadKeepsInv(b, t, scheduling, outcome); }
    case DropBridge =>
      NoteKeepsInv(b, Dropped);
      LeaveRunningKeepsInv(Note(b, Dropped), BridgeClosed);
  }

  lemma {:induction false} RunKeepsInv(states: seq<Bridge>, k: nat)
    requires IsRun(states) && k < |states|
    ensures Inv(states[k])
  {
    hide OneOwner, Reasons, NothingLost, Newest;
    if k == 0 {
      InitialInv();
    } else {
      RunKeepsInv(states, k - 1);
      assert Linked(states, k - 1);
      var e :| Step(states[k - 1], e) == states[k];
      StepKeepsInv(states[k - 1], e);
    }
  }

  // ------------------------------------------------------------------
  // The promises

  /** While running, unless the last schedule call failed, whatever lies in a slot
      is watched: by a scheduled task, a publisher about to schedule one, or a
      `run_once` that has yet to re-check. */
  lemma NothingIsLost(states: seq<Bridge>, k: nat, i: nat)
    requires IsRun(states) && k < |states| && i < SLOTS
    requires states[k].phase.BridgeRunning? && !states[k].failed
    requires i < |states[k].slots| && states[k].slots[i].Some?
    ensures states[k].tasks > 0 || exists t :: t in states[k].threads && states[k].threads[t].Covers(i)
  {
    RunKeepsInv(states, k);
    assert Watched(states[k], i);
    if states[k].tasks == 0 {
      var t :| CoveredBy(states[k], t, i);
      assert t in states[k].threads && states[k].threads[t].Covers(i);
    }
  }

  /** Once every thread and task is done, a running bridge has handed over
      everything that was published. */
  lemma QuietBridgeIsEmpty(states: seq<Bridge>, k: nat)
    requires IsRun(states) && k < |states|
    requires states[k].phase.BridgeRunning? && !states[k].failed
    requires states[k].tasks == 0 && states[k].threads == map[]
    ensures states[k].slots == [None, None, None] && !states[k].scheduled
  {
    RunKeepsInv(states, k);
    var b := states[k];
    assert forall i: nat :: !Watched(b, i);
  }

  /** The flag is up exactly while it has an owner, and then it has one only. */
  lemma FlagHasOneOwner(states: seq<Bridge>, k: nat)
    requires IsRun(states) && k < |states|
    ensures var b := states[k];
            && b.tasks <= 1
            && (b.scheduled <==> b.tasks == 1 || exists t :: OwnedBy(b, t))
            && (forall t, u :: OwnedBy(b, t) && OwnedBy(b, u) ==> t == u && b.tasks == 0)
  {
    RunKeepsInv(states, k);
  }

  /** Each hand-over carries the newest of what was requested since the slot was
      last emptied: the last snapshot, the greatest terminal generation. */
  lemma HandoverIsNewest(states: seq<Bridge>, k: nat, h: Handover)
    requires IsRun(states) && k < |states| && h in states[k].log.handovers
    ensures h.generation in h.requested
    ensures h.slot == SNAPSHOT ==> h.generation == h.requested[|h.requested| - 1]
    ensures h.slot != SNAPSHOT ==> forall g :: g in h.requested ==> g <= h.generation
  {
    RunKeepsInv(states, k);
  }

  lemma StepNeverRestarts(b: Bridge, e: Event)
    requires Shaped(b) && !Running(b)
    ensures !Running(Step(b, e))
  {
    if e.ThreadStep? && e.thread in b.threads {
      match b.threads[e.thread]
      case ReqFail(_) =>
      case RunDeliver(_, _) =>
      case _ =>
    }
  }

  /** A bridge that stopped running never runs again. */
  lemma {:induction false} RunningIsNeverReentered(states: seq<Bridge>, i: nat, j: nat)
    requires IsRun(states) && i <= j < |states| && !states[i].phase.BridgeRunning?
    ensures !states[j].phase.BridgeRunning?
  {
    if i < j {
      RunningIsNeverReentered(states, i, j - 1);
      assert Linked(states, j - 1);
      var e :| Step(states[j - 1], e) == states[j];
      StepNeverRestarts(states[j - 1], e);
    }
  }
}
