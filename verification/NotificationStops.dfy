/** What the lease protocol does for a reason, and what it does after a stop. */
module NotificationStops {
  import opened Prelude
  import opened Notifications
  import opened NotificationTheorems
  import opened NotificationProgress

  // ------------------------------------------------------------------
  // A presented batch is not given back lightly

  /** Why the worker releases the lease it acts on. */
  ghost predicate Justified(s: System) {
    && (ReleasesFailed(s.worker) && s.worker.ActsOn().Some? ==>
          s.worker.goal.lease in s.leases.firstCall && s.leases.firstCall[s.worker.goal.lease].Failed?)
    && ((s.worker.RelLoad? || s.worker.RelPort? || s.worker.RelRetry?) && s.worker.goal.OnAckError? ==>
          s.worker.goal.lease in s.leases.unacknowledged)
    && (s.worker.RelClear? && !s.worker.goal.OnExit? ==> s.worker.goal.lease in s.leases.released)
    && (!s.signal.stopping ==>
          forall k :: k in s.leases.released ==>
            (k in s.leases.firstCall && s.leases.firstCall[k].Failed?) || k in s.leases.unacknowledged)
  }

  /** A step that releases nothing before a stop and gives the worker no lease. */
  lemma QuietKeepsJustified(s: System, r: System)
    requires Justified(s) && (s.signal.stopping ==> r.signal.stopping)
    requires r.signal.stopping || r.leases.released == s.leases.released
    requires r.leases.unacknowledged == s.leases.unacknowledged && s.leases.released <= r.leases.released
    requires r.worker.RelClear? ==> r.worker == s.worker
    requires forall k :: k in s.leases.firstCall ==>
               k in r.leases.firstCall && r.leases.firstCall[k] == s.leases.firstCall[k]
    requires r.worker == s.worker || (r.worker.ActsOn().Some? ==> r.worker.Acknowledges() || r.worker.goal.OnStop?)
             || (r.worker.ActsOn().Some? && s.worker.ActsOn().Some? && !s.worker.Acknowledges()
                 && r.worker.goal == s.worker.goal)
    ensures Justified(r)
  {
  }

  lemma WorkerKeepsJustified(s: System, reply: PortReply, timedOut: bool)
    requires Inv(s) && AllAttended(s) && Justified(s)
    ensures Justified(DoWorker(s, reply, timedOut))
  {
    hide Inv, AllAttended, Justified, WorkerWaits, WorkerAcknowledges, WorkerReleases;
    match s.worker
    case Waiting => TakingIsJustified(s);
    case AckCheck(lease) => QuietKeepsJustified(s, WorkerChecksStop(s, lease));
    case Acking(lease) => AckErrorIsJustified(s, lease, reply);
    case AckRetry(lease) => QuietKeepsJustified(s, WorkerRetriesAck(s, lease, timedOut));
    case AckClear => QuietKeepsJustified(s, WorkerClears(s, Waiting));
    case RelLoad(goal) => QuietKeepsJustified(s, WorkerLoadsFlag(s, goal));
    case RelPort(goal) => ReleaseIsJustified(s, goal, reply);
    case RelRetry(goal) => QuietKeepsJustified(s, WorkerRetriesRelease(s, goal, timedOut));
    case RelClear(goal) => QuietKeepsJustified(s, WorkerClears(s, AfterRelease(goal, true)));
    case PresentWait => QuietKeepsJustified(s, WorkerWaitsToPresent(s, timedOut));
    case PresenterCheck => QuietKeepsJustified(s, WorkerFindsPresenter(s));
    case Pumping => QuietKeepsJustified(s, WorkerPumps(s));
    case Done =>
  }

  lemma TakingIsJustified(s: System)
    requires Inv(s) && Justified(s) && s.worker.Waiting?
    ensures Justified(WorkerWaits(s))
  {
    hide OneOwner, Order, Current, Endings;
  }

  lemma AckErrorIsJustified(s: System, lease: nat, reply: PortReply)
    requires Inv(s) && Justified(s) && s.worker == Acking(lease)
    ensures Justified(WorkerAcknowledges(s, lease, reply))
  {
    assert lease in s.leases.outstanding;
  }

  lemma ReleaseIsJustified(s: System, goal: Goal, reply: PortReply)
    requires Inv(s) && AllAttended(s) && Justified(s) && s.worker == RelPort(goal)
    ensures Justified(WorkerReleases(s, goal, reply))
  {
    if !s.signal.stopping && s.leases.outstanding != {} {
      assert !goal.OnExit? && !goal.OnStop?;
      assert s.leases.outstanding == {goal.lease};
    }
  }

  lemma StepKeepsJustified(s: System, e: Event)
    requires Inv(s) && AllAttended(s) && Justified(s)
    ensures Justified(Step(s, e))
  {
    hide OneOwner, Order, Endings, AllAttended, Justified, DoWorker;
    match e
    case PumpCall(_) => QuietKeepsJustified(s, Step(s, e));
    case PumpStep(t, reply, presented) => if t in s.pumps { PumpIsJustified(s, t, reply, presented); }
    case ReceiptCall(lease, _) =>
      assert lease in s.leases.receipts && !s.leases.receipts[lease] ==> lease !in s.leases.firstCall;
      QuietKeepsJustified(s, Step(s, e));
    case SubmitAction(_) => QuietKeepsJustified(s, Step(s, e));
    case WorkerStep(reply, timedOut) => WorkerKeepsJustified(s, reply, timedOut);
    case ShutdownCall => QuietKeepsJustified(s, Step(s, e));
    case ShutdownStep(_) => ShutdownIsJustified(s, e);
  }

  lemma PumpIsJustified(s: System, t: nat, reply: PortReply, presented: bool)
    requires Inv(s) && Justified(s) && t in s.pumps
    ensures Justified(DoPump(s, t, reply, presented))
  {
    PumpKeepsHistory(s, t, reply, presented);
    hide Inv, Justified, DoPump;
    QuietKeepsJustified(s, DoPump(s, t, reply, presented));
  }

  lemma PumpKeepsHistory(s: System, t: nat, reply: PortReply, presented: bool)
    requires Inv(s) && t in s.pumps
    ensures var r := DoPump(s, t, reply, presented);
            && r.signal.stopping == s.signal.stopping && r.worker == s.worker
            && (s.signal.stopping || r.leases.released == s.leases.released)
            && r.leases.unacknowledged == s.leases.unacknowledged
            && (forall k :: k in s.leases.firstCall ==>
                  k in r.leases.firstCall && r.leases.firstCall[k] == s.leases.firstCall[k])
  {
    match s.pumps[t]
    case ReleasePort => assert s.signal.stopping;
    case Failing(lease) =>
      assert lease in s.leases.receipts && !s.leases.receipts[lease] ==> lease !in s.leases.firstCall;
    case _ =>
  }

  lemma ShutdownIsJustified(s: System, e: Event)
    requires Inv(s) && Justified(s) && e.ShutdownStep?
    ensures Justified(Step(s, e))
  {
    assert s.shutdown.ShutPort? ==> s.signal.stopping;
    hide Inv, Justified;
    QuietKeepsJustified(s, Step(s, e));
  }

  lemma {:induction false} RunKeepsJustified(states: seq<System>, k: nat)
    requires IsRun(states) && k < |states|
    ensures Justified(states[k])
  {
    hide Inv, Step, AllAttended;
    if k > 0 {
      hide Justified, Initial;
      RunKeepsJustified(states, k - 1);
      RunKeepsInv(states, k - 1);
      RunKeepsAttended(states, k - 1);
      assert Linked(states, k - 1);
      var e :| Step(states[k - 1], e) == states[k];
      StepKeepsJustified(states[k - 1], e);
    }
  }

  /** Until a stop, a lease is released only if its batch failed, or the port
      refused for good to acknowledge it: errors that may pass are waited out. */
  lemma ReleasedForAReason(states: seq<System>, k: nat, lease: nat)
    requires IsRun(states) && k < |states| && !states[k].signal.stopping && lease in states[k].leases.released
    ensures || (lease in states[k].leases.firstCall && states[k].leases.firstCall[lease].Failed?)
            || lease in states[k].leases.unacknowledged
  {
    RunKeepsJustified(states, k);
  }

  // ------------------------------------------------------------------
  // After a stop

  /** Past the check of the stop flag and before the lease is taken. */
  predicate MayTake(pc: PumpPc) {
    pc.CasInFlight? || pc.Take?
  }

  ghost predicate NobodyTakes(s: System) {
    s.signal.stopping && forall t :: t in s.pumps ==> !MayTake(s.pumps[t])
  }

  lemma StepAfterStop(s: System, e: Event)
    requires s.signal.stopping
    ensures var r := Step(s, e);
            && r.signal.stopping && r.leases.receipts.Keys == s.leases.receipts.Keys
            && r.signal.action == s.signal.action
            && (!s.worker.Acking? ==> !r.worker.Acking? && r.leases.acknowledged == s.leases.acknowledged)
            && (NobodyTakes(s) ==> NobodyTakes(r) && r.leases.next == s.leases.next)
  {
    if e.PumpStep? && e.thread in s.pumps {
      PumpAfterStop(s, e);
    } else if e.WorkerStep? {
      WorkerAfterStop(s, e);
    }
  }

  lemma PumpAfterStop(s: System, e: Event)
    requires s.signal.stopping && e.PumpStep? && e.thread in s.pumps
    ensures var r := Step(s, e);
            && r.signal.stopping && r.leases.receipts.Keys == s.leases.receipts.Keys
            && r.signal.action == s.signal.action
            && (!s.worker.Acking? ==> !r.worker.Acking? && r.leases.acknowledged == s.leases.acknowledged)
            && (NobodyTakes(s) ==> NobodyTakes(r) && r.leases.next == s.leases.next)
  {
    match s.pumps[e.thread]
    case Failing(_) =>
    case _ =>
  }

  lemma WorkerAfterStop(s: System, e: Event)
    requires s.signal.stopping && e.WorkerStep?
    ensures var r := Step(s, e);
            && r.signal.stopping && r.leases.receipts == s.leases.receipts && r.signal.action == s.signal.action
            && (!s.worker.Acking? ==> !r.worker.Acking? && r.leases.acknowledged == s.leases.acknowledged)
            && (NobodyTakes(s) ==> NobodyTakes(r) && r.leases.next == s.leases.next)
  {
    match s.worker
    case PresenterCheck =>
    case _ =>
  }

  /** Once a stop is announced no batch is given to the presenter any more, the
      slot takes no action, no acknowledgement begins, and no lease is taken but by
      a pump that had passed its check before. */
  lemma {:induction false} NothingIsPresentedAfterStop(states: seq<System>, i: nat, j: nat)
    requires IsRun(states) && i <= j < |states| && states[i].signal.stopping
    ensures states[j].signal.stopping && states[j].leases.receipts.Keys == states[i].leases.receipts.Keys
    ensures states[j].signal.action == states[i].signal.action
    ensures !states[i].worker.Acking? ==>
              !states[j].worker.Acking? && states[j].leases.acknowledged == states[i].leases.acknowledged
    ensures NobodyTakes(states[i]) ==> NobodyTakes(states[j]) && states[j].leases.next == states[i].leases.next
    decreases j
  {
    hide Step, Initial, NobodyTakes;
    if i < j {
      NothingIsPresentedAfterStop(states, i, j - 1);
      assert Linked(states, j - 1);
      var e :| Step(states[j - 1], e) == states[j];
      StepAfterStop(states[j - 1], e);
    }
  }

  /** A pump that took a lease and then sees the stop gives the lease back. */
  lemma StoppedPumpGivesBack(states: seq<System>, t: nat) returns (longer: seq<System>)
    requires IsRun(states)
    requires var s := states[|states| - 1];
             s.signal.stopping && t in s.pumps && s.pumps[t].StopRecheck? && s.pumps[t].lease in s.leases.outstanding
    ensures IsRun(longer) && states <= longer
    ensures var s, r := states[|states| - 1], longer[|longer| - 1];
            s.pumps[t].lease in r.leases.released && !r.signal.inFlight && t !in r.pumps
  {
    RunKeepsInv(states, |states| - 1);
    hide IsRun, DoWorker;
    longer := Extend(states, PumpStep(t, Granted, true));
    longer := Extend(longer, PumpStep(t, Granted, true));
    longer := Extend(longer, PumpStep(t, Granted, true));
    longer := Extend(longer, PumpStep(t, Granted, true));
  }

  // ------------------------------------------------------------------
  // A refused acknowledgement is final

  ghost predicate RefusalStands(s: System) {
    forall k :: k in s.leases.unacknowledged ==>
      && Spent(s, k) && k !in s.leases.submitting && (s.signal.action.Some? ==> s.signal.action.value.lease != k)
      && k !in s.leases.acknowledged && !(s.worker.Acknowledges() && s.worker.lease == k)
  }

  lemma PumpKeepsRefusal(s: System, t: nat, reply: PortReply, presented: bool)
    requires Inv(s) && RefusalStands(s) && t in s.pumps
    ensures RefusalStands(DoPump(s, t, reply, presented))
  {
    hide OneOwner, Order, Current, Endings;
    match s.pumps[t]
    case StopRecheck(_) =>
    case Failing(_) =>
    case _ =>
  }

  lemma ErrorIsNoted(s: System, lease: nat)
    requires Inv(s) && RefusalStands(s) && s.worker == Acking(lease)
    ensures RefusalStands(WorkerAcknowledges(s, lease, PermanentError))
  {
    assert s.leases.outstanding == {lease};
  }

  /** The worker moves without being refused; what it acknowledges it already did
      or took from the slot. */
  lemma MoveKeepsRefusal(s: System, r: System)
    requires RefusalStands(s)
    requires r.leases == s.leases.(released := r.leases.released, outstanding := r.leases.outstanding,
                                   refused := r.leases.refused)
    requires r.signal.action == s.signal.action || r.signal.action.None?
    requires r.worker.Acknowledges() ==>
               || (s.worker.Acknowledges() && r.worker.lease == s.worker.lease)
               || (s.signal.action.Some? && r.worker.lease == s.signal.action.value.lease)
    ensures RefusalStands(r)
  {
  }

  lemma WorkerKeepsRefusal(s: System, reply: PortReply, timedOut: bool)
    requires Inv(s) && RefusalStands(s)
    ensures RefusalStands(DoWorker(s, reply, timedOut))
  {
    hide Inv, RefusalStands;
    match s.worker
    case Waiting => MoveKeepsRefusal(s, WorkerWaits(s));
    case AckCheck(lease) => MoveKeepsRefusal(s, WorkerChecksStop(s, lease));
    case Acking(lease) =>
      if reply.PermanentError? { ErrorIsNoted(s, lease); } else { AckKeepsRefusal(s, lease, reply); }
    case AckRetry(lease) => MoveKeepsRefusal(s, WorkerRetriesAck(s, lease, timedOut));
    case AckClear => MoveKeepsRefusal(s, WorkerClears(s, Waiting));
    case RelLoad(goal) => MoveKeepsRefusal(s, WorkerLoadsFlag(s, goal));
    case RelPort(goal) => MoveKeepsRefusal(s, WorkerReleases(s, goal, reply));
    case RelRetry(goal) => MoveKeepsRefusal(s, WorkerRetriesRelease(s, goal, timedOut));
    case RelClear(goal) => MoveKeepsRefusal(s, WorkerClears(s, AfterRelease(goal, true)));
    case PresentWait => MoveKeepsRefusal(s, WorkerWaitsToPresent(s, timedOut));
    case PresenterCheck => MoveKeepsRefusal(s, WorkerFindsPresenter(s));
    case Pumping => MoveKeepsRefusal(s, WorkerPumps(s));
    case Done =>
  }

  lemma AckKeepsRefusal(s: System, lease: nat, reply: PortReply)
    requires Inv(s) && RefusalStands(s) && s.worker == Acking(lease) && !reply.PermanentError?
    ensures RefusalStands(WorkerAcknowledges(s, lease, reply))
  {
    assert s.leases.outstanding == {lease};
  }

  lemma StepKeepsRefusal(s: System, e: Event)
    requires Inv(s) && RefusalStands(s)
    ensures RefusalStands(Step(s, e))
  {
    hide OneOwner, Order, Current, Endings, DoPump, DoWorker;
    match e
    case PumpCall(_) =>
    case PumpStep(t, reply, presented) => if t in s.pumps { PumpKeepsRefusal(s, t, reply, presented); }
    case ReceiptCall(_, _) =>
    case SubmitAction(_) =>
    case WorkerStep(reply, timedOut) => WorkerKeepsRefusal(s, reply, timedOut);
    case ShutdownCall =>
    case ShutdownStep(_) =>
  }

  /** In every run a lease whose acknowledgement the port refused for good is never
      acknowledged. */
  lemma {:induction false} RefusedIsNeverAcknowledged(states: seq<System>, k: nat)
    requires IsRun(states) && k < |states|
    ensures RefusalStands(states[k]) && states[k].leases.unacknowledged !! states[k].leases.acknowledged
  {
    if k > 0 {
      hide Inv, Step, Initial;
      RefusedIsNeverAcknowledged(states, k - 1);
      RunKeepsInv(states, k - 1);
      assert Linked(states, k - 1);
      var e :| Step(states[k - 1], e) == states[k];
      StepKeepsRefusal(states[k - 1], e);
    }
  }

  /** The worker presents again only after it has released the failed lease. */
  lemma PresentsAgainOnlyAfterRelease(states: seq<System>, k: nat)
    requires IsRun(states) && k + 1 < |states| && states[k + 1].worker.PresentWait? && !states[k].worker.PresentWait?
    ensures states[k].worker.RelClear? && states[k].worker.goal.OnFailed?
    ensures states[k].worker.goal.lease in states[k].leases.released && !states[k + 1].signal.inFlight
  {
    RunKeepsJustified(states, k);
    assert Linked(states, k);
    var e :| Step(states[k], e) == states[k + 1];
    WaitingToPresentFollows(states[k], e);
  }

  lemma WaitingToPresentFollows(s: System, e: Event)
    requires Step(s, e).worker.PresentWait? && !s.worker.PresentWait?
    ensures s.worker.RelClear? && s.worker.goal.OnFailed? && !Step(s, e).signal.inFlight
  {
    hide DoPump;
    if e.WorkerStep? {
      match s.worker
      case RelClear(_) =>
      case _ =>
    }
  }

  // ------------------------------------------------------------------
  // The flag is up for a reason

  ghost predicate HeldBy(s: System, t: nat) {
    t in s.pumps && s.pumps[t].Holds()
  }

  /** A lease is out, or somebody is about to take one or to lower the flag. */
  ghost predicate FlagHasReason(s: System) {
    s.signal.inFlight ==>
      || s.leases.outstanding != {} || s.worker.Clears() || s.shutdown.ShutClear? || exists t :: HeldBy(s, t)
  }

  /** Pumps other than `thread` keep holding. */
  lemma PumpKeepsReason(s: System, thread: nat, reply: PortReply, presented: bool)
    requires Inv(s) && FlagHasReason(s) && thread in s.pumps
    ensures FlagHasReason(DoPump(s, thread, reply, presented))
  {
    var r := DoPump(s, thread, reply, presented);
    forall t | t != thread && HeldBy(s, t) ensures HeldBy(r, t) {}
    match s.pumps[thread]
    case CasInFlight => assert !s.signal.inFlight ==> HeldBy(r, thread);
    case Take => assert reply.Granted? || HeldBy(r, thread);
    case ReleasePort => assert ReleaseSucceeds(s, reply) ==> HeldBy(r, thread);
    case _ =>
  }

  lemma WorkerKeepsPumps(s: System, reply: PortReply, timedOut: bool)
    requires Inv(s)
    ensures forall t :: HeldBy(s, t) ==> HeldBy(DoWorker(s, reply, timedOut), t)
  {
    assert 0 in s.pumps ==> s.worker.Pumping?;
    hide Inv;
    match s.worker
    case PresenterCheck =>
    case _ =>
  }

  lemma WorkerKeepsReason(s: System, reply: PortReply, timedOut: bool)
    requires Inv(s) && FlagHasReason(s)
    ensures FlagHasReason(DoWorker(s, reply, timedOut))
  {
    WorkerKeepsPumps(s, reply, timedOut);
    hide Inv, HeldBy;
    match s.worker
    case Acking(_) =>
    case AckClear =>
    case RelPort(_) =>
    case RelClear(_) =>
    case _ =>
  }

  lemma StepKeepsReason(s: System, e: Event)
    requires Inv(s) && FlagHasReason(s)
    ensures FlagHasReason(Step(s, e))
  {
    match e
    case PumpStep(t, reply, presented) => if t in s.pumps { PumpKeepsReason(s, t, reply, presented); }
    case WorkerStep(reply, timedOut) => WorkerKeepsReason(s, reply, timedOut);
    case _ =>
      hide Inv;
      forall t | HeldBy(s, t) ensures HeldBy(Step(s, e), t) {}
  }

  /** In every run the in-flight flag is up only while a lease is out, or somebody
      is about to take one or to lower the flag: it is never left behind. */
  lemma {:induction false} FlagIsUpForAReason(states: seq<System>, k: nat)
    requires IsRun(states) && k < |states|
    ensures FlagHasReason(states[k])
  {
    if k > 0 {
      hide Inv, Step, Initial, FlagHasReason;
      FlagIsUpForAReason(states, k - 1);
      RunKeepsInv(states, k - 1);
      assert Linked(states, k - 1);
      var e :| Step(states[k - 1], e) == states[k];
      StepKeepsReason(states[k - 1], e);
    }
  }

  // ------------------------------------------------------------------
  // The worker leaves after a stop

  /** Worker steps left until it is gone, once a stop is announced. */
  function ToLeave(pc: WorkerPc): nat {
    match pc
    case Done => 0
    case RelClear(goal) => if goal.OnExit? then 1 else 6
    case RelPort(goal) => if goal.OnExit? then 2 else 7
    case RelLoad(goal) => if goal.OnExit? then 3 else 8
    case Waiting => 4
    case AckClear => 5
    case PresentWait => 5
    case PresenterCheck => 5
    case Pumping => 5
    case RelRetry(_) => 6
    case AckRetry(_) => 9
    case AckCheck(_) => 9
    case Acking(_) => 10
  }

  /** Whatever the port answers and however long the waits are, every step of the
      worker after a stop brings it nearer to leaving; only its own pump may hold
      it up. */
  lemma StoppedWorkerLeaves(states: seq<System>, k: nat, reply: PortReply, timedOut: bool)
    requires IsRun(states) && k < |states| && states[k].signal.stopping && !states[k].worker.Done?
    requires states[k].worker.Pumping? ==> 0 !in states[k].pumps
    ensures var r := Step(states[k], WorkerStep(reply, timedOut));
            r.signal.stopping && ToLeave(r.worker) < ToLeave(states[k].worker)
  {
    RunKeepsInv(states, k);
    WorkerRetriesOnlyFor(states, k);
    assert !states[k].signal.presenter;
    hide OneOwner, Order, Parties, Current, Endings;
    StoppedStepLeaves(states[k], reply, timedOut);
  }

  lemma StoppedStepLeaves(s: System, reply: PortReply, timedOut: bool)
    requires s.signal.stopping && !s.signal.presenter && !s.worker.Done? && (s.worker.Pumping? ==> 0 !in s.pumps)
    requires s.worker.RelRetry? ==> s.worker.goal.Retries()
    ensures ToLeave(DoWorker(s, reply, timedOut).worker) < ToLeave(s.worker)
  {
    match s.worker
    case Waiting =>
    case AckCheck(_) =>
    case Acking(_) =>
    case AckRetry(_) =>
    case AckClear =>
    case RelLoad(_) =>
    case RelPort(_) =>
    case RelRetry(_) =>
    case RelClear(_) =>
    case PresentWait =>
    case PresenterCheck =>
    case Pumping =>
  }

  /** A release is retried only on behalf of a receipt. */
  lemma {:induction false} WorkerRetriesOnlyFor(states: seq<System>, k: nat)
    requires IsRun(states) && k < |states|
    ensures states[k].worker.RelRetry? ==> states[k].worker.goal.Retries()
  {
    if k > 0 {
      WorkerRetriesOnlyFor(states, k - 1);
      assert Linked(states, k - 1);
      var e :| Step(states[k - 1], e) == states[k];
      RetryNeedsReason(states[k - 1], e);
      hide Step;
    }
  }

  lemma RetryNeedsReason(s: System, e: Event)
    requires s.worker.RelRetry? ==> s.worker.goal.Retries()
    ensures Step(s, e).worker.RelRetry? ==> Step(s, e).worker.goal.Retries()
  {
    hide DoPump;
    if e.WorkerStep? {
      match s.worker
      case RelPort(_) =>
      case _ =>
    }
  }

  /** A waiting worker that sees the stop gives back the lease that is out. */
  lemma StoppedWorkerGivesBack(states: seq<System>) returns (longer: seq<System>)
    requires IsRun(states)
    requires var s := states[|states| - 1];
             s.signal.stopping && s.worker.Waiting? && s.leases.outstanding != {}
    ensures IsRun(longer) && states <= longer
    ensures var s, r := states[|states| - 1], longer[|longer| - 1];
            && r.worker.Done? && r.leases.outstanding == {} && !r.signal.inFlight
            && s.leases.outstanding <= r.leases.released
  {
    RunKeepsInv(states, |states| - 1);
    hide IsRun, DoPump;
    longer := Extend(states, WorkerStep(Granted, true));
    longer := Extend(longer, WorkerStep(Granted, true));
    longer := Extend(longer, WorkerStep(Granted, true));
    longer := Extend(longer, WorkerStep(Granted, true));
  }
}
