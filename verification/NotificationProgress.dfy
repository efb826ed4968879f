/** Until a stop somebody attends to every lease that is out, and an action in
    the slot is carried out. */
module NotificationProgress {
  import opened Prelude
  import opened Notifications
  import opened NotificationTheorems

  // ------------------------------------------------------------------
  // Who attends to a lease

  ghost predicate TakenBy(s: System, t: nat, lease: nat) {
    t in s.pumps && s.pumps[t] == StopRecheck(lease)
  }

  /** The receipt is unspent, or its call is on the way to the slot or in it. */
  predicate Receipted(s: System, lease: nat) {
    || (lease in s.leases.receipts && !s.leases.receipts[lease])
    || lease in s.leases.submitting
    || (s.signal.action.Some? && s.signal.action.value.lease == lease)
  }

  /** A pump has yet to make the lease's receipt; the receipt is unspent; its call
      is on the way to the slot or in it; or the worker acts on it. */
  ghost predicate Attended(s: System, lease: nat) {
    (exists t :: TakenBy(s, t, lease)) || Receipted(s, lease) || s.worker.ActsOn() == Some(lease)
  }

  /** Unless the port refused to release it for good. */
  ghost predicate AllAttended(s: System) {
    && ((s.worker.RelLoad? || s.worker.RelPort? || s.worker.RelRetry?) && s.worker.goal.OnStop? ==> s.signal.stopping)
    && (!s.signal.stopping ==>
          forall lease :: lease in s.leases.outstanding ==> Attended(s, lease) || lease in s.leases.refused)
  }

  /** A step that takes no lease out and leaves whoever attends to one. */
  lemma OthersAttend(s: System, r: System)
    requires AllAttended(s)
    requires s.signal.stopping ==> r.signal.stopping
    requires (r.worker.RelLoad? || r.worker.RelPort? || r.worker.RelRetry?) && r.worker.goal.OnStop? ==>
               r.signal.stopping
    requires r.leases.outstanding <= s.leases.outstanding && s.leases.refused <= r.leases.refused
    requires forall lease :: lease in r.leases.outstanding && Attended(s, lease) && !r.signal.stopping ==>
               Attended(r, lease) || lease in r.leases.refused
    ensures AllAttended(r)
  {
    hide Attended;
  }

  /** A pump moves on; a lease it held has its receipt, or a stop was announced. */
  lemma PumpMoveKeepsAttended(s: System, r: System, thread: nat)
    requires AllAttended(s) && thread in s.pumps && r.signal.stopping == s.signal.stopping
    requires r.signal.action == s.signal.action && r.worker == s.worker
    requires s.leases.submitting.Keys <= r.leases.submitting.Keys
    requires forall k :: k in s.leases.receipts && !s.leases.receipts[k] ==>
               (k in r.leases.receipts && !r.leases.receipts[k]) || k in r.leases.submitting
    requires forall t :: t != thread && t in s.pumps ==> t in r.pumps && r.pumps[t] == s.pumps[t]
    requires s.pumps[thread].StopRecheck? && !s.signal.stopping ==>
               s.pumps[thread].lease in r.leases.receipts && !r.leases.receipts[s.pumps[thread].lease]
    requires r.leases.outstanding <= s.leases.outstanding && s.leases.refused <= r.leases.refused
    ensures AllAttended(r)
  {
    forall t, lease | t != thread && TakenBy(s, t, lease) ensures TakenBy(r, t, lease) {}
    OthersAttend(s, r);
  }

  lemma PumpKeepsAttended(s: System, thread: nat, reply: PortReply, presented: bool)
    requires Inv(s) && AllAttended(s) && thread in s.pumps
    ensures AllAttended(DoPump(s, thread, reply, presented))
  {
    hide Inv, AllAttended;
    match s.pumps[thread]
    case StopCheck => PumpMoveKeepsAttended(s, PumpChecksStop(s, thread), thread);
    case CasInFlight => PumpMoveKeepsAttended(s, PumpRaisesFlag(s, thread), thread);
    case Take => if reply.Granted? { TakerAttends(s, thread); }
                 else { PumpMoveKeepsAttended(s, PumpTakes(s, thread, reply), thread); }
    case ClearUntaken => PumpMoveKeepsAttended(s, PumpClears(s, thread), thread);
    case StopRecheck(lease) => PumpMoveKeepsAttended(s, PumpRechecksStop(s, thread, lease), thread);
    case ReleaseLoad => PumpMoveKeepsAttended(s, PumpLoadsFlag(s, thread), thread);
    case ReleasePort => PumpMoveKeepsAttended(s, PumpReleases(s, thread, reply), thread);
    case ReleaseClear => PumpMoveKeepsAttended(s, PumpClears(s, thread), thread);
    case Presenting(lease) => PumpMoveKeepsAttended(s, PumpPresents(s, thread, lease, presented), thread);
    case Failing(lease) => PumpMoveKeepsAttended(s, PumpFails(s, thread, lease), thread);
  }

  lemma TakerAttends(s: System, thread: nat)
    requires Inv(s) && AllAttended(s) && thread in s.pumps && s.pumps[thread].Take?
    ensures AllAttended(PumpTakes(s, thread, Granted))
  {
    var r := PumpTakes(s, thread, Granted);
    assert s.leases.outstanding == {};
    assert TakenBy(r, thread, s.leases.next);
  }

  lemma SpendKeepsAttended(s: System, lease: nat, action: Action)
    requires AllAttended(s)
    ensures AllAttended(SpendReceipt(s, lease, action))
  {
    var r := SpendReceipt(s, lease, action);
    forall t, k | TakenBy(s, t, k) ensures TakenBy(r, t, k) {}
    OthersAttend(s, r);
  }

  lemma SubmitKeepsAttended(s: System, lease: nat)
    requires Inv(s) && AllAttended(s) && lease in s.leases.submitting
    ensures AllAttended(DoSubmit(s, lease))
  {
    var r := DoSubmit(s, lease);
    forall t, k | TakenBy(s, t, k) ensures TakenBy(r, t, k) {}
    assert !s.signal.stopping ==> s.signal.action.None?;
    OthersAttend(s, r);
  }

  /** The worker moves on; it keeps its lease, ends it, or was refused for good. */
  lemma WorkerMoveKeepsAttended(s: System, r: System)
    requires AllAttended(s) && r.signal.stopping == s.signal.stopping
    requires || r.signal.action == s.signal.action
             || (s.signal.action.Some? && r.worker.ActsOn() == Some(s.signal.action.value.lease))
    requires r.leases.receipts == s.leases.receipts && r.leases.submitting == s.leases.submitting
    requires forall t :: t in s.pumps && s.pumps[t].StopRecheck? ==> t in r.pumps && r.pumps[t] == s.pumps[t]
    requires (r.worker.RelLoad? || r.worker.RelPort? || r.worker.RelRetry?) && r.worker.goal.OnStop? ==>
               r.signal.stopping
    requires r.leases.outstanding <= s.leases.outstanding && s.leases.refused <= r.leases.refused
    requires s.worker.ActsOn().None? || s.signal.stopping || r.worker.ActsOn() == s.worker.ActsOn()
             || s.worker.ActsOn().value !in r.leases.outstanding || s.worker.ActsOn().value in r.leases.refused
    ensures AllAttended(r)
  {
    forall t, lease | TakenBy(s, t, lease) ensures TakenBy(r, t, lease) {}
    OthersAttend(s, r);
  }

  lemma ReleaseKeepsAttended(s: System, goal: Goal, reply: PortReply)
    requires Inv(s) && AllAttended(s) && s.worker == RelPort(goal)
    ensures AllAttended(WorkerReleases(s, goal, reply))
  {
    assert s.worker.ActsOn().Some? ==> s.worker.ActsOn().value in s.leases.outstanding;
    WorkerMoveKeepsAttended(s, WorkerReleases(s, goal, reply));
  }

  lemma LoadKeepsAttended(s: System, goal: Goal)
    requires Inv(s) && AllAttended(s) && s.worker == RelLoad(goal)
    ensures AllAttended(WorkerLoadsFlag(s, goal))
  {
    assert s.worker.ActsOn().Some? ==> s.signal.inFlight;
    WorkerMoveKeepsAttended(s, WorkerLoadsFlag(s, goal));
  }

  /** No thread but the worker's own pump is at place 0. */
  lemma PresentKeepsAttended(s: System, timedOut: bool)
    requires Inv(s) && AllAttended(s)
    ensures s.worker.PresentWait? ==> AllAttended(WorkerWaitsToPresent(s, timedOut))
    ensures s.worker.PresenterCheck? ==> AllAttended(WorkerFindsPresenter(s))
    ensures s.worker.Pumping? ==> AllAttended(WorkerPumps(s))
  {
    assert 0 in s.pumps ==> s.worker.Pumping?;
    hide Inv;
    if s.worker.PresentWait? {
      WorkerMoveKeepsAttended(s, WorkerWaitsToPresent(s, timedOut));
    } else if s.worker.PresenterCheck? {
      WorkerMoveKeepsAttended(s, WorkerFindsPresenter(s));
    } else if s.worker.Pumping? {
      WorkerMoveKeepsAttended(s, WorkerPumps(s));
    }
  }

  lemma WorkerKeepsAttended(s: System, reply: PortReply, timedOut: bool)
    requires Inv(s) && AllAttended(s)
    ensures AllAttended(DoWorker(s, reply, timedOut))
  {
    hide Inv, WorkerLoadsFlag, WorkerReleases, WorkerWaitsToPresent, WorkerFindsPresenter, WorkerPumps;
    match s.worker
    case Waiting => WorkerMoveKeepsAttended(s, WorkerWaits(s));
    case AckCheck(lease) => WorkerMoveKeepsAttended(s, WorkerChecksStop(s, lease));
    case Acking(lease) => WorkerMoveKeepsAttended(s, WorkerAcknowledges(s, lease, reply));
    case AckRetry(lease) => WorkerMoveKeepsAttended(s, WorkerRetriesAck(s, lease, timedOut));
    case AckClear => WorkerMoveKeepsAttended(s, WorkerClears(s, Waiting));
    case RelLoad(goal) => LoadKeepsAttended(s, goal);
    case RelPort(goal) => ReleaseKeepsAttended(s, goal, reply);
    case RelRetry(goal) => WorkerMoveKeepsAttended(s, WorkerRetriesRelease(s, goal, timedOut));
    case RelClear(goal) => WorkerMoveKeepsAttended(s, WorkerClears(s, AfterRelease(goal, true)));
    case PresentWait => PresentKeepsAttended(s, timedOut);
    case PresenterCheck => PresentKeepsAttended(s, timedOut);
    case Pumping => PresentKeepsAttended(s, timedOut);
    case Done =>
  }

  /** New pump calls and shutdown take nobody's lease. */
  lemma CallKeepsAttended(s: System, e: Event)
    requires AllAttended(s) && (e.PumpCall? || e.ShutdownCall? || e.ShutdownStep?)
    ensures AllAttended(Step(s, e))
  {
    var r := Step(s, e);
    forall t, lease | TakenBy(s, t, lease) ensures TakenBy(r, t, lease) {}
    OthersAttend(s, r);
  }

  lemma StepKeepsAttended(s: System, e: Event)
    requires Inv(s) && AllAttended(s)
    ensures AllAttended(Step(s, e))
  {
    hide Inv, AllAttended, DoPump, DoWorker, DoSubmit, SpendReceipt, DoShutdown;
    match e
    case PumpCall(_) => CallKeepsAttended(s, e);
    case PumpStep(t, reply, presented) => if t in s.pumps { PumpKeepsAttended(s, t, reply, presented); }
    case ReceiptCall(lease, action) => SpendKeepsAttended(s, lease, action);
    case SubmitAction(lease) => if lease in s.leases.submitting { SubmitKeepsAttended(s, lease); }
    case WorkerStep(reply, timedOut) => WorkerKeepsAttended(s, reply, timedOut);
    case ShutdownCall => CallKeepsAttended(s, e);
    case ShutdownStep(_) => CallKeepsAttended(s, e);
  }

  lemma {:induction false} RunKeepsAttended(states: seq<System>, k: nat)
    requires IsRun(states) && k < |states|
    ensures AllAttended(states[k])
  {
    hide Inv, Step;
    if k > 0 {
      hide AllAttended, Initial;
      RunKeepsAttended(states, k - 1);
      RunKeepsInv(states, k - 1);
      assert Linked(states, k - 1);
      var e :| Step(states[k - 1], e) == states[k];
      StepKeepsAttended(states[k - 1], e);
    }
  }

  /** In every run, until a stop, somebody attends to each lease that is out,
      unless the port refused for good to release it. */
  lemma LeasesAreAttended(states: seq<System>, k: nat, lease: nat)
    requires IsRun(states) && k < |states| && !states[k].signal.stopping && lease in states[k].leases.outstanding
    ensures Attended(states[k], lease) || lease in states[k].leases.refused
  {
    hide Attended;
    RunKeepsAttended(states, k);
  }

  // ------------------------------------------------------------------
  // An action in the slot is carried out

  lemma Extend(states: seq<System>, e: Event) returns (longer: seq<System>)
    requires IsRun(states)
    ensures IsRun(longer) && longer == states + [Step(states[|states| - 1], e)]
  {
    hide Step, Initial;
    longer := states + [Step(states[|states| - 1], e)];
    forall i: nat | i + 1 < |longer| ensures Linked(longer, i) {
      if i + 1 < |states| {
        assert Linked(states, i);
        var f :| Step(states[i], f) == states[i + 1];
        assert Step(longer[i], f) == longer[i + 1];
      } else {
        assert Step(longer[i], e) == longer[i + 1];
      }
    }
  }

  /** How far the worker is from looking at the slot again. */
  function Distance(s: System): nat {
    match s.worker
    case PresentWait => 1
    case PresenterCheck => 4
    case Pumping => if 0 !in s.pumps then 1 else if s.pumps[0].StopCheck? then 3 else 2
    case _ => 0
  }

  /** With an action in the slot the worker acts on nothing else, and its own
      pump, if it is in one, is not about to take a lease. */
  lemma WorkerIsNear(s: System)
    requires Inv(s) && !s.signal.stopping && s.signal.action.Some?
    ensures s.worker.Waiting? || s.worker.PresentWait? || s.worker.PresenterCheck? || s.worker.Pumping?
    ensures s.signal.inFlight
    ensures 0 in s.pumps ==> var pc := s.pumps[0]; pc.StopCheck? || pc.CasInFlight? || pc.Presenting? || pc.Failing?
  {
    var lease := s.signal.action.value.lease;
    assert s.leases.outstanding == {lease};
    assert s.worker.ActsOn().None?;
  }

  /** The next step of the worker, or of its pump, brings it nearer. */
  lemma WorkerNears(s: System) returns (e: Event)
    requires Inv(s) && !s.signal.stopping && s.signal.action.Some? && !s.worker.Waiting?
    ensures var r := Step(s, e);
            && !r.signal.stopping && r.signal.action == s.signal.action && r.signal.presenter == s.signal.presenter
            && Distance(r) < Distance(s)
  {
    WorkerIsNear(s);
    hide Inv;
    e := if s.worker.Pumping? && 0 in s.pumps then PumpStep(0, Granted, true) else WorkerStep(Granted, true);
  }

  lemma {:induction false} WorkerReachesSlot(states: seq<System>) returns (longer: seq<System>)
    requires IsRun(states)
    requires var s := states[|states| - 1]; !s.signal.stopping && s.signal.action.Some?
    ensures IsRun(longer) && states <= longer
    ensures var s, r := states[|states| - 1], longer[|longer| - 1];
            && r.worker.Waiting? && !r.signal.stopping && r.signal.action == s.signal.action
            && r.signal.presenter == s.signal.presenter
    decreases Distance(states[|states| - 1])
  {
    hide Inv, Step, Distance, Initial, Linked;
    var s := states[|states| - 1];
    RunKeepsInv(states, |states| - 1);
    WorkerIsNear(s);
    longer := states;
    if !s.worker.Waiting? {
      var e := WorkerNears(s);
      longer := Extend(states, e);
      longer := WorkerReachesSlot(longer);
    }
  }

  /** Granted worker steps to the end of the lease the worker acts on. */
  function ToTheEnd(s: System): nat {
    match s.worker
    case AckRetry(_) => 4
    case AckCheck(_) => 3
    case Acking(_) => 2
    case RelRetry(_) => 4
    case RelLoad(_) => 3
    case RelPort(_) => 2
    case _ => 1
  }

  predicate Ended(s: System, lease: nat) {
    lease in s.leases.acknowledged || lease in s.leases.released
  }

  /** The worker acts on the lease or has ended it and is about to say so. */
  predicate Ending(s: System, lease: nat) {
    && !s.signal.stopping && s.signal.action.None?
    && (s.worker.ActsOn() == Some(lease) || (s.worker.Clears() && Ended(s, lease)))
  }

  /** The lease is ended, the flag down and the slot empty. */
  predicate Finished(s: System, lease: nat) {
    !s.signal.stopping && s.signal.action.None? && !s.signal.inFlight && s.leases.outstanding == {} && Ended(s, lease)
  }

  /** The worker releases because the batch was not shown. */
  predicate ReleasesFailed(pc: WorkerPc) {
    (pc.RelLoad? || pc.RelPort? || pc.RelRetry? || pc.RelClear?) && pc.goal.OnFailed?
  }

  /** How the worker's present business ends: after an acknowledgement it waits,
      after the release of a failed batch it is about to present again. */
  predicate EndsAs(s: System, r: System, lease: nat) {
    && r.signal.presenter == s.signal.presenter
    && (s.worker.Acknowledges() ==> lease in r.leases.acknowledged)
    && (!s.worker.Acknowledges() && !s.worker.Clears() ==> lease in r.leases.released)
    && (s.worker.Clears() ==> r.leases.acknowledged == s.leases.acknowledged && r.leases.released == s.leases.released)
    && (ReleasesFailed(s.worker) ==> r.worker.PresentWait?)
  }

  lemma EndingMoves(s: System, lease: nat)
    requires Inv(s) && AllAttended(s) && Ending(s, lease) && s.worker.ActsOn().Some?
    ensures var r := Step(s, WorkerStep(Granted, true));
            && Ending(r, lease) && ToTheEnd(r) < ToTheEnd(s)
            && (s.worker.Acknowledges() && !r.worker.Acknowledges() ==> lease in r.leases.acknowledged)
            && (!s.worker.Acknowledges() ==>
                  && !r.worker.Acknowledges() && (ReleasesFailed(s.worker) ==> ReleasesFailed(r.worker))
                  && (r.worker.Clears() ==> lease in r.leases.released))
            && (s.worker.Acknowledges() ==> r.worker.Acknowledges() || r.worker.AckClear?)
            && r.signal.presenter == s.signal.presenter
  {
    hide Endings, Order;
    assert lease in s.leases.outstanding && s.signal.inFlight;
    assert s.worker.RelLoad? || s.worker.RelPort? || s.worker.RelRetry? ==> s.worker.goal.Retries();
  }

  lemma EndingFinishes(s: System, lease: nat)
    requires Inv(s) && Ending(s, lease) && s.worker.Clears() && (s.worker.RelClear? ==> !s.worker.goal.OnExit?)
    ensures var r := Step(s, WorkerStep(Granted, true)); Finished(r, lease) && EndsAs(s, r, lease)
  {
  }

  lemma {:induction false} WorkerEndsLease(states: seq<System>, lease: nat) returns (longer: seq<System>)
    requires IsRun(states) && Ending(states[|states| - 1], lease)
    ensures IsRun(longer) && states <= longer && Finished(longer[|longer| - 1], lease)
    ensures EndsAs(states[|states| - 1], longer[|longer| - 1], lease)
    decreases ToTheEnd(states[|states| - 1])
  {
    hide Inv, Step, Initial, Linked, AllAttended;
    var s := states[|states| - 1];
    RunKeepsInv(states, |states| - 1);
    RunKeepsAttended(states, |states| - 1);
    var more := Extend(states, WorkerStep(Granted, true));
    if s.worker.ActsOn().Some? {
      EndingMoves(s, lease);
      longer := WorkerEndsLease(more, lease);
    } else {
      WorkerFacts(s);
      EndingFinishes(s, lease);
      longer := more;
    }
  }

  /** A waiting worker takes the action and acts on its lease. */
  lemma WorkerTakesAction(s: System)
    requires s.worker.Waiting? && !s.signal.stopping && s.signal.action.Some?
    ensures var r, q := Step(s, WorkerStep(Granted, true)), s.signal.action.value;
            && Ending(r, q.lease) && r.worker.ActsOn() == Some(q.lease) && r.signal.presenter == s.signal.presenter
            && (q.action.Presented? ==> r.worker.Acknowledges())
            && (q.action.Failed? ==> !r.worker.Acknowledges() && ReleasesFailed(r.worker))
  {
  }

  /** From every reachable state with an action in the slot and no stop, the
      worker, granted what it asks for, carries it out: the lease of a presented
      batch is acknowledged, that of a failed one released, and the flag is down. */
  lemma ActionIsCarriedOut(states: seq<System>) returns (longer: seq<System>)
    requires IsRun(states)
    requires var s := states[|states| - 1]; !s.signal.stopping && s.signal.action.Some?
    ensures IsRun(longer) && states <= longer
    ensures var s, r := states[|states| - 1], longer[|longer| - 1];
            var q := s.signal.action.value;
            && Finished(r, q.lease) && r.signal.presenter == s.signal.presenter
            && (q.action.Presented? ==> q.lease in r.leases.acknowledged)
            && (q.action.Failed? ==> q.lease in r.leases.released && r.worker.PresentWait?)
  {
    hide Inv, Step, Initial, Linked, Distance, ToTheEnd;
    var near := WorkerReachesSlot(states);
    var s := near[|near| - 1];
    WorkerTakesAction(s);
    var taken := Extend(near, WorkerStep(Granted, true));
    longer := WorkerEndsLease(taken, s.signal.action.value.lease);
  }

  /** After the release of a failed batch the worker presents again: it starts a
      pump of its own, unless the presenter was taken away. */
  lemma FailedBatchIsPresentedAgain(states: seq<System>) returns (longer: seq<System>)
    requires IsRun(states)
    requires var s := states[|states| - 1];
             !s.signal.stopping && s.signal.action.Some? && s.signal.action.value.action.Failed? && s.signal.presenter
    ensures IsRun(longer) && states <= longer
    ensures var r, lease := longer[|longer| - 1], states[|states| - 1].signal.action.value.lease;
            && lease in r.leases.released && !r.signal.inFlight
            && r.worker.Pumping? && 0 in r.pumps && r.pumps[0] == StopCheck
  {
    hide IsRun;
    var done := ActionIsCarriedOut(states);
    var waited := Extend(done, WorkerStep(Granted, true));
    longer := Extend(waited, WorkerStep(Granted, true));
  }

  // ------------------------------------------------------------------
  // Every lease can still be ended

  /** Until a stop, every lease that is out and not refused for good can still be
      ended, wherever it is: each of its stations has a step that leads on. */
  lemma LeaseCanEnd(states: seq<System>, lease: nat, action: Action) returns (longer: seq<System>)
    requires IsRun(states)
    requires var s := states[|states| - 1];
             !s.signal.stopping && lease in s.leases.outstanding && lease !in s.leases.refused
    ensures IsRun(longer) && states <= longer && Finished(longer[|longer| - 1], lease)
  {
    hide Inv, Step, Initial, Linked, Distance, ToTheEnd;
    var s := states[|states| - 1];
    LeasesAreAttended(states, |states| - 1, lease);
    RunKeepsInv(states, |states| - 1);
    longer := states;
    if s.worker.ActsOn() == Some(lease) {
      ActingFillsNoSlot(s, lease);
      longer := WorkerEndsLease(states, lease);
      return;
    }
    if exists t :: TakenBy(s, t, lease) {
      var t :| TakenBy(s, t, lease);
      TakerMakesReceipt(s, t, lease);
      longer := Extend(longer, PumpStep(t, Granted, true));
    }
    longer := ReceiptIsSpent(longer, lease, action);
    longer := ActionIsCarriedOut(longer);
  }

  lemma ActingFillsNoSlot(s: System, lease: nat)
    requires Inv(s) && !s.signal.stopping && s.worker.ActsOn() == Some(lease)
    ensures s.signal.action.None?
  {
    assert lease in s.leases.outstanding;
  }

  lemma TakerMakesReceipt(s: System, t: nat, lease: nat)
    requires !s.signal.stopping && TakenBy(s, t, lease)
    ensures var r := Step(s, PumpStep(t, Granted, true)); !r.signal.stopping && Receipted(r, lease)
  {
  }

  lemma ReceiptIsSpent(states: seq<System>, lease: nat, action: Action) returns (longer: seq<System>)
    requires IsRun(states)
    requires var s := states[|states| - 1]; !s.signal.stopping && Receipted(s, lease)
    ensures IsRun(longer) && states <= longer
    ensures var r := longer[|longer| - 1];
            !r.signal.stopping && r.signal.action.Some? && r.signal.action.value.lease == lease
  {
    hide Inv, Initial, Linked, DoPump, DoWorker;
    longer := states;
    var s := states[|states| - 1];
    if lease in s.leases.receipts && !s.leases.receipts[lease] {
      longer := Extend(longer, ReceiptCall(lease, action));
    }
    s := longer[|longer| - 1];
    if lease in s.leases.submitting {
      NoReceiptIsDroppedBeforeStop(longer, |longer| - 1);
      longer := Extend(longer, SubmitAction(lease));
    }
  }
}
