/** What the lease protocol keeps over every interleaving, and what follows. */
module NotificationTheorems {
  import opened Prelude
  import opened Notifications

  // ------------------------------------------------------------------
  // The in-flight flag has one owner

  /** A true flag stands for one outstanding lease or one thread about to clear
      it (or to take); a false flag stands for neither. */
  ghost predicate OneOwner(s: System) {
    && (forall a, b :: a in s.leases.outstanding && b in s.leases.outstanding ==> a == b)
    && (!s.signal.inFlight || s.leases.outstanding != {} ==>
          && (forall t :: t in s.pumps ==> !s.pumps[t].Holds())
          && !s.worker.Clears() && !s.shutdown.ShutClear?)
    && (!s.signal.inFlight ==> s.leases.outstanding == {})
    && (forall t, u :: t in s.pumps && u in s.pumps && s.pumps[t].Holds() && s.pumps[u].Holds() ==> t == u)
    && (s.worker.Clears() || s.shutdown.ShutClear? ==> forall t :: t in s.pumps ==> !s.pumps[t].Holds())
    && !(s.worker.Clears() && s.shutdown.ShutClear?)
  }

  /** Stopping is announced before the worker leaves and before shutdown joins. */
  ghost predicate Order(s: System) {
    && (s.worker.Leaves() ==> s.signal.stopping)
    && (!s.shutdown.ShutIdle? && !s.shutdown.ShutStop? ==> s.signal.stopping)
    && (!s.shutdown.ShutIdle? && !s.shutdown.ShutStop? && !s.shutdown.ShutJoin? ==> s.worker.Done?)
    && (s.signal.stopping || !s.shutdown.ShutIdle? ==> !s.signal.presenter)
    && (0 in s.pumps ==> s.worker.Pumping?)
  }

  // ------------------------------------------------------------------
  // Each lease is with one party at a time

  ghost predicate Spent(s: System, lease: nat) {
    lease in s.leases.receipts && s.leases.receipts[lease] && lease in s.leases.firstCall
  }

  ghost predicate Parties(s: System) {
    && (forall k :: || k in s.leases.outstanding || k in s.leases.receipts
                    || k in s.leases.acknowledged || k in s.leases.released ==>
          k < s.leases.next)
    && (forall t :: t in s.pumps && s.pumps[t].StopRecheck? ==>
          s.pumps[t].lease !in s.leases.receipts && s.pumps[t].lease < s.leases.next)
    && (forall t, u :: t in s.pumps && u in s.pumps && t != u ==>
          s.pumps[t].StopRecheck? && s.pumps[u].StopRecheck? ==> s.pumps[t].lease != s.pumps[u].lease)
    && (forall k :: k in s.leases.submitting ==> Spent(s, k) && s.leases.firstCall[k] == s.leases.submitting[k])
    && (forall k :: k in s.leases.receipts && !s.leases.receipts[k] ==> k !in s.leases.firstCall)
    && (forall k :: k in s.leases.firstCall ==> k in s.leases.receipts)
    && (s.signal.action.Some? ==>
          var q := s.signal.action.value;
          Spent(s, q.lease) && s.leases.firstCall[q.lease] == q.action && q.lease !in s.leases.submitting)
    && (s.worker.ActsOn().Some? ==>
          var k := s.worker.ActsOn().value;
          && Spent(s, k) && k !in s.leases.submitting && s.signal.action != Some(Queued(k, Presented))
          && s.signal.action != Some(Queued(k, Failed))
          && k in s.leases.outstanding
          && (s.worker.Acknowledges() ==> s.leases.firstCall[k].Presented?))
  }

  /** Until shutdown, every party that holds a lease holds the current one. */
  ghost predicate Current(s: System) {
    && (forall t :: t in s.pumps && (s.pumps[t].ReleaseLoad? || s.pumps[t].ReleasePort?) ==> s.signal.stopping)
    && ((exists t :: t in s.pumps && s.pumps[t].Unreceipted()) ==> s.worker.ActsOn().None?)
    && (!s.signal.stopping ==>
          && (forall t :: t in s.pumps && s.pumps[t].StopRecheck? ==> s.pumps[t].lease in s.leases.outstanding)
          && (forall k :: k in s.leases.receipts && !s.leases.receipts[k] ==> k in s.leases.outstanding)
          && (forall k :: k in s.leases.submitting ==> k in s.leases.outstanding)
          && (s.signal.action.Some? ==> s.signal.action.value.lease in s.leases.outstanding))
  }

  /** Ended leases stay ended, in one way, and no live receipt call was refused. */
  ghost predicate Endings(s: System) {
    && s.leases.acknowledged !! s.leases.released && s.leases.acknowledged !! s.leases.outstanding
    && s.leases.released !! s.leases.outstanding
    && (forall k :: k in s.leases.acknowledged ==> k in s.leases.firstCall && s.leases.firstCall[k].Presented?)
    && (s.leases.dropped != {} ==> s.signal.stopping)
  }

  ghost predicate Inv(s: System) {
    OneOwner(s) && Order(s) && Parties(s) && Current(s) && Endings(s)
  }

  lemma InitialInv()
    ensures Inv(Initial())
  {
  }

  // ------------------------------------------------------------------
  // Steps that only move one thread

  lemma PumpMoveKeepsInv(s: System, thread: nat, pc: PumpPc)
    requires Inv(s) && !pc.StopRecheck?
    requires pc.Holds() ==> thread in s.pumps && s.pumps[thread].Holds()
    requires pc.Unreceipted() ==> s.signal.stopping && thread in s.pumps && s.pumps[thread].Unreceipted()
    requires thread == 0 ==> s.worker.Pumping?
    ensures Inv(PumpTo(s, thread, pc))
  {
  }

  lemma PumpLeaveKeepsInv(s: System, thread: nat)
    requires Inv(s) && thread in s.pumps
    ensures Inv(PumpEnds(s, thread))
  {
  }

  lemma WorkerMoveKeepsInv(s: System, pc: WorkerPc)
    requires Inv(s) && !s.worker.Done?
    requires !pc.Clears()
    requires pc.ActsOn() == s.worker.ActsOn() || pc.ActsOn().None?
    requires pc.Acknowledges() ==> s.worker.Acknowledges()
    requires pc.Leaves() ==> s.signal.stopping
    requires 0 in s.pumps ==> pc.Pumping?
    ensures Inv(s.(worker := pc))
  {
  }

  lemma ShutdownMoveKeepsInv(s: System, pc: ShutdownPc)
    requires Inv(s) && !pc.ShutClear? && !s.signal.presenter
    requires pc.ShutStop? || pc.ShutIdle? || (s.signal.stopping && (pc.ShutJoin? || s.worker.Done?))
    ensures Inv(s.(shutdown := pc))
  {
  }

  lemma AcknowledgeFailsKeepsInv(s: System)
    requires Inv(s)
    ensures Inv(AcknowledgeFails(s))
  {
  }

  /** A release that fails only notes the lease. */
  lemma ReleaseFailsKeepsInv(s: System, reply: PortReply)
    requires Inv(s)
    ensures Inv(ReleaseFails(s, reply))
  {
  }

  // ------------------------------------------------------------------
  // Pump steps

  lemma PumpChecksStopKeepsInv(s: System, thread: nat)
    requires Inv(s) && thread in s.pumps && s.pumps[thread].StopCheck?
    ensures Inv(PumpChecksStop(s, thread))
  {
    WorkerFacts(s);
    hide Inv;
    if s.signal.stopping { PumpLeaveKeepsInv(s, thread); } else { PumpMoveKeepsInv(s, thread, CasInFlight); }
  }

  lemma PumpRaisesFlagKeepsInv(s: System, thread: nat)
    requires Inv(s) && thread in s.pumps && s.pumps[thread].CasInFlight?
    ensures Inv(PumpRaisesFlag(s, thread))
  {
  }

  lemma PumpTakesKeepsInv(s: System, thread: nat, reply: PortReply)
    requires Inv(s) && thread in s.pumps && s.pumps[thread].Take?
    ensures Inv(PumpTakes(s, thread, reply))
  {
    assert s.leases.outstanding == {};
  }

  lemma PumpClearsKeepsInv(s: System, thread: nat)
    requires Inv(s) && thread in s.pumps && s.pumps[thread].Holds()
    ensures Inv(PumpClears(s, thread))
  {
  }

  lemma PumpRechecksStopKeepsInv(s: System, thread: nat)
    requires Inv(s) && thread in s.pumps && s.pumps[thread].StopRecheck?
    ensures Inv(PumpRechecksStop(s, thread, s.pumps[thread].lease))
  {
    if s.signal.stopping {
      WorkerFacts(s);
      PumpMoveKeepsInv(s, thread, ReleaseLoad);
    }
  }

  lemma PumpLoadsFlagKeepsInv(s: System, thread: nat)
    requires Inv(s) && thread in s.pumps && s.pumps[thread].ReleaseLoad?
    ensures Inv(PumpLoadsFlag(s, thread))
  {
    assert s.signal.stopping;
    WorkerFacts(s);
    hide Inv;
    if s.signal.inFlight { PumpMoveKeepsInv(s, thread, ReleasePort); } else { PumpLeaveKeepsInv(s, thread); }
  }

  lemma PumpReleasesKeepsInv(s: System, thread: nat, reply: PortReply)
    requires Inv(s) && thread in s.pumps && s.pumps[thread].ReleasePort?
    ensures Inv(PumpReleases(s, thread, reply))
  {
    if ReleaseSucceeds(s, reply) {
      PumpReleaseKeepsInv(s, thread);
    } else {
      hide Inv;
      ReleaseFailsKeepsInv(s, reply);
      PumpLeaveKeepsInv(ReleaseFails(s, reply), thread);
    }
  }

  lemma PumpReleaseKeepsInv(s: System, thread: nat)
    requires Inv(s) && thread in s.pumps && s.pumps[thread].ReleasePort? && s.leases.outstanding != {}
    ensures Inv(PumpTo(Release(s), thread, ReleaseClear))
  {
    assert thread in s.pumps && s.pumps[thread].Unreceipted();
  }

  lemma PumpPresentsKeepsInv(s: System, thread: nat, presented: bool)
    requires Inv(s) && thread in s.pumps && s.pumps[thread].Presenting?
    ensures Inv(PumpPresents(s, thread, s.pumps[thread].lease, presented))
  {
    WorkerFacts(s);
    hide Inv;
    if presented { PumpLeaveKeepsInv(s, thread); }
    else { PumpMoveKeepsInv(s, thread, Failing(s.pumps[thread].lease)); }
  }

  lemma PumpKeepsInv(s: System, thread: nat, reply: PortReply, presented: bool)
    requires Inv(s) && thread in s.pumps
    ensures Inv(DoPump(s, thread, reply, presented))
  {
    hide Inv, PumpChecksStop, PumpRaisesFlag, PumpTakes, PumpClears, PumpRechecksStop, PumpLoadsFlag,
         PumpReleases, PumpPresents;
    match s.pumps[thread]
    case StopCheck => PumpChecksStopKeepsInv(s, thread);
    case CasInFlight => PumpRaisesFlagKeepsInv(s, thread);
    case Take => PumpTakesKeepsInv(s, thread, reply);
    case ClearUntaken => PumpClearsKeepsInv(s, thread);
    case StopRecheck(lease) => PumpRechecksStopKeepsInv(s, thread);
    case ReleaseLoad => PumpLoadsFlagKeepsInv(s, thread);
    case ReleasePort => PumpReleasesKeepsInv(s, thread, reply);
    case ReleaseClear => PumpClearsKeepsInv(s, thread);
    case Presenting(lease) => PumpPresentsKeepsInv(s, thread, presented);
    case Failing(lease) =>
      SpendKeepsInv(s, lease, Failed);
      PumpLeaveKeepsInv(SpendReceipt(s, lease, Failed), thread);
  }

  // ------------------------------------------------------------------
  // Receipts

  lemma SpendKeepsInv(s: System, lease: nat, action: Action)
    requires Inv(s)
    ensures Inv(SpendReceipt(s, lease, action))
  {
  }

  /** Before a stop the slot is free for every live receipt call. */
  lemma SubmitKeepsInv(s: System, lease: nat)
    requires Inv(s) && lease in s.leases.submitting
    ensures Inv(DoSubmit(s, lease))
  {
    SubmitKeepsParties(s, lease);
    assert OneOwner(DoSubmit(s, lease)) && Order(DoSubmit(s, lease)) && Endings(DoSubmit(s, lease)) by {
      hide Parties, Current;
    }
  }

  lemma SubmitKeepsParties(s: System, lease: nat)
    requires Inv(s) && lease in s.leases.submitting
    ensures Parties(DoSubmit(s, lease)) && Current(DoSubmit(s, lease))
  {
  }

  // ------------------------------------------------------------------
  // Worker steps

  lemma WorkerFacts(s: System)
    requires Inv(s)
    ensures s.worker.Leaves() ==> s.signal.stopping
    ensures 0 in s.pumps ==> s.worker.Pumping?
  {
  }

  lemma WorkerTakesActionKeepsInv(s: System)
    requires Inv(s) && s.worker.Waiting? && !s.signal.stopping && s.signal.action.Some?
    ensures Inv(WorkerWaits(s))
  {
    assert forall t :: t in s.pumps ==> !s.pumps[t].Unreceipted();
  }

  lemma WorkerWaitsKeepsInv(s: System)
    requires Inv(s) && s.worker.Waiting?
    ensures Inv(WorkerWaits(s))
  {
    WorkerFacts(s);
    hide Inv;
    if s.signal.stopping { WorkerMoveKeepsInv(s, RelLoad(OnExit)); }
    else if s.signal.action.Some? { WorkerTakesActionKeepsInv(s); }
  }

  lemma WorkerChecksStopKeepsInv(s: System, lease: nat)
    requires Inv(s) && s.worker == AckCheck(lease)
    ensures Inv(WorkerChecksStop(s, lease))
  {
    WorkerFacts(s);
    hide Inv;
    if s.signal.stopping { WorkerMoveKeepsInv(s, RelLoad(OnStop(lease))); }
    else { WorkerMoveKeepsInv(s, Acking(lease)); }
  }

  lemma AcknowledgeKeepsInv(s: System, lease: nat)
    requires Inv(s) && s.worker == Acking(lease)
    ensures Inv(Acknowledge(s).(worker := AckClear))
  {
    assert s.leases.outstanding == {lease};
  }

  lemma WorkerAcknowledgesKeepsInv(s: System, lease: nat, reply: PortReply)
    requires Inv(s) && s.worker == Acking(lease)
    ensures Inv(WorkerAcknowledges(s, lease, reply))
  {
    WorkerFacts(s);
    AcknowledgeKeepsInv(s, lease);
    hide Inv;
    WorkerMoveKeepsInv(s, AckRetry(lease));
    AcknowledgeFailsKeepsInv(s);
    WorkerMoveKeepsInv(AcknowledgeFails(s), RelLoad(OnAckError(lease)));
  }

  lemma WorkerRetriesAckKeepsInv(s: System, lease: nat, timedOut: bool)
    requires Inv(s) && s.worker == AckRetry(lease)
    ensures Inv(WorkerRetriesAck(s, lease, timedOut))
  {
    WorkerFacts(s);
    hide Inv;
    WorkerMoveKeepsInv(s, RelLoad(OnStop(lease)));
    WorkerMoveKeepsInv(s, AckCheck(lease));
  }

  lemma WorkerClearsKeepsInv(s: System, next: WorkerPc)
    requires Inv(s) && s.worker.Clears()
    requires next.Waiting? || next.PresentWait? || (next.Done? && s.signal.stopping)
    ensures Inv(WorkerClears(s, next))
  {
    WorkerFacts(s);
    var lowered := s.(worker := next);
    WorkerMoveKeepsInv(s, next);
    assert s.leases.outstanding == {};
    assert forall t :: t in s.pumps ==> !s.pumps[t].Holds();
    LowerKeepsInv(lowered);
  }

  /** With nothing outstanding and nobody holding it, the flag may go down. */
  lemma LowerKeepsInv(s: System)
    requires Inv(s) && s.leases.outstanding == {} && !s.worker.Clears() && !s.shutdown.ShutClear?
    requires forall t :: t in s.pumps ==> !s.pumps[t].Holds()
    ensures Inv(s.WithFlag(false))
  {
  }

  lemma WorkerLoadsFlagKeepsInv(s: System, goal: Goal)
    requires Inv(s) && s.worker == RelLoad(goal)
    ensures Inv(WorkerLoadsFlag(s, goal))
  {
    WorkerFacts(s);
    hide Inv;
    if s.signal.inFlight { WorkerMoveKeepsInv(s, RelPort(goal)); }
    else { WorkerMoveKeepsInv(s, AfterRelease(goal, false)); }
  }

  lemma WorkerReleaseKeepsInv(s: System, goal: Goal)
    requires Inv(s) && s.worker == RelPort(goal) && s.leases.outstanding != {}
    ensures Inv(Release(s).(worker := RelClear(goal)))
  {
    if !goal.OnExit? {
      assert s.leases.outstanding == {goal.lease};
    }
  }

  lemma WorkerReleasesKeepsInv(s: System, goal: Goal, reply: PortReply)
    requires Inv(s) && s.worker == RelPort(goal)
    ensures Inv(WorkerReleases(s, goal, reply))
  {
    WorkerFacts(s);
    hide Inv;
    if ReleaseSucceeds(s, reply) { WorkerReleaseKeepsInv(s, goal); }
    else if reply.RetryableError? && goal.Retries() { WorkerMoveKeepsInv(s, RelRetry(goal)); }
    else {
      ReleaseFailsKeepsInv(s, reply);
      WorkerMoveKeepsInv(ReleaseFails(s, reply), AfterRelease(goal, false));
    }
  }

  lemma WorkerRetriesReleaseKeepsInv(s: System, goal: Goal, timedOut: bool)
    requires Inv(s) && s.worker == RelRetry(goal)
    ensures Inv(WorkerRetriesRelease(s, goal, timedOut))
  {
    WorkerFacts(s);
    hide Inv;
    WorkerMoveKeepsInv(s, AfterRelease(goal, false));
    WorkerMoveKeepsInv(s, RelLoad(goal));
  }

  lemma WorkerPresentsKeepsInv(s: System, timedOut: bool)
    requires Inv(s)
    ensures s.worker.PresentWait? ==> Inv(WorkerWaitsToPresent(s, timedOut))
    ensures s.worker.PresenterCheck? ==> Inv(WorkerFindsPresenter(s))
    ensures s.worker.Pumping? ==> Inv(WorkerPumps(s))
  {
    WorkerFacts(s);
    hide Inv;
    if s.worker.PresentWait? {
      WorkerMoveKeepsInv(s, Waiting);
      WorkerMoveKeepsInv(s, PresenterCheck);
    } else if s.worker.PresenterCheck? {
      WorkerMoveKeepsInv(s, Waiting);
      WorkerMoveKeepsInv(s, Pumping);
      PumpMoveKeepsInv(s.(worker := Pumping), 0, StopCheck);
    } else if s.worker.Pumping? && 0 !in s.pumps {
      WorkerMoveKeepsInv(s, Waiting);
    }
  }

  lemma WorkerKeepsInv(s: System, reply: PortReply, timedOut: bool)
    requires Inv(s)
    ensures Inv(DoWorker(s, reply, timedOut))
  {
    WorkerFacts(s);
    hide Inv, WorkerWaits, WorkerChecksStop, WorkerAcknowledges, WorkerRetriesAck, WorkerClears, WorkerLoadsFlag,
         WorkerReleases, WorkerRetriesRelease, WorkerWaitsToPresent, WorkerFindsPresenter, WorkerPumps;
    match s.worker
    case Waiting => WorkerWaitsKeepsInv(s);
    case AckCheck(lease) => WorkerChecksStopKeepsInv(s, lease);
    case Acking(lease) => WorkerAcknowledgesKeepsInv(s, lease, reply);
    case AckRetry(lease) => WorkerRetriesAckKeepsInv(s, lease, timedOut);
    case AckClear => WorkerClearsKeepsInv(s, Waiting);
    case RelLoad(goal) => WorkerLoadsFlagKeepsInv(s, goal);
    case RelPort(goal) => WorkerReleasesKeepsInv(s, goal, reply);
    case RelRetry(goal) => WorkerRetriesReleaseKeepsInv(s, goal, timedOut);
    case RelClear(goal) => WorkerClearsKeepsInv(s, AfterRelease(goal, true));
    case PresentWait => WorkerPresentsKeepsInv(s, timedOut);
    case PresenterCheck => WorkerPresentsKeepsInv(s, timedOut);
    case Pumping => WorkerPresentsKeepsInv(s, timedOut);
    case Done =>
  }

  // ------------------------------------------------------------------
  // Shutdown steps

  lemma StopKeepsInv(s: System)
    requires Inv(s) && s.shutdown.ShutStop?
    ensures Inv(s.(signal := s.signal.(stopping := true), shutdown := ShutJoin))
  {
  }

  lemma ShutdownReleaseKeepsInv(s: System)
    requires Inv(s) && s.shutdown.ShutPort? && s.leases.outstanding != {}
    ensures Inv(Release(s).(shutdown := ShutClear))
  {
  }

  lemma ShutdownClearKeepsInv(s: System)
    requires Inv(s) && s.shutdown.ShutClear?
    ensures Inv(s.WithFlag(false).(shutdown := ShutReturned(true)))
  {
  }

  lemma ShutdownFacts(s: System)
    requires Inv(s) && !s.shutdown.ShutIdle?
    ensures !s.signal.presenter
    ensures !s.shutdown.ShutStop? ==> s.signal.stopping
    ensures !s.shutdown.ShutStop? && !s.shutdown.ShutJoin? ==> s.worker.Done?
  {
  }

  lemma ShutdownKeepsInv(s: System, reply: PortReply)
    requires Inv(s)
    ensures Inv(DoShutdown(s, reply))
  {
    hide Inv;
    if s.shutdown.ShutIdle? {
      return;
    }
    ShutdownFacts(s);
    match s.shutdown
    case ShutStop => StopKeepsInv(s);
    case ShutJoin => if s.worker.Done? { ShutdownMoveKeepsInv(s, ShutLoad); }
    case ShutLoad => ShutdownMoveKeepsInv(s, if s.signal.inFlight then ShutPort else ShutReturned(true));
    case ShutPort =>
      if ReleaseSucceeds(s, reply) { ShutdownReleaseKeepsInv(s); }
      else {
        ReleaseFailsKeepsInv(s, reply);
        ShutdownMoveKeepsInv(ReleaseFails(s, reply), ShutReturned(false));
      }
    case ShutClear => ShutdownClearKeepsInv(s);
    case ShutReturned(_) =>
  }

  lemma ShutdownCallKeepsInv(s: System)
    requires Inv(s) && (s.shutdown.ShutIdle? || s.shutdown.ShutReturned?)
    ensures Inv(s.(signal := s.signal.(presenter := false), shutdown := ShutStop))
  {
  }

  lemma StepKeepsInv(s: System, e: Event)
    requires Inv(s)
    ensures Inv(Step(s, e))
  {
    match e
    case PumpCall(t) => if t != 0 && t !in s.pumps && s.signal.presenter { PumpMoveKeepsInv(s, t, StopCheck); }
    case PumpStep(t, reply, presented) => if t in s.pumps { PumpKeepsInv(s, t, reply, presented); }
    case ReceiptCall(lease, action) => SpendKeepsInv(s, lease, action);
    case SubmitAction(lease) => if lease in s.leases.submitting { SubmitKeepsInv(s, lease); }
    case WorkerStep(reply, timedOut) => WorkerKeepsInv(s, reply, timedOut);
    case ShutdownCall =>
      if s.shutdown.ShutIdle? || s.shutdown.ShutReturned? { ShutdownCallKeepsInv(s); }
    case ShutdownStep(reply) => ShutdownKeepsInv(s, reply);
  }

  lemma {:induction false} RunKeepsInv(states: seq<System>, k: nat)
    requires IsRun(states) && k < |states|
    ensures Inv(states[k])
  {
    hide Inv;
    if k == 0 {
      InitialInv();
    } else {
      RunKeepsInv(states, k - 1);
      assert Linked(states, k - 1);
      var e :| Step(states[k - 1], e) == states[k];
      StepKeepsInv(states[k - 1], e);
    }
  }

  // ------------------------------------------------------------------
  // The promises

  /** At most one lease is out; none is out while the flag is down; and an
      action in the slot speaks for a spent receipt, whose lease is the current
      one unless a stop was announced. */
  lemma OneLeaseAtATime(states: seq<System>, k: nat)
    requires IsRun(states) && k < |states|
    ensures var s := states[k];
            && (forall a, b :: a in s.leases.outstanding && b in s.leases.outstanding ==> a == b)
            && (!s.signal.inFlight ==> s.leases.outstanding == {})
            && (s.signal.action.Some? ==>
                  && s.signal.action.value.lease in s.leases.receipts && s.leases.receipts[s.signal.action.value.lease]
                  && (s.signal.stopping || s.leases.outstanding == {s.signal.action.value.lease}))
  {
    RunKeepsInv(states, k);
  }

  /** The slot's "already occupied" guard never refuses a live receipt call:
      a refused call means that a stop was announced. */
  lemma NoReceiptIsDroppedBeforeStop(states: seq<System>, k: nat)
    requires IsRun(states) && k < |states|
    ensures states[k].leases.dropped != {} ==> states[k].signal.stopping
    ensures forall lease :: lease in states[k].leases.submitting && !states[k].signal.stopping ==>
                              states[k].signal.action.None?
  {
    RunKeepsInv(states, k);
  }

  /** A lease is acknowledged only after its own receipt's first call said it was
      presented, and never both acknowledged and released. */
  lemma EveryLeaseEndsOneWay(states: seq<System>, k: nat)
    requires IsRun(states) && k < |states|
    ensures var s := states[k];
            && s.leases.acknowledged !! s.leases.released
            && s.leases.outstanding !! (s.leases.acknowledged + s.leases.released)
            && (forall lease :: lease in s.leases.acknowledged ==>
                  lease in s.leases.firstCall && s.leases.firstCall[lease].Presented?)
  {
    RunKeepsInv(states, k);
  }

  /** When shutdown returns Ok, no lease is out. */
  lemma ShutdownOkLeavesNoLease(states: seq<System>, k: nat)
    requires IsRun(states) && k + 1 < |states|
    requires !states[k].shutdown.ShutReturned? && states[k + 1].shutdown == ShutReturned(true)
    ensures states[k + 1].leases.outstanding == {}
  {
    RunKeepsInv(states, k);
    RunKeepsInv(states, k + 1);
    assert Linked(states, k);
    var e :| Step(states[k], e) == states[k + 1];
    ShutdownReturnsBy(states[k], e);
  }

  lemma ShutdownReturnsBy(s: System, e: Event)
    requires Inv(s) && !s.shutdown.ShutReturned? && Step(s, e).shutdown == ShutReturned(true)
    ensures Step(s, e).leases.outstanding == {}
  {
    hide DoPump, DoWorker, Parties, Current, Endings, Order;
  }

  /** Shut down, with no pump call in progress and no lease out. */
  predicate Quiet(s: System) {
    && !s.signal.presenter && s.signal.stopping && s.worker.Done?
    && s.pumps == map[] && s.leases.outstanding == {}
  }

  lemma StepKeepsQuiet(s: System, e: Event)
    requires Quiet(s)
    ensures Quiet(Step(s, e))
  {
  }

  /** If no pump call is in progress when shutdown returns Ok - the source's
      exclusive borrow sees to it - no lease is ever out again. */
  lemma {:induction false} NoLeaseAfterShutdown(states: seq<System>, k: nat, j: nat)
    requires IsRun(states) && k + 1 <= j < |states|
    requires !states[k].shutdown.ShutReturned? && states[k + 1].shutdown == ShutReturned(true)
    requires states[k + 1].pumps == map[]
    ensures Quiet(states[j])
  {
    if j == k + 1 {
      ShutdownOkLeavesNoLease(states, k);
      RunKeepsInv(states, j);
      ShutdownFacts(states[j]);
    } else {
      NoLeaseAfterShutdown(states, k, j - 1);
      assert Linked(states, j - 1);
      var e :| Step(states[j - 1], e) == states[j];
      StepKeepsQuiet(states[j - 1], e);
    }
  }
}
