/** The lease protocol and the presenter together.  A pump's call of `present` is
    a thread of the presenter, named by the lease; the presenter's call of a
    receipt is the lease protocol's receipt call.  Nothing else moves either. */
module Presentation {
  import opened Prelude
  import N = Notifications
  import NT = NotificationTheorems
  import NP = NotificationProgress
  import P = Presenter

  datatype Joint = Joint(leases: N.System, bridge: P.Bridge)

  function Initial(): Joint {
    Joint(N.Initial(), P.Initial())
  }

  datatype Event = LeaseEvent(l: N.Event) | BridgeEvent(p: P.Event)

  predicate Presents(s: N.System, thread: nat, lease: nat) {
    thread in s.pumps && s.pumps[thread] == N.Presenting(lease)
  }

  /** Some pump is in its call of `present` for this lease. */
  ghost predicate IsPresenting(s: N.System, lease: nat) {
    exists thread :: Presents(s, thread, lease)
  }

  /** `present` returns to the pump what the presenter answered. */
  predicate Answered(b: P.Bridge, lease: nat, presented: bool) {
    lease in b.threads && if presented then P.IsAccepted(b.threads[lease]) else b.threads[lease].Refused?
  }

  predicate LeaseMay(j: Joint, l: N.Event) {
    && !l.ReceiptCall?
    && (l.PumpStep? && l.thread in j.leases.pumps && j.leases.pumps[l.thread].Presenting? ==>
          Answered(j.bridge, j.leases.pumps[l.thread].lease, l.presented))
  }

  function ActionOf(presented: bool): N.Action {
    if presented then N.Presented else N.Failed
  }

  /** The presenter is about to call this receipt. */
  predicate CallsReceipt(b: P.Bridge, p: P.Event) {
    p.Thread? && p.receipt in b.threads && b.threads[p.receipt].Calling?
  }

  ghost function Step(j: Joint, e: Event): Joint {
    match e
    case LeaseEvent(l) => if LeaseMay(j, l) then j.(leases := N.Step(j.leases, l)) else j
    case BridgeEvent(p) =>
      if p.Present? && !IsPresenting(j.leases, p.receipt) then j
      else if CallsReceipt(j.bridge, p) then
        Joint(N.Step(j.leases, N.ReceiptCall(p.receipt, ActionOf(j.bridge.threads[p.receipt].presented))),
              P.Step(j.bridge, p))
      else j.(bridge := P.Step(j.bridge, p))
  }

  ghost predicate Linked(states: seq<Joint>, i: nat)
    requires i + 1 < |states|
  {
    exists e :: Step(states[i], e) == states[i + 1]
  }

  ghost predicate IsRun(states: seq<Joint>) {
    && states != [] && states[0] == Initial()
    && (forall i: nat :: i + 1 < |states| ==> Linked(states, i))
  }

  // ------------------------------------------------------------------
  // What couples the two

  /** A batch in the presenter has a receipt, unspent until it is called. */
  ghost predicate Unspent(j: Joint) {
    forall u :: u in j.bridge.threads ==>
      && u in j.leases.leases.receipts
      && (!j.bridge.threads[u].Refused? && !j.bridge.threads[u].Called? ==> !j.leases.leases.receipts[u])
  }

  /** A spent receipt says what became of its batch. */
  predicate Tells(j: Joint, u: nat) {
    && u in j.bridge.threads && u in j.leases.leases.firstCall
    && (j.bridge.threads[u].Refused? ==> j.leases.leases.firstCall[u].Failed?)
    && (j.bridge.threads[u].Called? ==> j.leases.leases.firstCall[u] == ActionOf(j.bridge.threads[u].presented))
    && (j.bridge.threads[u].Refused? || j.bridge.threads[u].Called?)
  }

  ghost predicate Truthful(j: Joint) {
    && (forall u :: u in j.leases.leases.firstCall ==> Tells(j, u))
    && (forall u :: u in j.leases.leases.receipts && j.leases.leases.receipts[u] ==> u in j.leases.leases.firstCall)
    && (forall u :: u in j.bridge.threads && j.bridge.threads[u].Called? ==> u in j.leases.leases.firstCall)
  }

  ghost predicate Pumped(j: Joint) {
    && (forall t :: t in j.leases.pumps && j.leases.pumps[t].Presenting? ==>
          j.leases.pumps[t].lease in j.leases.leases.receipts)
    && (forall t :: t in j.leases.pumps && j.leases.pumps[t].Failing? ==>
          j.leases.pumps[t].lease in j.bridge.threads && j.bridge.threads[j.leases.pumps[t].lease].Refused?)
  }

  ghost predicate Coupled(j: Joint) {
    Unspent(j) && Truthful(j) && Pumped(j)
  }

  /** A lease step that spends no receipt, makes none and moves no pump into
      presenting or failing. */
  lemma QuietKeepsCoupled(j: Joint, s: N.System)
    requires Coupled(j)
    requires s.leases.receipts == j.leases.leases.receipts && s.leases.firstCall == j.leases.leases.firstCall
    requires forall t :: t in s.pumps && (s.pumps[t].Presenting? || s.pumps[t].Failing?) ==>
               t in j.leases.pumps && j.leases.pumps[t] == s.pumps[t]
    ensures Coupled(j.(leases := s))
  {
    var r := j.(leases := s);
    assert forall u :: Tells(j, u) ==> Tells(r, u);
  }

  lemma PumpKeepsCoupled(j: Joint, l: N.Event)
    requires Coupled(j) && NT.Inv(j.leases) && LeaseMay(j, l) && l.PumpStep? && l.thread in j.leases.pumps
    ensures Coupled(j.(leases := N.Step(j.leases, l)))
  {
    hide Coupled, NT.Inv;
    var s, t := j.leases, l.thread;
    var n := N.Step(s, l);
    match s.pumps[t]
    case StopCheck => QuietKeepsCoupled(j, n);
    case CasInFlight => QuietKeepsCoupled(j, n);
    case Take => QuietKeepsCoupled(j, n);
    case ClearUntaken => QuietKeepsCoupled(j, n);
    case StopRecheck(lease) =>
      if s.signal.stopping { QuietKeepsCoupled(j, n); } else { ReceiptMadeKeepsCoupled(j, t, lease); }
    case ReleaseLoad => QuietKeepsCoupled(j, n);
    case ReleasePort => QuietKeepsCoupled(j, n);
    case ReleaseClear => QuietKeepsCoupled(j, n);
    case Presenting(lease) => if l.presented { QuietKeepsCoupled(j, n); } else { RefusalKeepsCoupled(j, t, lease); }
    case Failing(lease) => FailureKeepsCoupled(j, t, lease);
  }

  lemma ReceiptMadeKeepsCoupled(j: Joint, t: nat, lease: nat)
    requires Coupled(j) && NT.Inv(j.leases) && t in j.leases.pumps && j.leases.pumps[t] == N.StopRecheck(lease)
    requires !j.leases.signal.stopping
    ensures Coupled(j.(leases := N.PumpRechecksStop(j.leases, t, lease)))
  {
    var r := j.(leases := N.PumpRechecksStop(j.leases, t, lease));
    assert lease !in j.leases.leases.receipts;
    assert forall u :: Tells(j, u) ==> Tells(r, u);
  }

  lemma RefusalKeepsCoupled(j: Joint, t: nat, lease: nat)
    requires Coupled(j) && t in j.leases.pumps && Answered(j.bridge, lease, false)
    ensures Coupled(j.(leases := N.PumpPresents(j.leases, t, lease, false)))
  {
    var r := j.(leases := N.PumpPresents(j.leases, t, lease, false));
    assert forall u :: Tells(j, u) ==> Tells(r, u);
  }

  lemma FailureKeepsCoupled(j: Joint, t: nat, lease: nat)
    requires Coupled(j) && t in j.leases.pumps && j.leases.pumps[t] == N.Failing(lease)
    ensures Coupled(j.(leases := N.PumpFails(j.leases, t, lease)))
  {
    var r := j.(leases := N.PumpFails(j.leases, t, lease));
    assert j.bridge.threads[lease].Refused?;
    assert forall u :: u != lease && Tells(j, u) ==> Tells(r, u);
    assert lease in r.leases.leases.firstCall;
    assert Tells(r, lease);
  }

  lemma LeaseKeepsCoupled(j: Joint, l: N.Event)
    requires Coupled(j) && NT.Inv(j.leases) && LeaseMay(j, l)
    ensures Coupled(j.(leases := N.Step(j.leases, l)))
  {
    hide Coupled, NT.Inv, N.DoPump, N.DoWorker;
    var n := N.Step(j.leases, l);
    match l
    case PumpCall(_) => QuietKeepsCoupled(j, n);
    case PumpStep(t, _, _) => if t in j.leases.pumps { PumpKeepsCoupled(j, l); }
    case SubmitAction(_) => QuietKeepsCoupled(j, n);
    case WorkerStep(reply, timedOut) => WorkerIsQuiet(j.leases, reply, timedOut); QuietKeepsCoupled(j, n);
    case ShutdownCall => QuietKeepsCoupled(j, n);
    case ShutdownStep(_) => QuietKeepsCoupled(j, n);
  }

  lemma WorkerIsQuiet(s: N.System, reply: N.PortReply, timedOut: bool)
    ensures var n := N.DoWorker(s, reply, timedOut);
            && n.leases.receipts == s.leases.receipts && n.leases.firstCall == s.leases.firstCall
            && (forall t :: t in n.pumps && (n.pumps[t].Presenting? || n.pumps[t].Failing?) ==>
                  t in s.pumps && s.pumps[t] == n.pumps[t])
  {
    match s.worker
    case Waiting =>
    case AckCheck(_) =>
    case Acking(_) =>
    case AckRetry(_) =>
    case AckClear =>
    case RelLoad(_) =>
    case RelPort(_) =>
    case RelRetry(_) =>
    case RelClear(_) =>
    case PresentWait =>
    case PresenterCheck =>
    case Pumping =>
    case Done =>
  }

  /** The presenter calls a receipt that is unspent. */
  lemma CallKeepsCoupled(j: Joint, p: P.Event)
    requires Coupled(j) && NT.Inv(j.leases) && CallsReceipt(j.bridge, p)
    ensures Coupled(Step(j, BridgeEvent(p)))
  {
    var r, u := Step(j, BridgeEvent(p)), p.receipt;
    assert !j.leases.leases.receipts[u];
    assert r.bridge.threads == j.bridge.threads[u := P.Called(j.bridge.threads[u].presented)];
    assert Tells(r, u);
    assert forall v :: v != u && Tells(j, v) ==> Tells(r, v);
  }

  /** Any other step of a presenter thread leaves receipts alone. */
  lemma ThreadKeepsCoupled(j: Joint, p: P.Event)
    requires Coupled(j) && NT.Inv(j.leases) && p.Thread? && p.receipt in j.bridge.threads
    requires !j.bridge.threads[p.receipt].Calling?
    ensures Coupled(j.(bridge := P.Step(j.bridge, p)))
  {
    var r, u := j.(bridge := P.Step(j.bridge, p)), p.receipt;
    ThreadMoves(j.bridge, p);
    if !j.bridge.threads[u].Refused? && !j.bridge.threads[u].Called? {
      assert u !in j.leases.leases.firstCall;
    }
    assert forall v :: v != u && Tells(j, v) ==> Tells(r, v);
  }

  lemma ThreadMoves(b: P.Bridge, p: P.Event)
    requires p.Thread? && p.receipt in b.threads && !b.threads[p.receipt].Calling?
    ensures var r, u := P.Step(b, p), p.receipt;
            && r.threads.Keys == b.threads.Keys
            && (forall v :: v in b.threads && v != u ==> r.threads[v] == b.threads[v])
            && (b.threads[u].Refused? || b.threads[u].Called? ==> r.threads[u] == b.threads[u])
            && (r.threads[u].Called? ==> b.threads[u].Called?)
  {
  }

  lemma PresentKeepsCoupled(j: Joint, u: nat)
    requires Coupled(j) && NT.Inv(j.leases) && IsPresenting(j.leases, u) && u !in j.bridge.threads
    ensures Coupled(j.(bridge := P.Goes(j.bridge, u, P.Asking)))
  {
    var r := j.(bridge := P.Goes(j.bridge, u, P.Asking));
    var t :| Presents(j.leases, t, u);
    assert u !in j.leases.leases.firstCall;
    assert forall v :: v != u && Tells(j, v) ==> Tells(r, v);
  }

  ghost predicate Inv(j: Joint) {
    NT.Inv(j.leases) && P.Inv(j.bridge) && Coupled(j)
  }

  lemma StepKeepsCoupled(j: Joint, e: Event)
    requires Inv(j)
    ensures Coupled(Step(j, e))
  {
    hide NT.Inv, P.Inv, N.Step, Coupled, P.DoThread;
    match e
    case LeaseEvent(l) => if LeaseMay(j, l) { LeaseKeepsCoupled(j, l); }
    case BridgeEvent(p) =>
      match p
      case Present(u) => if IsPresenting(j.leases, u) && u !in j.bridge.threads { PresentKeepsCoupled(j, u); }
      case CloseBridge => CloseKeepsCoupled(j);
      case Thread(u, _, _) =>
        if u in j.bridge.threads {
          if j.bridge.threads[u].Calling? { CallKeepsCoupled(j, p); } else { ThreadKeepsCoupled(j, p); }
        }
  }

  lemma CloseKeepsCoupled(j: Joint)
    requires Coupled(j)
    ensures Coupled(j.(bridge := P.Step(j.bridge, P.CloseBridge)))
  {
    var r := j.(bridge := P.Step(j.bridge, P.CloseBridge));
    assert forall v :: Tells(j, v) ==> Tells(r, v);
  }

  lemma StepKeepsInv(j: Joint, e: Event)
    requires Inv(j)
    ensures Inv(Step(j, e))
  {
    StepKeepsCoupled(j, e);
    hide NT.Inv, P.Inv, N.Step, P.Step, Coupled;
    match e
    case LeaseEvent(l) => NT.StepKeepsInv(j.leases, l);
    case BridgeEvent(p) =>
      P.StepKeepsInv(j.bridge, p);
      if CallsReceipt(j.bridge, p) {
        NT.StepKeepsInv(j.leases, N.ReceiptCall(p.receipt, ActionOf(j.bridge.threads[p.receipt].presented)));
      }
  }

  lemma InitialInv(j: Joint)
    requires j == Initial()
    ensures Inv(j)
  {
    hide NT.Inv, N.Initial, P.Inv, P.Initial;
    NT.InitialInv();
    P.InitialInv(j.bridge);
    assert Coupled(j) by { NothingIsCoupled(j); }
  }

  lemma NothingIsCoupled(j: Joint)
    requires j == Initial()
    ensures Coupled(j)
  {
  }

  lemma {:induction false} RunKeepsInv(states: seq<Joint>, k: nat)
    requires IsRun(states) && k < |states|
    ensures Inv(states[k])
  {
    hide Inv, Step, Initial;
    if k == 0 {
      InitialInv(states[0]);
    } else {
      RunKeepsInv(states, k - 1);
      assert Linked(states, k - 1);
      var e :| Step(states[k - 1], e) == states[k];
      StepKeepsInv(states[k - 1], e);
    }
  }

  // ------------------------------------------------------------------
  // The promises, end to end

  /** A lease is acknowledged only if its batch was shown. */
  lemma AcknowledgedMeansShown(states: seq<Joint>, k: nat, lease: nat)
    requires IsRun(states) && k < |states| && lease in states[k].leases.leases.acknowledged
    ensures P.Delivery(lease, P.Presented) in states[k].bridge.history.deliveries
  {
    RunKeepsInv(states, k);
    assert Tells(states[k], lease);
  }

  /** A receipt is spent by the presenter's call of it, with what that call said,
      or by the pump whose batch the presenter refused. */
  lemma ReceiptSaysWhatHappened(states: seq<Joint>, k: nat, lease: nat)
    requires IsRun(states) && k < |states| && lease in states[k].leases.leases.firstCall
    ensures var b := states[k].bridge;
            lease in b.threads &&
            (|| (b.threads[lease] == P.Called(true) && states[k].leases.leases.firstCall[lease].Presented?)
             || (b.threads[lease] == P.Called(false) && states[k].leases.leases.firstCall[lease].Failed?)
             || (b.threads[lease].Refused? && states[k].leases.leases.firstCall[lease].Failed?))
  {
    RunKeepsInv(states, k);
    assert Tells(states[k], lease);
  }

  // ------------------------------------------------------------------
  // Somebody attends to every lease

  predicate Pumps(s: N.System, t: nat, lease: nat) {
    t in s.pumps && (s.pumps[t] == N.Presenting(lease) || s.pumps[t] == N.Failing(lease))
  }

  predicate Shows(b: P.Bridge, lease: nat) {
    lease in b.threads && P.IsAccepted(b.threads[lease]) && !b.threads[lease].Called?
  }

  /** An unspent receipt is with the pump that presents its batch or with the
      presenter's task. */
  ghost predicate Carried(j: Joint, lease: nat) {
    (exists t :: Pumps(j.leases, t, lease)) || Shows(j.bridge, lease)
  }

  ghost predicate AllCarried(j: Joint) {
    forall k :: k in j.leases.leases.receipts && !j.leases.leases.receipts[k] ==> Carried(j, k)
  }

  /** A lease step that makes no receipt and takes no pump out of presenting. */
  lemma QuietKeepsCarried(j: Joint, s: N.System)
    requires AllCarried(j)
    requires forall k :: k in s.leases.receipts && !s.leases.receipts[k] ==>
               k in j.leases.leases.receipts && !j.leases.leases.receipts[k]
    requires forall t :: t in j.leases.pumps && (j.leases.pumps[t].Presenting? || j.leases.pumps[t].Failing?) ==>
               t in s.pumps && s.pumps[t] == j.leases.pumps[t]
    ensures AllCarried(j.(leases := s))
  {
    forall t, k | Pumps(j.leases, t, k) ensures Pumps(s, t, k) {}
  }

  /** The pump leaves `present`: accepted, the batch is with the presenter's task;
      refused, the pump will spend the receipt itself. */
  lemma ReturnKeepsCarried(j: Joint, t: nat, lease: nat, presented: bool)
    requires Coupled(j) && NT.Inv(j.leases) && AllCarried(j)
    requires t in j.leases.pumps && j.leases.pumps[t] == N.Presenting(lease) && Answered(j.bridge, lease, presented)
    ensures AllCarried(j.(leases := N.PumpPresents(j.leases, t, lease, presented)))
  {
    var s := N.PumpPresents(j.leases, t, lease, presented);
    var r := j.(leases := s);
    forall u, k | u != t && Pumps(j.leases, u, k) ensures Pumps(s, u, k) {}
    assert !presented ==> Pumps(s, t, lease);
    assert presented && lease in s.leases.receipts && !s.leases.receipts[lease] ==> Shows(j.bridge, lease);
  }

  lemma FailureKeepsCarried(j: Joint, t: nat, lease: nat)
    requires AllCarried(j) && t in j.leases.pumps && j.leases.pumps[t] == N.Failing(lease)
    ensures AllCarried(j.(leases := N.PumpFails(j.leases, t, lease)))
  {
    var s := N.PumpFails(j.leases, t, lease);
    forall u, k | u != t && Pumps(j.leases, u, k) ensures Pumps(s, u, k) {}
    assert lease in s.leases.receipts ==> s.leases.receipts[lease];
  }

  lemma MadeKeepsCarried(j: Joint, t: nat, lease: nat)
    requires AllCarried(j) && t in j.leases.pumps && j.leases.pumps[t] == N.StopRecheck(lease)
    ensures AllCarried(j.(leases := N.PumpRechecksStop(j.leases, t, lease)))
  {
    var s := N.PumpRechecksStop(j.leases, t, lease);
    forall u, k | u != t && Pumps(j.leases, u, k) ensures Pumps(s, u, k) {}
    assert !j.leases.signal.stopping ==> Pumps(s, t, lease);
  }

  lemma PumpKeepsCarried(j: Joint, l: N.Event)
    requires Coupled(j) && NT.Inv(j.leases) && AllCarried(j) && LeaseMay(j, l)
    requires l.PumpStep? && l.thread in j.leases.pumps
    ensures AllCarried(j.(leases := N.Step(j.leases, l)))
  {
    hide Coupled, NT.Inv, AllCarried;
    var s, t := j.leases, l.thread;
    match s.pumps[t]
    case StopRecheck(lease) => MadeKeepsCarried(j, t, lease);
    case Presenting(lease) => ReturnKeepsCarried(j, t, lease, l.presented);
    case Failing(lease) => FailureKeepsCarried(j, t, lease);
    case StopCheck => QuietKeepsCarried(j, N.Step(s, l));
    case CasInFlight => QuietKeepsCarried(j, N.Step(s, l));
    case Take => QuietKeepsCarried(j, N.Step(s, l));
    case ClearUntaken => QuietKeepsCarried(j, N.Step(s, l));
    case ReleaseLoad => QuietKeepsCarried(j, N.Step(s, l));
    case ReleasePort => QuietKeepsCarried(j, N.Step(s, l));
    case ReleaseClear => QuietKeepsCarried(j, N.Step(s, l));
  }

  lemma CallKeepsCarried(j: Joint, l: N.Event)
    requires AllCarried(j) && (l.PumpCall? || l.SubmitAction? || l.ShutdownCall? || l.ShutdownStep?)
    ensures AllCarried(j.(leases := N.Step(j.leases, l)))
  {
    hide AllCarried, N.DoPump, N.DoWorker;
    QuietKeepsCarried(j, N.Step(j.leases, l));
  }

  lemma WorkerKeepsCarried(j: Joint, reply: N.PortReply, timedOut: bool)
    requires AllCarried(j) && NT.Inv(j.leases)
    ensures AllCarried(j.(leases := N.DoWorker(j.leases, reply, timedOut)))
  {
    NT.WorkerFacts(j.leases);
    hide NT.Inv, AllCarried, N.DoWorker;
    WorkerIsQuiet(j.leases, reply, timedOut);
    WorkerKeepsPumps(j.leases, reply, timedOut);
    QuietKeepsCarried(j, N.DoWorker(j.leases, reply, timedOut));
  }

  lemma LeaseKeepsCarried(j: Joint, l: N.Event)
    requires Coupled(j) && NT.Inv(j.leases) && AllCarried(j) && LeaseMay(j, l)
    ensures AllCarried(j.(leases := N.Step(j.leases, l)))
  {
    hide Coupled, NT.Inv, AllCarried, N.DoPump, N.DoWorker;
    match l
    case PumpStep(t, _, _) => if t in j.leases.pumps { PumpKeepsCarried(j, l); }
    case WorkerStep(reply, timedOut) => WorkerKeepsCarried(j, reply, timedOut);
    case PumpCall(_) => CallKeepsCarried(j, l);
    case SubmitAction(_) => CallKeepsCarried(j, l);
    case ShutdownCall => CallKeepsCarried(j, l);
    case ShutdownStep(_) => CallKeepsCarried(j, l);
  }

  lemma WorkerKeepsPumps(s: N.System, reply: N.PortReply, timedOut: bool)
    requires 0 in s.pumps ==> s.worker.Pumping?
    ensures forall t :: t in s.pumps ==>
              t in N.DoWorker(s, reply, timedOut).pumps && N.DoWorker(s, reply, timedOut).pumps[t] == s.pumps[t]
  {
    match s.worker
    case PresenterCheck =>
    case _ =>
  }

  /** The presenter's threads keep what they accepted until they call its receipt. */
  lemma BridgeKeepsCarried(j: Joint, p: P.Event)
    requires AllCarried(j)
    ensures AllCarried(Step(j, BridgeEvent(p)))
  {
    var r := Step(j, BridgeEvent(p));
    forall t, k | Pumps(j.leases, t, k) ensures Pumps(r.leases, t, k) {}
    forall k | Shows(j.bridge, k) && k in r.leases.leases.receipts && !r.leases.leases.receipts[k]
      ensures Shows(r.bridge, k)
    {
    }
  }

  ghost predicate Attentive(j: Joint) {
    AllCarried(j) && NP.AllAttended(j.leases)
  }

  lemma StepKeepsAttentive(j: Joint, e: Event)
    requires Inv(j) && Attentive(j)
    ensures Attentive(Step(j, e))
  {
    hide NT.Inv, P.Inv, N.Step, P.Step, Coupled, AllCarried, NP.AllAttended;
    match e
    case LeaseEvent(l) =>
      NP.StepKeepsAttended(j.leases, l);
      if LeaseMay(j, l) { LeaseKeepsCarried(j, l); }
    case BridgeEvent(p) =>
      BridgeKeepsCarried(j, p);
      if CallsReceipt(j.bridge, p) {
        NP.StepKeepsAttended(j.leases, N.ReceiptCall(p.receipt, ActionOf(j.bridge.threads[p.receipt].presented)));
      }
  }

  lemma {:induction false} RunKeepsAttentive(states: seq<Joint>, k: nat)
    requires IsRun(states) && k < |states|
    ensures Attentive(states[k])
  {
    if k > 0 {
      hide Inv, Step, Initial, Attentive;
      RunKeepsAttentive(states, k - 1);
      RunKeepsInv(states, k - 1);
      assert Linked(states, k - 1);
      var e :| Step(states[k - 1], e) == states[k];
      StepKeepsAttentive(states[k - 1], e);
    }
  }

  /** End to end: until a stop, a lease that is out is with the pump that took it,
      with the presenter's task that shows its batch, on its way to the receipt
      worker or in the worker's hands, unless the port refused to release it. */
  lemma LeaseIsAttendedEndToEnd(states: seq<Joint>, k: nat, lease: nat)
    requires IsRun(states) && k < |states|
    requires !states[k].leases.signal.stopping && lease in states[k].leases.leases.outstanding
    ensures var s := states[k].leases;
            || (exists t :: t in s.pumps && s.pumps[t] in {N.StopRecheck(lease), N.Presenting(lease), N.Failing(lease)})
            || Shows(states[k].bridge, lease)
            || lease in s.leases.submitting
            || (s.signal.action.Some? && s.signal.action.value.lease == lease)
            || s.worker.ActsOn() == Some(lease)
            || lease in s.leases.refused
  {
    RunKeepsAttentive(states, k);
    var s := states[k].leases;
    if t :| NP.TakenBy(s, t, lease) {
      assert t in s.pumps && s.pumps[t] in {N.StopRecheck(lease), N.Presenting(lease), N.Failing(lease)};
    } else if lease in s.leases.receipts && !s.leases.receipts[lease] {
      assert Carried(states[k], lease);
      if t :| Pumps(s, t, lease) {
        assert t in s.pumps && s.pumps[t] in {N.StopRecheck(lease), N.Presenting(lease), N.Failing(lease)};
      }
    }
  }

  // ------------------------------------------------------------------
  // A run that ends in an acknowledgement

  lemma Extend(states: seq<Joint>, e: Event) returns (longer: seq<Joint>)
    requires IsRun(states)
    ensures IsRun(longer) && longer == states + [Step(states[|states| - 1], e)]
  {
    hide Step, Initial;
    longer := states + [Step(states[|states| - 1], e)];
    forall i: nat | i + 1 < |longer| ensures Linked(longer, i) {
      if i + 1 < |states| {
        assert Linked(states, i);
        var f :| Step(states[i], f) == states[i + 1];
        assert Step(longer[i], f) == longer[i + 1];
      } else {
        assert Step(longer[i], e) == longer[i + 1];
      }
    }
  }

  /** The pump of thread 1, up to its call of `present` for lease 0. */
  function PumpedTo(n: nat): Joint
    requires n <= 5
  {
    var pc := if n < 2 then N.StopCheck else if n == 2 then N.CasInFlight else if n == 3 then N.Take
              else if n == 4 then N.StopRecheck(0) else N.Presenting(0);
    Joint(N.System(N.Signal(true, false, None, n >= 3),
                   N.Leases(if n >= 4 then {0} else {}, if n >= 4 then 1 else 0,
                            if n == 5 then map[0 := false] else map[], map[], map[], {}, {}, {}, {}, {}),
                   if n == 0 then map[] else map[1 := pc], N.Waiting, N.ShutIdle),
          P.Initial())
  }

  function PumpEvent(n: nat): N.Event {
    if n == 0 then N.PumpCall(1) else N.PumpStep(1, N.Granted, true)
  }

  lemma PumpedStep(n: nat)
    requires n < 5
    ensures Step(PumpedTo(n), LeaseEvent(PumpEvent(n))) == PumpedTo(n + 1)
  {
  }

  /** The presenter takes the batch, shows it and calls the receipt. */
  function ShownTo(n: nat): Joint
    requires n <= 9
  {
    var pc := [P.Asking, P.Asking, P.Swapping, P.Scheduling, P.Queued, P.Queued, P.Delivering, P.Clearing(true),
               P.Calling(true), P.Called(true)][n];
    var up := 3 <= n < 8;
    Joint(N.System(N.Signal(true, false, None, true),
                   N.Leases({0}, 1, map[0 := n == 9], if n == 9 then map[0 := N.Presented] else map[],
                            if n == 9 then map[0 := N.Presented] else map[], {}, {}, {}, {}, {}),
                   if n < 5 then map[1 := N.Presenting(0)] else map[], N.Waiting, N.ShutIdle),
          P.Bridge(P.Shared(false, up, if up then Some(0) else None), if n == 0 then map[] else map[0 := pc],
                   P.History(if n >= 4 then {0} else {}, if n >= 7 then [P.Delivery(0, P.Presented)] else [],
                             if n == 9 then [P.Call(0, true)] else [], P.Stops(false, false))))
  }

  function ShowEvent(n: nat): Event {
    if n == 0 then BridgeEvent(P.Present(0))
    else if n == 4 then LeaseEvent(N.PumpStep(1, N.Granted, true))
    else BridgeEvent(P.Thread(0, P.Scheduled, P.Presented))
  }

  lemma BatchEnters()
    ensures Step(ShownTo(0), ShowEvent(0)) == ShownTo(1)
  {
    assert Presents(ShownTo(0).leases, 1, 0);
    assert IsPresenting(ShownTo(0).leases, 0);
  }

  lemma BatchIsTaken(n: nat)
    requires 1 <= n < 4
    ensures Step(ShownTo(n), ShowEvent(n)) == ShownTo(n + 1)
  {
  }

  lemma PumpReturns()
    ensures Step(ShownTo(4), ShowEvent(4)) == ShownTo(5)
  {
  }

  lemma BatchIsShown(n: nat)
    requires 5 <= n < 8
    ensures Step(ShownTo(n), ShowEvent(n)) == ShownTo(n + 1)
  {
  }

  lemma ReceiptIsCalled()
    ensures Step(ShownTo(8), ShowEvent(8)) == ShownTo(9)
  {
  }

  lemma ShownStep(n: nat)
    requires n < 9
    ensures Step(ShownTo(n), ShowEvent(n)) == ShownTo(n + 1)
  {
    hide Step, ShownTo, ShowEvent;
    if n == 0 {
      BatchEnters();
    } else if n < 4 {
      BatchIsTaken(n);
    } else if n == 4 {
      PumpReturns();
    } else if n < 8 {
      BatchIsShown(n);
    } else {
      ReceiptIsCalled();
    }
  }

  /** The action reaches the worker, which acknowledges the lease. */
  function AckedTo(n: nat): Joint
    requires n <= 4
  {
    var done := ShownTo(9);
    var queued := if n == 1 then Some(N.Queued(0, N.Presented)) else None;
    var worker := [N.Waiting, N.Waiting, N.AckCheck(0), N.Acking(0), N.AckClear][n];
    var leases := N.Leases(if n == 4 then {} else {0}, 1, map[0 := true],
                           if n == 0 then map[0 := N.Presented] else map[], map[0 := N.Presented],
                           if n == 4 then {0} else {}, {}, {}, {}, {});
    Joint(N.System(N.Signal(true, false, queued, true), leases, map[], worker, N.ShutIdle), done.bridge)
  }

  function AckEvent(n: nat): Event {
    LeaseEvent(if n == 0 then N.SubmitAction(0) else N.WorkerStep(N.Granted, true))
  }

  lemma AckedStep(n: nat)
    requires n < 4
    ensures Step(AckedTo(n), AckEvent(n)) == AckedTo(n + 1)
  {
  }

  lemma StagesMeet()
    ensures PumpedTo(0) == Initial() && PumpedTo(5) == ShownTo(0) && ShownTo(9) == AckedTo(0)
  {
  }

  /** The two protocols together can show a batch and acknowledge its lease. */
  lemma AcknowledgementIsReachable() returns (states: seq<Joint>)
    ensures IsRun(states) && 0 in states[|states| - 1].leases.leases.acknowledged
  {
    hide Step, PumpedTo, ShownTo;
    StagesMeet();
    states := [Initial()];
    for n := 0 to 5
      invariant IsRun(states) && states[|states| - 1] == PumpedTo(n)
    {
      PumpedStep(n);
      states := Extend(states, LeaseEvent(PumpEvent(n)));
    }
    for n := 0 to 9
      invariant IsRun(states) && states[|states| - 1] == ShownTo(n)
    {
      ShownStep(n);
      states := Extend(states, ShowEvent(n));
    }
    for n := 0 to 4
      invariant IsRun(states) && states[|states| - 1] == AckedTo(n)
    {
      AckedStep(n);
      states := Extend(states, AckEvent(n));
    }
  }
}
