/** When the activation bridge closes, and that a pending request can be
    delivered. */
module ActivationBridgeProgress {
  import opened ActivationBridge
  import opened ActivationBridgeTheorems

  // ------------------------------------------------------------------
  // When the bridge closes

  /** Threads that found the event loop gone and have yet to close the bridge. */
  function AboutToClose(threads: multiset<Pc>): nat {
    threads[SchFailCount(true)] + threads[SchFailReset(true)] + threads[SchClose]
  }

  ghost predicate ClosedTold(b: Bridge) {
    && (b.history.stops.asked ==> b.closed)
    && (b.closed ==> b.history.stops.asked || b.history.stops.loopGone)
    && (b.history.stops.loopGone ==> b.closed || AboutToClose(b.threads) > 0)
    && (AboutToClose(b.threads) > 0 ==> b.history.stops.loopGone)
  }

  function Closing(pc: Pc): nat {
    if pc == SchFailCount(true) || pc == SchFailReset(true) || pc == SchClose then 1 else 0
  }

  lemma AboutToCloseMoves(threads: multiset<Pc>, from: Pc, to: Pc)
    requires from in threads
    ensures AboutToClose(threads - multiset{from}) == AboutToClose(threads) - Closing(from)
    ensures AboutToClose(threads - multiset{from} + multiset{to}) ==
            AboutToClose(threads) - Closing(from) + Closing(to)
  {
  }

  /** A thread moves; whoever was about to close the bridge has closed it or still
      is, and who newly is found the loop gone. */
  lemma MoveKeepsTold(b: Bridge, r: Bridge, from: Pc, to: Pc)
    requires ClosedTold(b) && from in b.threads && r.threads == b.threads
    requires (b.closed ==> r.closed) && (r.closed && !b.closed ==> r.history.stops.asked || r.history.stops.loopGone)
    requires r.history.stops.asked ==> b.history.stops.asked || r.closed
    requires b.history.stops.asked ==> r.history.stops.asked
    requires b.history.stops.loopGone ==> r.history.stops.loopGone
    requires Closing(to) == 1 ==> r.history.stops.loopGone
    requires r.history.stops.loopGone && Closing(to) == 0 ==>
               r.closed || (b.history.stops.loopGone && Closing(from) == 0)
    ensures ClosedTold(Goes(r, from, to))
  {
    AboutToCloseMoves(b.threads, from, to);
    hide AboutToClose, Closing;
  }

  lemma EndKeepsTold(b: Bridge, r: Bridge, from: Pc)
    requires ClosedTold(b) && from in b.threads && r.threads == b.threads && Closing(from) == 0
    requires r.closed == b.closed && r.history.stops == b.history.stops
    ensures ClosedTold(Ends(r, from))
  {
    AboutToCloseMoves(b.threads, from, from);
    hide AboutToClose, Closing;
  }

  /** A thread about to close says that the loop is gone. */
  lemma CloserTells(b: Bridge, pc: Pc)
    requires ClosedTold(b) && pc in b.threads && Closing(pc) == 1
    ensures b.history.stops.loopGone
  {
  }

  lemma RequestKeepsTold(b: Bridge, pc: Pc)
    requires ClosedTold(b) && pc in b.threads
    requires pc.ReqClosed? || pc.ReqReceived? || pc.ReqPending? || pc.ReqCoalesced?
    ensures ClosedTold(RequestStep(b, pc))
  {
    hide ClosedTold, Goes, Ends;
    match pc
    case ReqClosed =>
      if b.closed { EndKeepsTold(b, b, pc); } else { MoveKeepsTold(b, Note(b, Received), pc, ReqReceived); }
    case ReqReceived => MoveKeepsTold(b, CountUp(b, Received), pc, ReqPending);
    case ReqPending =>
      if b.pending { MoveKeepsTold(b, Note(b, Coalesced), pc, ReqCoalesced); }
      else { MoveKeepsTold(b, b.(pending := true), pc, SchClosed); }
    case ReqCoalesced => MoveKeepsTold(b, CountUp(b, Coalesced), pc, SchClosed);
  }

  lemma ScheduleKeepsTold(b: Bridge, pc: Pc, reply: ScheduleReply)
    requires ClosedTold(b) && pc in b.threads
    requires pc.SchClosed? || pc.SchDrop? || pc.SchPending? || pc.SchSwap? || pc.SchCall?
    ensures ClosedTold(ScheduleStep(b, pc, reply))
  {
    hide ClosedTold, Goes, Ends;
    match pc
    case SchClosed => MoveKeepsTold(b, b, pc, if b.closed then SchDrop else SchPending);
    case SchDrop => EndKeepsTold(b, b.(pending := false), pc);
    case SchPending => if b.pending { MoveKeepsTold(b, b, pc, SchSwap); } else { EndKeepsTold(b, b, pc); }
    case SchSwap =>
      if b.scheduled { EndKeepsTold(b, b, pc); } else { MoveKeepsTold(b, b.(scheduled := true), pc, SchCall); }
    case SchCall =>
      if reply.Scheduled? { EndKeepsTold(b, NoteSuccess(b), pc); }
      else { MoveKeepsTold(b, NoteFailure(b, reply), pc, SchFailCount(reply.LoopTerminated?)); }
  }

  lemma FailureKeepsTold(b: Bridge, pc: Pc)
    requires ClosedTold(b) && pc in b.threads
    requires pc.SchFailCount? || pc.SchFailReset? || pc.SchClose? || pc.SchClosePending?
          || pc.CloseFlag? || pc.ClosePending?
    ensures ClosedTold(FailureStep(b, pc))
  {
    if Closing(pc) == 1 { CloserTells(b, pc); }
    hide ClosedTold, Goes, Ends;
    match pc
    case SchFailCount(terminated) => MoveKeepsTold(b, CountUp(b, Failures), pc, SchFailReset(terminated));
    case SchFailReset(terminated) =>
      if terminated { MoveKeepsTold(b, b.(scheduled := false), pc, SchClose); }
      else { EndKeepsTold(b, b.(scheduled := false), pc); }
    case SchClose => MoveKeepsTold(b, b.(closed := true), pc, SchClosePending);
    case SchClosePending => EndKeepsTold(b, b.(pending := false), pc);
    case CloseFlag => MoveKeepsTold(b, NoteClose(b).(closed := true), pc, ClosePending);
    case ClosePending => EndKeepsTold(b, b.(pending := false), pc);
  }

  lemma RunnerKeepsTold(b: Bridge, pc: Pc, admission: Admission)
    requires ClosedTold(b) && pc in b.threads
    requires pc.RunClosed? || pc.RunDropPending? || pc.RunDropScheduled? || pc.RunTake? || pc.RunDeliver?
          || pc.RunCount? || pc.RunReset? || pc.RunPending? || pc.RunRecheckClosed?
    ensures ClosedTold(RunStep(b, pc, admission))
  {
    hide ClosedTold, Goes, Ends;
    match pc
    case RunClosed => MoveKeepsTold(b, b, pc, if b.closed then RunDropPending else RunTake);
    case RunDropPending => MoveKeepsTold(b, b.(pending := false), pc, RunDropScheduled);
    case RunDropScheduled => EndKeepsTold(b, b.(scheduled := false), pc);
    case RunTake =>
      if b.pending { MoveKeepsTold(b, b.(pending := false), pc, RunDeliver); }
      else { MoveKeepsTold(b, b, pc, RunReset); }
    case RunDeliver => MoveKeepsTold(b, NoteAdmission(b, admission), pc, RunCount(admission));
    case RunCount(counted) => MoveKeepsTold(b, CountUp(b, CounterOf(counted)), pc, RunReset);
    case RunReset => MoveKeepsTold(b, b.(scheduled := false), pc, RunPending);
    case RunPending => if b.pending { MoveKeepsTold(b, b, pc, RunRecheckClosed); } else { EndKeepsTold(b, b, pc); }
    case RunRecheckClosed => if b.closed { EndKeepsTold(b, b, pc); } else { MoveKeepsTold(b, b, pc, SchClosed); }
  }

  lemma StepKeepsTold(b: Bridge, e: Event)
    requires ClosedTold(b)
    ensures ClosedTold(Step(b, e))
  {
    hide RequestStep, ScheduleStep, FailureStep, RunStep;
    match e
    case Request =>
    case Flush =>
    case Close =>
    case StartTask =>
    case ThreadStep(pc, reply, admission) =>
      if pc in b.threads {
        hide ClosedTold;
        if pc.ReqClosed? || pc.ReqReceived? || pc.ReqPending? || pc.ReqCoalesced? {
          RequestKeepsTold(b, pc);
        } else if pc.SchClosed? || pc.SchDrop? || pc.SchPending? || pc.SchSwap? || pc.SchCall? {
          ScheduleKeepsTold(b, pc, reply);
        } else if pc.SchFailCount? || pc.SchFailReset? || pc.SchClose? || pc.SchClosePending? || pc.CloseFlag?
                  || pc.ClosePending? {
          FailureKeepsTold(b, pc);
        } else {
          RunnerKeepsTold(b, pc, admission);
        }
      }
  }

  lemma InitialTold(b: Bridge)
    requires b == Initial()
    ensures ClosedTold(b)
  {
  }

  lemma {:induction false} RunKeepsTold(states: seq<Bridge>, k: nat)
    requires IsRun(states) && k < |states|
    ensures ClosedTold(states[k])
  {
    hide Step, ClosedTold, Initial;
    if k == 0 {
      InitialTold(states[0]);
    } else {
      RunKeepsTold(states, k - 1);
      assert Linked(states, k - 1);
      var e :| Step(states[k - 1], e) == states[k];
      StepKeepsTold(states[k - 1], e);
    }
  }

  /** In every run, with nobody on the way to closing it, the bridge is closed
      exactly if it was asked to or a schedule call found the event loop gone; a
      loop that was only unavailable never closes it. */
  lemma ClosedExactlyWhen(states: seq<Bridge>, k: nat)
    requires IsRun(states) && k < |states| && AboutToClose(states[k].threads) == 0
    ensures states[k].closed <==> states[k].history.stops.asked || states[k].history.stops.loopGone
  {
    RunKeepsTold(states, k);
  }

  // ------------------------------------------------------------------
  // A pending request can be delivered

  lemma Extend(states: seq<Bridge>, e: Event) returns (longer: seq<Bridge>)
    requires IsRun(states)
    ensures IsRun(longer) && longer == states + [Step(states[|states| - 1], e)]
  {
    hide Step, Initial;
    longer := states + [Step(states[|states| - 1], e)];
    forall i: nat | i + 1 < |longer| ensures Linked(longer, i) {
      if i + 1 < |states| {
        assert Linked(states, i);
        var f :| Step(states[i], f) == states[i + 1];
        assert Step(longer[i], f) == longer[i + 1];
      } else {
        assert Step(longer[i], e) == longer[i + 1];
      }
    }
  }

  /** How far a thread at this point, left alone, is from taking the request. */
  function Rank(pc: Pc): nat {
    match pc
    case RunTake => 1
    case RunClosed => 2
    case SchCall => 4
    case SchSwap => 5
    case SchPending => 6
    case SchClosed => 7
    case ReqCoalesced => 8
    case RunRecheckClosed => 8
    case RunPending => 9
    case RunReset => 10
    case RunCount(_) => 11
    case RunDeliver => 12
    case _ => 0
  }

  /** A thread that will take the pending request: it owns the flag, or nobody
      does and it will raise it. */
  predicate Drives(b: Bridge, pc: Pc) {
    && !b.closed && b.pending && pc in b.threads && Rank(pc) > 0
    && (pc.SchCall? || Runs(pc) || !b.scheduled)
  }

  /** Where a driver goes next. */
  function After(pc: Pc, admission: Admission): Pc {
    match pc
    case RunClosed => RunTake
    case SchSwap => SchCall
    case SchPending => SchSwap
    case SchClosed => SchPending
    case ReqCoalesced => SchClosed
    case RunRecheckClosed => SchClosed
    case RunPending => RunRecheckClosed
    case RunReset => RunPending
    case RunCount(_) => RunReset
    case RunDeliver => RunCount(admission)
    case _ => pc
  }

  /** The flags stay as a driver needs them, and the thread gets where it goes. */
  lemma MoveDrives(b: Bridge, r: Bridge, pc: Pc, to: Pc)
    requires Drives(b, pc) && r.threads == b.threads && !r.closed && r.pending
    requires Rank(to) > 0 && (to.SchCall? || Runs(to) || !r.scheduled)
    ensures Drives(Goes(r, pc, to), to) && Goes(r, pc, to).history == r.history
  {
  }

  /** Where the next step of a driver leads. */
  ghost predicate Advances(b: Bridge, r: Bridge, pc: Pc, admission: Admission) {
    && Drives(r, After(pc, admission)) && Rank(After(pc, admission)) < Rank(pc)
    && Answered(b, admission) <= Answered(r, admission)
  }

  lemma CoalescedMoves(b: Bridge, admission: Admission)
    requires Drives(b, ReqCoalesced)
    ensures Advances(b, RequestStep(b, ReqCoalesced), ReqCoalesced, admission)
  {
    MoveDrives(b, CountUp(b, Coalesced), ReqCoalesced, SchClosed);
    hide Drives, Goes;
  }

  lemma SchedulerMoves(b: Bridge, pc: Pc, admission: Admission)
    requires Drives(b, pc) && (pc.SchSwap? || pc.SchPending? || pc.SchClosed?)
    ensures Advances(b, ScheduleStep(b, pc, Scheduled), pc, admission)
  {
    MoveDrives(b, if pc.SchSwap? then b.(scheduled := true) else b, pc, After(pc, admission));
    assert !b.closed && b.pending && !b.scheduled;
    hide Drives, Goes;
  }

  lemma StartedMoves(b: Bridge, admission: Admission)
    requires Drives(b, RunClosed)
    ensures Advances(b, RunStep(b, RunClosed, admission), RunClosed, admission)
  {
    MoveDrives(b, b, RunClosed, RunTake);
    assert !b.closed;
    hide Drives, Goes;
  }

  lemma DelivererMoves(b: Bridge, admission: Admission)
    requires Drives(b, RunDeliver)
    ensures Advances(b, RunStep(b, RunDeliver, admission), RunDeliver, admission)
  {
    MoveDrives(b, NoteAdmission(b, admission), RunDeliver, RunCount(admission));
    hide Drives, Goes;
  }

  lemma CounterMoves(b: Bridge, counted: Admission, admission: Admission)
    requires Drives(b, RunCount(counted))
    ensures Advances(b, RunStep(b, RunCount(counted), admission), RunCount(counted), admission)
  {
    MoveDrives(b, CountUp(b, CounterOf(counted)), RunCount(counted), RunReset);
    hide Drives, Goes;
  }

  lemma ResetMoves(b: Bridge, admission: Admission)
    requires Drives(b, RunReset)
    ensures Advances(b, RunStep(b, RunReset, admission), RunReset, admission)
  {
    MoveDrives(b, b.(scheduled := false), RunReset, RunPending);
    hide Drives, Goes;
  }

  lemma RecheckerMoves(b: Bridge, pc: Pc, admission: Admission)
    requires Drives(b, pc) && (pc.RunPending? || pc.RunRecheckClosed?)
    ensures Advances(b, RunStep(b, pc, admission), pc, admission)
  {
    MoveDrives(b, b, pc, After(pc, admission));
    assert !b.closed && b.pending;
    hide Drives, Goes;
  }

  lemma StepIs(b: Bridge, pc: Pc, admission: Admission)
    requires pc in b.threads
    ensures var r := Step(b, ThreadStep(pc, Scheduled, admission));
            && (pc.ReqCoalesced? ==> r == RequestStep(b, pc))
            && (pc.SchSwap? || pc.SchPending? || pc.SchClosed? ==> r == ScheduleStep(b, pc, Scheduled))
            && (|| pc.RunClosed? || pc.RunDeliver? || pc.RunCount? || pc.RunReset? || pc.RunPending?
                || pc.RunRecheckClosed? ==>
                  r == RunStep(b, pc, admission))
  {
    hide RequestStep, ScheduleStep, RunStep, FailureStep;
  }

  lemma DriverMoves(b: Bridge, pc: Pc, admission: Admission)
    requires Drives(b, pc) && !pc.RunTake? && !pc.SchCall?
    ensures Advances(b, Step(b, ThreadStep(pc, Scheduled, admission)), pc, admission)
  {
    RankedPoints(b, pc);
    StepIs(b, pc, admission);
    hide Step, Rank, Drives, Advances, RequestStep, ScheduleStep, RunStep;
    match pc
    case ReqCoalesced => CoalescedMoves(b, admission);
    case SchSwap => SchedulerMoves(b, pc, admission);
    case SchPending => SchedulerMoves(b, pc, admission);
    case SchClosed => SchedulerMoves(b, pc, admission);
    case RunClosed => StartedMoves(b, admission);
    case RunDeliver => DelivererMoves(b, admission);
    case RunCount(counted) => CounterMoves(b, counted, admission);
    case RunReset => ResetMoves(b, admission);
    case RunPending => RecheckerMoves(b, pc, admission);
    case RunRecheckClosed => RecheckerMoves(b, pc, admission);
    case _ =>
  }

  lemma RankedPoints(b: Bridge, pc: Pc)
    requires Drives(b, pc) && !pc.RunTake? && !pc.SchCall?
    ensures pc in b.threads
    ensures || pc.RunClosed? || pc.SchSwap? || pc.SchPending? || pc.SchClosed? || pc.ReqCoalesced?
            || pc.RunRecheckClosed? || pc.RunPending? || pc.RunReset? || pc.RunCount? || pc.RunDeliver?
  {
  }

  /** Deliveries that answered like this. */
  function Answered(b: Bridge, admission: Admission): nat {
    match admission
    case Accepted => b.history.tally.delivered
    case Refused => b.history.tally.rejected
    case Panicked => b.history.tally.panicked
  }

  lemma ScheduleMakesTask(b: Bridge, admission: Admission)
    requires Drives(b, SchCall)
    ensures var s := Step(b, ThreadStep(SchCall, Scheduled, admission));
            var r := Step(s, StartTask);
            Drives(r, RunClosed) && Answered(r, admission) == Answered(b, admission)
  {
  }

  lemma TaskStarts(b: Bridge, admission: Admission)
    requires !b.closed && b.pending && b.tasks > 0
    ensures Drives(Step(b, StartTask), RunClosed) && Answered(Step(b, StartTask), admission) == Answered(b, admission)
  {
  }

  lemma TakingDelivers(b: Bridge, admission: Admission)
    requires Drives(b, RunTake)
    ensures var s := Step(b, ThreadStep(RunTake, Scheduled, admission));
            var r := Step(s, ThreadStep(RunDeliver, Scheduled, admission));
            !r.pending && Answered(r, admission) == Answered(b, admission) + 1
  {
  }

  /** Left alone, a driver takes the request and delivers it. */
  lemma {:induction false} DriverDelivers(states: seq<Bridge>, pc: Pc, admission: Admission)
    returns (longer: seq<Bridge>)
    requires IsRun(states) && Drives(states[|states| - 1], pc)
    ensures IsRun(longer) && states <= longer && !longer[|longer| - 1].pending
    ensures Answered(longer[|longer| - 1], admission) > Answered(states[|states| - 1], admission)
    decreases Rank(pc)
  {
    hide Step, Initial, Linked, Drives, Answered;
    var b := states[|states| - 1];
    if pc.RunTake? {
      TakingDelivers(b, admission);
      longer := Extend(states, ThreadStep(RunTake, Scheduled, admission));
      longer := Extend(longer, ThreadStep(RunDeliver, Scheduled, admission));
    } else if pc.SchCall? {
      ScheduleMakesTask(b, admission);
      longer := Extend(states, ThreadStep(SchCall, Scheduled, admission));
      longer := Extend(longer, StartTask);
      longer := DriverDelivers(longer, RunClosed, admission);
    } else {
      DriverMoves(b, pc, admission);
      longer := Extend(states, ThreadStep(pc, Scheduled, admission));
      longer := DriverDelivers(longer, After(pc, admission), admission);
    }
  }

  /** With no task scheduled, somebody drives. */
  lemma SomeoneDrives(b: Bridge) returns (pc: Pc)
    requires Inv(b) && b.pending && !b.closed && !b.history.failed && b.tasks == 0
    ensures Drives(b, pc)
  {
    if b.scheduled {
      pc := SomeoneCounts(b.threads, Owns);
    } else {
      pc := SomeoneCounts(b.threads, Watches);
    }
    PointTells(b, pc);
    hide Count;
  }

  /** From every reachable state of an open bridge whose last schedule call did
      not fail, a pending request can be delivered: some steps, with a loop that
      takes tasks, lead to a delivery and leave nothing pending. */
  lemma PendingCanBeDelivered(states: seq<Bridge>, admission: Admission) returns (longer: seq<Bridge>)
    requires IsRun(states)
    requires var b := states[|states| - 1]; b.pending && !b.closed && !b.history.failed
    ensures IsRun(longer) && states <= longer && !longer[|longer| - 1].pending
    ensures Answered(longer[|longer| - 1], admission) > Answered(states[|states| - 1], admission)
  {
    hide Step, Initial, Linked, Inv, Drives, Answered;
    var b := states[|states| - 1];
    if b.tasks > 0 {
      TaskStarts(b, admission);
      var started := Extend(states, StartTask);
      longer := DriverDelivers(started, RunClosed, admission);
    } else {
      RunKeepsInv(states, |states| - 1);
      var pc := SomeoneDrives(b);
      longer := DriverDelivers(states, pc, admission);
    }
  }

  // ------------------------------------------------------------------
  // After a close

  /** Closed, with no delivery under way. */
  predicate Shut(b: Bridge) {
    b.closed && RunTake !in b.threads && RunDeliver !in b.threads
  }

  /** What was received and what was delivered, whatever came of it. */
  function Dealt(b: Bridge): (nat, nat, nat, nat) {
    var t := b.history.tally;
    (t.received, t.delivered, t.rejected, t.panicked)
  }

  lemma ShutMoves(b: Bridge, r: Bridge, from: Pc, to: Pc)
    requires Shut(b) && r.closed && r.threads == b.threads && !to.RunTake? && !to.RunDeliver?
    requires Dealt(r) == Dealt(b)
    ensures Shut(Goes(r, from, to)) && Shut(Ends(r, from))
    ensures Dealt(Goes(r, from, to)) == Dealt(b) && Dealt(Ends(r, from)) == Dealt(b)
  {
  }

  lemma RequestStaysShut(b: Bridge, pc: Pc)
    requires Shut(b) && (pc.ReqClosed? || pc.ReqReceived? || pc.ReqPending? || pc.ReqCoalesced?)
    ensures Shut(RequestStep(b, pc)) && Dealt(RequestStep(b, pc)) == Dealt(b)
  {
    assert b.closed;
    hide Shut, Goes, Ends;
    match pc
    case ReqClosed => ShutMoves(b, b, pc, ReqReceived);
    case ReqReceived => ShutMoves(b, CountUp(b, Received), pc, ReqPending);
    case ReqPending =>
      if b.pending { ShutMoves(b, Note(b, Coalesced), pc, ReqCoalesced); }
      else { ShutMoves(b, b.(pending := true), pc, SchClosed); }
    case ReqCoalesced => ShutMoves(b, CountUp(b, Coalesced), pc, SchClosed);
  }

  lemma SchedulerStaysShut(b: Bridge, pc: Pc, reply: ScheduleReply)
    requires Shut(b) && (pc.SchClosed? || pc.SchDrop? || pc.SchPending? || pc.SchSwap? || pc.SchCall?)
    ensures Shut(ScheduleStep(b, pc, reply)) && Dealt(ScheduleStep(b, pc, reply)) == Dealt(b)
  {
    assert b.closed;
    hide Shut, Goes, Ends;
    match pc
    case SchClosed => ShutMoves(b, b, pc, SchDrop);
    case SchDrop => ShutMoves(b, b.(pending := false), pc, pc);
    case SchPending => ShutMoves(b, b, pc, SchSwap);
    case SchSwap =>
      if b.scheduled { ShutMoves(b, b, pc, pc); } else { ShutMoves(b, b.(scheduled := true), pc, SchCall); }
    case SchCall =>
      if reply.Scheduled? { ShutMoves(b, NoteSuccess(b), pc, pc); }
      else { ShutMoves(b, NoteFailure(b, reply), pc, SchFailCount(reply.LoopTerminated?)); }
  }

  lemma CloserStaysShut(b: Bridge, pc: Pc)
    requires Shut(b)
    requires pc.SchFailCount? || pc.SchFailReset? || pc.SchClose? || pc.SchClosePending?
          || pc.CloseFlag? || pc.ClosePending?
    ensures Shut(FailureStep(b, pc)) && Dealt(FailureStep(b, pc)) == Dealt(b)
  {
    assert b.closed;
    hide Shut, Goes, Ends;
    match pc
    case SchFailCount(terminated) => ShutMoves(b, CountUp(b, Failures), pc, SchFailReset(terminated));
    case SchFailReset(_) => ShutMoves(b, b.(scheduled := false), pc, SchClose);
    case SchClose => ShutMoves(b, b.(closed := true), pc, SchClosePending);
    case SchClosePending => ShutMoves(b, b.(pending := false), pc, pc);
    case CloseFlag => ShutMoves(b, NoteClose(b).(closed := true), pc, ClosePending);
    case ClosePending => ShutMoves(b, b.(pending := false), pc, pc);
  }

  lemma RunnerStaysShut(b: Bridge, pc: Pc, admission: Admission)
    requires Shut(b) && pc in b.threads
    requires pc.RunClosed? || pc.RunDropPending? || pc.RunDropScheduled? || pc.RunTake? || pc.RunDeliver?
          || pc.RunCount? || pc.RunReset? || pc.RunPending? || pc.RunRecheckClosed?
    ensures Shut(RunStep(b, pc, admission)) && Dealt(RunStep(b, pc, admission)) == Dealt(b)
  {
    assert b.closed && !pc.RunTake? && !pc.RunDeliver?;
    hide Shut, Goes, Ends;
    match pc
    case RunClosed => ShutMoves(b, b, pc, RunDropPending);
    case RunDropPending => ShutMoves(b, b.(pending := false), pc, RunDropScheduled);
    case RunDropScheduled => ShutMoves(b, b.(scheduled := false), pc, pc);
    case RunCount(counted) => ShutMoves(b, CountUp(b, CounterOf(counted)), pc, RunReset);
    case RunReset => ShutMoves(b, b.(scheduled := false), pc, RunPending);
    case RunPending => ShutMoves(b, b, pc, RunRecheckClosed);
    case RunRecheckClosed => ShutMoves(b, b, pc, SchClosed);
  }

  lemma StepStaysShut(b: Bridge, e: Event)
    requires Shut(b)
    ensures Shut(Step(b, e)) && Dealt(Step(b, e)) == Dealt(b)
  {
    if e.ThreadStep? && e.pc in b.threads {
      hide Shut, Dealt, RequestStep, ScheduleStep, FailureStep, RunStep;
      var pc := e.pc;
      if pc.ReqClosed? || pc.ReqReceived? || pc.ReqPending? || pc.ReqCoalesced? {
        RequestStaysShut(b, pc);
      } else if pc.SchClosed? || pc.SchDrop? || pc.SchPending? || pc.SchSwap? || pc.SchCall? {
        SchedulerStaysShut(b, pc, e.reply);
      } else if pc.SchFailCount? || pc.SchFailReset? || pc.SchClose? || pc.SchClosePending? || pc.CloseFlag?
                || pc.ClosePending? {
        CloserStaysShut(b, pc);
      } else {
        RunnerStaysShut(b, pc, e.admission);
      }
    }
  }

  /** Once the bridge is closed and no delivery is under way, no request is received
      and none is delivered any more. */
  lemma {:induction false} ClosedBridgeDeliversNothing(states: seq<Bridge>, j: nat, k: nat)
    requires IsRun(states) && j <= k < |states| && Shut(states[j])
    ensures Shut(states[k]) && Dealt(states[k]) == Dealt(states[j])
    decreases k
  {
    hide Step, Initial, Shut, Dealt;
    if j < k {
      ClosedBridgeDeliversNothing(states, j, k - 1);
      assert Linked(states, k - 1);
      var e :| Step(states[k - 1], e) == states[k];
      StepStaysShut(states[k - 1], e);
    }
  }
}
