/** No activation request is lost, and every one is accounted for. */
module ActivationBridgeTheorems {
  import opened ActivationBridge

  // ------------------------------------------------------------------
  // Counting threads by what their program point means

  datatype Role =
    | Owns        // may lower the scheduled flag
    | Watches     // will still schedule a task, or look at `pending` again
    | Carries     // holds a request counted as received and not yet as anything else
    | AfterClose  // reached only after a close
    | AfterFail   // reached only after a failed schedule call
    | CountsUp(counter: Counter)  // will count this at its next step

  function Weight(role: Role, pc: Pc): nat {
    match role
    case Owns =>
      if pc.SchCall? || pc.SchFailCount? || pc.SchFailReset? || Runs(pc) then 1 else 0
    case Watches =>
      if || pc.ReqCoalesced? || pc.SchClosed? || pc.SchPending? || pc.SchSwap? || pc.SchCall? || Runs(pc)
         || pc.RunPending? || pc.RunRecheckClosed? then 1 else 0
    case Carries => if pc.ReqPending? || pc.ReqCoalesced? || pc.RunDeliver? || pc.RunCount? then 1 else 0
    case AfterClose =>
      if pc.SchDrop? || pc.RunDropPending? || pc.RunDropScheduled? || pc.SchClosePending? || pc.ClosePending?
      then 1 else 0
    case AfterFail => if pc.SchFailCount? || pc.SchFailReset? then 1 else 0
    case CountsUp(k) =>
      if || (pc.ReqReceived? && k.Received?) || (pc.ReqCoalesced? && k.Coalesced?)
         || (pc.SchFailCount? && k.Failures?) || (pc.RunCount? && k == CounterOf(pc.admission)) then 1 else 0
  }

  /** A task between its start and its reset of the flag. */
  predicate Runs(pc: Pc) {
    || pc.RunClosed? || pc.RunDropPending? || pc.RunDropScheduled? || pc.RunTake? || pc.RunDeliver?
    || pc.RunCount? || pc.RunReset?
  }

  ghost function Pick(threads: multiset<Pc>): (pc: Pc)
    requires threads != multiset{}
    ensures pc in threads
  {
    var pc :| pc in threads;
    pc
  }

  ghost function Count(threads: multiset<Pc>, role: Role): nat {
    if threads == multiset{} then 0
    else Weight(role, Pick(threads)) + Count(threads - multiset{Pick(threads)}, role)
  }

  lemma {:induction false} CountRemoves(threads: multiset<Pc>, pc: Pc, role: Role)
    requires pc in threads
    ensures Count(threads, role) == Weight(role, pc) + Count(threads - multiset{pc}, role)
    decreases |threads|
  {
    hide Weight;
    var picked := Pick(threads);
    if picked != pc {
      CountRemoves(threads - multiset{picked}, pc, role);
      CountRemoves(threads - multiset{pc}, picked, role);
      assert threads - multiset{picked} - multiset{pc} == threads - multiset{pc} - multiset{picked};
    }
  }

  lemma CountAdds(threads: multiset<Pc>, pc: Pc, role: Role)
    ensures Count(threads + multiset{pc}, role) == Count(threads, role) + Weight(role, pc)
  {
    CountRemoves(threads + multiset{pc}, pc, role);
    assert threads + multiset{pc} - multiset{pc} == threads;
  }

  /** Whoever owns the flag watches, has seen a close or has seen a failure. */
  lemma {:induction false} OwnersWatch(threads: multiset<Pc>)
    ensures Count(threads, Owns) <= Count(threads, Watches) + Count(threads, AfterFail)
    decreases |threads|
  {
    if threads != multiset{} {
      var pc :| pc in threads;
      CountRemoves(threads, pc, Owns);
      CountRemoves(threads, pc, Watches);
      CountRemoves(threads, pc, AfterFail);
      OwnersWatch(threads - multiset{pc});
    }
  }

  /** All counts after one thread left `from`, and perhaps went `to`. */
  lemma CountsAfterLeaving(threads: multiset<Pc>, from: Pc)
    requires from in threads
    ensures forall role :: Count(threads - multiset{from}, role) == Count(threads, role) - Weight(role, from)
  {
    forall role ensures Count(threads - multiset{from}, role) == Count(threads, role) - Weight(role, from) {
      CountRemoves(threads, from, role);
    }
  }

  lemma CountsAfterMoving(threads: multiset<Pc>, from: Pc, to: Pc)
    requires from in threads
    ensures forall role :: Count(threads - multiset{from} + multiset{to}, role) ==
                           Count(threads, role) - Weight(role, from) + Weight(role, to)
  {
    CountsAfterLeaving(threads, from);
    forall role ensures Count(threads - multiset{from} + multiset{to}, role) ==
                        Count(threads, role) - Weight(role, from) + Weight(role, to) {
      CountAdds(threads - multiset{from}, to, role);
    }
  }

  // ------------------------------------------------------------------
  // The invariant

  ghost predicate OneOwner(b: Bridge) {
    b.tasks + Count(b.threads, Owns) == if b.scheduled then 1 else 0
  }

  ghost predicate Reasons(b: Bridge) {
    && (!b.closed ==> Count(b.threads, AfterClose) == 0)
    && (!b.history.failed ==> Count(b.threads, AfterFail) == 0)
  }

  ghost predicate NothingLost(b: Bridge) {
    b.pending && !b.closed && !b.history.failed ==> b.tasks + Count(b.threads, Watches) > 0
  }

  /** Requests received and not accounted for by another counter. */
  function Open(c: Counters): int {
    c.received - c.coalesced - c.delivered - c.rejected - c.panicked
  }

  ghost predicate Balanced(b: Bridge) {
    !b.closed && !b.overflowed ==>
      Open(b.counters) == (if b.pending then 1 else 0) + Count(b.threads, Carries)
  }

  ghost predicate Inv(b: Bridge) {
    OneOwner(b) && Reasons(b) && NothingLost(b) && Balanced(b)
  }

  /** A step that changes the flags and counters to those of `r` and moves one
      thread keeps the invariant if the five sums still fit. */
  lemma MoveKeepsInv(b: Bridge, r: Bridge, from: Pc, to: Pc)
    requires Inv(b) && from in b.threads && r.threads == b.threads
    requires r.tasks + Weight(Owns, to) + (if b.scheduled then 1 else 0) ==
             b.tasks + Weight(Owns, from) + (if r.scheduled then 1 else 0)
    requires b.closed ==> r.closed
    requires b.history.failed ==> r.history.failed
    requires !r.closed ==> Weight(AfterClose, to) <= Weight(AfterClose, from)
    requires !r.history.failed ==> Weight(AfterFail, to) <= Weight(AfterFail, from)
    requires r.pending && !r.closed && !r.history.failed ==>
               Weight(Watches, to) == 1 || (b.pending && Weight(Watches, from) == 0 && r.tasks >= b.tasks)
    requires !r.closed && !r.overflowed ==> !b.overflowed
    requires !r.closed && !r.overflowed ==>
               Open(r.counters) - Open(b.counters) + (if b.pending then 1 else 0) + Weight(Carries, from) ==
               (if r.pending then 1 else 0) + Weight(Carries, to)
    ensures Inv(Goes(r, from, to))
  {
    hide Count, Weight;
    CountsAfterLeaving(b.threads, from);
    CountsAfterMoving(b.threads, from, to);
  }

  /** The same for a thread that ends. */
  lemma EndKeepsInv(b: Bridge, r: Bridge, from: Pc)
    requires Inv(b) && from in b.threads && r.threads == b.threads
    requires r.tasks + (if b.scheduled then 1 else 0) ==
             b.tasks + Weight(Owns, from) + (if r.scheduled then 1 else 0)
    requires b.closed ==> r.closed
    requires b.history.failed ==> r.history.failed
    requires r.pending && !r.closed && !r.history.failed ==>
               || r.tasks > 0 || (b.pending && Weight(Watches, from) == 0 && r.tasks >= b.tasks)
               || (r.scheduled && Weight(Owns, from) == 0)
    requires r.counters == b.counters && (b.overflowed ==> r.overflowed)
    requires !r.closed ==> Weight(Carries, from) == 0 && r.pending == b.pending
    ensures Inv(Ends(r, from))
  {
    hide Count, Weight;
    CountsAfterLeaving(b.threads, from);
    OwnersWatch(b.threads - multiset{from});
  }

  lemma CountUpOpens(b: Bridge, k: Counter)
    ensures var r := CountUp(b, k);
            && r == b.(counters := r.counters, overflowed := r.overflowed) && (b.overflowed ==> r.overflowed)
            && (!r.overflowed ==>
                  Open(r.counters) - Open(b.counters) == if k.Received? then 1 else if k.Failures? then 0 else -1)
  {
  }

  lemma RequestKeepsInv(b: Bridge, pc: Pc)
    requires Inv(b) && pc in b.threads
    requires pc.ReqClosed? || pc.ReqReceived? || pc.ReqPending? || pc.ReqCoalesced?
    ensures Inv(RequestStep(b, pc))
  {
    hide Inv, Count, Pick, Goes, Ends, CountUp, Open;
    PointTells(b, pc);
    match pc
    case ReqClosed =>
      if b.closed { EndKeepsInv(b, b, pc); } else { MoveKeepsInv(b, Note(b, Received), pc, ReqReceived); }
    case ReqReceived =>
      CountUpOpens(b, Received);
      MoveKeepsInv(b, CountUp(b, Received), pc, ReqPending);
    case ReqPending =>
      if b.pending { MoveKeepsInv(b, Note(b, Coalesced), pc, ReqCoalesced); }
      else { MoveKeepsInv(b, b.(pending := true), pc, SchClosed); }
    case ReqCoalesced =>
      CountUpOpens(b, Coalesced);
      MoveKeepsInv(b, CountUp(b, Coalesced), pc, SchClosed);
  }

  /** Whoever has seen a failure still owns the flag. */
  lemma {:induction false} FailersOwn(threads: multiset<Pc>)
    ensures Count(threads, AfterFail) <= Count(threads, Owns)
    decreases |threads|
  {
    if threads != multiset{} {
      var pc :| pc in threads;
      CountRemoves(threads, pc, Owns);
      CountRemoves(threads, pc, AfterFail);
      FailersOwn(threads - multiset{pc});
    }
  }

  /** A successful schedule call makes up for an earlier failure: nobody else
      owns the flag, so nobody is still handling one. */
  lemma SuccessKeepsInv(b: Bridge, pc: Pc)
    requires Inv(b) && pc in b.threads && pc.SchCall?
    ensures Inv(Ends(NoteSuccess(b), pc))
  {
    CallerOnlyOwns(pc);
    hide Count, Weight;
    CountsAfterLeaving(b.threads, pc);
    FailersOwn(b.threads - multiset{pc});
  }

  lemma CallerOnlyOwns(pc: Pc)
    requires pc.SchCall?
    ensures Weight(Owns, pc) == 1 && Weight(Carries, pc) == 0 && Weight(AfterClose, pc) == 0
    ensures Weight(AfterFail, pc) == 0
  {
  }

  lemma ScheduleKeepsInv(b: Bridge, pc: Pc, reply: ScheduleReply)
    requires Inv(b) && pc in b.threads
    requires pc.SchClosed? || pc.SchDrop? || pc.SchPending? || pc.SchSwap? || pc.SchCall?
    ensures Inv(ScheduleStep(b, pc, reply))
  {
    hide Inv, Count, Pick, Goes, Ends, CountUp, Open;
    PointTells(b, pc);
    match pc
    case SchClosed =>
      if b.closed { MoveKeepsInv(b, b, pc, SchDrop); }
      else { MoveKeepsInv(b, b, pc, SchPending); }
    case SchDrop => EndKeepsInv(b, b.(pending := false), pc);
    case SchPending =>
      if b.pending { MoveKeepsInv(b, b, pc, SchSwap); } else { EndKeepsInv(b, b, pc); }
    case SchSwap =>
      if b.scheduled { EndKeepsInv(b, b, pc); }
      else { MoveKeepsInv(b, b.(scheduled := true), pc, SchCall); }
    case SchCall =>
      var failing := SchFailCount(reply.LoopTerminated?);
      if reply.Scheduled? { SuccessKeepsInv(b, pc); }
      else { MoveKeepsInv(b, NoteFailure(b, reply), pc, failing); }
  }

  /** What a thread's program point says about the shared flags. */
  lemma PointTells(b: Bridge, pc: Pc)
    requires Inv(b) && pc in b.threads
    ensures Weight(AfterClose, pc) > 0 ==> b.closed
    ensures Weight(AfterFail, pc) > 0 ==> b.history.failed
    ensures Weight(Owns, pc) > 0 ==> b.scheduled && b.tasks == 0
  {
    hide Weight, Count;
    CountRemoves(b.threads, pc, AfterClose);
    CountRemoves(b.threads, pc, AfterFail);
    CountRemoves(b.threads, pc, Owns);
  }

  lemma FailureKeepsInv(b: Bridge, pc: Pc)
    requires Inv(b) && pc in b.threads
    requires pc.SchFailCount? || pc.SchFailReset? || pc.SchClose? || pc.SchClosePending?
          || pc.CloseFlag? || pc.ClosePending?
    ensures Inv(FailureStep(b, pc))
  {
    hide Inv, Count, Pick, Goes, Ends, CountUp, Open;
    PointTells(b, pc);
    match pc
    case SchFailCount(terminated) =>
      CountUpOpens(b, Failures);
      MoveKeepsInv(b, CountUp(b, Failures), pc, SchFailReset(terminated));
    case SchFailReset(terminated) =>
      if terminated { MoveKeepsInv(b, b.(scheduled := false), pc, SchClose); }
      else { EndKeepsInv(b, b.(scheduled := false), pc); }
    case SchClose => MoveKeepsInv(b, b.(closed := true), pc, SchClosePending);
    case SchClosePending => EndKeepsInv(b, b.(pending := false), pc);
    case CloseFlag => MoveKeepsInv(b, NoteClose(b).(closed := true), pc, ClosePending);
    case ClosePending => EndKeepsInv(b, b.(pending := false), pc);
  }

  lemma CountKeepsInv(b: Bridge, pc: Pc)
    requires Inv(b) && pc in b.threads && pc.RunCount?
    ensures Inv(Goes(CountUp(b, CounterOf(pc.admission)), pc, RunReset))
  {
    hide Inv, Count, Pick, Goes, CountUp, Open;
    PointTells(b, pc);
    CountUpOpens(b, CounterOf(pc.admission));
    MoveKeepsInv(b, CountUp(b, CounterOf(pc.admission)), pc, RunReset);
  }

  lemma RunEndKeepsInv(b: Bridge, pc: Pc, admission: Admission)
    requires Inv(b) && pc in b.threads && (pc.RunReset? || pc.RunPending? || pc.RunRecheckClosed?)
    ensures Inv(RunStep(b, pc, admission))
  {
    hide Inv, Count, Pick, Goes, Ends;
    PointTells(b, pc);
    match pc
    case RunReset => MoveKeepsInv(b, b.(scheduled := false), pc, RunPending);
    case RunPending =>
      if b.pending { MoveKeepsInv(b, b, pc, RunRecheckClosed); }
      else { EndKeepsInv(b, b, pc); }
    case RunRecheckClosed =>
      if b.closed { EndKeepsInv(b, b, pc); } else { MoveKeepsInv(b, b, pc, SchClosed); }
  }

  lemma RunStepKeepsInv(b: Bridge, pc: Pc, admission: Admission)
    requires Inv(b) && pc in b.threads
    requires pc.RunClosed? || pc.RunDropPending? || pc.RunDropScheduled? || pc.RunTake? || pc.RunDeliver?
          || pc.RunCount? || pc.RunReset? || pc.RunPending? || pc.RunRecheckClosed?
    ensures Inv(RunStep(b, pc, admission))
  {
    hide Inv, Count, Pick, Goes, Ends, CountUp, Open;
    PointTells(b, pc);
    match pc
    case RunClosed =>
      if b.closed { MoveKeepsInv(b, b, pc, RunDropPending); }
      else { MoveKeepsInv(b, b, pc, RunTake); }
    case RunDropPending =>
      MoveKeepsInv(b, b.(pending := false), pc, RunDropScheduled);
    case RunDropScheduled => EndKeepsInv(b, b.(scheduled := false), pc);
    case RunTake =>
      if b.pending { MoveKeepsInv(b, b.(pending := false), pc, RunDeliver); }
      else { MoveKeepsInv(b, b, pc, RunReset); }
    case RunDeliver => MoveKeepsInv(b, NoteAdmission(b, admission), pc, RunCount(admission));
    case RunCount(counted) => CountKeepsInv(b, pc);
    case RunReset => RunEndKeepsInv(b, pc, admission);
    case RunPending => RunEndKeepsInv(b, pc, admission);
    case RunRecheckClosed => RunEndKeepsInv(b, pc, admission);
  }

  lemma ArrivalKeepsInv(b: Bridge, pc: Pc)
    requires Inv(b) && (pc.ReqClosed? || pc.SchClosed? || pc.CloseFlag?)
    ensures Inv(b.(threads := b.threads + multiset{pc}))
  {
    hide Count;
    CountAdds(b.threads, pc, Owns);
    CountAdds(b.threads, pc, Watches);
    CountAdds(b.threads, pc, Carries);
    CountAdds(b.threads, pc, AfterClose);
    CountAdds(b.threads, pc, AfterFail);
  }

  lemma StartKeepsInv(b: Bridge)
    requires Inv(b) && b.tasks > 0
    ensures Inv(b.(tasks := b.tasks - 1, threads := b.threads + multiset{RunClosed}))
  {
    hide Count;
    CountAdds(b.threads, RunClosed, Owns);
    CountAdds(b.threads, RunClosed, Watches);
    CountAdds(b.threads, RunClosed, Carries);
    CountAdds(b.threads, RunClosed, AfterClose);
    CountAdds(b.threads, RunClosed, AfterFail);
  }

  lemma StepKeepsInv(b: Bridge, e: Event)
    requires Inv(b)
    ensures Inv(Step(b, e))
  {
    hide Inv, RequestStep, ScheduleStep, FailureStep, RunStep;
    match e
    case Request => ArrivalKeepsInv(b, ReqClosed);
    case Flush => ArrivalKeepsInv(b, SchClosed);
    case Close => ArrivalKeepsInv(b, CloseFlag);
    case StartTask => if b.tasks > 0 { StartKeepsInv(b); }
    case ThreadStep(pc, reply, admission) =>
      if pc in b.threads {
        if pc.ReqClosed? || pc.ReqReceived? || pc.ReqPending? || pc.ReqCoalesced? {
          RequestKeepsInv(b, pc);
        } else if pc.SchClosed? || pc.SchDrop? || pc.SchPending? || pc.SchSwap? || pc.SchCall? {
          ScheduleKeepsInv(b, pc, reply);
        } else if pc.SchFailCount? || pc.SchFailReset? || pc.SchClose? || pc.SchClosePending? || pc.CloseFlag?
                  || pc.ClosePending? {
          FailureKeepsInv(b, pc);
        } else {
          RunStepKeepsInv(b, pc, admission);
        }
      }
  }

  lemma NobodyCounts(role: Role)
    ensures Count(multiset{}, role) == 0
  {
  }

  lemma InitialOwner(b: Bridge)
    requires b == Initial()
    ensures OneOwner(b)
  {
    NobodyCounts(Owns);
  }

  lemma InitialReasons(b: Bridge)
    requires b == Initial()
    ensures Reasons(b)
  {
    NobodyCounts(AfterClose);
    NobodyCounts(AfterFail);
  }

  lemma InitialBalance(b: Bridge)
    requires b == Initial()
    ensures Balanced(b)
  {
    NobodyCounts(Carries);
  }

  lemma InitialInv(b: Bridge)
    requires b == Initial()
    ensures Inv(b)
  {
    hide OneOwner, Reasons, Balanced, Count;
    InitialOwner(b);
    InitialReasons(b);
    InitialBalance(b);
  }

  lemma {:induction false} RunKeepsInv(states: seq<Bridge>, k: nat)
    requires IsRun(states) && k < |states|
    ensures Inv(states[k])
  {
    hide Inv, Step, Initial;
    if k == 0 {
      InitialInv(states[0]);
    } else {
      RunKeepsInv(states, k - 1);
      assert Linked(states, k - 1);
      var e :| Step(states[k - 1], e) == states[k];
      StepKeepsInv(states[k - 1], e);
    }
  }

  // ------------------------------------------------------------------
  // Every counter counts its own events

  /** The counter and the threads about to raise it account for every event. */
  ghost predicate Exact(b: Bridge, k: Counter) {
    !b.overflowed ==> b.counters.At(k) + Count(b.threads, CountsUp(k)) == b.history.tally.At(k)
  }

  lemma MoveKeepsExact(b: Bridge, r: Bridge, from: Pc, to: Pc, k: Counter)
    requires Exact(b, k) && from in b.threads && r.threads == b.threads
    requires !r.overflowed ==> !b.overflowed
    requires !r.overflowed ==>
               r.counters.At(k) + Weight(CountsUp(k), to) + b.history.tally.At(k) ==
               b.counters.At(k) + Weight(CountsUp(k), from) + r.history.tally.At(k)
    ensures Exact(Goes(r, from, to), k)
  {
    hide Count, Weight;
    CountsAfterMoving(b.threads, from, to);
  }

  lemma EndKeepsExact(b: Bridge, r: Bridge, from: Pc, k: Counter)
    requires Exact(b, k) && from in b.threads && r.threads == b.threads && Weight(CountsUp(k), from) == 0
    requires r.overflowed == b.overflowed && r.counters == b.counters && r.history.tally == b.history.tally
    ensures Exact(Ends(r, from), k)
  {
    hide Count, Weight;
    CountsAfterLeaving(b.threads, from);
  }

  lemma CountUpCounts(b: Bridge, up: Counter, k: Counter)
    ensures var r := CountUp(b, up);
            && r == b.(counters := r.counters, overflowed := r.overflowed) && (b.overflowed ==> r.overflowed)
            && (!r.overflowed ==> r.counters.At(k) == b.counters.At(k) + if k == up then 1 else 0)
  {
  }

  lemma RequestKeepsExact(b: Bridge, pc: Pc, k: Counter)
    requires Exact(b, k) && pc in b.threads
    requires pc.ReqClosed? || pc.ReqReceived? || pc.ReqPending? || pc.ReqCoalesced?
    ensures Exact(RequestStep(b, pc), k)
  {
    hide Exact, Count, Pick, Goes, Ends, CountUp;
    match pc
    case ReqClosed =>
      if b.closed { EndKeepsExact(b, b, pc, k); } else { MoveKeepsExact(b, Note(b, Received), pc, ReqReceived, k); }
    case ReqReceived =>
      CountUpCounts(b, Received, k);
      MoveKeepsExact(b, CountUp(b, Received), pc, ReqPending, k);
    case ReqPending =>
      if b.pending { MoveKeepsExact(b, Note(b, Coalesced), pc, ReqCoalesced, k); }
      else { MoveKeepsExact(b, b.(pending := true), pc, SchClosed, k); }
    case ReqCoalesced =>
      CountUpCounts(b, Coalesced, k);
      MoveKeepsExact(b, CountUp(b, Coalesced), pc, SchClosed, k);
  }

  lemma ScheduleKeepsExact(b: Bridge, pc: Pc, reply: ScheduleReply, k: Counter)
    requires Exact(b, k) && pc in b.threads
    requires pc.SchClosed? || pc.SchDrop? || pc.SchPending? || pc.SchSwap? || pc.SchCall?
    ensures Exact(ScheduleStep(b, pc, reply), k)
  {
    hide Exact, Count, Pick, Goes, Ends, CountUp;
    match pc
    case SchClosed =>
      if b.closed { MoveKeepsExact(b, b, pc, SchDrop, k); }
      else { MoveKeepsExact(b, b, pc, SchPending, k); }
    case SchDrop => EndKeepsExact(b, b.(pending := false), pc, k);
    case SchPending =>
      if b.pending { MoveKeepsExact(b, b, pc, SchSwap, k); } else { EndKeepsExact(b, b, pc, k); }
    case SchSwap =>
      if b.scheduled { EndKeepsExact(b, b, pc, k); }
      else { MoveKeepsExact(b, b.(scheduled := true), pc, SchCall, k); }
    case SchCall =>
      var failing := SchFailCount(reply.LoopTerminated?);
      if reply.Scheduled? { EndKeepsExact(b, NoteSuccess(b), pc, k); }
      else { MoveKeepsExact(b, NoteFailure(b, reply), pc, failing, k); }
  }

  lemma FailureKeepsExact(b: Bridge, pc: Pc, k: Counter)
    requires Exact(b, k) && pc in b.threads
    requires pc.SchFailCount? || pc.SchFailReset? || pc.SchClose? || pc.SchClosePending?
          || pc.CloseFlag? || pc.ClosePending?
    ensures Exact(FailureStep(b, pc), k)
  {
    hide Exact, Count, Pick, Goes, Ends, CountUp;
    match pc
    case SchFailCount(terminated) =>
      CountUpCounts(b, Failures, k);
      MoveKeepsExact(b, CountUp(b, Failures), pc, SchFailReset(terminated), k);
    case SchFailReset(terminated) =>
      if terminated { MoveKeepsExact(b, b.(scheduled := false), pc, SchClose, k); }
      else { EndKeepsExact(b, b.(scheduled := false), pc, k); }
    case SchClose => MoveKeepsExact(b, b.(closed := true), pc, SchClosePending, k);
    case SchClosePending => EndKeepsExact(b, b.(pending := false), pc, k);
    case CloseFlag => MoveKeepsExact(b, NoteClose(b).(closed := true), pc, ClosePending, k);
    case ClosePending => EndKeepsExact(b, b.(pending := false), pc, k);
  }

  lemma RunStepKeepsExact(b: Bridge, pc: Pc, admission: Admission, k: Counter)
    requires Exact(b, k) && pc in b.threads
    requires pc.RunClosed? || pc.RunDropPending? || pc.RunDropScheduled? || pc.RunTake? || pc.RunDeliver?
          || pc.RunCount? || pc.RunReset? || pc.RunPending? || pc.RunRecheckClosed?
    ensures Exact(RunStep(b, pc, admission), k)
  {
    hide Exact, Count, Pick, Goes, Ends, CountUp;
    match pc
    case RunClosed =>
      if b.closed { MoveKeepsExact(b, b, pc, RunDropPending, k); }
      else { MoveKeepsExact(b, b, pc, RunTake, k); }
    case RunDropPending =>
      MoveKeepsExact(b, b.(pending := false), pc, RunDropScheduled, k);
    case RunDropScheduled => EndKeepsExact(b, b.(scheduled := false), pc, k);
    case RunTake =>
      if b.pending { MoveKeepsExact(b, b.(pending := false), pc, RunDeliver, k); }
      else { MoveKeepsExact(b, b, pc, RunReset, k); }
    case RunDeliver => MoveKeepsExact(b, NoteAdmission(b, admission), pc, RunCount(admission), k);
    case RunCount(counted) =>
      CountUpCounts(b, CounterOf(counted), k);
      MoveKeepsExact(b, CountUp(b, CounterOf(counted)), pc, RunReset, k);
    case RunReset => MoveKeepsExact(b, b.(scheduled := false), pc, RunPending, k);
    case RunPending =>
      if b.pending { MoveKeepsExact(b, b, pc, RunRecheckClosed, k); }
      else { EndKeepsExact(b, b, pc, k); }
    case RunRecheckClosed =>
      if b.closed { EndKeepsExact(b, b, pc, k); } else { MoveKeepsExact(b, b, pc, SchClosed, k); }
  }

  lemma StepKeepsExact(b: Bridge, e: Event, k: Counter)
    requires Exact(b, k)
    ensures Exact(Step(b, e), k)
  {
    hide RequestStep, ScheduleStep, FailureStep, RunStep, Count;
    match e
    case Request => CountAdds(b.threads, ReqClosed, CountsUp(k));
    case Flush => CountAdds(b.threads, SchClosed, CountsUp(k));
    case Close => CountAdds(b.threads, CloseFlag, CountsUp(k));
    case StartTask => CountAdds(b.threads, RunClosed, CountsUp(k));
    case ThreadStep(pc, reply, admission) =>
      if pc in b.threads {
        hide Exact;
        if pc.ReqClosed? || pc.ReqReceived? || pc.ReqPending? || pc.ReqCoalesced? {
          RequestKeepsExact(b, pc, k);
        } else if pc.SchClosed? || pc.SchDrop? || pc.SchPending? || pc.SchSwap? || pc.SchCall? {
          ScheduleKeepsExact(b, pc, reply, k);
        } else if pc.SchFailCount? || pc.SchFailReset? || pc.SchClose? || pc.SchClosePending? || pc.CloseFlag?
                  || pc.ClosePending? {
          FailureKeepsExact(b, pc, k);
        } else {
          RunStepKeepsExact(b, pc, admission, k);
        }
      }
  }

  lemma {:induction false} RunKeepsExact(states: seq<Bridge>, n: nat, k: Counter)
    requires IsRun(states) && n < |states|
    ensures Exact(states[n], k)
  {
    if n == 0 {
      NobodyCounts(CountsUp(k));
    } else {
      hide Exact, Step;
      RunKeepsExact(states, n - 1, k);
      assert Linked(states, n - 1);
      var e :| Step(states[n - 1], e) == states[n];
      StepKeepsExact(states[n - 1], e, k);
    }
  }

  // ------------------------------------------------------------------
  // The promises

  /** While the bridge is open, a pending request with no task scheduled and no
      thread left to schedule one means that the last schedule call failed. */
  lemma NoRequestIsLost(states: seq<Bridge>, k: nat)
    requires IsRun(states) && k < |states| && states[k].pending && !states[k].closed && !states[k].history.failed
    ensures states[k].tasks > 0 || exists pc :: pc in states[k].threads && Weight(Watches, pc) > 0
  {
    RunKeepsInv(states, k);
    if states[k].tasks == 0 {
      var pc := SomeoneCounts(states[k].threads, Watches);
    }
  }

  lemma {:induction false} SomeoneCounts(threads: multiset<Pc>, role: Role) returns (pc: Pc)
    requires Count(threads, role) > 0
    ensures pc in threads && Weight(role, pc) > 0
    decreases |threads|
  {
    pc := Pick(threads);
    if Weight(role, pc) == 0 {
      pc := SomeoneCounts(threads - multiset{pc}, role);
    }
  }

  /** The scheduled flag is up exactly while one task or thread owns it. */
  lemma FlagHasOneOwner(states: seq<Bridge>, k: nat)
    requires IsRun(states) && k < |states|
    ensures states[k].tasks + Count(states[k].threads, Owns) == if states[k].scheduled then 1 else 0
  {
    RunKeepsInv(states, k);
  }

  /** At rest, every request received by an open bridge was coalesced, delivered,
      rejected, lost to a panic, or is the one still pending. */
  lemma RequestsAreAccountedFor(states: seq<Bridge>, k: nat)
    requires IsRun(states) && k < |states|
    requires states[k].threads == multiset{} && !states[k].closed && !states[k].overflowed
    ensures var c := states[k].counters;
            c.received == c.coalesced + c.delivered + c.rejected + c.panicked
                          + (if states[k].pending then 1 else 0)
  {
    RunKeepsInv(states, k);
  }

  /** At rest and without overflow, each counter is the number of its events.  The
      tally is noted when an event happens and the counter raised in a later step,
      so this only excludes lost updates; what becomes of the requests is said by
      RequestsAreAccountedFor. */
  lemma CountersAreExact(states: seq<Bridge>, n: nat)
    requires IsRun(states) && n < |states| && states[n].threads == multiset{} && !states[n].overflowed
    ensures states[n].counters == states[n].history.tally
  {
    hide Count;
    forall k: Counter ensures states[n].counters.At(k) == states[n].history.tally.At(k) {
      RunKeepsExact(states, n, k);
      NobodyCounts(CountsUp(k));
    }
    var a, b := states[n].counters, states[n].history.tally;
    assert a.At(Received) == b.At(Received) && a.At(Coalesced) == b.At(Coalesced) && a.At(Delivered) == b.At(Delivered);
    assert a.At(Rejected) == b.At(Rejected) && a.At(LostToPanic) == b.At(LostToPanic);
    assert a.At(Failures) == b.At(Failures);
  }
}
