/** What the replay classifier decides over whole sessions. */
module ReplayTheorems {
  import opened Prelude
  import opened Replay

  // ------------------------------------------------------------------
  // One event

  /** Nothing contradicts the event being compared with the parent's. */
  predicate Comparable(input: Input) {
    && input.child.parent.Some? && !input.parent.NotApplicable?
    && (input.parent.Present? ==>
          var child, parent := input.child, input.parent.facts;
          && parent.session == child.parent.value && parent.ordinal == child.ordinal
          && parent.provider == child.provider && parent.profile == child.profile && !parent.declaredConflict)
  }

  predicate Undisputed(input: Input) {
    !input.child.declaredConflict && !input.traversal.cycle && !input.traversal.relationConflict
  }

  predicate Parentless(input: Input) {
    input.child.parent.None? && input.parent.NotApplicable? && input.traversal.depth == 0
  }

  predicate BothStrong(input: Input) {
    input.parent.Present? && input.child.evidence.StrongCumulative? && input.parent.facts.evidence.StrongCumulative?
  }

  /** Each disposition, and exactly when it is given. */
  lemma DispositionsAre(prior: State, input: Input)
    ensures var d := Classify(prior, input).disposition;
            var compared := prior.Matching? || prior.Diverged? || prior.Pending?;
            var sound := Undisputed(input) && ((prior.Root? && Parentless(input)) || (compared && Comparable(input)));
            var bounded := input.traversal.depth <= 32 && input.traversal.directChildren <= 256;
            && (d == Contradiction <==> !sound)
            && (d == Repeat <==> sound && bounded && prior.Matching? && BothStrong(input)
                                 && input.child.signature == input.parent.facts.signature)
            && (d == Undecided <==>
                  sound && (!bounded || prior.Pending? || (prior.Matching? && input.parent.MissingOpen?)
                            || (prior.Matching? && input.parent.Present? && !BothStrong(input))))
            && (d == Eligible <==> d != Contradiction && d != Repeat && d != Undecided)
  {
  }

  /** Each next state, and exactly when it is reached. */
  lemma NextStatesAre(prior: State, input: Input)
    ensures var Classification(d, next) := Classify(prior, input);
            && (next == Conflict <==> d == Contradiction)
            && (next == Root <==> prior.Root? && d == Eligible)
            && (next == Diverged <==> !prior.Root? && d == Eligible)
            && (next == Matching <==> prior.Matching? && (d == Repeat || (d == Undecided && input.parent.Present?
                                                                         && !input.traversal.ExceedsBound())))
  {
  }

  // ------------------------------------------------------------------
  // Any session, any inputs

  /** How far a session is from counting normally. */
  function Rank(s: State): nat {
    match s
    case Root => 0
    case Matching => 0
    case Diverged => 1
    case Pending => 2
    case Conflict => 3
  }

  lemma {:induction false} RankNeverFalls(start: State, inputs: seq<Input>, j: nat, k: nat)
    requires j <= k <= |inputs|
    ensures Rank(StateAt(start, inputs, j)) <= Rank(StateAt(start, inputs, k))
  {
    if j < k { RankNeverFalls(start, inputs, j, k - 1); }
  }

  /** From Matching, nothing is a repeat once something counted on its own. */
  lemma RepeatsPrecedeEligible(inputs: seq<Input>, i: nat, j: nat)
    requires i < |inputs| && j < |inputs|
    requires DispositionAt(Matching, inputs, i) == Repeat && DispositionAt(Matching, inputs, j) == Eligible
    ensures i < j
  {
    if j <= i {
      NeverRootAgain(Matching, inputs, j);
      assert StateAt(Matching, inputs, j + 1).Diverged?;
      if j < i { RankNeverFalls(Matching, inputs, j + 1, i); }
    }
  }

  lemma {:induction false} NeverRootAgain(start: State, inputs: seq<Input>, k: nat)
    requires k <= |inputs| && !start.Root?
    ensures !StateAt(start, inputs, k).Root?
  {
    if k > 0 { NeverRootAgain(start, inputs, k - 1); }
  }

  /** A session without a parent never repeats anything, and is never compared. */
  lemma {:induction false} RootNeverRepeats(inputs: seq<Input>, k: nat)
    requires k < |inputs|
    ensures StateAt(Root, inputs, k).Root? || StateAt(Root, inputs, k).Pending? || StateAt(Root, inputs, k).Conflict?
    ensures DispositionAt(Root, inputs, k) != Repeat
  {
    if k > 0 { RootNeverRepeats(inputs, k - 1); }
  }

  /** A conflict stays; a pending session stays pending or becomes a conflict. */
  lemma TroubleStays(start: State, inputs: seq<Input>, j: nat, k: nat)
    requires j <= k < |inputs|
    ensures StateAt(start, inputs, j).Conflict? ==> DispositionAt(start, inputs, k) == Contradiction
    ensures StateAt(start, inputs, j).Pending? ==>
              DispositionAt(start, inputs, k) == Undecided || DispositionAt(start, inputs, k) == Contradiction
  {
    RankNeverFalls(start, inputs, j, k);
  }

  /** A parentless session that could not be decided is a conflict from its next
      event on. */
  lemma PendingRootConflicts(inputs: seq<Input>, j: nat, k: nat)
    requires j < k < |inputs| && DispositionAt(Root, inputs, j) == Undecided
    requires inputs[j + 1].child.parent.None?
    ensures DispositionAt(Root, inputs, k) == Contradiction
  {
    RootNeverRepeats(inputs, j);
    assert StateAt(Root, inputs, j + 1).Pending?;
    assert DispositionAt(Root, inputs, j + 1) == Contradiction;
    if j + 1 < k { TroubleStays(Root, inputs, j + 2, k); }
  }

  // ------------------------------------------------------------------
  // A complete, trustworthy parent: the longest common prefix

  function CommonPrefix(a: seq<seq<int>>, b: seq<seq<int>>): (n: nat)
    ensures n <= |a| && n <= |b| && a[..n] == b[..n]
    ensures n < |a| && n < |b| ==> a[n] != b[n]
  {
    if a == [] || b == [] || a[0] != b[0] then 0
    else
      var n := CommonPrefix(a[1..], b[1..]);
      assert a[..1 + n] == [a[0]] + a[1..][..n] && b[..1 + n] == [b[0]] + b[1..][..n];
      1 + n
  }

  function Signatures(events: seq<Facts>): (r: seq<seq<int>>)
    ensures |r| == |events| && forall i :: 0 <= i < |r| ==> r[i] == events[i].signature
  {
    seq(|events|, i requires 0 <= i < |events| => events[i].signature)
  }

  function FactsOf(child: seq<Event>): (r: seq<Facts>)
    ensures |r| == |child| && forall i :: 0 <= i < |r| ==> r[i] == child[i].facts
  {
    seq(|child|, i requires 0 <= i < |child| => child[i].facts)
  }

  function LogOf(parent: seq<Facts>, complete: bool): ParentLog {
    ParentLog(map i: nat | i < |parent| :: parent[i], complete)
  }

  /** Nothing about the child contradicts being a fork of the parent, and both
      carry strong evidence. */
  ghost predicate Trustworthy(child: seq<Event>, parent: seq<Facts>) {
    && (forall i :: 0 <= i < |child| ==>
          && child[i].facts.parent.Some? && child[i].facts.ordinal == i && !child[i].facts.declaredConflict
          && child[i].facts.evidence.StrongCumulative?
          && !child[i].traversal.cycle && !child[i].traversal.relationConflict && !child[i].traversal.ExceedsBound())
    && (forall i :: 0 <= i < |parent| ==> parent[i].evidence.StrongCumulative?)
    && (forall i :: 0 <= i < |child| && i < |parent| ==> Fits(child[i].facts, parent[i]))
  }

  ghost predicate Agrees(child: seq<Event>, parent: seq<Facts>, i: nat)
    requires i < |child|
  {
    i < |parent| && child[i].facts.signature == parent[i].signature
  }

  lemma TrustworthyStep(child: seq<Event>, parent: seq<Facts>, i: nat)
    requires Trustworthy(child, parent) && i < |child|
    ensures var input := Beside(child, LogOf(parent, true))[i];
            && Classify(Diverged, input) == Classification(Eligible, Diverged)
            && Classify(Matching, input) ==
               if Agrees(child, parent, i) then Classification(Repeat, Matching) else Classification(Eligible, Diverged)
  {
    var input := Beside(child, LogOf(parent, true))[i];
    assert input.parent == if i < |parent| then Present(parent[i]) else MissingComplete;
  }

  lemma PrefixTells(child: seq<Event>, parent: seq<Facts>, i: nat)
    requires i < |child|
    ensures var n := CommonPrefix(Signatures(FactsOf(child)), Signatures(parent));
            (i < n ==> Agrees(child, parent, i)) && (i == n ==> !Agrees(child, parent, i))
  {
    var a, b := Signatures(FactsOf(child)), Signatures(parent);
    var n := CommonPrefix(a, b);
    hide CommonPrefix;
    if i < n { assert a[..n][i] == b[..n][i]; }
  }

  /** Exactly the longest common prefix of signatures is repeated; every later
      event counts on its own. */
  lemma {:induction false} RepeatsAreCommonPrefix(child: seq<Event>, parent: seq<Facts>, k: nat)
    requires Trustworthy(child, parent) && k < |child|
    ensures var n := CommonPrefix(Signatures(FactsOf(child)), Signatures(parent));
            var inputs := Beside(child, LogOf(parent, true));
            && StateAt(Matching, inputs, k) == (if k <= n then Matching else Diverged)
            && DispositionAt(Matching, inputs, k) == (if k < n then Repeat else Eligible)
  {
    hide CommonPrefix, Classify, Trustworthy;
    if k > 0 {
      RepeatsAreCommonPrefix(child, parent, k - 1);
      TrustworthyStep(child, parent, k - 1);
      PrefixTells(child, parent, k - 1);
    }
    TrustworthyStep(child, parent, k);
    PrefixTells(child, parent, k);
  }

  // ------------------------------------------------------------------
  // An open parent that grows

  predicate Grows(parent: ParentLog, grown: ParentLog) {
    && (forall o :: o in parent.events ==> o in grown.events && grown.events[o] == parent.events[o])
  }

  predicate Decided(d: Disposition) {
    d.Repeat? || d.Eligible?
  }

  /** The parent's event that appears at the child's ordinal fits the child. */
  predicate NewFits(child: Facts, parent: ParentLog, grown: ParentLog) {
    child.ordinal in grown.events && child.ordinal !in parent.events && child.parent.Some? ==>
      Fits(child, grown.events[child.ordinal])
  }

  ghost predicate AllFit(child: seq<Event>, parent: ParentLog, grown: ParentLog, k: nat)
    requires k <= |child|
  {
    forall i :: 0 <= i < k ==> NewFits(child[i].facts, parent, grown)
  }

  /** Before an event decided against an open parent, the session is Matching or
      Diverged, and what appears since leaves its state alone unless it does not
      fit. */
  lemma {:induction false} GrowthKeepsState(child: seq<Event>, parent: ParentLog, grown: ParentLog, k: nat)
    requires Grows(parent, grown) && !parent.complete && k <= |child|
    requires Rank(StateAt(Matching, Beside(child, parent), k)) <= 1
    ensures StateAt(Matching, Beside(child, grown), k) ==
            if AllFit(child, parent, grown, k) then StateAt(Matching, Beside(child, parent), k) else Conflict
  {
    if k > 0 {
      var was, now := Beside(child, parent), Beside(child, grown);
      RankNeverFalls(Matching, was, k - 1, k);
      NeverRootAgain(Matching, was, k - 1);
      GrowthKeepsState(child, parent, grown, k - 1);
      assert AllFit(child, parent, grown, k) <==>
             AllFit(child, parent, grown, k - 1) && NewFits(child[k - 1].facts, parent, grown);
      StepUnderGrowth(StateAt(Matching, was, k - 1), was[k - 1], now[k - 1], child[k - 1].facts, parent, grown);
    }
  }

  lemma StepUnderGrowth(s: State, was: Input, now: Input, child: Facts, parent: ParentLog, grown: ParentLog)
    requires Grows(parent, grown) && !parent.complete && (s.Matching? || s.Diverged?)
    requires was == Input(child, parent.At(child.ordinal), was.traversal)
    requires now == Input(child, grown.At(child.ordinal), was.traversal)
    requires Rank(Classify(s, was).next) <= 1
    ensures Classify(s, now) == if NewFits(child, parent, grown) then Classify(s, was) else CONTRADICTED
  {
  }

  /** A decision made against an open parent survives the parent's growth if and
      only if every parent event that appeared since, up to it, fits. */
  lemma GrowthKeepsDecisions(child: seq<Event>, parent: ParentLog, grown: ParentLog, k: nat)
    requires Grows(parent, grown) && !parent.complete && k < |child|
    requires Decided(DispositionAt(Matching, Beside(child, parent), k))
    ensures DispositionAt(Matching, Beside(child, grown), k) == DispositionAt(Matching, Beside(child, parent), k) <==>
            AllFit(child, parent, grown, k + 1)
    ensures !AllFit(child, parent, grown, k + 1) ==> DispositionAt(Matching, Beside(child, grown), k) == Contradiction
  {
    var was, now := Beside(child, parent), Beside(child, grown);
    NeverRootAgain(Matching, was, k);
    GrowthKeepsState(child, parent, grown, k);
    StepUnderGrowth(StateAt(Matching, was, k), was[k], now[k], child[k].facts, parent, grown);
    assert AllFit(child, parent, grown, k + 1) <==>
           AllFit(child, parent, grown, k) && NewFits(child[k].facts, parent, grown);
  }

  /** A fork that diverged at its first event, and a parent whose second event
      turns out to declare a conflict. */
  lemma GrowthCanOverturn(one: seq<int>, two: seq<int>, child: seq<Event>, parent: ParentLog, grown: ParentLog)
    requires |one| == |two| == 32 && one != two
    requires var a := Facts("p", "f", "child", Some("parent"), 0, one, StrongCumulative, false);
             var p := Facts("p", "f", "parent", None, 0, two, StrongCumulative, false);
             var ok := Traversal(1, 1, false, false);
             && child == [Event(a, ok), Event(a.(ordinal := 1), ok)]
             && parent == ParentLog(map[0 := p], false)
             && grown == ParentLog(map[0 := p, 1 := p.(ordinal := 1, declaredConflict := true)], false)
    ensures DispositionAt(Matching, Beside(child, parent), 1) == Eligible
    ensures DispositionAt(Matching, Beside(child, grown), 1) == Contradiction
  {
    var was, now := Beside(child, parent), Beside(child, grown);
    assert StateAt(Matching, was, 0) == Matching && StateAt(Matching, now, 0) == Matching;
    assert StateAt(Matching, was, 1) == Diverged && StateAt(Matching, now, 1) == Diverged;
  }
}
