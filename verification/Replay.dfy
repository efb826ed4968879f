/** crates/accounting/src/replay.rs: which events of a forked session repeat its
    parent's events and which count on their own. */
module Replay {
  import opened Prelude

  const MAX_REPLAY_DEPTH := 32
  const MAX_REPLAY_FANOUT := 256

  /** Repeat, Undecided and Contradiction are the source's Replay, Pending and
      Conflict, whose names the states below also use. */
  datatype Disposition = Eligible | Repeat | Undecided | Contradiction

  datatype State = Root | Matching | Diverged | Pending | Conflict

  datatype Evidence = StrongCumulative | WeakUsageOnly

  datatype Facts = Facts(provider: string, profile: string, session: string, parent: Option<string>,
                         ordinal: nat, signature: seq<int>, evidence: Evidence, declaredConflict: bool)

  datatype ParentOrdinal = NotApplicable | Present(facts: Facts) | MissingOpen | MissingComplete

  datatype Traversal = Traversal(depth: nat, directChildren: nat, cycle: bool, relationConflict: bool) {
    predicate ExceedsBound() {
      depth > MAX_REPLAY_DEPTH || directChildren > MAX_REPLAY_FANOUT
    }
  }

  datatype Input = Input(child: Facts, parent: ParentOrdinal, traversal: Traversal)

  datatype Classification = Classification(disposition: Disposition, next: State)

  const CONTRADICTED := Classification(Contradiction, Conflict)

  function Classify(prior: State, input: Input): Classification {
    if prior.Conflict? || input.child.declaredConflict || input.traversal.cycle || input.traversal.relationConflict
       || !StructurallyValid(prior, input)
    then CONTRADICTED
    else if input.traversal.ExceedsBound() then Classification(Undecided, Pending)
    else
      match prior
      case Root => Classification(Eligible, Root)
      case Matching => ClassifyMatching(input)
      case Diverged => Classification(Eligible, Diverged)
      case Pending => Classification(Undecided, Pending)
      case Conflict => CONTRADICTED
  }

  predicate StructurallyValid(prior: State, input: Input) {
    match prior
    case Root => input.child.parent.None? && input.parent.NotApplicable? && input.traversal.depth == 0
    case Conflict => false
    case _ =>
      match input.parent
      case NotApplicable => false
      case Present(parent) => input.child.parent.Some? && Fits(input.child, parent)
      case _ => input.child.parent.Some?
  }

  /** The parent's event belongs to the child's parent session, at its ordinal. */
  predicate Fits(child: Facts, parent: Facts)
    requires child.parent.Some?
  {
    && !parent.declaredConflict && parent.provider == child.provider && parent.profile == child.profile
    && parent.session == child.parent.value && parent.ordinal == child.ordinal
  }

  function ClassifyMatching(input: Input): Classification {
    match input.parent
    case Present(parent) =>
      if !input.child.evidence.StrongCumulative? || !parent.evidence.StrongCumulative?
      then Classification(Undecided, Matching)
      else if input.child.signature == parent.signature then Classification(Repeat, Matching)
      else Classification(Eligible, Diverged)
    case MissingOpen => Classification(Undecided, Pending)
    case MissingComplete => Classification(Eligible, Diverged)
    case NotApplicable => CONTRADICTED
  }

  // ------------------------------------------------------------------
  // A session, one event after the other

  /** The state before event `k`. */
  function StateAt(start: State, inputs: seq<Input>, k: nat): State
    requires k <= |inputs|
  {
    if k == 0 then start else Classify(StateAt(start, inputs, k - 1), inputs[k - 1]).next
  }

  function DispositionAt(start: State, inputs: seq<Input>, k: nat): Disposition
    requires k < |inputs|
  {
    Classify(StateAt(start, inputs, k), inputs[k]).disposition
  }

  /** The parent's events by ordinal, and whether there are no more to come. */
  datatype ParentLog = ParentLog(events: map<nat, Facts>, complete: bool) {
    function At(ordinal: nat): ParentOrdinal {
      if ordinal in events then Present(events[ordinal])
      else if complete then MissingComplete
      else MissingOpen
    }
  }

  datatype Event = Event(facts: Facts, traversal: Traversal)

  /** A child's events beside the parent's log. */
  function Beside(child: seq<Event>, parent: ParentLog): (r: seq<Input>)
    ensures |r| == |child|
    ensures forall i :: 0 <= i < |r| ==>
              r[i] == Input(child[i].facts, parent.At(child[i].facts.ordinal), child[i].traversal)
  {
    seq(|child|, i requires 0 <= i < |child| =>
      Input(child[i].facts, parent.At(child[i].facts.ordinal), child[i].traversal))
  }
}
