/** crates/benefits/src/reconcile.rs: one observation of a benefit inventory is
    compared with the current inventory, giving the next one and a change log. */
module Reconcile {
  import opened Prelude
  import opened Benefits

  datatype Error = ScopeMismatch | ConflictingObservationIdentity | InvalidRevision | InvalidSequence
                 | CapacityExceeded

  datatype ChangeKind = Awarded | QuantityChanged | StateChanged | ExpiryChanged | Corrected
                      | DisappearedAmbiguous | Reappeared | RetiredTerminal

  /** A change before it has a sequence number. */
  datatype Draft = Draft(lotId: nat, revision: nat, kind: ChangeKind, before: Option<Lot>, after: Option<Lot>)

  datatype Change = Change(sequence: nat, draft: Draft)

  datatype Status = Duplicate | Stale | FreshnessOnly | Changed

  datatype Reconciliation = Reconciliation(status: Status, inventory: Inventory, changes: seq<Change>)

  predicate IsTerminal(state: State) {
    state.Activated? || state.Expired? || state.Revoked?
  }

  function ClassifyChange(before: Lot, after: Lot): ChangeKind {
    if before.state.Ambiguous? && !after.state.Ambiguous? then Reappeared
    else
      match (before.quantity != after.quantity, before.state != after.state, before.expiry != after.expiry,
             before.particulars != after.particulars)
      case (true, false, false, false) => QuantityChanged
      case (false, true, false, false) => StateChanged
      case (false, false, true, false) => ExpiryChanged
      case _ => Corrected
  }

  // ------------------------------------------------------------------
  // What one observation means for one lot

  datatype Comparison = Comparison(held: map<nat, Entry>, seen: map<nat, Lot>, complete: bool) {
    predicate Valid() {
      Keyed(held) && forall id :: id in seen ==> seen[id].id == id
    }

    function Before(id: nat): Option<Entry> {
      if id in held then Some(held[id]) else None
    }

    /** The lot's entry afterwards. */
    function After(id: nat): Option<Entry> {
      if id in seen then
        if id !in held then Some(Entry(seen[id], 1))
        else if held[id].lot == seen[id] then Some(held[id])
        else Some(Entry(seen[id], held[id].revision + 1))
      else if id !in held then None
      else if !complete || held[id].lot.state.Ambiguous? then Some(held[id])
      else if IsTerminal(held[id].lot.state) then None
      else Some(Entry(held[id].lot.(state := Ambiguous), held[id].revision + 1))
    }

    function Kind(id: nat): ChangeKind {
      if id !in held then Awarded
      else if id in seen then ClassifyChange(held[id].lot, seen[id])
      else if After(id).Some? then DisappearedAmbiguous
      else RetiredTerminal
    }

    /** The change that tells the entry afterwards from the entry before. */
    function DraftOf(id: nat): Option<Draft> {
      if After(id) == Before(id) then None
      else
        var revision := if id in held then held[id].revision + 1 else 1;
        Some(Draft(id, revision, Kind(id), LotOf(Before(id)), LotOf(After(id))))
    }

    function Drafts(ids: seq<nat>): seq<Draft> {
      if ids == [] then []
      else
        var last := DraftOf(ids[|ids| - 1]);
        Drafts(ids[..|ids| - 1]) + if last.Some? then [last.value] else []
    }

    /** Observed lots in id order, then the others in id order. */
    function Order(): seq<nat> {
      Ascending(seen.Keys) + Ascending(held.Keys - seen.Keys)
    }

    function Next(): map<nat, Entry> {
      map id | id in held.Keys + seen.Keys && After(id).Some? :: After(id).value
    }

    /** A revision that would have to rise is already the last one. */
    predicate Spent(id: nat) {
      id in held && held[id].revision >= I64_MAX && DraftOf(id).Some?
    }

    predicate Exhausted() {
      exists id :: id in held && Spent(id)
    }
  }

  function LotOf(entry: Option<Entry>): Option<Lot> {
    if entry.Some? then Some(entry.value.lot) else None
  }

  function Compare(current: Inventory, o: Observation): (c: Comparison)
    ensures c.Valid()
  {
    Comparison(ById(current.lots), LotsById(o.lots), !o.completeness.Partial?)
  }

  function Numbered(drafts: seq<Draft>, start: nat): (r: seq<Change>)
    ensures |r| == |drafts|
    ensures forall i :: 0 <= i < |r| ==> r[i] == Change(start + i + 1, drafts[i])
  {
    seq(|drafts|, i requires 0 <= i < |drafts| => Change(start + i + 1, drafts[i]))
  }

  lemma NextIsKeyed(c: Comparison)
    requires c.Valid()
    ensures Keyed(c.Next())
  {
  }

  predicate IsStale(current: Inventory, o: Observation) {
    current.lastObservedAtMs.Some? && o.observedAtMs < current.lastObservedAtMs.value
  }

  /** The answer of one reconciliation, errors in the order they are noticed. */
  function Reconciled(current: Inventory, o: Observation): Result<Reconciliation, Error> {
    if current.scope != o.scope then Failure(ScopeMismatch)
    else if IsStale(current, o) then Success(Reconciliation(Stale, current, []))
    else Settled(current, o, Compare(current, o))
  }

  function Settled(current: Inventory, o: Observation, c: Comparison): Result<Reconciliation, Error>
    requires c.Valid()
  {
    if c.Exhausted() then Failure(InvalidRevision)
    else if |c.Next()| > MAX_LOTS then Failure(CapacityExceeded)
    else Published(current, o, c.Next(), c.Drafts(c.Order()))
  }

  function Published(current: Inventory, o: Observation, next: map<nat, Entry>, drafts: seq<Draft>)
    : Result<Reconciliation, Error>
    requires Keyed(next)
  {
    if current.lastObservation == Some(o.id) then
      if drafts == [] then Success(Reconciliation(Duplicate, current, []))
      else Failure(ConflictingObservationIdentity)
    else if current.lastSequence + |drafts| > I64_MAX && drafts != [] then Failure(InvalidSequence)
    else if current.revision + 1 > I64_MAX then Failure(InvalidRevision)
    else
      var inventory := Inventory(current.scope, current.revision + 1, current.lastSequence + |drafts|,
                                 Some(o.id), Some(o.observedAtMs), Values(next));
      Success(Reconciliation(if drafts == [] then FreshnessOnly else Changed, inventory,
                             Numbered(drafts, current.lastSequence)))
  }

  // ------------------------------------------------------------------
  // The loops

  function LotIds(lots: seq<Lot>): (r: seq<nat>)
    ensures |r| == |lots| && forall i :: 0 <= i < |r| ==> r[i] == lots[i].id
  {
    seq(|lots|, i requires 0 <= i < |lots| => lots[i].id)
  }

  function EntryIds(entries: seq<Entry>): (r: seq<nat>)
    ensures |r| == |entries| && forall i :: 0 <= i < |r| ==> r[i] == entries[i].lot.id
  {
    seq(|entries|, i requires 0 <= i < |entries| => entries[i].lot.id)
  }

  /** `next` and `pending` tell what becomes of exactly the lots in `ids`. */
  ghost predicate Covers(c: Comparison, next: map<nat, Entry>, ids: seq<nat>) {
    && (forall id :: id in next <==> id in ids && c.After(id).Some?)
    && (forall id :: id in next ==> c.After(id) == Some(next[id]))
  }

  ghost predicate Progress(c: Comparison, next: map<nat, Entry>, pending: seq<Draft>, ids: seq<nat>) {
    && Covers(c, next, ids) && pending == c.Drafts(ids)
    && (forall id :: id in ids ==> !c.Spent(id))
  }

  /** One lot more, whose entry afterwards is `entry`. */
  lemma ProgressGrows(c: Comparison, next: map<nat, Entry>, pending: seq<Draft>, ids: seq<nat>, id: nat)
    requires Progress(c, next, pending, ids) && id !in ids && !c.Spent(id)
    ensures c.After(id).Some? && c.DraftOf(id).Some? ==>
              Progress(c, next[id := c.After(id).value], pending + [c.DraftOf(id).value], ids + [id])
    ensures c.After(id).Some? && c.DraftOf(id).None? ==>
              Progress(c, next[id := c.After(id).value], pending, ids + [id])
    ensures c.After(id).None? && c.DraftOf(id).Some? ==>
              Progress(c, next, pending + [c.DraftOf(id).value], ids + [id])
  {
    hide Comparison.After, Comparison.DraftOf, Comparison.Spent;
    assert (ids + [id])[..|ids|] == ids;
  }

  method ObserveLot(lot: Lot, prior: map<nat, Entry>, next: map<nat, Entry>, pending: seq<Draft>,
                    ghost c: Comparison, ghost ids: seq<nat>)
    returns (spent: bool, next': map<nat, Entry>, pending': seq<Draft>)
    requires Progress(c, next, pending, ids) && lot.id !in ids && lot.id in c.seen && c.seen[lot.id] == lot
    requires lot.id in prior <==> lot.id in c.held
    requires lot.id in prior ==> prior[lot.id] == c.held[lot.id]
    ensures spent ==> c.Spent(lot.id)
    ensures !spent ==> Progress(c, next', pending', ids + [lot.id])
  {
    hide Progress;
    spent, next', pending' := false, next, pending;
    if lot.id !in prior {
      next' := next[lot.id := Entry(lot, 1)];
      pending' := pending + [Draft(lot.id, 1, Awarded, None, Some(lot))];
    } else {
      var previous := prior[lot.id];
      if previous.lot == lot {
        next' := next[lot.id := previous];
      } else {
        if previous.revision + 1 > I64_MAX {
          spent := true;
          return;
        }
        next' := next[lot.id := Entry(lot, previous.revision + 1)];
        pending' := pending + [Draft(lot.id, previous.revision + 1, ClassifyChange(previous.lot, lot),
                                     Some(previous.lot), Some(lot))];
      }
    }
    ProgressGrows(c, next, pending, ids, lot.id);
  }

  method ObserveLots(observed: seq<Lot>, held: map<nat, Entry>, ghost c: Comparison)
    returns (spent: bool, prior: map<nat, Entry>, next: map<nat, Entry>, pending: seq<Draft>)
    requires c.held == held && Rising(LotIds(observed))
    requires forall i :: 0 <= i < |observed| ==> observed[i].id in c.seen && c.seen[observed[i].id] == observed[i]
    ensures spent ==> c.Exhausted()
    ensures !spent ==> prior == held - (set id | id in LotIds(observed))
    ensures !spent ==> Progress(c, next, pending, LotIds(observed))
  {
    hide Progress;
    spent, prior, next, pending := false, held, map[], [];
    ghost var ids := LotIds(observed);
    NothingYet(c);
    for i := 0 to |observed|
      invariant prior == held - (set id | id in ids[..i])
      invariant Progress(c, next, pending, ids[..i])
    {
      var lot := observed[i];
      assert ids[..i + 1] == ids[..i] + [lot.id];
      assert lot.id !in ids[..i];
      spent, next, pending := ObserveLot(lot, prior, next, pending, c, ids[..i]);
      if spent {
        assert lot.id in c.held && c.Spent(lot.id);
        return;
      }
      prior := prior - {lot.id};
    }
    assert ids[..|observed|] == ids;
  }

  lemma NothingYet(c: Comparison)
    ensures Progress(c, map[], [], [])
  {
  }

  method SettleRest(rest: seq<Entry>, observed: map<nat, Entry>, changes: seq<Draft>, complete: bool,
                    ghost c: Comparison, ghost done: seq<nat>)
    returns (spent: bool, next: map<nat, Entry>, pending: seq<Draft>)
    requires c.complete == complete && Ordered(rest) && Progress(c, observed, changes, done)
    requires forall i :: 0 <= i < |rest| ==> && rest[i].lot.id in c.held && c.held[rest[i].lot.id] == rest[i]
                                             && rest[i].lot.id !in c.seen && rest[i].lot.id !in done
    ensures spent ==> c.Exhausted()
    ensures !spent ==> Progress(c, next, pending, done + EntryIds(rest))
  {
    hide Progress;
    spent, next, pending := false, observed, changes;
    ghost var ids := EntryIds(rest);
    assert done + ids[..0] == done;
    for i := 0 to |rest|
      invariant Progress(c, next, pending, done + ids[..i])
    {
      var previous := rest[i];
      assert done + ids[..i + 1] == done + ids[..i] + [previous.lot.id];
      assert previous.lot.id !in done + ids[..i];
      spent, next, pending := SettleOne(previous, next, pending, complete, c, done + ids[..i]);
      if spent {
        assert previous.lot.id in c.held && c.Spent(previous.lot.id);
        return;
      }
    }
    assert ids[..|rest|] == ids;
  }

  method SettleOne(previous: Entry, next: map<nat, Entry>, pending: seq<Draft>, complete: bool,
                   ghost c: Comparison, ghost ids: seq<nat>)
    returns (spent: bool, next': map<nat, Entry>, pending': seq<Draft>)
    requires c.complete == complete && Progress(c, next, pending, ids)
    requires previous.lot.id in c.held && c.held[previous.lot.id] == previous
    requires previous.lot.id !in c.seen && previous.lot.id !in ids
    ensures spent ==> c.Spent(previous.lot.id)
    ensures !spent ==> Progress(c, next', pending', ids + [previous.lot.id])
  {
    hide Progress;
    var lot := previous.lot;
    spent, next', pending' := false, next, pending;
    if !complete || lot.state.Ambiguous? {
      next' := next[lot.id := previous];
    } else if previous.revision + 1 > I64_MAX {
      spent := true;
      return;
    } else if IsTerminal(lot.state) {
      pending' := pending + [Draft(lot.id, previous.revision + 1, RetiredTerminal, Some(lot), None)];
    } else {
      var ambiguous := lot.(state := Ambiguous);
      next' := next[lot.id := Entry(ambiguous, previous.revision + 1)];
      pending' := pending + [Draft(lot.id, previous.revision + 1, DisappearedAmbiguous, Some(lot), Some(ambiguous))];
    }
    ProgressGrows(c, next, pending, ids, lot.id);
  }

  method NumberChanges(pending: seq<Draft>, start: nat) returns (r: Result<seq<Change>, Error>, sequence: nat)
    requires start <= I64_MAX
    ensures start + |pending| > I64_MAX && pending != [] ==> r == Failure(InvalidSequence)
    ensures start + |pending| <= I64_MAX ==> r == Success(Numbered(pending, start)) && sequence == start + |pending|
  {
    var changes := [];
    sequence := start;
    for i := 0 to |pending|
      invariant sequence == start + i <= I64_MAX && changes == Numbered(pending[..i], start)
    {
      if sequence + 1 > I64_MAX { return Failure(InvalidSequence), sequence; }
      sequence := sequence + 1;
      changes := changes + [Change(sequence, pending[i])];
    }
    assert pending[..|pending|] == pending;
    r := Success(changes);
  }

  // ------------------------------------------------------------------
  // The whole reconciliation

  /** The lots in id order. */
  function Sorted(lots: seq<Lot>): seq<Lot> {
    AscendingLists(LotsById(lots).Keys);
    LotsAt(LotsById(lots), Ascending(LotsById(lots).Keys))
  }

  function LotsAt(seen: map<nat, Lot>, ids: seq<nat>): (r: seq<Lot>)
    requires forall id :: id in ids ==> id in seen
    ensures |r| == |ids| && forall i :: 0 <= i < |r| ==> r[i] == seen[ids[i]]
  {
    seq(|ids|, i requires 0 <= i < |ids| => seen[ids[i]])
  }

  lemma OrderLists(c: Comparison, id: nat)
    ensures id in c.Order() <==> id in c.held.Keys + c.seen.Keys
  {
    hide Ascending;
    AscendingLists(c.seen.Keys);
    AscendingLists(c.held.Keys - c.seen.Keys);
  }

  /** All lots are covered once the two loops are done. */
  lemma ProgressIsComplete(c: Comparison, next: map<nat, Entry>, pending: seq<Draft>, ids: seq<nat>)
    requires Progress(c, next, pending, ids) && forall id :: id in ids <==> id in c.held.Keys + c.seen.Keys
    ensures !c.Exhausted() && next == c.Next() && pending == c.Drafts(ids)
  {
    hide Comparison.After, Comparison.Spent, Comparison.Drafts;
  }

  lemma RestInOrder(c: Comparison, rest: map<nat, Entry>)
    requires c.Valid() && rest == c.held - c.seen.Keys
    ensures Keyed(rest) && EntryIds(Values(rest)) == Ascending(c.held.Keys - c.seen.Keys)
  {
    hide Ascending, Values;
    assert rest.Keys == c.held.Keys - c.seen.Keys;
    ValuesFollowKeys(rest);
  }

  lemma RestIsUnseen(c: Comparison, rest: map<nat, Entry>, done: seq<nat>)
    requires c.Valid() && rest == c.held - c.seen.Keys && Keyed(rest) && done == Ascending(c.seen.Keys)
    ensures forall i :: 0 <= i < |Values(rest)| ==>
              && Values(rest)[i].lot.id in c.held && c.held[Values(rest)[i].lot.id] == Values(rest)[i]
              && Values(rest)[i].lot.id !in c.seen && Values(rest)[i].lot.id !in done
  {
    hide Ascending, Values;
    AscendingLists(c.seen.Keys);
  }

  lemma GatheredAll(c: Comparison, next: map<nat, Entry>, pending: seq<Draft>, ids: seq<nat>)
    requires Progress(c, next, pending, ids) && ids == c.Order()
    ensures !c.Exhausted() && next == c.Next() && pending == c.Drafts(c.Order())
  {
    hide Progress, Comparison.Order, Comparison.Drafts, Comparison.Next, Comparison.Exhausted;
    forall id ensures id in ids <==> id in c.held.Keys + c.seen.Keys { OrderLists(c, id); }
    ProgressIsComplete(c, next, pending, ids);
  }

  method ReconcileInventory(current: Inventory, o: Observation) returns (r: Result<Reconciliation, Error>)
    requires current.Valid() && o.Valid()
    ensures r == Reconciled(current, o)
  {
    hide Comparison.Exhausted, Comparison.Next, Comparison.Drafts, Comparison.Order, Published;
    hide Inventory.Valid, Observation.Valid;
    if current.scope != o.scope { return Failure(ScopeMismatch); }
    if current.lastObservedAtMs.Some? && o.observedAtMs < current.lastObservedAtMs.value {
      return Success(Reconciliation(Stale, current, []));
    }
    ghost var c := Compare(current, o);
    var error, next, pending := Gather(ById(current.lots), o.lots, !o.completeness.Partial?, c);
    if error.Some? { return Failure(error.value); }
    NextIsKeyed(c);
    r := Publish(current, o, next, pending);
  }

  /** What is left of the old inventory, in id order. */
  method SettleUnobserved(prior: map<nat, Entry>, observed: map<nat, Entry>, changes: seq<Draft>, complete: bool,
                          ghost c: Comparison, ghost ids: seq<nat>)
    returns (spent: bool, next: map<nat, Entry>, pending: seq<Draft>)
    requires c.Valid() && c.complete == complete && prior == c.held - c.seen.Keys
    requires ids == Ascending(c.seen.Keys) && Progress(c, observed, changes, ids)
    ensures spent == c.Exhausted()
    ensures !spent ==> next == c.Next() && pending == c.Drafts(c.Order())
  {
    hide Comparison.Exhausted, Comparison.Next, Comparison.Drafts, Ascending, Progress, Values;
    RestInOrder(c, prior);
    RestIsUnseen(c, prior, ids);
    var rest := Values(prior);
    spent, next, pending := SettleRest(rest, observed, changes, complete, c, ids);
    if !spent { GatheredAll(c, next, pending, ids + EntryIds(rest)); }
  }

  method Gather(held: map<nat, Entry>, lots: seq<Lot>, complete: bool, ghost c: Comparison)
    returns (error: Option<Error>, next: map<nat, Entry>, pending: seq<Draft>)
    requires c.Valid() && c.held == held && c.seen == LotsById(lots) && c.complete == complete
    ensures c.Exhausted() ==> error == Some(InvalidRevision)
    ensures !c.Exhausted() ==> next == c.Next() && pending == c.Drafts(c.Order())
    ensures !c.Exhausted() ==> error == if |next| > MAX_LOTS then Some(CapacityExceeded) else None
  {
    hide Comparison.Exhausted, Comparison.Next, Comparison.Drafts, Comparison.Order, Comparison.Valid;
    hide Ascending, LotsById, Progress, Sorted, Rising;
    error := None;
    var observed := Sorted(lots);
    SortedFinds(lots, observed);
    var spent, prior;
    spent, prior, next, pending := ObserveLots(observed, held, c);
    if spent { return Some(InvalidRevision), next, pending; }
    spent, next, pending := SettleUnobserved(prior, next, pending, complete, c, LotIds(observed));
    if spent { return Some(InvalidRevision), next, pending; }
    if |next| > MAX_LOTS { error := Some(CapacityExceeded); }
  }

  lemma SortedFinds(lots: seq<Lot>, sorted: seq<Lot>)
    requires sorted == Sorted(lots)
    ensures LotIds(sorted) == Ascending(LotsById(lots).Keys) && Rising(LotIds(sorted))
    ensures (set id | id in LotIds(sorted)) == LotsById(lots).Keys
    ensures forall i :: 0 <= i < |sorted| ==>
              sorted[i].id in LotsById(lots) && LotsById(lots)[sorted[i].id] == sorted[i]
  {
    hide Ascending, LotsById;
    AscendingLists(LotsById(lots).Keys);
    assert LotIds(sorted) == Ascending(LotsById(lots).Keys);
  }

  method Publish(current: Inventory, o: Observation, next: map<nat, Entry>, pending: seq<Draft>)
    returns (r: Result<Reconciliation, Error>)
    requires current.Valid() && Keyed(next)
    ensures r == Published(current, o, next, pending)
  {
    if current.lastObservation == Some(o.id) {
      if pending == [] { return Success(Reconciliation(Duplicate, current, [])); }
      return Failure(ConflictingObservationIdentity);
    }
    var numbered, sequence := NumberChanges(pending, current.lastSequence);
    if numbered.Failure? { return Failure(numbered.error); }
    var status := if numbered.value == [] then FreshnessOnly else Changed;
    if current.revision + 1 > I64_MAX { return Failure(InvalidRevision); }
    r := Success(Reconciliation(status,
      Inventory(current.scope, current.revision + 1, sequence, Some(o.id), Some(o.observedAtMs), Values(next)),
      numbered.value));
  }
}
