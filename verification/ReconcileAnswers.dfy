/** What a reconciliation answers, stated on the fields of the inventory and of
    the observation alone: which answer when, which lots and revisions
    afterwards, and which changes in which order. */
module ReconcileAnswers {
  import opened Prelude
  import opened Benefits
  import opened Reconcile
  import opened ReconcileTheorems

  // ------------------------------------------------------------------
  // What an observation says about a lot

  predicate Lists(o: Observation, id: nat) {
    exists lot :: lot in o.lots && lot.id == id
  }

  predicate Holds(current: Inventory, id: nat) {
    exists e :: e in current.lots && e.lot.id == id
  }

  predicate IsOver(state: State) {
    state.Activated? || state.Expired? || state.Revoked?
  }

  /** Listed with something else in it. */
  predicate Differs(o: Observation, e: Entry) {
    exists lot :: lot in o.lots && lot.id == e.lot.id && lot != e.lot
  }

  /** Not listed by an observation that lists everything. */
  predicate Missing(o: Observation, e: Entry) {
    !o.completeness.Partial? && !Lists(o, e.lot.id)
  }

  /** The held lot has to change: a missing lot is retired or becomes ambiguous,
      unless it is ambiguous already. */
  predicate MustChange(o: Observation, e: Entry) {
    Differs(o, e) || (Missing(o, e) && !e.lot.state.Ambiguous?)
  }

  function ChangedIds(current: Inventory, o: Observation): set<nat> {
    (set e | e in current.lots && MustChange(o, e) :: e.lot.id)
    + (set lot | lot in o.lots && !Holds(current, lot.id) :: lot.id)
  }

  function IdsAfter(current: Inventory, o: Observation): set<nat> {
    (set lot | lot in o.lots :: lot.id)
    + (set e | e in current.lots && !(Missing(o, e) && IsOver(e.lot.state)) :: e.lot.id)
  }

  /** A lot would have to change at the last revision. */
  predicate RevisionSpent(current: Inventory, o: Observation) {
    exists e :: e in current.lots && MustChange(o, e) && e.revision == I64_MAX
  }

  // ------------------------------------------------------------------
  // The same in terms of the comparison

  lemma HeldIs(current: Inventory, o: Observation, e: Entry)
    requires current.Valid() && e in current.lots
    ensures var c := Compare(current, o); e.lot.id in c.held && c.held[e.lot.id] == e
  {
    hide ById, LotsById;
    var i :| 0 <= i < |current.lots| && current.lots[i] == e;
    ByIdFinds(current.lots, i);
  }

  lemma SeenIs(current: Inventory, o: Observation, lot: Lot)
    requires o.Valid() && lot in o.lots
    ensures var c := Compare(current, o); lot.id in c.seen && c.seen[lot.id] == lot
  {
    hide ById, LotsById;
    LotsByIdFinds(o.lots, lot);
  }

  lemma ListsIs(current: Inventory, o: Observation, id: nat)
    requires o.Valid()
    ensures Lists(o, id) <==> id in Compare(current, o).seen
  {
    hide ById, LotsById;
    var c := Compare(current, o);
    if Lists(o, id) {
      var lot :| lot in o.lots && lot.id == id;
      SeenIs(current, o, lot);
    }
    if id in c.seen { assert c.seen[id] in o.lots; }
  }

  lemma HoldsIs(current: Inventory, o: Observation, id: nat)
    requires current.Valid()
    ensures Holds(current, id) <==> id in Compare(current, o).held
  {
    hide ById, LotsById;
    var c := Compare(current, o);
    if Holds(current, id) {
      var e :| e in current.lots && e.lot.id == id;
      HeldIs(current, o, e);
    }
    if id in c.held { assert c.held[id] in current.lots; }
  }

  /** A held lot must change exactly if the comparison drafts a change for it. */
  lemma MustChangeIs(current: Inventory, o: Observation, e: Entry)
    requires current.Valid() && o.Valid() && e in current.lots
    ensures MustChange(o, e) <==> Compare(current, o).DraftOf(e.lot.id).Some?
  {
    hide ById, LotsById;
    var c, id := Compare(current, o), e.lot.id;
    HeldIs(current, o, e);
    ListsIs(current, o, id);
    if Differs(o, e) {
      var lot :| lot in o.lots && lot.id == id && lot != e.lot;
      SeenIs(current, o, lot);
    }
    if id in c.seen && c.seen[id] != e.lot { assert Differs(o, e); }
  }

  lemma ChangedIs(current: Inventory, o: Observation, id: nat)
    requires current.Valid() && o.Valid()
    ensures id in ChangedIds(current, o) <==> Compare(current, o).DraftOf(id).Some?
  {
    hide ById, LotsById, MustChange, Comparison.DraftOf;
    var c := Compare(current, o);
    HoldsIs(current, o, id);
    ListsIs(current, o, id);
    if Holds(current, id) {
      var e :| e in current.lots && e.lot.id == id;
      MustChangeIs(current, o, e);
      forall f | f in current.lots && f.lot.id == id ensures f == e {
        HeldIs(current, o, e);
        HeldIs(current, o, f);
      }
    } else {
      UnheldIsAwarded(c, id);
    }
  }

  lemma UnheldIsAwarded(c: Comparison, id: nat)
    requires id !in c.held
    ensures c.DraftOf(id).Some? <==> id in c.seen
  {
  }

  lemma AfterIs(current: Inventory, o: Observation, id: nat)
    requires current.Valid() && o.Valid()
    ensures id in IdsAfter(current, o) <==> id in Compare(current, o).Next()
  {
    hide ById, LotsById;
    var c := Compare(current, o);
    HoldsIs(current, o, id);
    ListsIs(current, o, id);
    if Holds(current, id) {
      var e :| e in current.lots && e.lot.id == id;
      HeldIs(current, o, e);
      forall f | f in current.lots && f.lot.id == id ensures f == e { HeldIs(current, o, f); }
    }
  }

  lemma SpentIs(current: Inventory, o: Observation)
    requires current.Valid() && o.Valid()
    ensures RevisionSpent(current, o) <==> Compare(current, o).Exhausted()
  {
    hide ById, LotsById, MustChange, Comparison.DraftOf;
    var c := Compare(current, o);
    if RevisionSpent(current, o) {
      var e :| e in current.lots && MustChange(o, e) && e.revision == I64_MAX;
      HeldIs(current, o, e);
      MustChangeIs(current, o, e);
      assert c.Spent(e.lot.id);
    }
    if c.Exhausted() {
      var id :| id in c.held && c.Spent(id);
      assert c.held[id] in current.lots;
      MustChangeIs(current, o, c.held[id]);
    }
  }

  /** One draft for each lot that has one. */
  lemma {:induction false} DraftsCount(c: Comparison, ids: seq<nat>)
    requires Distinct(ids)
    ensures |c.Drafts(ids)| == |set id | id in ids && c.DraftOf(id).Some?|
  {
    hide Comparison.DraftOf;
    if ids == [] {
      assert (set id | id in ids && c.DraftOf(id).Some?) == {};
    } else {
      var rest, last := ids[..|ids| - 1], ids[|ids| - 1];
      assert ids == rest + [last];
      DraftsCount(c, rest);
      var before := set id | id in rest && c.DraftOf(id).Some?;
      var now := set id | id in ids && c.DraftOf(id).Some?;
      assert last !in rest;
      if c.DraftOf(last).Some? { assert now == before + {last}; } else { assert now == before; }
    }
  }

  lemma ChangesCount(current: Inventory, o: Observation)
    requires current.Valid() && o.Valid()
    ensures var c := Compare(current, o); |c.Drafts(c.Order())| == |ChangedIds(current, o)|
  {
    hide Comparison.Order, Comparison.Drafts, ChangedIds, Compare;
    var c := Compare(current, o);
    OrderIsDistinct(c);
    DraftsCount(c, c.Order());
    forall id ensures id in c.Order() && c.DraftOf(id).Some? <==> id in ChangedIds(current, o) {
      ChangedIs(current, o, id);
      OrderLists(c, id);
    }
    assert (set id | id in c.Order() && c.DraftOf(id).Some?) == ChangedIds(current, o);
  }

  lemma RoomIs(current: Inventory, o: Observation)
    requires current.Valid() && o.Valid()
    ensures |Compare(current, o).Next()| == |IdsAfter(current, o)|
  {
    hide Comparison.Next, IdsAfter, Compare;
    forall id ensures id in IdsAfter(current, o) <==> id in Compare(current, o).Next().Keys { AfterIs(current, o, id); }
    assert Compare(current, o).Next().Keys == IdsAfter(current, o);
  }

  // ------------------------------------------------------------------
  // Which answer when

  /** Of this scope and not older than what is held. */
  predicate Timely(current: Inventory, o: Observation) {
    && current.scope == o.scope
    && (current.lastObservedAtMs.Some? ==> current.lastObservedAtMs.value <= o.observedAtMs)
  }

  /** No revision is spent and the lots afterwards fit. */
  predicate Fits(current: Inventory, o: Observation) {
    !RevisionSpent(current, o) && |IdsAfter(current, o)| <= MAX_LOTS
  }

  predicate IsNew(current: Inventory, o: Observation) {
    current.lastObservation != Some(o.id)
  }

  /** The changes find sequence numbers. */
  predicate SequenceFits(current: Inventory, o: Observation) {
    ChangedIds(current, o) == {} || current.lastSequence + |ChangedIds(current, o)| <= I64_MAX
  }

  predicate Acceptable(current: Inventory, o: Observation) {
    && Timely(current, o) && Fits(current, o) && IsNew(current, o)
    && SequenceFits(current, o) && current.revision < I64_MAX
  }

  /** Every status and every error has its own condition on the two values. */
  lemma AnswersExactlyWhen(current: Inventory, o: Observation)
    requires current.Valid() && o.Valid()
    ensures var r := Reconciled(current, o);
            && (r == Failure(ScopeMismatch) <==> current.scope != o.scope)
            && (r.Success? && r.value.status.Stale? <==> current.scope == o.scope && !Timely(current, o))
            && (r == Failure(InvalidRevision) <==>
                  && Timely(current, o)
                  && (|| RevisionSpent(current, o)
                      || (&& Fits(current, o) && IsNew(current, o) && SequenceFits(current, o)
                          && current.revision == I64_MAX)))
            && (r == Failure(CapacityExceeded) <==>
                  Timely(current, o) && !RevisionSpent(current, o) && |IdsAfter(current, o)| > MAX_LOTS)
            && (r == Failure(ConflictingObservationIdentity) <==>
                  Timely(current, o) && Fits(current, o) && !IsNew(current, o) && ChangedIds(current, o) != {})
            && (r.Success? && r.value.status.Duplicate? <==>
                  Timely(current, o) && Fits(current, o) && !IsNew(current, o) && ChangedIds(current, o) == {})
            && (r == Failure(InvalidSequence) <==>
                  Timely(current, o) && Fits(current, o) && IsNew(current, o) && !SequenceFits(current, o))
            && (r.Success? && r.value.status.Changed? <==> Acceptable(current, o) && ChangedIds(current, o) != {})
            && (r.Success? && r.value.status.FreshnessOnly? <==>
                  Acceptable(current, o) && ChangedIds(current, o) == {})
  {
    hide Compare, Comparison.Exhausted, Comparison.Next, Comparison.Drafts, Comparison.Order, Values;
    hide RevisionSpent, IdsAfter, ChangedIds, Observation.Valid;
    SpentIs(current, o);
    RoomIs(current, o);
    ChangesCount(current, o);
    NextIsKeyed(Compare(current, o));
  }

  /** Changed means that the lots by id are others than before, FreshnessOnly
      that they are the same. */
  lemma ChangedMeansOtherLots(current: Inventory, o: Observation)
    requires current.Valid() && o.Valid() && Acceptable(current, o)
    ensures var r := Reconciled(current, o);
            && Accepts(current, o)
            && (r.value.status.Changed? <==> ById(r.value.inventory.lots) != ById(current.lots))
  {
    hide Reconciled, Comparison.Next, Comparison.Exhausted, Comparison.Drafts, Comparison.Order, Values;
    hide ById, LotsById, ChangedIds, Acceptable;
    AnswersExactlyWhen(current, o);
    AcceptedIs(current, o);
    var c := Compare(current, o);
    ByIdOfValues(c.Next());
    forall id ensures id in ChangedIds(current, o) <==> c.After(id) != c.Before(id) {
      ChangedIs(current, o, id);
      DraftTells(c, id);
    }
    forall id ensures Find(c.Next(), id) == c.After(id) && Find(c.held, id) == c.Before(id) { NextIsAfter(c, id); }
    if ChangedIds(current, o) == {} {
      assert forall id :: Find(c.Next(), id) == Find(c.held, id);
      SameFinds(c.Next(), c.held);
    } else {
      var id :| id in ChangedIds(current, o);
      assert Find(c.Next(), id) != Find(c.held, id);
    }
  }

  lemma DraftTells(c: Comparison, id: nat)
    ensures c.DraftOf(id).Some? <==> c.After(id) != c.Before(id)
  {
  }

  // ------------------------------------------------------------------
  // Which lots afterwards

  /** The entry is an observed lot that is new, kept or replaced. */
  ghost predicate FromObserved(current: Inventory, o: Observation, e: Entry) {
    && e.lot in o.lots
    && (!Holds(current, e.lot.id) ==> e.revision == 1)
    && (forall was :: was in current.lots && was.lot.id == e.lot.id ==>
          e.revision == if was.lot == e.lot then was.revision else was.revision + 1)
  }

  /** The entry is a held lot that was not listed: kept, or made ambiguous. */
  ghost predicate FromHeld(current: Inventory, o: Observation, e: Entry) {
    exists was :: was in current.lots && !Lists(o, was.lot.id)
                  && if !Missing(o, was) || was.lot.state.Ambiguous? then e == was
                     else !IsOver(was.lot.state) && e == Entry(was.lot.(state := Ambiguous), was.revision + 1)
  }

  lemma EntryAfterIs(current: Inventory, o: Observation, e: Entry)
    requires current.Valid() && o.Valid()
    ensures Compare(current, o).After(e.lot.id) == Some(e) <==> FromObserved(current, o, e) || FromHeld(current, o, e)
  {
    hide ById, LotsById;
    var c, id := Compare(current, o), e.lot.id;
    HoldsIs(current, o, id);
    ListsIs(current, o, id);
    if Holds(current, id) {
      var was :| was in current.lots && was.lot.id == id;
      HeldIs(current, o, was);
      forall f | f in current.lots && f.lot.id == id ensures f == was { HeldIs(current, o, f); }
    }
    if Lists(o, id) {
      var lot :| lot in o.lots && lot.id == id;
      SeenIs(current, o, lot);
      forall f | f in o.lots && f.id == id ensures f == lot { SeenIs(current, o, f); }
    }
  }

  /** An accepted observation leaves exactly these lots at these revisions, in id
      order, and moves the counters by what it changed. */
  lemma InventoryIs(current: Inventory, o: Observation)
    requires current.Valid() && o.Valid() && Acceptable(current, o)
    ensures Reconciled(current, o).Success?
    ensures var next := Reconciled(current, o).value.inventory;
            && Ordered(next.lots)
            && (forall e :: e in next.lots <==> FromObserved(current, o, e) || FromHeld(current, o, e))
            && next.scope == current.scope && next.revision == current.revision + 1
            && next.lastSequence == current.lastSequence + |ChangedIds(current, o)|
            && next.lastObservation == Some(o.id) && next.lastObservedAtMs == Some(o.observedAtMs)
  {
    hide Reconciled, Comparison.Next, Comparison.Exhausted, Comparison.Drafts, Comparison.Order, Comparison.After;
    hide Values, ById, LotsById, Acceptable, FromObserved, FromHeld, ChangedIds;
    AnswersExactlyWhen(current, o);
    AcceptedIs(current, o);
    ChangesCount(current, o);
    var c, lots := Compare(current, o), Reconciled(current, o).value.inventory.lots;
    forall e ensures e in lots <==> FromObserved(current, o, e) || FromHeld(current, o, e) {
      EntryAfterIs(current, o, e);
      NextIsAfter(c, e.lot.id);
      ByIdOfValues(c.Next());
      if e in lots {
        var i :| 0 <= i < |lots| && lots[i] == e;
        assert c.Next()[e.lot.id] == e;
      }
      if Find(c.Next(), e.lot.id) == Some(e) { assert ById(lots)[e.lot.id] in lots; }
    }
  }

  // ------------------------------------------------------------------
  // Which changes, in which order

  /** A change of a lot that was not held. */
  ghost predicate Awards(current: Inventory, o: Observation, d: Draft) {
    && !Holds(current, d.lotId) && d.kind == Awarded && d.revision == 1 && d.before.None?
    && d.after.Some? && d.after.value in o.lots && d.after.value.id == d.lotId
  }

  /** A change of a held lot: to what was listed, to ambiguous, or to nothing. */
  ghost predicate Alters(current: Inventory, o: Observation, d: Draft) {
    exists was :: was in current.lots && was.lot.id == d.lotId && d.before == Some(was.lot)
                  && d.revision == was.revision + 1
                  && if Lists(o, d.lotId) then
                       && d.after.Some? && d.after.value in o.lots && d.after.value.id == d.lotId
                       && d.after.value != was.lot && d.kind == ClassifyChange(was.lot, d.after.value)
                     else if IsOver(was.lot.state) then d.after.None? && d.kind == RetiredTerminal
                     else d.after == Some(was.lot.(state := Ambiguous)) && d.kind == DisappearedAmbiguous
  }

  lemma DraftIs(current: Inventory, o: Observation, id: nat)
    requires current.Valid() && o.Valid() && Compare(current, o).DraftOf(id).Some?
    ensures var d := Compare(current, o).DraftOf(id).value;
            d.lotId == id && (Awards(current, o, d) || Alters(current, o, d))
  {
    hide ById, LotsById;
    var c := Compare(current, o);
    HoldsIs(current, o, id);
    ListsIs(current, o, id);
    if id in c.held {
      assert c.held[id] in current.lots;
      assert Alters(current, o, c.DraftOf(id).value);
    }
  }

  /** Listed lots come first, and either kind in id order. */
  predicate Precedes(o: Observation, a: nat, b: nat) {
    if Lists(o, a) == Lists(o, b) then a < b else Lists(o, a)
  }

  /** The drafts follow the order in which the lots are visited. */
  lemma {:induction false} DraftsFollow(c: Comparison, ids: seq<nat>, o: Observation)
    requires forall i, j :: 0 <= i < j < |ids| ==> Precedes(o, ids[i], ids[j])
    ensures forall i :: 0 <= i < |c.Drafts(ids)| ==>
              var d := c.Drafts(ids)[i]; d.lotId in ids && c.DraftOf(d.lotId) == Some(d)
    ensures forall i, j :: 0 <= i < j < |c.Drafts(ids)| ==> Precedes(o, c.Drafts(ids)[i].lotId, c.Drafts(ids)[j].lotId)
  {
    hide Precedes;
    if ids != [] {
      var rest, last := ids[..|ids| - 1], ids[|ids| - 1];
      assert ids == rest + [last];
      DraftsFollow(c, rest, o);
      assert c.DraftOf(last).Some? ==> c.DraftOf(last).value.lotId == last;
      hide Comparison.DraftOf;
    }
  }

  lemma OrderIs(current: Inventory, o: Observation)
    requires o.Valid()
    ensures var ids := Compare(current, o).Order();
            forall i, j :: 0 <= i < j < |ids| ==> Precedes(o, ids[i], ids[j])
  {
    hide Ascending, ById, LotsById;
    var c := Compare(current, o);
    AscendingLists(c.seen.Keys);
    AscendingLists(c.held.Keys - c.seen.Keys);
    var a, b := Ascending(c.seen.Keys), Ascending(c.held.Keys - c.seen.Keys);
    forall i, j | 0 <= i < j < |a + b| ensures Precedes(o, (a + b)[i], (a + b)[j]) {
      ListsIs(current, o, (a + b)[i]);
      ListsIs(current, o, (a + b)[j]);
      assert i < |a| ==> (a + b)[i] in a;
      assert j >= |a| ==> (a + b)[j] in b;
      assert i >= |a| ==> (a + b)[i] in b;
      assert j < |a| ==> (a + b)[j] in a;
    }
  }

  /** An accepted observation publishes one change for each lot that changed:
      awards and alterations as described above, listed lots first and in id
      order, numbered on from the last sequence number. */
  lemma ChangesAre(current: Inventory, o: Observation)
    requires current.Valid() && o.Valid() && Acceptable(current, o)
    ensures Reconciled(current, o).Success?
    ensures var changes := Reconciled(current, o).value.changes;
            && |changes| == |ChangedIds(current, o)|
            && (forall i :: 0 <= i < |changes| ==>
                  && changes[i].sequence == current.lastSequence + i + 1
                  && changes[i].draft.lotId in ChangedIds(current, o)
                  && (Awards(current, o, changes[i].draft) || Alters(current, o, changes[i].draft)))
            && (forall i, j :: 0 <= i < j < |changes| ==>
                  Precedes(o, changes[i].draft.lotId, changes[j].draft.lotId))
  {
    hide Reconciled, Comparison.Next, Comparison.Exhausted, Comparison.Drafts, Comparison.Order, Comparison.DraftOf;
    hide Values, Compare, Acceptable, Awards, Alters, ChangedIds, Precedes;
    AnswersExactlyWhen(current, o);
    AcceptedIs(current, o);
    ChangesCount(current, o);
    OrderIs(current, o);
    var c := Compare(current, o);
    DraftsFollow(c, c.Order(), o);
    var drafts := c.Drafts(c.Order());
    forall i | 0 <= i < |drafts|
      ensures drafts[i].lotId in ChangedIds(current, o)
      ensures Awards(current, o, drafts[i]) || Alters(current, o, drafts[i])
    {
      assert c.DraftOf(drafts[i].lotId) == Some(drafts[i]);
      ChangedIs(current, o, drafts[i].lotId);
      DraftIs(current, o, drafts[i].lotId);
    }
  }
}
