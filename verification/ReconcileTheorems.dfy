/** The change log is faithful, and what every run of reconciliations keeps. */
module ReconcileTheorems {
  import opened Prelude
  import opened Benefits
  import opened Reconcile

  // ------------------------------------------------------------------
  // Replaying a change log

  function Apply(lots: map<nat, Entry>, change: Change): map<nat, Entry> {
    var d := change.draft;
    if d.after.Some? then lots[d.lotId := Entry(d.after.value, d.revision)] else lots - {d.lotId}
  }

  function Replayed(lots: map<nat, Entry>, log: seq<Change>): map<nat, Entry> {
    if log == [] then lots else Apply(Replayed(lots, log[..|log| - 1]), log[|log| - 1])
  }

  function Find(lots: map<nat, Entry>, id: nat): Option<Entry> {
    if id in lots then Some(lots[id]) else None
  }

  ghost predicate Distinct(ids: seq<nat>) {
    forall i, j :: 0 <= i < j < |ids| ==> ids[i] != ids[j]
  }

  lemma NumberedAppends(drafts: seq<Draft>, draft: Draft, start: nat)
    ensures Numbered(drafts + [draft], start) ==
            Numbered(drafts, start) + [Change(start + |drafts| + 1, draft)]
  {
  }

  lemma ReplayedAppends(lots: map<nat, Entry>, log: seq<Change>, change: Change)
    ensures Replayed(lots, log + [change]) == Apply(Replayed(lots, log), change)
  {
    assert (log + [change])[..|log|] == log;
  }

  /** Replaying the drafts of some lots settles those lots and no others. */
  lemma {:induction false} DraftsReplay(c: Comparison, ids: seq<nat>, start: nat, id: nat)
    requires Distinct(ids)
    ensures Find(Replayed(c.held, Numbered(c.Drafts(ids), start)), id) ==
            if id in ids then c.After(id) else c.Before(id)
  {
    if ids == [] {
      assert Numbered(c.Drafts(ids), start) == [];
    } else {
      var rest, last := ids[..|ids| - 1], ids[|ids| - 1];
      assert ids == rest + [last];
      DraftsReplay(c, rest, start, id);
      LastReplays(c, rest, last, start, id);
    }
  }

  lemma LastReplays(c: Comparison, rest: seq<nat>, last: nat, start: nat, id: nat)
    ensures var was := Replayed(c.held, Numbered(c.Drafts(rest), start));
            Find(Replayed(c.held, Numbered(c.Drafts(rest + [last]), start)), id) ==
            if c.DraftOf(last).None? || id != last then Find(was, id) else c.After(id)
  {
    assert (rest + [last])[..|rest|] == rest;
    var drafts, draft := c.Drafts(rest), c.DraftOf(last);
    if draft.Some? {
      NumberedAppends(drafts, draft.value, start);
      ReplayedAppends(c.held, Numbered(drafts, start), Change(start + |drafts| + 1, draft.value));
    } else {
      assert c.Drafts(rest + [last]) == drafts;
    }
  }

  /** Each draft names the entry it replaces. */
  lemma {:induction false} DraftsTellBefore(c: Comparison, ids: seq<nat>, start: nat, i: nat)
    requires Distinct(ids) && i < |c.Drafts(ids)|
    ensures var changes := Numbered(c.Drafts(ids), start);
            changes[i].draft.before == LotOf(Find(Replayed(c.held, changes[..i]), changes[i].draft.lotId))
  {
    var rest, last := ids[..|ids| - 1], ids[|ids| - 1];
    assert ids == rest + [last];
    var drafts := c.Drafts(rest);
    assert Numbered(c.Drafts(ids), start)[..i] == Numbered(drafts, start)[..i];
    if i < |drafts| {
      DraftsTellBefore(c, rest, start, i);
    } else {
      assert Numbered(drafts, start)[..i] == Numbered(drafts, start);
      DraftsReplay(c, rest, start, last);
    }
  }

  lemma OrderIsDistinct(c: Comparison)
    ensures Distinct(c.Order())
  {
    hide Ascending;
    AscendingLists(c.seen.Keys);
    AscendingLists(c.held.Keys - c.seen.Keys);
    var a, b := Ascending(c.seen.Keys), Ascending(c.held.Keys - c.seen.Keys);
    forall i, j | 0 <= i < j < |a + b| ensures (a + b)[i] != (a + b)[j] {
      if i < |a| <= j {
        assert a[i] in a && b[j - |a|] in b;
      }
    }
  }

  lemma NextIsAfter(c: Comparison, id: nat)
    ensures Find(c.Next(), id) == c.After(id)
  {
  }

  /** Replaying every draft of a comparison gives the next inventory. */
  lemma ComparisonReplays(c: Comparison, start: nat)
    ensures Replayed(c.held, Numbered(c.Drafts(c.Order()), start)) == c.Next()
  {
    hide Comparison.Drafts, Comparison.After, Comparison.Order;
    OrderIsDistinct(c);
    var ids := c.Order();
    var r := Replayed(c.held, Numbered(c.Drafts(ids), start));
    forall id ensures Find(r, id) == Find(c.Next(), id) {
      DraftsReplay(c, ids, start, id);
      OrderLists(c, id);
      NextIsAfter(c, id);
      if id !in c.held.Keys + c.seen.Keys { UntouchedStays(c, id); }
    }
    SameFinds(r, c.Next());
  }

  lemma UntouchedStays(c: Comparison, id: nat)
    requires id !in c.held.Keys + c.seen.Keys
    ensures c.After(id) == c.Before(id)
  {
  }

  // ------------------------------------------------------------------
  // One reconciliation

  /** Accepted: neither refused, stale nor a duplicate. */
  predicate Accepts(current: Inventory, o: Observation) {
    && Reconciled(current, o).Success?
    && (Reconciled(current, o).value.status.Changed? || Reconciled(current, o).value.status.FreshnessOnly?)
  }

  /** What an accepted observation publishes. */
  lemma AcceptedIs(current: Inventory, o: Observation)
    requires Accepts(current, o)
    ensures var c, r := Compare(current, o), Reconciled(current, o).value;
            && current.scope == o.scope && !IsStale(current, o) && !c.Exhausted() && |c.Next()| <= MAX_LOTS
            && Keyed(c.Next()) && r.inventory.lots == Values(c.Next())
            && r.changes == Numbered(c.Drafts(c.Order()), current.lastSequence)
            && r.inventory.lastSequence == current.lastSequence + |r.changes|
            && (r.changes != [] ==> r.inventory.lastSequence <= I64_MAX)
            && r.inventory.revision == current.revision + 1 <= I64_MAX && r.inventory.scope == current.scope
            && r.inventory.lastObservation == Some(o.id) && r.inventory.lastObservedAtMs == Some(o.observedAtMs)
            && current.lastObservation != Some(o.id)
  {
    hide Compare, Comparison.Next, Comparison.Exhausted, Comparison.Drafts, Comparison.Order, Values;
    NextIsKeyed(Compare(current, o));
  }

  lemma OthersChangeNothing(current: Inventory, o: Observation)
    requires !Accepts(current, o) && Reconciled(current, o).Success?
    ensures Reconciled(current, o).value.inventory == current && Reconciled(current, o).value.changes == []
  {
    hide Compare, Comparison.Next, Comparison.Exhausted, Comparison.Drafts, Comparison.Order, Values;
  }

  /** The change log is faithful: replayed over the old lots it gives exactly
      the new lots with their revisions. */
  lemma ChangesReproduceLots(current: Inventory, o: Observation)
    requires current.Valid() && Reconciled(current, o).Success?
    ensures var r := Reconciled(current, o).value;
            Replayed(ById(current.lots), r.changes) == ById(r.inventory.lots)
  {
    hide Reconciled, Comparison.Next, Comparison.Exhausted, Comparison.Drafts, Comparison.Order, Values, ById;
    if Accepts(current, o) {
      AcceptedIs(current, o);
      var c := Compare(current, o);
      ComparisonReplays(c, current.lastSequence);
      ByIdOfValues(c.Next());
    } else {
      OthersChangeNothing(current, o);
    }
  }

  /** Every change names the entry it replaces, at its place in the log. */
  lemma ChangesTellBefore(current: Inventory, o: Observation, i: nat)
    requires current.Valid() && Reconciled(current, o).Success? && i < |Reconciled(current, o).value.changes|
    ensures var changes := Reconciled(current, o).value.changes;
            changes[i].draft.before ==
            LotOf(Find(Replayed(ById(current.lots), changes[..i]), changes[i].draft.lotId))
  {
    hide Reconciled, Comparison.Next, Comparison.Exhausted, Comparison.Drafts, Comparison.Order, Values, ById;
    if Accepts(current, o) {
      AcceptedIs(current, o);
      var c := Compare(current, o);
      OrderIsDistinct(c);
      DraftsTellBefore(c, c.Order(), current.lastSequence, i);
    } else {
      OthersChangeNothing(current, o);
    }
  }

  /** After an accepted observation the inventory holds every observed lot as
      observed.  What it did not list stays as it was if it was partial; otherwise
      a terminal lot is gone, and any other is the same lot, ambiguous. */
  lemma UnobservedAreAmbiguous(current: Inventory, o: Observation, id: nat)
    requires current.Valid() && o.Valid() && Accepts(current, o)
    ensures var lots := ById(Reconciled(current, o).value.inventory.lots);
            && (forall lot :: lot in o.lots ==> lot.id in lots && lots[lot.id].lot == lot)
            && ((forall lot :: lot in o.lots ==> lot.id != id) ==>
                  var held := ById(current.lots);
                  && (id in lots ==> id in held)
                  && (id in held ==> (id !in lots <==> !o.completeness.Partial? && IsTerminal(held[id].lot.state)))
                  && (id in lots ==> if o.completeness.Partial? then lots[id] == held[id]
                                     else lots[id].lot == held[id].lot.(state := Ambiguous)))
  {
    hide Reconciled, Comparison.Next, Comparison.Exhausted, Comparison.Drafts, Comparison.Order, Values, ById, LotsById;
    AcceptedIs(current, o);
    var c := Compare(current, o);
    ByIdOfValues(c.Next());
    forall lot | lot in o.lots ensures lot.id in c.Next() && c.Next()[lot.id].lot == lot {
      LotsByIdFinds(o.lots, lot);
      NextIsAfter(c, lot.id);
    }
    NextIsAfter(c, id);
    assert id in c.seen ==> c.seen[id] in o.lots;
  }

  /** Re-applying an accepted observation to its own result is a duplicate. */
  lemma ReapplyingIsDuplicate(current: Inventory, o: Observation)
    requires current.Valid() && o.Valid() && Accepts(current, o)
    ensures var next := Reconciled(current, o).value.inventory;
            Reconciled(next, o) == Success(Reconciliation(Duplicate, next, []))
  {
    hide Reconciled, Comparison.Next, Comparison.Exhausted, Comparison.Drafts, Comparison.Order, Values, ById, LotsById;
    AcceptedIs(current, o);
    var c, next := Compare(current, o), Reconciled(current, o).value.inventory;
    ByIdOfValues(c.Next());
    var again := Compare(next, o);
    assert again == Comparison(c.Next(), c.seen, c.complete);
    forall id ensures again.DraftOf(id).None? && again.After(id) == c.After(id) { SettlingIsIdempotent(c, id); }
    NoDrafts(again, again.Order());
    assert again.Next() == c.Next() by { NextIsStable(c, again); }
    assert !again.Exhausted() by { NotExhausted(again); }
    DuplicateIs(next, o);
  }

  lemma SettlingIsIdempotent(c: Comparison, id: nat)
    ensures var again := Comparison(c.Next(), c.seen, c.complete);
            again.DraftOf(id).None? && again.After(id) == c.After(id)
  {
    NextIsAfter(c, id);
  }

  lemma {:induction false} NoDrafts(c: Comparison, ids: seq<nat>)
    requires forall id :: c.DraftOf(id).None?
    ensures c.Drafts(ids) == []
  {
    if ids != [] { NoDrafts(c, ids[..|ids| - 1]); }
  }

  lemma NextIsStable(c: Comparison, again: Comparison)
    requires forall id :: again.After(id) == c.After(id)
    ensures again.Next() == c.Next()
  {
    hide Comparison.After, Comparison.Next;
    forall id ensures Find(again.Next(), id) == Find(c.Next(), id) {
      NextIsAfter(c, id);
      NextIsAfter(again, id);
    }
    SameFinds(again.Next(), c.Next());
  }

  lemma SameFinds(a: map<nat, Entry>, b: map<nat, Entry>)
    requires forall id :: Find(a, id) == Find(b, id)
    ensures a == b
  {
    forall id | id in a ensures id in b && a[id] == b[id] { assert Find(a, id) == Find(b, id); }
    forall id | id in b ensures id in a { assert Find(a, id) == Find(b, id); }
  }

  lemma NotExhausted(c: Comparison)
    requires forall id :: c.DraftOf(id).None?
    ensures !c.Exhausted()
  {
  }

  lemma DuplicateIs(current: Inventory, o: Observation)
    requires current.scope == o.scope && !IsStale(current, o) && current.lastObservation == Some(o.id)
    requires var c := Compare(current, o); !c.Exhausted() && |c.Next()| <= MAX_LOTS && c.Drafts(c.Order()) == []
    ensures Reconciled(current, o) == Success(Reconciliation(Duplicate, current, []))
  {
    hide Compare, Comparison.Next, Comparison.Exhausted, Comparison.Drafts, Comparison.Order, Values;
    NextIsKeyed(Compare(current, o));
  }

  /** An accepted observation leaves a valid inventory. */
  lemma AcceptedIsValid(current: Inventory, o: Observation)
    requires current.Valid() && o.Valid() && Accepts(current, o)
    ensures Reconciled(current, o).value.inventory.Valid()
  {
    hide Reconciled, Comparison.Next, Comparison.Exhausted, Comparison.Drafts, Comparison.Order, Values, ById, LotsById;
    AcceptedIs(current, o);
    var c, lots := Compare(current, o), Reconciled(current, o).value.inventory.lots;
    forall i | 0 <= i < |lots| ensures 0 < lots[i].revision <= I64_MAX && lots[i].lot.WellFormed() {
      NextIsAfter(c, lots[i].lot.id);
      EntryIsValid(current, o, lots[i].lot.id);
    }
  }

  lemma EntryIsValid(current: Inventory, o: Observation, id: nat)
    requires current.Valid() && o.Valid() && !Compare(current, o).Exhausted() && Compare(current, o).After(id).Some?
    ensures var e := Compare(current, o).After(id).value; 0 < e.revision <= I64_MAX && e.lot.WellFormed()
  {
    hide ById, LotsById;
    var c := Compare(current, o);
    assert id in c.held ==> c.held[id] in current.lots;
    assert id in c.seen ==> c.seen[id] in o.lots;
    assert id in c.held ==> !c.Spent(id);
  }

  /** The kind of a change says exactly which part of the lot differs. */
  lemma KindTellsDifference(before: Lot, after: Lot)
    requires before.id == after.id && before != after
    ensures var kind := ClassifyChange(before, after);
            var back := before.state.Ambiguous? && !after.state.Ambiguous?;
            && (kind == Reappeared <==> back)
            && (kind == QuantityChanged <==> !back && after == before.(quantity := after.quantity))
            && (kind == StateChanged <==> !back && after == before.(state := after.state))
            && (kind == ExpiryChanged <==> !back && after == before.(expiry := after.expiry))
            && (kind == Corrected ||
                kind in {Reappeared, QuantityChanged, StateChanged, ExpiryChanged})
  {
    assert after == Lot(before.id, after.quantity, after.state, after.expiry, after.particulars);
  }

  // ------------------------------------------------------------------
  // Every run of reconciliations

  /** An inventory with the log published so far, the number of observations
      accepted and the last one of them. */
  datatype Ledger = Ledger(inventory: Inventory, log: seq<Change>, accepted: nat, last: Option<Observation>)

  /** An error or an unaccepted observation leaves everything as it was. */
  function Advance(l: Ledger, o: Observation): Ledger {
    if Accepts(l.inventory, o) then
      var r := Reconciled(l.inventory, o).value;
      Ledger(r.inventory, l.log + r.changes, l.accepted + 1, Some(o))
    else l
  }

  ghost predicate Linked(ledgers: seq<Ledger>, i: nat)
    requires i + 1 < |ledgers|
  {
    exists o: Observation :: o.Valid() && Advance(ledgers[i], o) == ledgers[i + 1]
  }

  ghost predicate IsRun(ledgers: seq<Ledger>, scope: Scope) {
    && ledgers != [] && ledgers[0] == Ledger(EmptyInventory(scope), [], 0, None)
    && (forall i: nat :: i + 1 < |ledgers| ==> Linked(ledgers, i))
  }

  ghost predicate Consecutive(log: seq<Change>) {
    forall i :: 0 <= i < |log| ==> log[i].sequence == i + 1
  }

  ghost predicate Settles(l: Ledger) {
    l.last.Some? ==> Reconciled(l.inventory, l.last.value) == Success(Reconciliation(Duplicate, l.inventory, []))
  }

  ghost predicate Inv(l: Ledger) {
    && l.inventory.Valid()
    && Replayed(map[], l.log) == ById(l.inventory.lots)
    && Consecutive(l.log) && l.inventory.lastSequence == |l.log|
    && l.inventory.revision == l.accepted
    && Settles(l)
  }

  lemma {:induction false} ReplayedConcat(lots: map<nat, Entry>, a: seq<Change>, b: seq<Change>)
    ensures Replayed(lots, a + b) == Replayed(Replayed(lots, a), b)
    decreases |b|
  {
    if b == [] {
      assert a + b == a;
    } else {
      var rest, last := b[..|b| - 1], b[|b| - 1];
      ReplayedConcat(lots, a, rest);
      assert a + b == (a + rest) + [last];
      ReplayedAppends(lots, a + rest, last);
    }
  }

  lemma AdvanceKeepsInv(l: Ledger, o: Observation)
    requires Inv(l) && o.Valid()
    ensures Inv(Advance(l, o))
  {
    hide Reconciled, Replayed, ById, Compare, Comparison.Next, Comparison.Drafts, Comparison.Order, Values;
    hide Comparison.Exhausted, Inventory.Valid, Observation.Valid;
    if Accepts(l.inventory, o) {
      var r := Reconciled(l.inventory, o).value;
      AcceptedIs(l.inventory, o);
      AcceptedIsValid(l.inventory, o);
      ChangesReproduceLots(l.inventory, o);
      ReplayedConcat(map[], l.log, r.changes);
      ReapplyingIsDuplicate(l.inventory, o);
    }
  }

  lemma {:induction false} RunKeepsInv(ledgers: seq<Ledger>, scope: Scope, k: nat)
    requires IsRun(ledgers, scope) && k < |ledgers|
    ensures Inv(ledgers[k])
  {
    hide Inv, Advance, Observation.Valid;
    if k == 0 {
      EmptyKeepsInv(ledgers[0], scope);
    } else {
      RunKeepsInv(ledgers, scope, k - 1);
      assert Linked(ledgers, k - 1);
      var o: Observation :| o.Valid() && Advance(ledgers[k - 1], o) == ledgers[k];
      AdvanceKeepsInv(ledgers[k - 1], o);
    }
  }

  lemma EmptyKeepsInv(l: Ledger, scope: Scope)
    requires l == Ledger(EmptyInventory(scope), [], 0, None)
    ensures Inv(l)
  {
  }

  /** The log of a whole run, replayed from nothing, is the inventory; its
      sequence numbers are 1, 2, 3 and so on without a gap. */
  lemma LogReproducesInventory(ledgers: seq<Ledger>, scope: Scope, k: nat)
    requires IsRun(ledgers, scope) && k < |ledgers|
    ensures Replayed(map[], ledgers[k].log) == ById(ledgers[k].inventory.lots)
    ensures forall i :: 0 <= i < |ledgers[k].log| ==> ledgers[k].log[i].sequence == i + 1
    ensures ledgers[k].inventory.lastSequence == |ledgers[k].log|
  {
    RunKeepsInv(ledgers, scope, k);
  }

  /** The inventory is ordered by lot id without repetition, and its revision
      counts the observations accepted. */
  lemma InventoryStaysOrdered(ledgers: seq<Ledger>, scope: Scope, k: nat)
    requires IsRun(ledgers, scope) && k < |ledgers|
    ensures Ordered(ledgers[k].inventory.lots) && |ledgers[k].inventory.lots| <= MAX_LOTS
    ensures ledgers[k].inventory.revision == ledgers[k].accepted
    ensures Values(ById(ledgers[k].inventory.lots)) == ledgers[k].inventory.lots
  {
    RunKeepsInv(ledgers, scope, k);
    ValuesOfById(ledgers[k].inventory.lots);
  }

  /** The last accepted observation, applied again at any later point, is a
      duplicate that changes nothing. */
  lemma LastAcceptedIsDuplicate(ledgers: seq<Ledger>, scope: Scope, k: nat)
    requires IsRun(ledgers, scope) && k < |ledgers| && ledgers[k].last.Some?
    ensures Reconciled(ledgers[k].inventory, ledgers[k].last.value) ==
            Success(Reconciliation(Duplicate, ledgers[k].inventory, []))
  {
    hide Reconciled;
    RunKeepsInv(ledgers, scope, k);
  }

  predicate NotEarlier(a: Option<int>, b: Option<int>) {
    a.Some? ==> b.Some? && a.value <= b.value
  }

  /** Along a run neither the observed time nor the revision goes back, and the
      log only grows. */
  lemma {:induction false} NothingGoesBack(ledgers: seq<Ledger>, scope: Scope, j: nat, k: nat)
    requires IsRun(ledgers, scope) && j <= k < |ledgers|
    ensures NotEarlier(ledgers[j].inventory.lastObservedAtMs, ledgers[k].inventory.lastObservedAtMs)
    ensures ledgers[j].inventory.revision <= ledgers[k].inventory.revision
    ensures ledgers[j].log <= ledgers[k].log
    decreases k
  {
    if j < k {
      NothingGoesBack(ledgers, scope, j, k - 1);
      assert Linked(ledgers, k - 1);
      var o: Observation :| o.Valid() && Advance(ledgers[k - 1], o) == ledgers[k];
      AdvanceMovesOn(ledgers[k - 1], o);
    }
  }

  lemma AdvanceMovesOn(l: Ledger, o: Observation)
    ensures var n := Advance(l, o);
            && NotEarlier(l.inventory.lastObservedAtMs, n.inventory.lastObservedAtMs)
            && n.inventory.revision - l.inventory.revision == (if Accepts(l.inventory, o) then 1 else 0)
            && l.log <= n.log
  {
    hide Reconciled, Compare, Comparison.Next, Comparison.Exhausted, Comparison.Drafts, Comparison.Order, Values;
    if Accepts(l.inventory, o) { AcceptedIs(l.inventory, o); }
  }
}
