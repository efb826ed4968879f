/** Values of crates/domain/src/benefit.rs.  A 32-byte identity is the natural
    number it spells big-endian, so byte order and numeric order agree. */
module Benefits {
  import opened Prelude

  const MAX_LOTS := 64
  const MAX_REMINDER_THRESHOLDS := 8
  const MIN_LEAD_SECONDS := 60
  const MAX_LEAD_SECONDS := 365 * 24 * 60 * 60

  datatype Scope = Scope(provider: string, account: string, workspace: Option<string>)

  datatype Kind = BankedRateLimitReset | UsageCredit | TemporaryUsage | UnknownKind

  datatype State = Available | ActivationPending | Activated | Expired | Revoked | Ambiguous

  datatype Source = ProviderOfficial | ProviderLocalEvidence | ManualEvidence | UnknownSource

  datatype Confidence = High | Medium | Low | UnknownConfidence

  datatype DetailKind = ProviderDetail | ProviderAggregate | ManualDetail

  datatype Target = Provider | QuotaWindow(window: string)

  /** Local dates and times never become an instant, so they stay opaque text. */
  datatype Expiry =
    | ExactUtc(atMs: int)
    | ProviderLocal(local: string, zone: string)
    | ProviderDate(date: string, dateZone: Option<string>)
    | BoundedUtc(earliestMs: int, latestMs: int)
    | UnknownExpiry
  {
    predicate WellFormed() {
      match this
      case ExactUtc(at) => 0 < at <= I64_MAX
      case BoundedUtc(earliest, latest) => 0 < earliest <= latest <= I64_MAX
      case _ => true
    }

    /** The earliest instant the lot can expire at, when it is known. */
    function ConservativeUtcMs(): (r: Option<int>)
      ensures WellFormed() && r.Some? ==> 0 < r.value <= I64_MAX
    {
      match this
      case ExactUtc(at) => Some(at)
      case BoundedUtc(earliest, _) => Some(earliest)
      case _ => None
    }
  }

  /** The instants a lot may expire at, as far as they are known. */
  predicate CanExpireAt(expiry: Expiry, t: int) {
    match expiry
    case ExactUtc(at) => t == at
    case BoundedUtc(earliest, latest) => earliest <= t <= latest
    case _ => false
  }

  /** An instant is given exactly if some instant is possible, and then it is the
      first possible one. */
  lemma ConservativeIsFirst(expiry: Expiry)
    requires expiry.WellFormed()
    ensures var r := expiry.ConservativeUtcMs();
            && (r.Some? <==> exists t :: CanExpireAt(expiry, t))
            && (r.Some? ==> CanExpireAt(expiry, r.value) && forall t :: CanExpireAt(expiry, t) ==> r.value <= t)
  {
    match expiry
    case ExactUtc(at) => assert CanExpireAt(expiry, at);
    case BoundedUtc(earliest, _) => assert CanExpireAt(expiry, earliest);
    case _ =>
  }

  /** The parts of a lot that only ever change together as a correction. */
  datatype Particulars = Particulars(kind: Kind, target: Target, grantedAtMs: Option<int>, source: Source,
                                     confidence: Confidence, detail: DetailKind, labelKey: string)

  datatype Lot = Lot(id: nat, quantity: nat, state: State, expiry: Expiry, particulars: Particulars) {
    predicate WellFormed() {
      && 0 < quantity <= I64_MAX && expiry.WellFormed()
      && (particulars.grantedAtMs.Some? ==> 0 < particulars.grantedAtMs.value)
    }
  }

  datatype Completeness = Complete | CompleteQuantityPartialDetails | Partial

  predicate DistinctIds(lots: seq<Lot>) {
    forall i, j :: 0 <= i < j < |lots| ==> lots[i].id != lots[j].id
  }

  datatype Observation = Observation(scope: Scope, id: nat, observedAtMs: int, completeness: Completeness,
                                     lots: seq<Lot>)
  {
    predicate Valid() {
      && 0 < observedAtMs <= I64_MAX && |lots| <= MAX_LOTS && DistinctIds(lots)
      && (forall i :: 0 <= i < |lots| ==> lots[i].WellFormed())
    }
  }

  /** A lot as the inventory holds it. */
  datatype Entry = Entry(lot: Lot, revision: nat)

  predicate Ordered(entries: seq<Entry>) {
    forall i, j :: 0 <= i < j < |entries| ==> entries[i].lot.id < entries[j].lot.id
  }

  datatype Inventory = Inventory(scope: Scope, revision: nat, lastSequence: nat, lastObservation: Option<nat>,
                                 lastObservedAtMs: Option<int>, lots: seq<Entry>)
  {
    predicate Valid() {
      && revision <= I64_MAX && lastSequence <= I64_MAX
      && lastObservation.Some? == lastObservedAtMs.Some?
      && (lastObservedAtMs.Some? ==> 0 < lastObservedAtMs.value <= I64_MAX)
      && |lots| <= MAX_LOTS && Ordered(lots)
      && (forall i :: 0 <= i < |lots| ==> 0 < lots[i].revision <= I64_MAX && lots[i].lot.WellFormed())
    }
  }

  function EmptyInventory(scope: Scope): (r: Inventory)
    ensures r.Valid()
  {
    Inventory(scope, 0, 0, None, None, [])
  }

  // ------------------------------------------------------------------
  // Ordered maps

  predicate IsMax(ids: set<nat>, m: nat) {
    m in ids && forall x :: x in ids ==> x <= m
  }

  lemma {:induction false} MaxExists(ids: set<nat>)
    requires ids != {}
    ensures exists m :: IsMax(ids, m)
  {
    var x :| x in ids;
    if ids == {x} {
      assert IsMax(ids, x);
    } else {
      MaxExists(ids - {x});
      var m :| IsMax(ids - {x}, m);
      assert forall y :: y in ids ==> y == x || y in ids - {x};
      if x <= m { assert IsMax(ids, m); } else { assert IsMax(ids, x); }
    }
  }

  function Max(ids: set<nat>): (m: nat)
    requires ids != {}
    ensures IsMax(ids, m)
  {
    MaxExists(ids);
    var m :| IsMax(ids, m);
    m
  }

  predicate Rising(ids: seq<nat>) {
    forall i, j :: 0 <= i < j < |ids| ==> ids[i] < ids[j]
  }

  /** The order in which an ordered map yields its keys. */
  function Ascending(ids: set<nat>): seq<nat> {
    if ids == {} then [] else Ascending(ids - {Max(ids)}) + [Max(ids)]
  }

  lemma {:induction false} AscendingLists(ids: set<nat>)
    ensures forall id :: id in Ascending(ids) <==> id in ids
    ensures |Ascending(ids)| == |ids| && Rising(Ascending(ids))
  {
    hide Max;
    if ids != {} {
      AscendingLists(ids - {Max(ids)});
      var rest := Ascending(ids - {Max(ids)});
      forall i | 0 <= i < |rest| ensures rest[i] < Max(ids) {
        assert rest[i] in rest;
      }
    }
  }

  lemma {:induction false} RisingIsUnique(a: seq<nat>, b: seq<nat>)
    requires Rising(a) && Rising(b) && forall id :: id in a <==> id in b
    ensures a == b
    decreases |a|
  {
    if a == [] {
      assert forall i :: 0 <= i < |b| ==> b[i] in a;
    } else {
      assert a[|a| - 1] in b;
      var m, n := a[|a| - 1], b[|b| - 1];
      assert n in a;
      assert m == n;
      var a', b' := a[..|a| - 1], b[..|b| - 1];
      assert a == a' + [m] && b == b' + [m];
      forall id ensures id in a' <==> id in b' {
        assert id in a' ==> id in a && id != m;
        assert id in b' ==> id in b && id != m;
      }
      RisingIsUnique(a', b');
    }
  }

  predicate Keyed(entries: map<nat, Entry>) {
    forall id :: id in entries ==> entries[id].lot.id == id
  }

  /** The values of an ordered map, in key order. */
  function Values(entries: map<nat, Entry>): (r: seq<Entry>)
    requires Keyed(entries)
    ensures |r| == |entries| && Ordered(r)
    ensures forall i :: 0 <= i < |r| ==> r[i].lot.id in entries && entries[r[i].lot.id] == r[i]
  {
    AscendingLists(entries.Keys);
    Lookup(entries, Ascending(entries.Keys))
  }

  function Lookup(entries: map<nat, Entry>, ids: seq<nat>): (r: seq<Entry>)
    requires forall i :: 0 <= i < |ids| ==> ids[i] in entries
    ensures |r| == |ids| && forall i :: 0 <= i < |r| ==> r[i] == entries[ids[i]]
  {
    seq(|ids|, i requires 0 <= i < |ids| => entries[ids[i]])
  }

  lemma ValuesFollowKeys(entries: map<nat, Entry>)
    requires Keyed(entries)
    ensures |Ascending(entries.Keys)| == |Values(entries)|
    ensures forall i :: 0 <= i < |Values(entries)| ==> Values(entries)[i].lot.id == Ascending(entries.Keys)[i]
  {
    hide Ascending;
    AscendingLists(entries.Keys);
  }

  function ById(entries: seq<Entry>): (r: map<nat, Entry>)
    ensures Keyed(r)
    ensures forall id :: id in r ==> r[id] in entries
    ensures forall i :: 0 <= i < |entries| ==> entries[i].lot.id in r
  {
    if entries == [] then map[]
    else
      var e := entries[|entries| - 1];
      ById(entries[..|entries| - 1])[e.lot.id := e]
  }

  lemma ByIdFinds(entries: seq<Entry>, i: nat)
    requires Ordered(entries) && i < |entries|
    ensures entries[i].lot.id in ById(entries) && ById(entries)[entries[i].lot.id] == entries[i]
  {
    var id := entries[i].lot.id;
    var found := ById(entries)[id];
    assert found in entries && found.lot.id == id;
    var j :| 0 <= j < |entries| && entries[j] == found;
  }

  /** Reading a map out in order and keying it again changes nothing. */
  lemma ByIdOfValues(entries: map<nat, Entry>)
    requires Keyed(entries)
    ensures ById(Values(entries)) == entries
  {
    hide Ascending, ById;
    var values, ids := Values(entries), Ascending(entries.Keys);
    AscendingLists(entries.Keys);
    forall id | id in entries
      ensures id in ById(values) && ById(values)[id] == entries[id]
    {
      assert id in ids;
      var i :| 0 <= i < |ids| && ids[i] == id;
      assert values[i] == entries[id];
      ByIdFinds(values, i);
    }
    forall id | id in ById(values)
      ensures id in entries
    {
      assert ById(values)[id] in values;
    }
  }

  /** An ordered inventory is what its own map reads out as. */
  lemma ValuesOfById(entries: seq<Entry>)
    requires Ordered(entries)
    ensures Values(ById(entries)) == entries
  {
    hide Ascending, ById;
    var m := ById(entries);
    var ids := seq(|entries|, i requires 0 <= i < |entries| => entries[i].lot.id);
    forall id ensures id in ids <==> id in m.Keys {
      if id in ids {
        var i :| 0 <= i < |ids| && ids[i] == id;
        assert entries[i].lot.id in m;
      }
      if id in m {
        var i :| 0 <= i < |entries| && entries[i] == m[id];
        assert ids[i] == id;
      }
    }
    AscendingLists(m.Keys);
    RisingIsUnique(Ascending(m.Keys), ids);
    forall i | 0 <= i < |entries| ensures m[ids[i]] == entries[i] {
      ByIdFinds(entries, i);
    }
  }

  function LotsById(lots: seq<Lot>): (r: map<nat, Lot>)
    ensures forall id :: id in r ==> r[id] in lots && r[id].id == id
    ensures forall i :: 0 <= i < |lots| ==> lots[i].id in r
  {
    if lots == [] then map[]
    else
      var lot := lots[|lots| - 1];
      LotsById(lots[..|lots| - 1])[lot.id := lot]
  }

  lemma LotsByIdFinds(lots: seq<Lot>, lot: Lot)
    requires DistinctIds(lots) && lot in lots
    ensures lot.id in LotsById(lots) && LotsById(lots)[lot.id] == lot
  {
    var i :| 0 <= i < |lots| && lots[i] == lot;
    var found := LotsById(lots)[lot.id];
    var j :| 0 <= j < |lots| && lots[j] == found;
  }
}
