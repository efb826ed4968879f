/** crates/benefits/src/reminder.rs: every reminder of an inventory is scheduled,
    and the due ones collapse to one row for each lot and channel. */
module Reminders {
  import opened Prelude
  import opened Benefits

  const MAX_SCHEDULED := MAX_LOTS * MAX_REMINDER_THRESHOLDS * 2
  const MAX_PAGE_ROWS := 256

  datatype Channel = InApp | OsScheduled {
    function Code(): nat {
      if InApp? then 1 else 2
    }
  }

  datatype Profile = Profile(leads: seq<nat>, channels: seq<Channel>) {
    predicate Valid() {
      && |leads| <= MAX_REMINDER_THRESHOLDS && |channels| <= 2
      && (forall i, j :: 0 <= i < j < |leads| ==> leads[i] > leads[j])
      && (forall i :: 0 <= i < |leads| ==> MIN_LEAD_SECONDS <= leads[i] <= MAX_LEAD_SECONDS)
      && (forall i, j :: 0 <= i < j < |channels| ==> channels[i].Code() < channels[j].Code())
    }
  }

  datatype Reminder = Reminder(lotId: nat, revision: nat, lead: nat, channel: Channel, dueAtMs: int, expiryAtMs: int)

  datatype Error = CapacityExceeded | InvalidTime

  /** Subtraction that stops at the least 64-bit value. */
  function DueAt(expiryAtMs: int, lead: nat): int {
    if expiryAtMs - lead * 1000 < I64_MIN then I64_MIN else expiryAtMs - lead * 1000
  }

  function RowOf(e: Entry, expiryAtMs: int, lead: nat, channel: Channel): Reminder {
    Reminder(e.lot.id, e.revision, lead, channel, DueAt(expiryAtMs, lead), expiryAtMs)
  }

  // ------------------------------------------------------------------
  // Sorting

  ghost predicate SortedBy<T(!new)>(le: (T, T) -> bool, s: seq<T>) {
    forall i, j :: 0 <= i < j < |s| ==> le(s[i], s[j])
  }

  ghost predicate IsOrder<T(!new)>(le: (T, T) -> bool) {
    && (forall a, b :: le(a, b) || le(b, a))
    && (forall a, b, c :: le(a, b) && le(b, c) ==> le(a, c))
  }

  function Insert<T>(le: (T, T) -> bool, x: T, s: seq<T>): seq<T> {
    if s == [] then [x]
    else if le(x, s[0]) then [x] + s
    else [s[0]] + Insert(le, x, s[1..])
  }

  function Sort<T>(le: (T, T) -> bool, s: seq<T>): seq<T> {
    if s == [] then [] else Insert(le, s[0], Sort(le, s[1..]))
  }

  lemma {:induction false} InsertAdds<T>(le: (T, T) -> bool, x: T, s: seq<T>)
    ensures multiset(Insert(le, x, s)) == multiset(s) + multiset{x}
  {
    if s != [] && !le(x, s[0]) {
      InsertAdds(le, x, s[1..]);
      assert s == [s[0]] + s[1..];
    }
  }

  lemma {:induction false} SortPermutes<T>(le: (T, T) -> bool, s: seq<T>)
    ensures multiset(Sort(le, s)) == multiset(s)
  {
    if s != [] {
      SortPermutes(le, s[1..]);
      InsertAdds(le, s[0], Sort(le, s[1..]));
      assert s == [s[0]] + s[1..];
    }
  }

  lemma {:induction false} InsertSorts<T(!new)>(le: (T, T) -> bool, x: T, s: seq<T>)
    requires IsOrder(le) && SortedBy(le, s)
    ensures SortedBy(le, Insert(le, x, s))
  {
    if s != [] && !le(x, s[0]) {
      InsertSorts(le, x, s[1..]);
      InsertAdds(le, x, s[1..]);
      var rest := Insert(le, x, s[1..]);
      forall i | 0 <= i < |rest| ensures le(s[0], rest[i]) {
        assert rest[i] in multiset(rest);
        assert rest[i] == x || rest[i] in s[1..];
      }
    }
  }

  lemma {:induction false} SortSorts<T(!new)>(le: (T, T) -> bool, s: seq<T>)
    requires IsOrder(le)
    ensures SortedBy(le, Sort(le, s))
  {
    if s != [] {
      SortSorts(le, s[1..]);
      InsertSorts(le, s[0], Sort(le, s[1..]));
    }
  }

  // ------------------------------------------------------------------
  // Scheduling

  function ChannelRows(e: Entry, expiryAtMs: int, lead: nat, channels: seq<Channel>): (r: seq<Reminder>)
    ensures |r| == |channels| && forall i :: 0 <= i < |r| ==> r[i] == RowOf(e, expiryAtMs, lead, channels[i])
  {
    seq(|channels|, i requires 0 <= i < |channels| => RowOf(e, expiryAtMs, lead, channels[i]))
  }

  function LeadRows(e: Entry, expiryAtMs: int, leads: seq<nat>, channels: seq<Channel>): seq<Reminder> {
    if leads == [] then []
    else LeadRows(e, expiryAtMs, leads[..|leads| - 1], channels)
         + ChannelRows(e, expiryAtMs, leads[|leads| - 1], channels)
  }

  predicate Remindable(e: Entry) {
    e.lot.state.Available? && e.lot.expiry.ConservativeUtcMs().Some?
  }

  function LotRows(e: Entry, profile: Profile): seq<Reminder> {
    if Remindable(e) then LeadRows(e, e.lot.expiry.ConservativeUtcMs().value, profile.leads, profile.channels) else []
  }

  function AllRows(lots: seq<Entry>, profile: Profile): seq<Reminder> {
    if lots == [] then [] else AllRows(lots[..|lots| - 1], profile) + LotRows(lots[|lots| - 1], profile)
  }

  predicate ScheduleLe(a: Reminder, b: Reminder) {
    a.dueAtMs < b.dueAtMs || (a.dueAtMs == b.dueAtMs && PageLe(a, b))
  }

  predicate PageLe(a: Reminder, b: Reminder) {
    || a.expiryAtMs < b.expiryAtMs
    || (a.expiryAtMs == b.expiryAtMs &&
        (a.lotId < b.lotId || (a.lotId == b.lotId && a.channel.Code() <= b.channel.Code())))
  }

  method ScheduleLot(e: Entry, expiryAtMs: int, profile: Profile, before: seq<Reminder>)
    returns (scheduled: seq<Reminder>)
    ensures scheduled == before + LeadRows(e, expiryAtMs, profile.leads, profile.channels)
  {
    scheduled := before;
    for j := 0 to |profile.leads|
      invariant scheduled == before + LeadRows(e, expiryAtMs, profile.leads[..j], profile.channels)
    {
      var lead := profile.leads[j];
      var dueAtMs := if expiryAtMs - lead * 1000 < I64_MIN then I64_MIN else expiryAtMs - lead * 1000;
      ghost var done := scheduled;
      for k := 0 to |profile.channels|
        invariant scheduled == done + ChannelRows(e, expiryAtMs, lead, profile.channels[..k])
      {
        scheduled := scheduled + [Reminder(e.lot.id, e.revision, lead, profile.channels[k], dueAtMs, expiryAtMs)];
      }
      assert profile.channels[..|profile.channels|] == profile.channels;
      assert profile.leads[..j + 1][..j] == profile.leads[..j];
    }
    assert profile.leads[..|profile.leads|] == profile.leads;
  }

  /** Every reminder of the inventory, in the order it becomes due. */
  method ScheduleReminders(lots: seq<Entry>, profile: Profile) returns (r: Result<seq<Reminder>, Error>)
    ensures r.Failure? <==> |lots| * |profile.leads| * |profile.channels| > MAX_SCHEDULED
    ensures r.Failure? ==> r.error == CapacityExceeded
    ensures r.Success? ==> SortedBy(ScheduleLe, r.value) && multiset(r.value) == multiset(AllRows(lots, profile))
    ensures r.Success? ==> forall i, j :: 0 <= i < j < |r.value| ==> r.value[i].dueAtMs <= r.value[j].dueAtMs
  {
    if |lots| * |profile.leads| * |profile.channels| > MAX_SCHEDULED { return Failure(CapacityExceeded); }
    var scheduled := [];
    for i := 0 to |lots|
      invariant scheduled == AllRows(lots[..i], profile)
    {
      assert lots[..i + 1][..i] == lots[..i];
      var lot := lots[i].lot;
      if !lot.state.Available? { continue; }
      var expiry := lot.expiry.ConservativeUtcMs();
      if expiry.None? { continue; }
      scheduled := ScheduleLot(lots[i], expiry.value, profile, scheduled);
    }
    assert lots[..|lots|] == lots;
    SortPermutes(ScheduleLe, scheduled);
    SortSorts(ScheduleLe, scheduled);
    r := Success(Sort(ScheduleLe, scheduled));
  }

  // ------------------------------------------------------------------
  // Collapsing

  predicate IsDue(row: Reminder, nowMs: int) {
    row.dueAtMs <= nowMs < row.expiryAtMs
  }

  predicate SameSlot(a: Reminder, b: Reminder) {
    a.lotId == b.lotId && a.channel == b.channel
  }

  /** A due row that no due row of its slot has a smaller lead than. */
  ghost predicate IsClosest(scheduled: seq<Reminder>, nowMs: int, row: Reminder) {
    && row in scheduled && IsDue(row, nowMs)
    && (forall other :: other in scheduled && IsDue(other, nowMs) && SameSlot(row, other) ==> row.lead <= other.lead)
  }

  ghost predicate HasSlot(rows: seq<Reminder>, row: Reminder) {
    exists kept :: kept in rows && SameSlot(row, kept)
  }

  /** One closest row for each slot with a due row. */
  ghost predicate Selects(scheduled: seq<Reminder>, nowMs: int, rows: seq<Reminder>) {
    && (forall row :: row in rows ==> IsClosest(scheduled, nowMs, row))
    && (forall row :: row in scheduled && IsDue(row, nowMs) ==> HasSlot(rows, row))
    && (forall i, j :: 0 <= i < j < |rows| ==> !SameSlot(rows[i], rows[j]))
  }

  function Cut(rows: seq<Reminder>, maxRows: nat): seq<Reminder> {
    if |rows| <= maxRows then rows else rows[..maxRows]
  }

  /** The slots of the map that collects the page, in key order. */
  type Slots = map<(nat, nat), Reminder>

  ghost predicate Collected(scheduled: seq<Reminder>, nowMs: int, slots: Slots) {
    && (forall key :: key in slots ==> && IsClosest(scheduled, nowMs, slots[key])
                                       && key == (slots[key].lotId, slots[key].channel.Code()))
    && (forall row :: row in scheduled && IsDue(row, nowMs) ==> (row.lotId, row.channel.Code()) in slots)
  }

  method CollectSlots(scheduled: seq<Reminder>, nowMs: int) returns (slots: Slots)
    ensures Collected(scheduled, nowMs, slots)
  {
    slots := map[];
    for i := 0 to |scheduled|
      invariant Collected(scheduled[..i], nowMs, slots)
    {
      var row := scheduled[i];
      assert scheduled[..i + 1] == scheduled[..i] + [row];
      if row.dueAtMs > nowMs || row.expiryAtMs <= nowMs { continue; }
      var key := (row.lotId, row.channel.Code());
      if !(key in slots && slots[key].lead <= row.lead) {
        slots := slots[key := row];
      }
    }
    assert scheduled[..|scheduled|] == scheduled;
  }

  /** The map's rows, one for each key; their order is fixed by the sort that follows. */
  method TakeRows(scheduled: seq<Reminder>, nowMs: int, slots: Slots) returns (rows: seq<Reminder>)
    requires Collected(scheduled, nowMs, slots)
    ensures Selects(scheduled, nowMs, rows)
  {
    rows := [];
    var left := slots.Keys;
    while left != {}
      invariant left <= slots.Keys
      invariant forall row :: row in rows ==> (row.lotId, row.channel.Code()) in slots.Keys - left
      invariant forall row :: row in rows ==> row == slots[(row.lotId, row.channel.Code())]
      invariant forall key :: key in slots.Keys - left ==> slots[key] in rows
      invariant forall i, j :: 0 <= i < j < |rows| ==> !SameSlot(rows[i], rows[j])
      decreases |left|
    {
      var key :| key in left;
      rows := rows + [slots[key]];
      left := left - {key};
    }
  }

  /** One row for each lot and channel with a due reminder, the one with the
      smallest lead, ordered by expiry, lot and channel and cut to `maxRows`. */
  method CollapseDueReminders(scheduled: seq<Reminder>, nowMs: int, maxRows: nat)
    returns (r: Result<seq<Reminder>, Error>, ghost page: seq<Reminder>)
    ensures nowMs <= 0 ==> r == Failure(InvalidTime)
    ensures nowMs > 0 && (maxRows == 0 || maxRows > MAX_PAGE_ROWS) ==> r == Failure(CapacityExceeded)
    ensures nowMs > 0 && 0 < maxRows <= MAX_PAGE_ROWS ==>
              r == Success(Cut(page, maxRows)) && Selects(scheduled, nowMs, page) && SortedBy(PageLe, page)
  {
    page := [];
    if nowMs <= 0 || maxRows == 0 || maxRows > MAX_PAGE_ROWS {
      return Failure(if nowMs <= 0 then InvalidTime else CapacityExceeded), page;
    }
    var slots := CollectSlots(scheduled, nowMs);
    var rows := TakeRows(scheduled, nowMs, slots);
    var due := Sort(PageLe, rows);
    SortSorts(PageLe, rows);
    SortPermutes(PageLe, rows);
    SelectionIsUnordered(scheduled, nowMs, rows, due);
    page := due;
    r := Success(Cut(due, maxRows));
  }

  lemma SelectionIsUnordered(scheduled: seq<Reminder>, nowMs: int, rows: seq<Reminder>, due: seq<Reminder>)
    requires Selects(scheduled, nowMs, rows) && multiset(due) == multiset(rows)
    ensures Selects(scheduled, nowMs, due)
  {
    hide IsClosest, SameSlot, IsDue;
    forall row ensures row in due <==> row in rows {
      assert row in due <==> row in multiset(due);
      assert row in rows <==> row in multiset(rows);
    }
    forall row | HasSlot(rows, row) ensures HasSlot(due, row) {
      var kept :| kept in rows && SameSlot(row, kept);
      assert kept in due;
    }
    SlotsStayApart(rows, due);
  }

  lemma {:induction false} SlotsStayApart(rows: seq<Reminder>, due: seq<Reminder>)
    requires multiset(due) == multiset(rows)
    requires forall i, j :: 0 <= i < j < |rows| ==> !SameSlot(rows[i], rows[j])
    ensures forall i, j :: 0 <= i < j < |due| ==> !SameSlot(due[i], due[j])
  {
    forall i, j | 0 <= i < j < |due| ensures !SameSlot(due[i], due[j]) {
      assert due[i] in multiset(due) && due[j] in multiset(due);
      var a :| 0 <= a < |rows| && rows[a] == due[i];
      var b :| 0 <= b < |rows| && rows[b] == due[j];
      if a == b {
        TwiceMeansTwo(due, i, j);
        OnceMeansOne(rows, a);
      }
    }
  }

  lemma TwiceMeansTwo(s: seq<Reminder>, i: nat, j: nat)
    requires i < j < |s| && s[i] == s[j]
    ensures multiset(s)[s[i]] >= 2
  {
    assert s == s[..j] + [s[j]] + s[j + 1..];
    assert s[i] in s[..j];
  }

  lemma OnceMeansOne(s: seq<Reminder>, a: nat)
    requires a < |s| && forall i, j :: 0 <= i < j < |s| ==> !SameSlot(s[i], s[j])
    ensures multiset(s)[s[a]] == 1
  {
    assert s == s[..a] + [s[a]] + s[a + 1..];
    assert s[a] !in s[..a] && s[a] !in s[a + 1..];
  }
}
