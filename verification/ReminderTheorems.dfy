/** Collapsing a schedule equals the direct rule: for each available lot with a
    known expiry still to come and each channel, the smallest lead already due. */
module ReminderTheorems {
  import opened Prelude
  import opened Benefits
  import opened Reminders

  // ------------------------------------------------------------------
  // The direct rule

  predicate DueLead(lead: nat, expiryAtMs: int, nowMs: int) {
    expiryAtMs - lead * 1000 <= nowMs
  }

  ghost predicate DirectFrom(e: Entry, profile: Profile, nowMs: int, row: Reminder) {
    && Remindable(e)
    && row == RowOf(e, e.lot.expiry.ConservativeUtcMs().value, row.lead, row.channel)
    && nowMs < row.expiryAtMs && row.channel in profile.channels
    && row.lead in profile.leads && DueLead(row.lead, row.expiryAtMs, nowMs)
    && (forall lead :: lead in profile.leads && DueLead(lead, row.expiryAtMs, nowMs) ==> row.lead <= lead)
  }

  ghost predicate IsDirect(lots: seq<Entry>, profile: Profile, nowMs: int, row: Reminder) {
    exists i :: 0 <= i < |lots| && DirectFrom(lots[i], profile, nowMs, row)
  }

  // ------------------------------------------------------------------
  // Which rows are scheduled

  ghost predicate RowFrom(e: Entry, profile: Profile, row: Reminder) {
    && Remindable(e) && row.lead in profile.leads && row.channel in profile.channels
    && row == RowOf(e, e.lot.expiry.ConservativeUtcMs().value, row.lead, row.channel)
  }

  lemma {:induction false} LeadRowsAre(e: Entry, expiryAtMs: int, leads: seq<nat>, channels: seq<Channel>,
                                       row: Reminder)
    ensures row in LeadRows(e, expiryAtMs, leads, channels) <==>
            && row.lead in leads && row.channel in channels
            && row == RowOf(e, expiryAtMs, row.lead, row.channel)
  {
    if leads != [] {
      var rest, last := leads[..|leads| - 1], leads[|leads| - 1];
      LeadRowsAre(e, expiryAtMs, rest, channels, row);
      assert leads == rest + [last];
      var rows := ChannelRows(e, expiryAtMs, last, channels);
      if row in rows {
        var k :| 0 <= k < |rows| && rows[k] == row;
        assert channels[k] in channels;
      }
      if row.lead == last && row.channel in channels && row == RowOf(e, expiryAtMs, last, row.channel) {
        var k :| 0 <= k < |channels| && channels[k] == row.channel;
        assert rows[k] == row;
      }
    }
  }

  lemma LotRowsAre(e: Entry, profile: Profile, row: Reminder)
    ensures row in LotRows(e, profile) <==> RowFrom(e, profile, row)
  {
    if Remindable(e) {
      LeadRowsAre(e, e.lot.expiry.ConservativeUtcMs().value, profile.leads, profile.channels, row);
    }
  }

  lemma {:induction false} AllRowsAre(lots: seq<Entry>, profile: Profile, row: Reminder)
    ensures row in AllRows(lots, profile) <==> exists i :: 0 <= i < |lots| && RowFrom(lots[i], profile, row)
  {
    hide RowFrom, LotRows;
    if lots != [] {
      var rest, last := lots[..|lots| - 1], lots[|lots| - 1];
      AllRowsAre(rest, profile, row);
      LotRowsAre(last, profile, row);
      assert forall i :: 0 <= i < |rest| ==> rest[i] == lots[i];
    }
  }

  // ------------------------------------------------------------------
  // Collapsing gives the direct rule

  ghost predicate SchedulesAll(scheduled: seq<Reminder>, lots: seq<Entry>, profile: Profile) {
    multiset(scheduled) == multiset(AllRows(lots, profile))
  }

  lemma ScheduledRows(scheduled: seq<Reminder>, lots: seq<Entry>, profile: Profile, row: Reminder)
    requires SchedulesAll(scheduled, lots, profile)
    ensures row in scheduled <==> exists i :: 0 <= i < |lots| && RowFrom(lots[i], profile, row)
  {
    hide RowFrom, AllRows;
    AllRowsAre(lots, profile, row);
    assert row in scheduled <==> row in multiset(scheduled);
    assert row in AllRows(lots, profile) <==> row in multiset(AllRows(lots, profile));
  }

  /** A saturated due time is due at every positive time. */
  lemma DueIsDueLead(e: Entry, profile: Profile, nowMs: int, row: Reminder)
    requires RowFrom(e, profile, row) && nowMs > 0
    ensures IsDue(row, nowMs) <==> DueLead(row.lead, row.expiryAtMs, nowMs) && nowMs < row.expiryAtMs
  {
  }

  lemma ClosestIsDirect(scheduled: seq<Reminder>, lots: seq<Entry>, profile: Profile, nowMs: int, row: Reminder)
    requires SchedulesAll(scheduled, lots, profile) && nowMs > 0 && IsClosest(scheduled, nowMs, row)
    ensures IsDirect(lots, profile, nowMs, row)
  {
    hide SchedulesAll;
    ScheduledRows(scheduled, lots, profile, row);
    var i :| 0 <= i < |lots| && RowFrom(lots[i], profile, row);
    var e, expiryAtMs := lots[i], row.expiryAtMs;
    DueIsDueLead(e, profile, nowMs, row);
    forall lead | lead in profile.leads && DueLead(lead, expiryAtMs, nowMs) ensures row.lead <= lead {
      var other := RowOf(e, expiryAtMs, lead, row.channel);
      assert RowFrom(e, profile, other);
      ScheduledRows(scheduled, lots, profile, other);
      DueIsDueLead(e, profile, nowMs, other);
    }
    assert DirectFrom(e, profile, nowMs, row);
  }

  lemma DirectIsScheduled(scheduled: seq<Reminder>, lots: seq<Entry>, profile: Profile, nowMs: int, row: Reminder)
    requires SchedulesAll(scheduled, lots, profile) && nowMs > 0 && IsDirect(lots, profile, nowMs, row)
    ensures row in scheduled && IsDue(row, nowMs)
  {
    hide SchedulesAll;
    var i :| 0 <= i < |lots| && DirectFrom(lots[i], profile, nowMs, row);
    assert RowFrom(lots[i], profile, row);
    DueIsDueLead(lots[i], profile, nowMs, row);
    ScheduledRows(scheduled, lots, profile, row);
  }

  /** With distinct lots the direct rule has one row for each slot. */
  lemma DirectIsUnique(lots: seq<Entry>, profile: Profile, nowMs: int, a: Reminder, b: Reminder)
    requires Ordered(lots) && IsDirect(lots, profile, nowMs, a) && IsDirect(lots, profile, nowMs, b) && SameSlot(a, b)
    ensures a == b
  {
    var i :| 0 <= i < |lots| && DirectFrom(lots[i], profile, nowMs, a);
    var j :| 0 <= j < |lots| && DirectFrom(lots[j], profile, nowMs, b);
    assert lots[i].lot.id == lots[j].lot.id;
  }

  /** Collapsing any order of the schedule selects exactly the direct rows. */
  lemma CollapseIsDirect(scheduled: seq<Reminder>, lots: seq<Entry>, profile: Profile, nowMs: int,
                         page: seq<Reminder>, row: Reminder)
    requires Ordered(lots) && SchedulesAll(scheduled, lots, profile) && nowMs > 0
    requires Selects(scheduled, nowMs, page)
    ensures row in page <==> IsDirect(lots, profile, nowMs, row)
  {
    hide SchedulesAll, IsDirect, IsClosest, IsDue, Ordered;
    if row in page {
      ClosestIsDirect(scheduled, lots, profile, nowMs, row);
    }
    if IsDirect(lots, profile, nowMs, row) {
      DirectIsScheduled(scheduled, lots, profile, nowMs, row);
      assert HasSlot(page, row);
      var kept :| kept in page && SameSlot(row, kept);
      ClosestIsDirect(scheduled, lots, profile, nowMs, kept);
      DirectIsUnique(lots, profile, nowMs, row, kept);
    }
  }

  // ------------------------------------------------------------------
  // The page is determined by its rows

  ghost predicate IsPage(rows: seq<Reminder>) {
    SortedBy(PageLe, rows) && forall i, j :: 0 <= i < j < |rows| ==> !SameSlot(rows[i], rows[j])
  }

  lemma {:induction false} PageIsUnique(p: seq<Reminder>, q: seq<Reminder>)
    requires IsPage(p) && IsPage(q) && forall row :: row in p <==> row in q
    ensures p == q
  {
    if p == [] {
      assert q == [] by { if q != [] { FirstIsIn(q); } }
    } else {
      assert p[0] in q && q[0] in p;
      FirstIsLeast(p, q[0]);
      FirstIsLeast(q, p[0]);
      assert SameSlot(p[0], q[0]);
      assert p[0] == q[0];
      forall row ensures row in p[1..] <==> row in q[1..] {
        InTail(p, row);
        InTail(q, row);
      }
      PageIsUnique(p[1..], q[1..]);
      assert p == [p[0]] + p[1..] && q == [q[0]] + q[1..];
    }
  }

  lemma FirstIsIn(rows: seq<Reminder>)
    requires rows != []
    ensures exists row :: row in rows
  {
    assert rows[0] in rows;
  }

  lemma FirstIsLeast(p: seq<Reminder>, row: Reminder)
    requires IsPage(p) && row in p
    ensures PageLe(p[0], row)
  {
  }

  lemma InTail(p: seq<Reminder>, row: Reminder)
    requires IsPage(p) && p != []
    ensures row in p[1..] <==> row in p && row != p[0]
  {
    if row in p[1..] {
      var i :| 0 <= i < |p[1..]| && p[1..][i] == row;
      assert p[i + 1] == row && !SameSlot(p[0], p[i + 1]);
    }
  }

  /** The page does not depend on the order of the schedule. */
  lemma ScheduleOrderIsIrrelevant(scheduled: seq<Reminder>, shuffled: seq<Reminder>, lots: seq<Entry>,
                                  profile: Profile, nowMs: int, p: seq<Reminder>, q: seq<Reminder>)
    requires Ordered(lots) && nowMs > 0
    requires SchedulesAll(scheduled, lots, profile) && SchedulesAll(shuffled, lots, profile)
    requires Selects(scheduled, nowMs, p) && SortedBy(PageLe, p)
    requires Selects(shuffled, nowMs, q) && SortedBy(PageLe, q)
    ensures p == q
  {
    hide IsDirect, Ordered;
    forall row ensures row in p <==> row in q {
      CollapseIsDirect(scheduled, lots, profile, nowMs, p, row);
      CollapseIsDirect(shuffled, lots, profile, nowMs, q, row);
    }
    assert IsPage(p) && IsPage(q);
    PageIsUnique(p, q);
  }

  /** An inventory and a profile within their limits always fit the schedule. */
  lemma InventoryFits(lots: nat, leads: nat, channels: nat)
    requires lots <= MAX_LOTS && leads <= MAX_REMINDER_THRESHOLDS && channels <= 2
    ensures lots * leads * channels <= MAX_SCHEDULED
  {
    assert lots * leads <= MAX_LOTS * leads;
    assert lots * leads * channels <= lots * leads * 2;
  }

  /** The row reminds of this lot: it is available, every instant it can expire at
      is still to come, and the lead is the smallest of those that reach back from
      the first such instant to now. */
  ghost predicate Reminds(e: Entry, profile: Profile, nowMs: int, row: Reminder) {
    && e.lot.state.Available? && row.lotId == e.lot.id && row.revision == e.revision
    && row.channel in profile.channels && row.lead in profile.leads
    && CanExpireAt(e.lot.expiry, row.expiryAtMs)
    && (forall t :: CanExpireAt(e.lot.expiry, t) ==> nowMs < t && row.expiryAtMs <= t)
    && row.dueAtMs == row.expiryAtMs - row.lead * 1000 <= nowMs
    && (forall lead :: lead in profile.leads && row.expiryAtMs - lead * 1000 <= nowMs ==> row.lead <= lead)
  }

  lemma DirectReminds(e: Entry, profile: Profile, nowMs: int, row: Reminder)
    requires e.lot.WellFormed() && profile.Valid() && nowMs > 0
    ensures DirectFrom(e, profile, nowMs, row) <==> Reminds(e, profile, nowMs, row)
  {
    ConservativeIsFirst(e.lot.expiry);
    if row.lead in profile.leads {
      var i :| 0 <= i < |profile.leads| && profile.leads[i] == row.lead;
      assert row.lead <= MAX_LEAD_SECONDS;
    }
  }

  /** Ordered by expiry, then lot, then channel, in-app before scheduled. */
  predicate ComesFirst(a: Reminder, b: Reminder) {
    || a.expiryAtMs < b.expiryAtMs
    || (a.expiryAtMs == b.expiryAtMs && a.lotId < b.lotId)
    || (a.expiryAtMs == b.expiryAtMs && a.lotId == b.lotId && a.channel.InApp? && b.channel.OsScheduled?)
  }

  lemma PageIsOrdered(page: seq<Reminder>)
    requires IsPage(page)
    ensures forall i, j :: 0 <= i < j < |page| ==> ComesFirst(page[i], page[j])
  {
  }

  /** Scheduling an inventory and collapsing the schedule gives the first rows
      that remind of a lot, ordered by expiry, lot and channel. */
  method DueReminders(inventory: Inventory, profile: Profile, nowMs: int, maxRows: nat)
    returns (r: Result<seq<Reminder>, Error>, ghost page: seq<Reminder>)
    requires inventory.Valid() && profile.Valid()
    ensures r.Success? <==> nowMs > 0 && 0 < maxRows <= MAX_PAGE_ROWS
    ensures r.Failure? ==> r.error == if nowMs <= 0 then InvalidTime else CapacityExceeded
    ensures r.Success? ==> r.value == Cut(page, maxRows) && IsPage(page)
    ensures r.Success? ==> r.value <= page && |r.value| == if |page| <= maxRows then |page| else maxRows
    ensures r.Success? ==> forall i, j :: 0 <= i < j < |page| ==> ComesFirst(page[i], page[j])
    ensures r.Success? ==> forall row :: row in page <==> IsDirect(inventory.lots, profile, nowMs, row)
    ensures r.Success? ==>
              forall row :: row in page <==>
                exists i :: 0 <= i < |inventory.lots| && Reminds(inventory.lots[i], profile, nowMs, row)
  {
    page := [];
    InventoryFits(|inventory.lots|, |profile.leads|, |profile.channels|);
    var scheduled := ScheduleReminders(inventory.lots, profile);
    if scheduled.Failure? { return scheduled, page; }
    r, page := CollapseDueReminders(scheduled.value, nowMs, maxRows);
    if r.Success? {
      PageIsOrdered(page);
      forall row
        ensures row in page <==> IsDirect(inventory.lots, profile, nowMs, row)
        ensures row in page <==>
                exists i :: 0 <= i < |inventory.lots| && Reminds(inventory.lots[i], profile, nowMs, row)
      {
        CollapseIsDirect(scheduled.value, inventory.lots, profile, nowMs, page, row);
        DirectRowsRemind(inventory, profile, nowMs, row);
      }
    }
  }

  lemma DirectRowsRemind(inventory: Inventory, profile: Profile, nowMs: int, row: Reminder)
    requires inventory.Valid() && profile.Valid() && nowMs > 0
    ensures IsDirect(inventory.lots, profile, nowMs, row) <==>
            exists i :: 0 <= i < |inventory.lots| && Reminds(inventory.lots[i], profile, nowMs, row)
  {
    hide DirectFrom, Reminds;
    forall i | 0 <= i < |inventory.lots|
      ensures DirectFrom(inventory.lots[i], profile, nowMs, row) <==> Reminds(inventory.lots[i], profile, nowMs, row)
    {
      DirectReminds(inventory.lots[i], profile, nowMs, row);
    }
  }

  // ------------------------------------------------------------------
  // As time advances

  lemma {:induction false} SmallestDue(leads: seq<nat>, expiryAtMs: int, nowMs: int, some: nat) returns (lead: nat)
    requires some in leads && DueLead(some, expiryAtMs, nowMs)
    ensures lead in leads && DueLead(lead, expiryAtMs, nowMs)
    ensures forall other :: other in leads && DueLead(other, expiryAtMs, nowMs) ==> lead <= other
  {
    hide DueLead;
    var rest, last := leads[..|leads| - 1], leads[|leads| - 1];
    assert leads == rest + [last];
    if exists other :: other in rest && DueLead(other, expiryAtMs, nowMs) {
      var other :| other in rest && DueLead(other, expiryAtMs, nowMs);
      lead := SmallestDue(rest, expiryAtMs, nowMs, other);
      if DueLead(last, expiryAtMs, nowMs) && last < lead { lead := last; }
    } else {
      lead := some;
    }
  }

  /** Until its lot expires, a slot keeps its reminder, and the lead of that
      reminder never grows. */
  lemma LeadNeverGrows(lots: seq<Entry>, profile: Profile, nowMs: int, laterMs: int, row: Reminder)
    returns (next: Reminder)
    requires Ordered(lots) && IsDirect(lots, profile, nowMs, row) && nowMs <= laterMs < row.expiryAtMs
    ensures IsDirect(lots, profile, laterMs, next) && SameSlot(row, next) && next.lead <= row.lead
    ensures forall other :: IsDirect(lots, profile, laterMs, other) && SameSlot(row, other) ==> other == next
  {
    var i :| 0 <= i < |lots| && DirectFrom(lots[i], profile, nowMs, row);
    var lead := SmallestDue(profile.leads, row.expiryAtMs, laterMs, row.lead);
    next := RowOf(lots[i], row.expiryAtMs, lead, row.channel);
    assert DirectFrom(lots[i], profile, laterMs, next);
    forall other | IsDirect(lots, profile, laterMs, other) && SameSlot(row, other) ensures other == next {
      DirectIsUnique(lots, profile, laterMs, other, next);
    }
  }
}
