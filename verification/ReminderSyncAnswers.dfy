/** What each settings call answers and leaves behind, exactly, whatever fails. */
module ReminderSyncAnswers {
  import opened Prelude
  import opened Benefits
  import R = Reminders
  import opened ReminderSync

  // ------------------------------------------------------------------
  // Calls that write settings

  predicate Writes(o: Owner, call: Call) {
    call.Backup? || call.Presentation? || call.Reminders? || (call.ConfirmImport? && o.staged.Some?)
  }

  /** The settings the call asks for; the rest stays as it is. */
  function Wanted(o: Owner, call: Call): Settings
    requires Writes(o, call)
  {
    var now := Current(o.durable);
    var p := now.portable;
    match call
    case Backup(backup) => Settings(Portable(p.reminders, backup, p.presentation), now.device)
    case Presentation(presentation) => Settings(Portable(p.reminders, p.backup, presentation), now.device)
    case Reminders(policy) => Settings(Portable(policy, p.backup, p.presentation), now.device)
    case ConfirmImport => Settings(o.staged.value.candidate, now.device)
  }

  /** The durable settings are as asked already, and the call looks. */
  predicate NothingToDo(o: Owner, call: Call)
    requires Writes(o, call)
  {
    !call.Backup? && (call.ConfirmImport? ==> o.durable.Some?) && Wanted(o, call) == Current(o.durable)
  }

  /** Only these two calls tell the outside before they write. */
  predicate Publishes(call: Call) {
    call.Reminders? || call.ConfirmImport?
  }

  /** Nothing keeps the call from writing: the permit holds, the settings load, the
      write begins, the publication is taken, and an import finds its own base. */
  predicate GetsToWrite(o: Owner, call: Call, f: Faults)
    requires Writes(o, call)
  {
    && !f.cancelled && !f.loadFails && !f.beginFails && (Publishes(call) ==> !f.publishFails)
    && (call.ConfirmImport? ==> o.durable == o.staged.value.base)
  }

  predicate Succeeds(o: Owner, call: Call, f: Faults)
    requires Writes(o, call)
  {
    if NothingToDo(o, call) then
      if call.ConfirmImport? then GetsToWrite(o, call, f) else !f.cancelled && !f.loadFails
    else GetsToWrite(o, call, f) && f.save.Written?
  }

  /** A writing call succeeds exactly if nothing goes wrong or nothing was to be
      done; then the settings are as asked.  If it fails they are as before, unless
      the store wrote them without confirming it.  Nothing else is written. */
  lemma WritesExactly(o: Owner, call: Call, f: Faults)
    requires Writes(o, call)
    ensures var (n, ok) := Do(o, call, f);
            && (ok <==> Succeeds(o, call, f))
            && (ok ==> Current(n.durable) == Wanted(o, call))
            && (ok && NothingToDo(o, call) ==> n.durable == o.durable)
            && (ok && !NothingToDo(o, call) ==> n.durable == Some(Record(f.save.generation, Wanted(o, call))))
            && (!ok ==>
                  n.durable == (if GetsToWrite(o, call, f) && !NothingToDo(o, call) && f.save.Unconfirmed?
                                then Some(Record(f.save.generation, Wanted(o, call))) else o.durable))
            && n.archive == o.archive
  {
  }

  /** The reminder call lowers the flag exactly when it writes, a commit as soon as
      its publication was taken, whether or not the write then succeeds; and a
      commit empties its slot at that point. */
  lemma FlagIsLoweredFirst(o: Owner, call: Call, f: Faults)
    requires Writes(o, call)
    ensures var n := Do(o, call, f).0;
            var taken := call.ConfirmImport? && !f.cancelled && !f.beginFails && !f.publishFails;
            var lowered := taken || (call.Reminders? && GetsToWrite(o, call, f) && !NothingToDo(o, call));
            && n.flag == (if lowered then Pending else o.flag)
            && n.staged == (if taken then None else o.staged)
  {
  }

  // ------------------------------------------------------------------
  // The staged import

  /** An import is staged exactly if none is, against the settings of that moment;
      it is cancelled exactly if there is one; without one there is nothing to
      commit.  Nothing else changes. */
  lemma StagesExactly(o: Owner, candidate: Portable, f: Faults)
    ensures var (n, ok) := Do(o, StageImport(candidate), f);
            && (ok <==> o.staged.None? && !f.cancelled && !f.loadFails)
            && n == (if ok then o.(staged := Some(Preview(o.durable, candidate))) else o)
    ensures var (n, ok) := Do(o, CancelImport, f);
            && (ok <==> o.staged.Some? && !f.cancelled)
            && n == (if ok then o.(staged := None) else o)
    ensures o.staged.None? ==> Do(o, ConfirmImport, f) == (o, false)
  {
  }

  /** The settings an import was staged against. */
  ghost predicate StagedAt(owners: seq<Owner>, i: nat, base: Option<Record>) {
    i < |owners| && owners[i].staged.None? && owners[i].durable == base
  }

  /** In every run a staged import was previewed on the settings that were durable
      when it was staged, and it commits only if they still are. */
  lemma {:induction false} ImportsCommitOnTheirBase(owners: seq<Owner>, k: nat, f: Faults)
    requires IsRun(owners) && k < |owners| && owners[k].staged.Some?
    ensures exists i: nat :: i < k && StagedAt(owners, i, owners[k].staged.value.base)
    ensures Do(owners[k], ConfirmImport, f).1 ==> owners[k].durable == owners[k].staged.value.base
  {
    assert Linked(owners, k - 1);
    var call, g :| WellFormed(call) && Do(owners[k - 1], call, g).0 == owners[k];
    if owners[k - 1].staged.Some? {
      ImportsCommitOnTheirBase(owners, k - 1, f);
      StagedOnlyMoves(owners[k - 1], call, g);
    } else {
      StagedOnlyMoves(owners[k - 1], call, g);
      assert StagedAt(owners, k - 1, owners[k].staged.value.base);
    }
  }

  lemma StagedOnlyMoves(o: Owner, call: Call, f: Faults)
    ensures var n := Do(o, call, f).0;
            n.staged.Some? ==> n.staged == o.staged || (o.staged.None? && n.staged.value.base == o.durable)
  {
  }

  // ------------------------------------------------------------------
  // Synchronisation

  /** The revision the archive is offered. */
  function Offered(o: Owner): nat {
    if o.durable.Some? then o.durable.value.generation + 1 else 1
  }

  function ProfileOf(policy: Policy): R.Profile {
    R.Profile(policy.leads, if policy.enabled then [R.InApp] else [])
  }

  predicate GetsToArchive(o: Owner, f: Faults) {
    !f.loadFails && !f.openFails && Offered(o) <= I64_MAX
  }

  /** A synchronisation succeeds exactly if the archive takes the newer profile, or
      holds that very one already; the archive changes exactly for a newer one, even
      when the call then fails; and the flag is up afterwards exactly on success. */
  lemma SynchronizesExactly(o: Owner, f: Faults)
    requires Current(o.durable).portable.reminders.Valid()
    ensures var (n, ok) := Do(o, Synchronise, f);
            var offer := ArchiveProfile(Offered(o), ProfileOf(Current(o.durable).portable.reminders));
            && (ok <==> GetsToArchive(o, f)
                        && (|| (o.archive.revision < offer.revision && f.apply.Applied?)
                            || (o.archive == offer && !f.apply.Failed?)))
            && n.archive == (if GetsToArchive(o, f) && !f.apply.Failed? && o.archive.revision < offer.revision
                             then offer else o.archive)
            && n.flag == (if ok then Synchronized else Pending)
            && n.durable == o.durable && n.staged == o.staged
  {
    var policy := Current(o.durable).portable.reminders;
    DescendingIsNormal(policy.leads);
    OfferIs(o, policy);
    hide ProfileFor, Normalized, Policy.Valid;
  }

  lemma OfferIs(o: Owner, policy: Policy)
    requires policy.Valid()
    ensures ProfileFor(o.durable, policy) ==
            if Offered(o) <= I64_MAX then Some(ArchiveProfile(Offered(o), ProfileOf(policy))) else None
  {
    DescendingIsNormal(policy.leads);
    forall lead | lead in policy.leads ensures MIN_LEAD_SECONDS <= lead <= MAX_LEAD_SECONDS {
      var i :| 0 <= i < |policy.leads| && policy.leads[i] == lead;
    }
  }

  /** Over a run the archive's profile is only ever replaced by one of a later
      revision. */
  lemma {:induction false} ArchiveNeverGoesBack(owners: seq<Owner>, i: nat, j: nat)
    requires IsRun(owners) && i <= j < |owners|
    ensures owners[j].archive == owners[i].archive || owners[i].archive.revision < owners[j].archive.revision
    decreases j
  {
    if i < j {
      ArchiveNeverGoesBack(owners, i, j - 1);
      assert Linked(owners, j - 1);
      var call, f :| WellFormed(call) && Do(owners[j - 1], call, f).0 == owners[j];
      ArchiveMovesOn(owners[j - 1], call, f);
    }
  }

  lemma ArchiveMovesOn(o: Owner, call: Call, f: Faults)
    ensures var n := Do(o, call, f).0; n.archive == o.archive || o.archive.revision < n.archive.revision
  {
    hide ProfileFor;
  }
}
