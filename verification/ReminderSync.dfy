/** The reminder settings of crates/app/src/state.rs: durable settings, the
    archive's global reminder profile, a staged import and the flag that says
    whether archive and settings agree.  Every call into a store can fail. */
module ReminderSync {
  import opened Prelude
  import opened Benefits
  import opened Reminders

  // ------------------------------------------------------------------
  // Settings and profiles

  datatype Policy = Policy(enabled: bool, leads: seq<nat>) {
    predicate Valid() {
      && |leads| <= MAX_REMINDER_THRESHOLDS && enabled == (leads != [])
      && (forall i :: 0 <= i < |leads| ==> MIN_LEAD_SECONDS <= leads[i] <= MAX_LEAD_SECONDS)
      && (forall i, j :: 0 <= i < j < |leads| ==> leads[i] > leads[j])
    }
  }

  /** Backup policy, presentation and device settings are opaque here. */
  datatype Portable = Portable(reminders: Policy, backup: int, presentation: int)

  datatype Settings = Settings(portable: Portable, device: int)

  datatype Record = Record(generation: nat, settings: Settings)

  /** What loading gives when nothing was ever saved. */
  const DEFAULTS := Settings(Portable(Policy(true, [604800, 86400, 43200, 21600, 3600]), 0, 0), 0)

  function Current(durable: Option<Record>): Settings {
    if durable.Some? then durable.value.settings else DEFAULTS
  }

  /** An import staged against the settings it was previewed on. */
  datatype Preview = Preview(base: Option<Record>, candidate: Portable)

  datatype ArchiveProfile = ArchiveProfile(revision: nat, profile: Profile)

  function Dedup(leads: seq<nat>): seq<nat> {
    if |leads| < 2 then leads
    else if leads[0] == leads[1] then Dedup(leads[1..])
    else [leads[0]] + Dedup(leads[1..])
  }

  predicate NotLess(a: nat, b: nat) {
    a >= b
  }

  function Normalized(leads: seq<nat>): seq<nat> {
    Dedup(Sort(NotLess, leads))
  }

  /** The profile the archive should carry for a policy. */
  function ProfileFor(durable: Option<Record>, policy: Policy): Option<ArchiveProfile> {
    var revision := if durable.Some? then durable.value.generation + 1 else 1;
    var leads := Normalized(policy.leads);
    if revision > I64_MAX then None
    else if exists lead :: lead in policy.leads && !(MIN_LEAD_SECONDS <= lead <= MAX_LEAD_SECONDS) then None
    else if |leads| > MAX_REMINDER_THRESHOLDS then None
    else Some(ArchiveProfile(revision, Profile(leads, if policy.enabled then [InApp] else [])))
  }

  /** The profile carries the policy: the same leads, a channel when enabled. */
  predicate Carries(archive: ArchiveProfile, policy: Policy) {
    archive.profile.leads == policy.leads && archive.profile.channels == if policy.enabled then [InApp] else []
  }

  lemma {:induction false} DescendingIsNormal(leads: seq<nat>)
    requires forall i, j :: 0 <= i < j < |leads| ==> leads[i] > leads[j]
    ensures Sort(NotLess, leads) == leads && Dedup(leads) == leads
  {
    if leads != [] {
      DescendingIsNormal(leads[1..]);
      assert leads == [leads[0]] + leads[1..];
    }
  }

  // ------------------------------------------------------------------
  // The state and the replies of the stores

  datatype Flag = Pending | Synchronized

  datatype Owner = Owner(durable: Option<Record>, archive: ArchiveProfile, flag: Flag, staged: Option<Preview>)

  /** A save is refused, written under some generation, or written and then not
      confirmed, which is an error although the settings changed. */
  datatype SaveReply = Refused | Written(generation: nat) | Unconfirmed(generation: nat)

  datatype ApplyReply = Applied | Failed | FailedAfterCommit

  /** What goes wrong during one call. */
  datatype Faults = Faults(cancelled: bool, loadFails: bool, beginFails: bool, publishFails: bool,
                           save: SaveReply, openFails: bool, apply: ApplyReply)

  function Saved(o: Owner, settings: Settings, reply: SaveReply): (Owner, bool) {
    match reply
    case Refused => (o, false)
    case Written(generation) => (o.(durable := Some(Record(generation, settings))), true)
    case Unconfirmed(generation) => (o.(durable := Some(Record(generation, settings))), false)
  }

  function UpdateBackup(o: Owner, backup: int, f: Faults): (Owner, bool) {
    var now := Current(o.durable);
    if f.cancelled || f.loadFails || f.beginFails then (o, false)
    else Saved(o, now.(portable := now.portable.(backup := backup)), f.save)
  }

  function UpdatePresentation(o: Owner, presentation: int, f: Faults): (Owner, bool) {
    var now := Current(o.durable);
    if f.cancelled || f.loadFails then (o, false)
    else if now.portable.presentation == presentation then (o, true)
    else if f.beginFails then (o, false)
    else Saved(o, now.(portable := now.portable.(presentation := presentation)), f.save)
  }

  function UpdateReminders(o: Owner, policy: Policy, f: Faults): (Owner, bool) {
    var now := Current(o.durable);
    if f.cancelled || f.loadFails then (o, false)
    else if now.portable.reminders == policy then (o, true)
    else if f.beginFails || f.publishFails then (o, false)
    else Saved(o.(flag := Pending), now.(portable := now.portable.(reminders := policy)), f.save)
  }

  /** The archive takes a newer profile, or the same one again. */
  function WithProfile(archive: ArchiveProfile, profile: ArchiveProfile, reply: ApplyReply): (ArchiveProfile, bool) {
    if reply.Failed? || profile.revision < archive.revision then (archive, false)
    else if profile.revision == archive.revision then (archive, profile == archive)
    else (profile, reply.Applied?)
  }

  function Synchronize(o: Owner, f: Faults): (Owner, bool) {
    var pending := o.(flag := Pending);
    if f.loadFails then (pending, false)
    else
      var profile := ProfileFor(o.durable, Current(o.durable).portable.reminders);
      if profile.None? || f.openFails then (pending, false)
      else
        var (archive, ok) := WithProfile(o.archive, profile.value, f.apply);
        (pending.(archive := archive, flag := if ok then Synchronized else Pending), ok)
  }

  function Stage(o: Owner, candidate: Portable, f: Faults): (Owner, bool) {
    if o.staged.Some? || f.cancelled || f.loadFails then (o, false)
    else (o.(staged := Some(Preview(o.durable, candidate))), true)
  }

  function CommitImport(o: Owner, preview: Preview, f: Faults): (Owner, bool) {
    if f.loadFails || o.durable != preview.base then (o, false)
    else if o.durable.Some? && Current(o.durable).portable == preview.candidate then (o, true)
    else Saved(o, Current(o.durable).(portable := preview.candidate), f.save)
  }

  function CommitStaged(o: Owner, f: Faults): (Owner, bool) {
    if f.cancelled || o.staged.None? || f.beginFails || f.publishFails then (o, false)
    else CommitImport(o.(flag := Pending, staged := None), o.staged.value, f)
  }

  function CancelStaged(o: Owner, f: Faults): (Owner, bool) {
    if f.cancelled || o.staged.None? then (o, false) else (o.(staged := None), true)
  }

  // ------------------------------------------------------------------
  // The owner

  class StateOwner {
    var durable: Option<Record>
    var archive: ArchiveProfile
    var flag: Flag
    var staged: Option<Preview>

    ghost function Model(): Owner
      reads this
    {
      Owner(durable, archive, flag, staged)
    }

    constructor (durable: Option<Record>, archive: ArchiveProfile)
      ensures Model() == Owner(durable, archive, Pending, None)
    {
      this.durable, this.archive, flag, staged := durable, archive, Pending, None;
    }

    method Save(settings: Settings, reply: SaveReply) returns (ok: bool)
      modifies this`durable
      ensures (Model(), ok) == Saved(old(Model()), settings, reply)
    {
      match reply
      case Refused => ok := false;
      case Written(generation) => durable, ok := Some(Record(generation, settings)), true;
      case Unconfirmed(generation) => durable, ok := Some(Record(generation, settings)), false;
    }

    method UpdateBackupPolicy(backup: int, f: Faults) returns (ok: bool)
      modifies this`durable
      ensures (Model(), ok) == UpdateBackup(old(Model()), backup, f)
    {
      if f.cancelled || f.loadFails { return false; }
      var now := Current(durable);
      var settings := Settings(Portable(now.portable.reminders, backup, now.portable.presentation), now.device);
      if f.beginFails { return false; }
      ok := Save(settings, f.save);
    }

    method UpdatePresentationSettings(presentation: int, f: Faults) returns (ok: bool)
      modifies this`durable
      ensures (Model(), ok) == UpdatePresentation(old(Model()), presentation, f)
    {
      if f.cancelled || f.loadFails { return false; }
      var now := Current(durable);
      if now.portable.presentation == presentation { return true; }
      var settings := Settings(Portable(now.portable.reminders, now.portable.backup, presentation), now.device);
      if f.beginFails { return false; }
      ok := Save(settings, f.save);
    }

    method UpdateReminderPolicy(policy: Policy, f: Faults) returns (ok: bool)
      modifies this`durable, this`flag
      ensures (Model(), ok) == UpdateReminders(old(Model()), policy, f)
    {
      if f.cancelled || f.loadFails { return false; }
      var now := Current(durable);
      if now.portable.reminders == policy { return true; }
      var settings := Settings(Portable(policy, now.portable.backup, now.portable.presentation), now.device);
      if f.beginFails { return false; }
      var previous := flag;
      flag := Pending;
      if f.publishFails {
        flag := previous;
        return false;
      }
      ok := Save(settings, f.save);
    }

    method SynchronizeReminderProfile(f: Faults) returns (ok: bool)
      modifies this`flag, this`archive
      ensures (Model(), ok) == Synchronize(old(Model()), f)
    {
      flag := Pending;
      if f.loadFails { return false; }
      var profile := ProfileFor(durable, Current(durable).portable.reminders);
      if profile.None? || f.openFails { return false; }
      ok := SetGlobalProfile(profile.value, f.apply);
      if ok { flag := Synchronized; }
    }

    method SetGlobalProfile(profile: ArchiveProfile, reply: ApplyReply) returns (ok: bool)
      modifies this`archive
      ensures (archive, ok) == WithProfile(old(archive), profile, reply)
    {
      if reply.Failed? { return false; }
      if profile.revision < archive.revision { return false; }
      if profile.revision == archive.revision { return profile == archive; }
      archive := profile;
      ok := reply.Applied?;
    }

    method StageConfigImport(candidate: Portable, f: Faults) returns (ok: bool)
      modifies this`staged
      ensures (Model(), ok) == Stage(old(Model()), candidate, f)
    {
      if staged.Some? { return false; }
      if f.cancelled || f.loadFails { return false; }
      staged := Some(Preview(durable, candidate));
      ok := true;
    }

    method CommitImportOf(preview: Preview, f: Faults) returns (ok: bool)
      modifies this`durable
      ensures (Model(), ok) == CommitImport(old(Model()), preview, f)
    {
      if f.loadFails { return false; }
      if durable != preview.base { return false; }
      var now := Current(durable);
      if durable.Some? && now.portable == preview.candidate { return true; }
      ok := Save(Settings(preview.candidate, now.device), f.save);
    }

    /** The preview leaves its slot, goes back while the publication callback
        runs, and leaves it again for the commit. */
    method CommitPendingConfigImport(f: Faults) returns (ok: bool)
      modifies this`durable, this`flag, this`staged
      ensures (Model(), ok) == CommitStaged(old(Model()), f)
    {
      if f.cancelled { return false; }
      if staged.None? { return false; }
      var preview := staged.value;
      staged := None;
      if f.beginFails {
        staged := Some(preview);
        return false;
      }
      var previous := flag;
      flag := Pending;
      staged := Some(preview);
      if f.publishFails {
        flag := previous;
        return false;
      }
      staged := None;
      ok := CommitImportOf(preview, f);
    }

    method CancelPendingConfigImport(f: Faults) returns (ok: bool)
      modifies this`staged
      ensures (Model(), ok) == CancelStaged(old(Model()), f)
    {
      if f.cancelled || staged.None? { return false; }
      staged := None;
      ok := true;
    }
  }

  // ------------------------------------------------------------------
  // Every sequential run

  datatype Call =
    | Backup(backup: int)
    | Presentation(presentation: int)
    | Reminders(policy: Policy)
    | Synchronise
    | StageImport(candidate: Portable)
    | ConfirmImport
    | CancelImport

  predicate WellFormed(call: Call) {
    && (call.Reminders? ==> call.policy.Valid())
    && (call.StageImport? ==> call.candidate.reminders.Valid())
  }

  function Do(o: Owner, call: Call, f: Faults): (Owner, bool) {
    match call
    case Backup(backup) => UpdateBackup(o, backup, f)
    case Presentation(presentation) => UpdatePresentation(o, presentation, f)
    case Reminders(policy) => UpdateReminders(o, policy, f)
    case Synchronise => Synchronize(o, f)
    case StageImport(candidate) => Stage(o, candidate, f)
    case ConfirmImport => CommitStaged(o, f)
    case CancelImport => CancelStaged(o, f)
  }

  ghost predicate Linked(owners: seq<Owner>, i: nat)
    requires i + 1 < |owners|
  {
    exists call, f :: WellFormed(call) && Do(owners[i], call, f).0 == owners[i + 1]
  }

  /** A run starts with whatever the stores hold, and the flag down. */
  ghost predicate IsRun(owners: seq<Owner>) {
    && owners != [] && owners[0].flag == Pending && owners[0].staged == None
    && Current(owners[0].durable).portable.reminders.Valid()
    && (forall i: nat :: i + 1 < |owners| ==> Linked(owners, i))
  }

  ghost predicate Inv(o: Owner) {
    && Current(o.durable).portable.reminders.Valid()
    && (o.staged.Some? ==> o.staged.value.candidate.reminders.Valid())
    && (o.flag == Synchronized ==> Carries(o.archive, Current(o.durable).portable.reminders))
  }

  lemma ProfileCarries(durable: Option<Record>, policy: Policy)
    requires policy.Valid() && ProfileFor(durable, policy).Some?
    ensures Carries(ProfileFor(durable, policy).value, policy)
  {
    DescendingIsNormal(policy.leads);
  }

  lemma DoKeepsInv(o: Owner, call: Call, f: Faults)
    requires Inv(o) && WellFormed(call)
    ensures Inv(Do(o, call, f).0)
  {
    hide ProfileFor, Policy.Valid, Carries;
    if call.Synchronise? {
      var policy := Current(o.durable).portable.reminders;
      if ProfileFor(o.durable, policy).Some? { ProfileCarries(o.durable, policy); }
    }
  }

  lemma {:induction false} RunKeepsInv(owners: seq<Owner>, k: nat)
    requires IsRun(owners) && k < |owners|
    ensures Inv(owners[k])
  {
    hide Do;
    if k > 0 {
      RunKeepsInv(owners, k - 1);
      assert Linked(owners, k - 1);
      var call, f :| WellFormed(call) && Do(owners[k - 1], call, f).0 == owners[k];
      DoKeepsInv(owners[k - 1], call, f);
    }
  }

  /** Whenever the flag says Synchronized, the archive's profile carries the
      durable reminder policy, whatever failed on the way. */
  lemma SynchronizedMeansCarried(owners: seq<Owner>, k: nat)
    requires IsRun(owners) && k < |owners| && owners[k].flag == Synchronized
    ensures Carries(owners[k].archive, Current(owners[k].durable).portable.reminders)
  {
    RunKeepsInv(owners, k);
  }

  /** A failed publication leaves settings, archive, flag and staged import as
      they were, unless there was nothing to publish. */
  lemma FailedPublicationChangesNothing(o: Owner, call: Call, f: Faults)
    requires (call.Reminders? || call.ConfirmImport?) && f.publishFails
    ensures Do(o, call, f).0 == o
    ensures Do(o, call, f).1 ==> call.Reminders? && Current(o.durable).portable.reminders == call.policy
  {
  }

  /** A reminder update that reports success made its policy durable, and left
      the flag up only if that policy was durable before. */
  lemma AcceptedPolicyIsDurable(o: Owner, policy: Policy, f: Faults)
    requires UpdateReminders(o, policy, f).1
    ensures var n := UpdateReminders(o, policy, f).0;
            && Current(n.durable).portable.reminders == policy
            && (n.flag == Synchronized ==> n == o)
  {
  }

  /** A synchronisation raises the flag exactly when it succeeds, and then the
      archive carries the durable policy. */
  lemma SynchronizeRaisesFlag(o: Owner, f: Faults)
    requires Current(o.durable).portable.reminders.Valid()
    ensures var (n, ok) := Synchronize(o, f);
            && (n.flag == Synchronized <==> ok) && n.durable == o.durable && n.staged == o.staged
            && (ok ==> Carries(n.archive, Current(n.durable).portable.reminders))
  {
    hide ProfileFor, Policy.Valid, Carries;
    var policy := Current(o.durable).portable.reminders;
    if ProfileFor(o.durable, policy).Some? { ProfileCarries(o.durable, policy); }
  }
}
