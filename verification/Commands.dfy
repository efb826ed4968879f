/** The command coordinator of crates/app/src/command.rs on values: which
    commands exist, what a request may carry, and how the coordinator admits,
    cancels and finishes commands.  The classes that update a coordinator in
    place are in CommandObjects.dfy. */
module Commands {
  import opened Prelude

  datatype BackupSelection = BackupSelection(catalogGeneration: nat, ordinal: nat)

  datatype Command =
    | ExportConfig
    | ImportConfig
    | ConfirmConfigImport
    | CancelConfigImport
    | Backup
    | BackupCompact
    | BackupEncrypted
    | Verify
    | RestoreData(selection: BackupSelection)
    | RestoreDataAndPortableSettings(selection: BackupSelection)
    | Rebuild
    | UpdateBackupPolicy
    | UpdateReminderPolicy
    | UpdatePresentation
  {
    predicate PermitsEmptyPayload() {
      || ConfirmConfigImport? || CancelConfigImport? || Backup? || Verify?
      || RestoreData? || RestoreDataAndPortableSettings? || Rebuild?
    }

    predicate SupportsPayloadlessRetry() {
      Backup? || Verify? || Rebuild?
    }

    predicate IsExclusive() {
      RestoreData? || RestoreDataAndPortableSettings? || Rebuild?
    }
  }

  /** Files, passphrases and policy values are opaque tokens here. */
  datatype Payload =
    | Empty
    | ConfigOutput(file: nat)
    | ConfigInput(file: nat)
    | BackupOutput(file: nat)
    | EncryptedBackupOutput(file: nat, passphrase: nat)
    | BackupPolicy(policy: nat)
    | ReminderPolicy(policy: nat)
    | Presentation(selection: nat)

  datatype Request = Request(command: Command, payload: Payload)
  {
    /** The pairs that the request constructors of the source can build. */
    predicate WellFormed() {
      match command
      case ExportConfig => payload.ConfigOutput?
      case ImportConfig => payload.ConfigInput?
      case BackupCompact => payload.BackupOutput?
      case BackupEncrypted => payload.EncryptedBackupOutput?
      case UpdateBackupPolicy => payload.BackupPolicy?
      case UpdateReminderPolicy => payload.ReminderPolicy?
      case UpdatePresentation => payload.Presentation?
      case _ => payload.Empty?
    }

    /** A settings update replaces the payload of an update already queued. */
    predicate Replaceable() {
      || (command.UpdateBackupPolicy? && payload.BackupPolicy?)
      || (command.UpdateReminderPolicy? && payload.ReminderPolicy?)
      || (command.UpdatePresentation? && payload.Presentation?)
    }
  }

  datatype Permit = Permit(id: nat, command: Command)

  datatype Stage = Running | Cancelled | Irreversible

  /** The two atomics that all clones of one permit share. */
  datatype Cell = Cell(stage: Stage, flag: bool)

  datatype Rejection = Busy | Closed | PayloadRequired | NoRetryAvailable | CapacityExceeded

  datatype Admission =
    | Started(permit: Permit)
    | Queued(requestId: nat, activeId: nat)
    | Coalesced(requestId: nat, activeId: nat)
    | Rejected(rejection: Rejection)

  datatype CommandFailure = Unavailable | InvalidSelection | Integrity | OverCapacity | Internal

  datatype Execution = Succeeded | Failed(failure: CommandFailure) | ReportsCancelled

  datatype Outcome = OutcomeSucceeded | OutcomeFailed | OutcomeCancelled

  datatype Completion = Completion(requestId: nat, command: Command, outcome: Outcome,
                                   failure: Option<CommandFailure>)

  datatype Pending = Pending(id: nat, command: Command)

  datatype Active = Active(permit: Permit, pending: Option<Pending>)

  datatype Coordinator = Coordinator(nextId: Option<nat>, active: Option<Active>,
                                     lastRetryable: Option<Command>, paused: bool, closed: bool)
  {
    /** Every identifier handed out so far is below this one. */
    function Bound(): nat {
      if nextId.Some? then nextId.value else U64_LIMIT
    }

    function PendingCommand(): Option<Pending> {
      if active.Some? then active.value.pending else None
    }

    /** What every operation keeps: identifiers grow from the active command to
        the queued one to the next free one, an exclusive command has no
        follow-up, and only the three retryable commands are remembered. */
    predicate Valid() {
      && 0 < Bound() <= U64_LIMIT
      && (nextId.Some? ==> nextId.value < U64_LIMIT)
      && (active.Some? ==>
            && 0 < active.value.permit.id < Bound()
            && (active.value.pending.Some? ==>
                  && active.value.permit.id < active.value.pending.value.id < Bound()
                  && !active.value.permit.command.IsExclusive()))
      && (lastRetryable.Some? ==> lastRetryable.value.SupportsPayloadlessRetry())
    }
  }

  function NewCoordinator(): Coordinator {
    Coordinator(Some(1), None, None, false, false)
  }

  function Allocate(c: Coordinator): (r: (Coordinator, Option<nat>)) {
    if c.nextId.None? then (c, None)
    else
      var id := c.nextId.value;
      (c.(nextId := if id + 1 < U64_LIMIT then Some(id + 1) else None), Some(id))
  }

  /** Queue behind the active command, or start at once. */
  function Enter(c: Coordinator, command: Command): (r: (Coordinator, Admission)) {
    var (grown, id) := Allocate(c);
    if id.None? then (c, Rejected(CapacityExceeded))
    else if c.active.Some? then
      var active := c.active.value;
      (grown.(active := Some(active.(pending := Some(Pending(id.value, command))))),
       Queued(id.value, active.permit.id))
    else
      var permit := Permit(id.value, command);
      (grown.(active := Some(Active(permit, None))), Started(permit))
  }

  function Submit(c: Coordinator, command: Command): (r: (Coordinator, Admission)) {
    if c.closed || c.paused then (c, Rejected(Closed))
    else if c.active.None? then Enter(c, command)
    else
      var active := c.active.value;
      if active.permit.command.IsExclusive() then (c, Rejected(Busy))
      else if active.permit.command == command then (c, Coalesced(active.permit.id, active.permit.id))
      else if active.pending.Some? then
        if active.pending.value.command == command
        then (c, Coalesced(active.pending.value.id, active.permit.id))
        else (c, Rejected(Busy))
      else Enter(c, command)
  }

  function SubmitReplaceable(c: Coordinator, command: Command): (r: (Coordinator, Admission)) {
    if c.closed || c.paused then (c, Rejected(Closed))
    else if c.active.Some? && !c.active.value.permit.command.IsExclusive()
            && c.active.value.permit.command == command then
      var active := c.active.value;
      if active.pending.Some? then
        if active.pending.value.command == command
        then (c, Coalesced(active.pending.value.id, active.permit.id))
        else (c, Rejected(Busy))
      else Enter(c, command)
    else Submit(c, command)
  }

  function RetryLast(c: Coordinator): (r: (Coordinator, Admission)) {
    if c.lastRetryable.None? then (c, Rejected(NoRetryAvailable))
    else Submit(c, c.lastRetryable.value)
  }

  predicate HitsActive(c: Coordinator, id: nat) {
    c.active.Some? && c.active.value.permit.id == id
  }

  predicate HitsPending(c: Coordinator, id: nat) {
    && c.active.Some? && c.active.value.permit.id != id
    && c.active.value.pending.Some? && c.active.value.pending.value.id == id
  }

  function DropPending(c: Coordinator): (r: Coordinator) {
    if c.active.Some? then c.(active := Some(c.active.value.(pending := None))) else c
  }

  /** Closing without the permit's cancellation, which is a step of its own. */
  function CloseAdmission(c: Coordinator): (r: Coordinator) {
    DropPending(c.(closed := true, paused := true))
  }

  function PauseAdmission(c: Coordinator): (r: Coordinator) {
    DropPending(c.(paused := true))
  }

  function ResumeAdmission(c: Coordinator): (r: Coordinator) {
    if c.closed then c else c.(paused := false)
  }

  datatype Transition = Transition(completion: Completion, followUp: Option<Permit>)

  /** `flag` is the cancellation flag of the active permit. */
  predicate CanFinish(c: Coordinator, flag: bool, id: nat, execution: Execution) {
    && c.active.Some?
    && c.active.value.permit.id == id
    && flag == execution.ReportsCancelled?
  }

  function OutcomeOf(execution: Execution): Outcome {
    match execution
    case Succeeded => OutcomeSucceeded
    case Failed(_) => OutcomeFailed
    case ReportsCancelled => OutcomeCancelled
  }

  function Finish(c: Coordinator, flag: bool, id: nat, execution: Execution)
    : (r: (Coordinator, Option<Transition>))
  {
    if !CanFinish(c, flag, id, execution) then (c, None)
    else
      var active := c.active.value;
      var command := active.permit.command;
      var completion := Completion(id, command, OutcomeOf(execution),
                                   if execution.Failed? then Some(execution.failure) else None);
      var followUp := if active.pending.Some?
                      then Some(Permit(active.pending.value.id, active.pending.value.command))
                      else None;
      var retryable := if !execution.Failed? then c.lastRetryable
                       else if command.SupportsPayloadlessRetry() then Some(command)
                       else None;
      (c.(active := if followUp.Some? then Some(Active(followUp.value, None)) else None,
          lastRetryable := retryable),
       Some(Transition(completion, followUp)))
  }

  /** The winning half of `permit.cancel()`: the compare-exchange. */
  function CasCancel(cell: Cell): (r: Cell) {
    if cell.stage.Running? then cell.(stage := Cancelled) else cell
  }

  /** `begin_irreversible`. */
  function CasIrreversible(cell: Cell): (r: Cell) {
    if cell.stage.Running? then cell.(stage := Irreversible) else cell
  }

  const NEW_CELL := Cell(Running, false)

  /** A request without a payload can be built exactly for the commands that
      permit it. */
  lemma PlainRequests(command: Command)
    ensures Request(command, Empty).WellFormed() <==> command.PermitsEmptyPayload()
  {
  }

  // ------------------------------------------------------------------
  // What the coordinator promises about one call

  /** A submission answers Started or Queued exactly when it hands out the next
      identifier; every other answer leaves the coordinator as it was. */
  lemma SubmitAnswers(c: Coordinator, command: Command)
    requires c.Valid()
    ensures var (after, answer) := Submit(c, command);
            && after.Valid()
            && (answer.Started? ==>
                  && c.active.None? && after.active == Some(Active(answer.permit, None))
                  && answer.permit.command == command
                  && c.nextId == Some(answer.permit.id) && answer.permit.id < after.Bound())
            && (answer.Queued? ==>
                  && c.active.Some? && c.PendingCommand().None?
                  && after.active == Some(c.active.value.(pending := Some(Pending(answer.requestId, command))))
                  && c.nextId == Some(answer.requestId) && answer.requestId < after.Bound()
                  && c.active.value.permit.id == answer.activeId)
            && (answer.Coalesced? ==>
                  && after == c && c.active.Some?
                  && (|| (answer.requestId == c.active.value.permit.id && c.active.value.permit.command == command)
                      || c.PendingCommand() == Some(Pending(answer.requestId, command))))
            && (answer.Rejected? ==> after == c)
            && c.Bound() <= after.Bound()
            && after.lastRetryable == c.lastRetryable && after.closed == c.closed && after.paused == c.paused
            && (answer.Rejected? || (!c.closed && !c.paused))
  {
  }

  /** A replaceable submission coalesces only with the queued command, never
      with the running one, so its payload can still be exchanged. */
  lemma SubmitReplaceableAnswers(c: Coordinator, command: Command)
    requires c.Valid() && !command.IsExclusive()
    ensures var (after, answer) := SubmitReplaceable(c, command);
            && after.Valid()
            && (answer.Started? ==>
                  && c.active.None? && after.active == Some(Active(answer.permit, None))
                  && answer.permit.command == command
                  && c.nextId == Some(answer.permit.id) && answer.permit.id < after.Bound())
            && (answer.Queued? ==>
                  && c.active.Some? && c.PendingCommand().None?
                  && after.active == Some(c.active.value.(pending := Some(Pending(answer.requestId, command))))
                  && c.nextId == Some(answer.requestId) && answer.requestId < after.Bound()
                  && c.active.value.permit.id == answer.activeId)
            && (answer.Coalesced? ==>
                  && after == c && c.PendingCommand() == Some(Pending(answer.requestId, command)))
            && (answer.Rejected? ==> after == c)
            && c.Bound() <= after.Bound()
            && after.lastRetryable == c.lastRetryable && after.closed == c.closed && after.paused == c.paused
            && (answer.Rejected? || (!c.closed && !c.paused))
  {
    SubmitAnswers(c, command);
  }

  /** Admission is open. */
  predicate Admitting(c: Coordinator) {
    !c.closed && !c.paused
  }

  /** A command is active and can have a follow-up. */
  predicate Follows(c: Coordinator) {
    c.active.Some? && !c.active.value.permit.command.IsExclusive()
  }

  predicate IsActive(c: Coordinator, command: Command) {
    c.active.Some? && c.active.value.permit.command == command
  }

  predicate IsQueued(c: Coordinator, command: Command) {
    c.PendingCommand().Some? && c.PendingCommand().value.command == command
  }

  /** Each answer of a submission has its own condition, whatever the state. */
  lemma SubmitAnswersExactlyWhen(c: Coordinator, command: Command)
    requires c.Valid()
    ensures var answer := Submit(c, command).1;
            && (answer == Rejected(Closed) <==> !Admitting(c))
            && (forall id: nat, active: nat :: answer == Coalesced(id, active) <==>
                  && Admitting(c) && Follows(c) && active == c.active.value.permit.id
                  && (|| (IsActive(c, command) && id == active)
                      || (!IsActive(c, command) && c.PendingCommand() == Some(Pending(id, command)))))
            && (forall permit :: answer == Started(permit) <==>
                  && Admitting(c) && c.active.None?
                  && permit.command == command && c.nextId == Some(permit.id))
            && (forall id: nat, active: nat :: answer == Queued(id, active) <==>
                  && Admitting(c) && Follows(c) && active == c.active.value.permit.id
                  && !IsActive(c, command) && c.PendingCommand().None? && c.nextId == Some(id))
            && (answer == Rejected(Busy) <==>
                  && Admitting(c) && c.active.Some?
                  && (|| c.active.value.permit.command.IsExclusive()
                      || (!IsActive(c, command) && c.PendingCommand().Some? && !IsQueued(c, command))))
            && (answer == Rejected(CapacityExceeded) <==>
                  && Admitting(c) && c.nextId.None?
                  && (c.active.None? || (Follows(c) && !IsActive(c, command) && c.PendingCommand().None?)))
            && (answer.Rejected? ==> answer.rejection in {Closed, Busy, CapacityExceeded})
  {
  }

  /** The same for a replaceable submission: being active already is no reason
      to coalesce, and no reason not to queue. */
  lemma SubmitReplaceableAnswersExactlyWhen(c: Coordinator, command: Command)
    requires c.Valid()
    ensures var answer := SubmitReplaceable(c, command).1;
            && (answer == Rejected(Closed) <==> !Admitting(c))
            && (forall id: nat, active: nat :: answer == Coalesced(id, active) <==>
                  && Admitting(c) && Follows(c) && active == c.active.value.permit.id
                  && c.PendingCommand() == Some(Pending(id, command)))
            && (forall permit :: answer == Started(permit) <==>
                  && Admitting(c) && c.active.None?
                  && permit.command == command && c.nextId == Some(permit.id))
            && (forall id: nat, active: nat :: answer == Queued(id, active) <==>
                  && Admitting(c) && Follows(c) && active == c.active.value.permit.id
                  && c.PendingCommand().None? && c.nextId == Some(id))
            && (answer == Rejected(Busy) <==>
                  && Admitting(c) && c.active.Some?
                  && (|| c.active.value.permit.command.IsExclusive()
                      || (c.PendingCommand().Some? && !IsQueued(c, command))))
            && (answer == Rejected(CapacityExceeded) <==>
                  && Admitting(c) && c.nextId.None?
                  && (c.active.None? || (Follows(c) && c.PendingCommand().None?)))
            && (answer.Rejected? ==> answer.rejection in {Closed, Busy, CapacityExceeded})
  {
  }

  /** A retry is answered like a submission of the remembered command, and is
      refused for want of one exactly if none is remembered. */
  lemma RetryAnswersExactlyWhen(c: Coordinator)
    requires c.Valid()
    ensures var (after, answer) := RetryLast(c);
            && (answer == Rejected(NoRetryAvailable) <==> c.lastRetryable.None?)
            && (answer == Rejected(Closed) <==> c.lastRetryable.Some? && !Admitting(c))
            && (c.lastRetryable.None? ==> after == c)
            && (c.lastRetryable.Some? ==> (after, answer) == Submit(c, c.lastRetryable.value))
  {
    if c.lastRetryable.Some? { SubmitAnswersExactlyWhen(c, c.lastRetryable.value); }
  }

  /** Pausing and closing shut admission and drop the queued command; resuming
      opens it again exactly if it was not closed for good. */
  lemma AdmissionOpensAndShuts(c: Coordinator)
    requires c.Valid()
    ensures !Admitting(PauseAdmission(c)) && !Admitting(CloseAdmission(c))
    ensures PauseAdmission(c).paused && CloseAdmission(c).paused && CloseAdmission(c).closed
    ensures Admitting(ResumeAdmission(c)) <==> !c.closed
    ensures !Admitting(ResumeAdmission(PauseAdmission(CloseAdmission(c))))
    ensures PauseAdmission(c).PendingCommand().None? && CloseAdmission(c).PendingCommand().None?
    ensures ResumeAdmission(c).active == c.active
    ensures forall d :: d in {PauseAdmission(c), CloseAdmission(c), ResumeAdmission(c)} ==>
              && d.Valid() && d.nextId == c.nextId && d.lastRetryable == c.lastRetryable
              && (d.active.Some? <==> c.active.Some?)
              && (d.active.Some? ==> d.active.value.permit == c.active.value.permit)
  {
  }

  /** A finish is taken exactly from the active command, reporting a cancellation
      exactly if there was one.  Its completion tells that command and what the
      executor reported; a failure decides what may be retried; and the queued
      command, and only it, becomes active under its own identifier. */
  lemma FinishAnswers(c: Coordinator, flag: bool, id: nat, execution: Execution)
    requires c.Valid()
    ensures var (after, transition) := Finish(c, flag, id, execution);
            && after.Valid() && after.nextId == c.nextId && after.closed == c.closed && after.paused == c.paused
            && (transition.Some? <==> c.active.Some? && c.active.value.permit.id == id
                                      && (flag <==> execution.ReportsCancelled?))
            && (transition.None? ==> after == c)
            && (transition.Some? ==>
                  var done := transition.value.completion;
                  && done.requestId == id && done.command == c.active.value.permit.command
                  && (done.outcome.OutcomeCancelled? <==> flag)
                  && (done.outcome.OutcomeSucceeded? <==> execution.Succeeded?)
                  && (forall why :: done.failure == Some(why) <==> execution == Failed(why))
                  && (!execution.Failed? ==> after.lastRetryable == c.lastRetryable)
                  && (execution.Failed? && done.command.SupportsPayloadlessRetry() ==>
                        after.lastRetryable == Some(done.command))
                  && (execution.Failed? && !done.command.SupportsPayloadlessRetry() ==> after.lastRetryable.None?)
                  && after.PendingCommand().None?
                  && (transition.value.followUp.Some? <==> c.PendingCommand().Some?)
                  && (transition.value.followUp.Some? ==>
                        && transition.value.followUp.value.id == c.PendingCommand().value.id
                        && transition.value.followUp.value.command == c.PendingCommand().value.command
                        && id < transition.value.followUp.value.id
                        && after.active == Some(Active(transition.value.followUp.value, None)))
                  && (transition.value.followUp.None? ==> after.active.None?))
  {
  }
}
