/**
 The activation record and the transitions the durable journal accepts
 (config_activation.py, ActivationStore).
*/
module ActivationJournal {
  import opened Prelude

  datatype Status =
    | Offered | Accepted | Ready | Validating | Restarting | RollingBack
    | Succeeded | Partial | Failed | Declined

  datatype OutcomeStatus = Pending | Restarted | NotRestarted

  datatype Value = Text(text: string) | Flag(flag: bool)

  datatype SettingKey = AudioVoice | OtherSetting(key: string)

  /** systemd's ActiveState. */
  datatype UnitState = UnitActive | UnitOther(name: string)

  datatype Snapshot = Snapshot(
    installed: bool,
    activeState: UnitState,
    invocationId: string,
    processStart: string,
    configDigest: string,
    voice: string)
  {
    function Identity(): (string, string) {
      (invocationId, processStart)
    }

    predicate Active() {
      installed && activeState == UnitActive
    }
  }

  datatype Outcome = Outcome(
    service: string,
    status: OutcomeStatus,
    attempted: bool,
    before: Option<Snapshot>,
    after: Option<Snapshot>)

  /** The explanation kept with a record; the one text that makes a checkable claim is told apart. */
  datatype Detail = OtherDetail | FullyRestored

  datatype Record = Record(
    id: string,
    settingKey: SettingKey,
    oldValue: Value,
    newValue: Value,
    expectedDigest: string,
    targets: seq<string>,
    status: Status,
    outcomes: seq<Outcome>,
    offerDelivered: bool,
    preRestartDelivered: bool,
    acknowledged: bool,
    voiceValidationAttempted: bool,
    voiceValidated: bool,
    rollbackConfigRestored: bool,
    rollbackDigest: string,
    rollbackOutcomes: seq<Outcome>,
    detail: Detail)
  {
    predicate IsVoice() {
      settingKey == AudioVoice
    }

    function ExpectedVoice(): Option<string> {
      if IsVoice() && newValue.Text? then Some(newValue.text) else None
    }

    /** The restored configuration is in the journal together with its digest. */
    predicate RollbackSettled() {
      rollbackConfigRestored && rollbackDigest != ""
    }
  }

  predicate Final(s: Status) {
    s.Succeeded? || s.Partial? || s.Failed? || s.Declined?
  }

  /** The states the executor works in; no user step changes a record in one of them. */
  predicate Executing(s: Status) {
    s.Ready? || s.Validating? || s.Restarting? || s.RollingBack?
  }

  predicate IsHex(s: string) {
    forall i | 0 <= i < |s| :: '0' <= s[i] <= '9' || 'a' <= s[i] <= 'f'
  }

  predicate IsDigest(s: string) {
    |s| == 64 && IsHex(s)
  }

  function FreshOutcome(service: string): Outcome {
    Outcome(service, Pending, false, None, None)
  }

  function FreshOutcomes(targets: seq<string>): (r: seq<Outcome>)
    ensures |r| == |targets|
    ensures forall i :: 0 <= i < |r| ==> r[i] == FreshOutcome(targets[i])
  {
    seq(|targets|, i requires 0 <= i < |targets| => FreshOutcome(targets[i]))
  }

  function ReplaceOutcome(outcomes: seq<Outcome>, o: Outcome): (r: seq<Outcome>)
    ensures |r| == |outcomes|
    ensures forall i :: 0 <= i < |r| ==> r[i] == if outcomes[i].service == o.service then o else outcomes[i]
  {
    seq(|outcomes|, i requires 0 <= i < |outcomes| => if outcomes[i].service == o.service then o else outcomes[i])
  }

  /** One guarded journal transition; the constructor is the store method of the same name. */
  datatype Op =
    | MarkOfferDelivered
    | Accept
    | Decline
    | MarkPreRestartDelivered
    | BeginVoiceValidation
    | MarkVoiceValidated
    | UpdateVoiceDigest(digest: string)
    | BeginRollback
    | MarkRollbackConfigRestored(digest: string)
    | UpdateRollbackOutcome(outcome: Outcome)
    | BeginRestart(outcomes: seq<Outcome>)
    | UpdateOutcome(outcome: Outcome)
    | Finish(status: Status, detail: Detail)
    | FailWorker
    | Acknowledge

  function Apply(op: Op, r: Record): Result<Record> {
    match op
    case MarkOfferDelivered =>
      if r.status != Offered then Raise
      else Ok(r.(offerDelivered := true))
    case Accept =>
      if r.status != Offered || !r.offerDelivered then Raise
      else Ok(r.(status := Accepted))
    case Decline =>
      if r.status != Offered || !r.offerDelivered then Raise
      else Ok(r.(status := Declined, detail := OtherDetail))
    case MarkPreRestartDelivered =>
      if r.status != Accepted then Raise
      else Ok(r.(status := Ready, preRestartDelivered := true))
    case BeginVoiceValidation =>
      if r.status != Ready || !r.IsVoice() || r.voiceValidationAttempted then
        Raise
      else Ok(r.(status := Validating, voiceValidationAttempted := true))
    case MarkVoiceValidated =>
      if r.status != Validating then Raise
      else Ok(r.(status := Ready, voiceValidated := true))
    case UpdateVoiceDigest(digest) =>
      if r.status != Ready || !r.IsVoice() || !r.voiceValidated then
        Raise
      else if !IsDigest(digest) then Raise
      else Ok(r.(expectedDigest := digest))
    case BeginRollback =>
      if !r.IsVoice() || !(r.status.Ready? || r.status.Validating? || r.status.Restarting?) then
        Raise
      else Ok(r.(status := RollingBack, rollbackOutcomes := FreshOutcomes(r.targets), detail := OtherDetail))
    case MarkRollbackConfigRestored(digest) =>
      if r.status != RollingBack then Raise
      else if !IsDigest(digest) then Raise
      else Ok(r.(rollbackConfigRestored := true, rollbackDigest := digest))
    case UpdateRollbackOutcome(o) =>
      if r.status != RollingBack then Raise
      else if o.service !in r.targets then Raise
      else Ok(r.(rollbackOutcomes := ReplaceOutcome(r.rollbackOutcomes, o)))
    case BeginRestart(outcomes) =>
      if r.status != Ready then Raise
      else Ok(r.(status := Restarting, outcomes := outcomes))
    case UpdateOutcome(o) =>
      if r.status != Restarting then Raise
      else if o.service !in r.targets then Raise
      else Ok(r.(outcomes := ReplaceOutcome(r.outcomes, o)))
    case Finish(status, detail) =>
      if !Final(status) || status.Declined? then Raise
      else Ok(r.(status := status, detail := detail))
    case FailWorker =>
      if !Executing(r.status) then Raise
      else Ok(r.(status := Failed, detail := OtherDetail))
    case Acknowledge =>
      if !Final(r.status) then Raise
      else Ok(r.(acknowledged := true))
  }

  function NewOffer(id: string, settingKey: SettingKey, oldValue: Value, newValue: Value,
                    expectedDigest: string, targets: seq<string>): Record {
    Record(id, settingKey, oldValue, newValue, expectedDigest, targets, Offered, FreshOutcomes(targets),
           false, false, false, false, false, false, "", [], OtherDetail)
  }

  // --------------------------------------------------------------- observations

  predicate MatchesExpectedSnapshot(s: Snapshot, expectedDigest: string, expectedVoice: Option<string>) {
    || s.configDigest == expectedDigest
    || (expectedVoice.Some? && s.voice == expectedVoice.value && IsDigest(s.configDigest))
  }

  predicate IdentityChanged(before: Option<Snapshot>, after: Snapshot) {
    && before.Some?
    && after.Identity() != before.value.Identity()
    && (after.invocationId != "" || after.processStart != "")
  }

  /** What the executor must have seen before it may record a restart as successful. */
  predicate Observed(before: Option<Snapshot>, after: Snapshot, digest: string, voice: Option<string>) {
    after.Active() && IdentityChanged(before, after) && MatchesExpectedSnapshot(after, digest, voice)
  }
}
