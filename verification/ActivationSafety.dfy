/**
 What every state of an activation keeps: the ledger of external calls, the evidence behind a
 success, the user's consent, and a budget of journal writes that no number of crashes can exceed.
*/
module ActivationSafety {
  import opened Prelude
  import opened ActivationJournal

  datatype Phase = Forward | Rollback

  /** A call the executor makes on the outside world. */
  datatype Call =
    | RestartCall(id: string, phase: Phase, service: string)
    | ValidatorCall(id: string)

  /** The configuration as the executor last read it for a record, and the journal at that moment. */
  datatype Reading = Reading(voice: string, digest: string, under: Record)

  /** What a service showed when it was last looked at, and the journal at that moment. */
  datatype Sighting = Sighting(seen: Snapshot, under: Record)

  /** The user's configuration file: the voice, and everything else in it. */
  datatype Config = Config(voice: string, rest: string)

  /** One change of the stored configuration; `author` is the record on whose behalf it was made, None a user edit. */
  datatype ConfigWrite = ConfigWrite(before: Config, after: Config, author: Option<string>)

  /** Everything that ever happened, beside the journal itself. */
  datatype History = History(
    records: map<string, Record>,   // the last journal state of every record
    accepted: set<string>,          // records whose offer the user accepted
    calls: multiset<Call>,
    writes: multiset<string>,       // executor journal writes, the digest refresh excepted
    refreshes: multiset<string>,    // digest refreshes
    runs: multiset<string>,         // executions started
    mayRefresh: set<string>,        // records with an execution that has not refreshed their digest yet
    readings: map<string, Reading>,
    sightings: map<string, Sighting>,  // by service
    configLog: seq<ConfigWrite>)

  // ------------------------------------------------------------------ evidence

  predicate Fresh(o: Outcome) {
    o == FreshOutcome(o.service)
  }

  ghost predicate AllFresh(outcomes: seq<Outcome>) {
    forall i :: 0 <= i < |outcomes| ==> Fresh(outcomes[i])
  }

  /** A restart recorded as successful was attempted and observed. */
  predicate Proven(o: Outcome, digest: string, voice: Option<string>) {
    o.attempted && o.after.Some? && Observed(o.before, o.after.value, digest, voice)
  }

  /** The service already ran the restored configuration, so nothing was restarted. */
  predicate AlreadyRestored(o: Outcome, digest: string) {
    o.before.Some? && o.before == o.after && o.before.value.Active() && o.before.value.configDigest == digest
  }

  predicate ForwardOk(o: Outcome, digest: string, voice: Option<string>) {
    o.status == Restarted ==> Proven(o, digest, voice)
  }

  /** In a rollback no restart is attempted before the service was looked at, nor what follows it recorded before. */
  predicate RollbackOk(o: Outcome, digest: string) {
    && (o.status == Restarted ==> Proven(o, digest, None) || AlreadyRestored(o, digest))
    && (o.attempted ==> o.before.Some?) && (o.status == Pending ==> o.after.None?)
  }

  // -------------------------------------------------------------- write budget

  function OutcomeCost(o: Outcome): nat {
    if o.status != Pending then 0 else if o.attempted then 1 else 2
  }

  function Cost(outcomes: seq<Outcome>): nat {
    if outcomes == [] then 0 else OutcomeCost(outcomes[0]) + Cost(outcomes[1..])
  }

  function RollbackBudget(n: nat): nat {
    2 + 2 * n
  }

  function ReadyBudget(n: nat): nat {
    2 + 2 * n + RollbackBudget(n)
  }

  /** The journal writes the executor may still make for a record, digest refreshes excepted. */
  function Rank(r: Record): nat {
    match r.status
    case Offered => WriteBound(r)
    case Accepted => WriteBound(r)
    case Ready => if r.IsVoice() && !r.voiceValidated then WriteBound(r) else ReadyBudget(|r.targets|)
    case Validating => 1 + ReadyBudget(|r.targets|)
    case Restarting => Cost(r.outcomes) + 1 + RollbackBudget(|r.targets|)
    case RollingBack => (if r.RollbackSettled() then 0 else 1) + Cost(r.rollbackOutcomes) + 1
    case Declined => 1
    case _ => 0
  }

  function WriteBound(r: Record): nat {
    2 + ReadyBudget(|r.targets|)
  }

  // ---------------------------------------------------------------- invariants

  ghost predicate ServicesMatch(outcomes: seq<Outcome>, targets: seq<string>) {
    |outcomes| == |targets| && forall i :: 0 <= i < |outcomes| ==> outcomes[i].service == targets[i]
  }

  /** The forward outcomes: one per target, evidence behind each success, every restart call journaled. */
  ghost predicate ForwardSide(id: string, targets: seq<string>, outcomes: seq<Outcome>, digest: string,
                              voice: Option<string>, calls: multiset<Call>) {
    && ServicesMatch(outcomes, targets)
    && (forall i :: 0 <= i < |outcomes| ==> ForwardOk(outcomes[i], digest, voice))
    && (forall i :: 0 <= i < |outcomes| && !outcomes[i].attempted ==>
          RestartCall(id, Forward, outcomes[i].service) !in calls)
  }

  /** The same for the rollback, whose outcomes exist only once it has begun. */
  ghost predicate RollbackSide(id: string, targets: seq<string>, outcomes: seq<Outcome>, digest: string,
                               calls: multiset<Call>) {
    if outcomes == [] then forall s :: RestartCall(id, Rollback, s) !in calls
    else
      && ServicesMatch(outcomes, targets)
      && (forall i :: 0 <= i < |outcomes| ==> RollbackOk(outcomes[i], digest))
      && (forall i :: 0 <= i < |outcomes| && !outcomes[i].attempted ==>
            RestartCall(id, Rollback, outcomes[i].service) !in calls)
  }

  predicate Delivered(r: Record) {
    r.offerDelivered && r.preRestartDelivered
  }

  ghost predicate NeverStarted(r: Record) {
    && AllFresh(r.outcomes) && r.rollbackOutcomes == []
    && !r.voiceValidationAttempted && !r.voiceValidated && !r.rollbackConfigRestored
  }

  /** What the journal says about a record in each state. */
  ghost predicate StateOk(r: Record) {
    && (r.acknowledged ==> Final(r.status))
    && match r.status
       case Offered => NeverStarted(r)
       case Accepted => NeverStarted(r) && r.offerDelivered
       case Declined => NeverStarted(r)
       case Ready =>
         && Delivered(r) && AllFresh(r.outcomes) && r.rollbackOutcomes == [] && !r.rollbackConfigRestored
         && r.voiceValidated == r.voiceValidationAttempted
       case Validating =>
         && Delivered(r) && AllFresh(r.outcomes) && r.rollbackOutcomes == [] && !r.rollbackConfigRestored
         && r.IsVoice() && r.voiceValidationAttempted
       case Restarting =>
         && Delivered(r) && r.rollbackOutcomes == [] && !r.rollbackConfigRestored
         && (r.IsVoice() ==> r.voiceValidated && r.voiceValidationAttempted)
       case RollingBack =>
         && Delivered(r) && r.IsVoice() && r.rollbackOutcomes != []
         && (!r.RollbackSettled() ==> AllFresh(r.rollbackOutcomes))
       case Succeeded =>
         && Delivered(r) && r.rollbackOutcomes == []
         && (forall i :: 0 <= i < |r.outcomes| ==> r.outcomes[i].status == Restarted)
         && (r.IsVoice() ==> r.voiceValidated && r.voiceValidationAttempted)
       case Partial =>
         && Delivered(r) && r.rollbackOutcomes == [] && !r.IsVoice()
         && (exists i :: 0 <= i < |r.outcomes| && r.outcomes[i].status == Restarted)
         && (forall i :: 0 <= i < |r.outcomes| ==> r.outcomes[i].status != Pending)
       case Failed => true
  }

  /** Every external call of a record is covered by an entry already in its journal. */
  ghost predicate Ledger(r: Record, calls: multiset<Call>) {
    && r.targets != [] && Distinct(r.targets)
    && ForwardSide(r.id, r.targets, r.outcomes, r.expectedDigest, r.ExpectedVoice(), calls)
    && RollbackSide(r.id, r.targets, r.rollbackOutcomes, r.rollbackDigest, calls)
    && (!r.voiceValidationAttempted ==> ValidatorCall(r.id) !in calls)
    && (forall phase, s :: RestartCall(r.id, phase, s) in calls ==> s in r.targets && Delivered(r))
  }

  ghost predicate Consent(r: Record, h: History) {
    && (r.status.Offered? || r.status.Declined? ==> r.id !in h.accepted)
    && (r.id !in h.accepted ==> forall c :: c in h.calls ==> c.id != r.id)
    && (!r.status.Offered? && !r.status.Declined? && !r.status.Failed? ==> r.id in h.accepted)
  }

  ghost predicate Budget(r: Record, h: History) {
    && h.writes[r.id] + Rank(r) <= WriteBound(r)
    && h.refreshes[r.id] + (if r.id in h.mayRefresh then 1 else 0) <= h.runs[r.id]
  }

  /** The reading on which a success was declared: made when every outcome was as it is now. */
  ghost predicate SuccessReading(r: Record, h: History) {
    && r.id in h.readings
    && var q := h.readings[r.id];
       && q.under.status == Restarting && q.under.outcomes == r.outcomes
       && if r.IsVoice() then r.newValue == Text(q.voice) else r.expectedDigest == q.digest
  }

  /** What the report of a complete rollback claims: every service and the stored configuration. */
  ghost predicate RestorationProven(r: Record, h: History) {
    && r.IsVoice() && r.RollbackSettled() && r.rollbackOutcomes != []
    && (forall i :: 0 <= i < |r.rollbackOutcomes| ==> r.rollbackOutcomes[i].status == Restarted)
    && r.id in h.readings
    && var q := h.readings[r.id];
       q.under.status == RollingBack && q.under.rollbackOutcomes == r.rollbackOutcomes && q.digest == r.rollbackDigest
  }

  ghost predicate RecordSafe(r: Record, h: History) {
    && StateOk(r)
    && Ledger(r, h.calls)
    && Consent(r, h)
    && Budget(r, h)
    && (r.status == Succeeded ==> SuccessReading(r, h))
    && (r.detail == FullyRestored ==> r.status == Failed && RestorationProven(r, h))
  }

  /** The global invariant, over the records of the whole past and not only the current one. */
  ghost predicate Safe(journal: Option<Record>, h: History) {
    && (forall c :: h.calls[c] <= 1)
    && (forall c :: c in h.calls ==> c.id in h.records)
    && h.accepted <= h.records.Keys && h.mayRefresh <= h.records.Keys
    && (forall id :: id in h.writes || id in h.refreshes ==> id in h.records)
    && (forall id :: id in h.records ==> h.records[id].id == id && RecordSafe(h.records[id], h))
    && (journal.Some? ==> journal.value.id in h.records && h.records[journal.value.id] == journal.value)
  }

  /** A change made for a voice record in rollback put the old voice back over the new one, and nothing else. */
  ghost predicate RollbackWrite(w: ConfigWrite, records: map<string, Record>) {
    && w.author.Some? && w.author.value in records
    && var r := records[w.author.value];
       && r.IsVoice() && (r.status.RollingBack? || r.status.Failed?)
       && r.newValue == Text(w.before.voice)
       && r.oldValue == Text(w.after.voice)
       && w.after == w.before.(voice := w.after.voice)
  }

  /** The log accounts for every change of the stored configuration, and says who made it. */
  ghost predicate ConfigSafe(config: Config, h: History) {
    && (forall i :: 0 < i < |h.configLog| ==> h.configLog[i].before == h.configLog[i - 1].after)
    && (h.configLog != [] ==> h.configLog[|h.configLog| - 1].after == config)
    && (forall i :: 0 <= i < |h.configLog| && h.configLog[i].author.Some? ==> RollbackWrite(h.configLog[i], h.records))
  }

  // -------------------------------------------------------------- write budget, lemmas

  lemma {:induction false} CostBounds(outcomes: seq<Outcome>)
    ensures Cost(outcomes) <= 2 * |outcomes|
    ensures AllFresh(outcomes) ==> Cost(outcomes) == 2 * |outcomes|
  {
    if outcomes != [] {
      CostBounds(outcomes[1..]);
      assert Fresh(outcomes[0]) ==> OutcomeCost(outcomes[0]) == 2;
    }
  }

  /** Replacing one outcome by one that costs less lowers the cost by the difference. */
  lemma {:induction false} CostReplace(before: seq<Outcome>, after: seq<Outcome>, i: nat)
    requires |before| == |after| && i < |before|
    requires forall j :: 0 <= j < |before| && j != i ==> after[j] == before[j]
    ensures Cost(after) + OutcomeCost(before[i]) == Cost(before) + OutcomeCost(after[i])
  {
    if i == 0 {
      assert before[1..] == after[1..];
    } else {
      CostReplace(before[1..], after[1..], i - 1);
    }
  }

  /** With distinct services, an outcome update changes exactly the entry of its service. */
  lemma ReplaceAt(outcomes: seq<Outcome>, targets: seq<string>, o: Outcome, i: nat)
    requires ServicesMatch(outcomes, targets) && Distinct(targets)
    requires i < |targets| && o.service == targets[i]
    ensures ReplaceOutcome(outcomes, o) == outcomes[i := o]
    ensures ServicesMatch(ReplaceOutcome(outcomes, o), targets)
  {
  }

  // ------------------------------------------------------- the executor's discipline

  /** An update of one outcome: it settles, or it becomes attempted; it never forgets an attempt. */
  predicate Advances(before: Outcome, after: Outcome) {
    && after.service == before.service
    && (before.attempted ==> after.attempted)
    && OutcomeCost(after) < OutcomeCost(before)
  }

  /** The executor's last reading of the configuration was made on this very journal record. */
  ghost predicate JustRead(r: Record, h: History) {
    r.id in h.readings && h.readings[r.id].under == r
  }

  /** The service was last looked at on this very journal record, and showed just that. */
  ghost predicate JustSeen(r: Record, h: History, service: string, s: Option<Snapshot>) {
    s.Some? && service in h.sightings && h.sightings[service] == Sighting(s.value, r)
  }

  ghost predicate BeginsAsShown(r: Record, h: History, o: Outcome) {
    o.after.None? && (o.before.None? || JustSeen(r, h, o.service, o.before))
  }

  /** A forward outcome keeps the snapshot it began with; one that follows a restart was taken after its attempt. */
  ghost predicate ForwardShown(r: Record, h: History, before: Outcome, after: Outcome) {
    && after.before == before.before
    && (after.after == before.after || (before.attempted && JustSeen(r, h, after.service, after.after)))
  }

  /** The same in a rollback, where each outcome gets its first snapshot before its own attempt. */
  ghost predicate RollbackShown(r: Record, h: History, before: Outcome, after: Outcome) {
    && (after.before == before.before || (before.before.None? && JustSeen(r, h, after.service, after.before)))
    && (|| after.after == before.after || after.after == after.before
        || (before.attempted && JustSeen(r, h, after.service, after.after)))
  }

  /** The store guards the states; this is what it trusts its caller for. */
  ghost predicate Disciplined(op: Op, r: Record, h: History) {
    match op
    case UpdateVoiceDigest(digest) =>
      && r.id in h.mayRefresh && JustRead(r, h)
      && h.readings[r.id].digest == digest && r.newValue == Text(h.readings[r.id].voice)
    case MarkRollbackConfigRestored(digest) =>
      && !r.RollbackSettled() && JustRead(r, h)
      && h.readings[r.id].digest == digest && r.oldValue == Text(h.readings[r.id].voice)
    case UpdateRollbackOutcome(o) =>
      && r.RollbackSettled()
      && RollbackOk(o, r.rollbackDigest)
      && (forall i :: 0 <= i < |r.rollbackOutcomes| && r.rollbackOutcomes[i].service == o.service ==>
            Advances(r.rollbackOutcomes[i], o) && RollbackShown(r, h, r.rollbackOutcomes[i], o))
    case BeginRestart(outcomes) =>
      && (r.IsVoice() ==> r.voiceValidated && r.voiceValidationAttempted)
      && ServicesMatch(outcomes, r.targets)
      && (forall i :: 0 <= i < |outcomes| ==> !outcomes[i].attempted && outcomes[i].status != Restarted)
      && (forall i :: 0 <= i < |outcomes| ==> BeginsAsShown(r, h, outcomes[i]))
    case UpdateOutcome(o) =>
      && ForwardOk(o, r.expectedDigest, r.ExpectedVoice())
      && (forall i :: 0 <= i < |r.outcomes| && r.outcomes[i].service == o.service ==>
            Advances(r.outcomes[i], o) && ForwardShown(r, h, r.outcomes[i], o))
    case Finish(status, detail) =>
      && (status != Failed ==> r.status == Restarting)
      && (detail == FullyRestored ==> status == Failed && RestorationProven(r, h))
      && (status == Succeeded ==>
            && (forall i :: 0 <= i < |r.outcomes| ==> r.outcomes[i].status == Restarted)
            && SuccessReading(r, h))
      && (status == Partial ==>
            && !r.IsVoice()
            && (exists i :: 0 <= i < |r.outcomes| && r.outcomes[i].status == Restarted)
            && (forall i :: 0 <= i < |r.outcomes| ==> r.outcomes[i].status != Pending))
      && (Final(r.status) ==> r.status.Declined?)
    case _ => true
  }

  /** Transitions the executor makes; the others belong to the user-facing daemon. */
  predicate ExecutorOp(op: Op) {
    op.BeginVoiceValidation? || op.MarkVoiceValidated? || op.UpdateVoiceDigest? || op.BeginRollback? ||
    op.MarkRollbackConfigRestored? || op.UpdateRollbackOutcome? || op.BeginRestart? || op.UpdateOutcome? ||
    op.Finish?
  }

  /** The history after a transition of the current record was written. */
  function AfterOp(h: History, op: Op, r: Record, byExecutor: bool): History {
    h.(records := h.records[r.id := r],
       accepted := if op.Accept? then h.accepted + {r.id} else h.accepted,
       writes := if byExecutor && !op.UpdateVoiceDigest? then h.writes + multiset{r.id} else h.writes,
       refreshes := if byExecutor && op.UpdateVoiceDigest? then h.refreshes + multiset{r.id} else h.refreshes,
       mayRefresh := if byExecutor && op.UpdateVoiceDigest? then h.mayRefresh - {r.id} else h.mayRefresh)
  }

  lemma ForwardUpdate(id: string, targets: seq<string>, outcomes: seq<Outcome>, digest: string,
                      voice: Option<string>, calls: multiset<Call>, o: Outcome)
    requires Distinct(targets) && o.service in targets
    requires ForwardSide(id, targets, outcomes, digest, voice, calls) && ForwardOk(o, digest, voice)
    requires forall i :: 0 <= i < |outcomes| && outcomes[i].service == o.service ==> Advances(outcomes[i], o)
    ensures ForwardSide(id, targets, ReplaceOutcome(outcomes, o), digest, voice, calls)
    ensures Cost(ReplaceOutcome(outcomes, o)) < Cost(outcomes)
  {
    var i :| 0 <= i < |targets| && targets[i] == o.service;
    ReplaceAt(outcomes, targets, o, i);
    CostReplace(outcomes, outcomes[i := o], i);
  }

  lemma RollbackUpdate(id: string, targets: seq<string>, outcomes: seq<Outcome>, digest: string,
                       calls: multiset<Call>, o: Outcome)
    requires Distinct(targets) && o.service in targets && outcomes != []
    requires RollbackSide(id, targets, outcomes, digest, calls) && RollbackOk(o, digest)
    requires forall i :: 0 <= i < |outcomes| && outcomes[i].service == o.service ==> Advances(outcomes[i], o)
    ensures RollbackSide(id, targets, ReplaceOutcome(outcomes, o), digest, calls)
    ensures Cost(ReplaceOutcome(outcomes, o)) < Cost(outcomes)
  {
    var i :| 0 <= i < |targets| && targets[i] == o.service;
    ReplaceAt(outcomes, targets, o, i);
    CostReplace(outcomes, outcomes[i := o], i);
  }

  /** The lexicographic progress of the executor as one number: every write but a refresh lowers it. */
  lemma RankFalls(op: Op, r: Record, r': Record, h: History)
    requires StateOk(r) && Ledger(r, h.calls) && Disciplined(op, r, h) && ExecutorOp(op) && Apply(op, r) == Ok(r')
    ensures if op.UpdateVoiceDigest? then Rank(r') == Rank(r) else Rank(r') < Rank(r)
  {
    if op.UpdateOutcome? || op.UpdateRollbackOutcome? {
      RankFallsAtOutcome(op, r, r', h);
    } else if op.BeginRestart? || op.BeginRollback? {
      RankFallsAtPhase(op, r, r', h);
    }
  }

  lemma RankFallsAtOutcome(op: Op, r: Record, r': Record, h: History)
    requires StateOk(r) && Ledger(r, h.calls) && Disciplined(op, r, h) && Apply(op, r) == Ok(r')
    requires op.UpdateOutcome? || op.UpdateRollbackOutcome?
    ensures Rank(r') < Rank(r)
  {
    if op.UpdateOutcome? {
      ForwardUpdate(r.id, r.targets, r.outcomes, r.expectedDigest, r.ExpectedVoice(), h.calls, op.outcome);
    } else {
      RollbackUpdate(r.id, r.targets, r.rollbackOutcomes, r.rollbackDigest, h.calls, op.outcome);
    }
  }

  lemma RankFallsAtPhase(op: Op, r: Record, r': Record, h: History)
    requires StateOk(r) && Disciplined(op, r, h) && Apply(op, r) == Ok(r')
    requires op.BeginRestart? || op.BeginRollback?
    ensures Rank(r') < Rank(r)
  {
    CostBounds(if op.BeginRestart? then op.outcomes else r'.rollbackOutcomes);
  }

  /** A user step never raises the rank. */
  lemma RankOfUserStep(op: Op, r: Record, r': Record)
    requires StateOk(r) && !ExecutorOp(op) && Apply(op, r) == Ok(r')
    ensures Rank(r') <= Rank(r)
  {
  }

  lemma UserStepKeepsState(op: Op, r: Record, r': Record)
    requires StateOk(r) && !ExecutorOp(op) && Apply(op, r) == Ok(r')
    ensures StateOk(r')
  {
  }

  lemma ExecutorStepKeepsState(op: Op, r: Record, r': Record, h: History)
    requires StateOk(r) && Ledger(r, h.calls) && Disciplined(op, r, h) && ExecutorOp(op) && Apply(op, r) == Ok(r')
    ensures StateOk(r')
  {
    assert op.UpdateRollbackOutcome? ==> r.RollbackSettled();
  }

  /** A transition that leaves the outcomes alone and forgets no delivery and no validation. */
  lemma LedgerUntouched(r: Record, r': Record, calls: multiset<Call>)
    requires Ledger(r, calls)
    requires r'.id == r.id && r'.targets == r.targets && r'.outcomes == r.outcomes
    requires r'.expectedDigest == r.expectedDigest && r'.ExpectedVoice() == r.ExpectedVoice()
    requires r'.rollbackOutcomes == r.rollbackOutcomes && r'.rollbackDigest == r.rollbackDigest
    requires Delivered(r) ==> Delivered(r')
    requires r.voiceValidationAttempted ==> r'.voiceValidationAttempted
    ensures Ledger(r', calls)
  {
  }

  lemma ApplyKeepsLedger(op: Op, r: Record, r': Record, h: History)
    requires StateOk(r) && Ledger(r, h.calls) && Disciplined(op, r, h) && Apply(op, r) == Ok(r')
    ensures Ledger(r', h.calls)
  {
    if op.UpdateOutcome? || op.UpdateRollbackOutcome? {
      OutcomeUpdateKeepsLedger(op, r, r', h);
    } else if op.BeginRestart? || op.UpdateVoiceDigest? {
      ForwardRewriteKeepsLedger(op, r, r', h);
    } else if op.BeginRollback? || op.MarkRollbackConfigRestored? {
      RollbackRewriteKeepsLedger(op, r, r', h);
    } else {
      LedgerUntouched(r, r', h.calls);
    }
  }

  lemma OutcomeUpdateKeepsLedger(op: Op, r: Record, r': Record, h: History)
    requires StateOk(r) && Ledger(r, h.calls) && Disciplined(op, r, h) && Apply(op, r) == Ok(r')
    requires op.UpdateOutcome? || op.UpdateRollbackOutcome?
    ensures Ledger(r', h.calls)
  {
    if op.UpdateOutcome? {
      ForwardUpdate(r.id, r.targets, r.outcomes, r.expectedDigest, r.ExpectedVoice(), h.calls, op.outcome);
    } else {
      RollbackUpdate(r.id, r.targets, r.rollbackOutcomes, r.rollbackDigest, h.calls, op.outcome);
    }
  }

  lemma ForwardRewriteKeepsLedger(op: Op, r: Record, r': Record, h: History)
    requires StateOk(r) && Ledger(r, h.calls) && Disciplined(op, r, h) && Apply(op, r) == Ok(r')
    requires op.BeginRestart? || op.UpdateVoiceDigest?
    ensures Ledger(r', h.calls)
  {
    assert AllFresh(r.outcomes);
  }

  lemma RollbackRewriteKeepsLedger(op: Op, r: Record, r': Record, h: History)
    requires StateOk(r) && Ledger(r, h.calls) && Disciplined(op, r, h) && Apply(op, r) == Ok(r')
    requires op.BeginRollback? || op.MarkRollbackConfigRestored?
    ensures Ledger(r', h.calls)
  {
    if op.BeginRollback? {
      RollbackSideBegins(r.id, r.targets, r.rollbackDigest, h.calls);
    } else {
      RollbackSideSettles(r.id, r.targets, r.rollbackOutcomes, r.rollbackDigest, op.digest, h.calls);
    }
  }

  lemma RollbackSideBegins(id: string, targets: seq<string>, digest: string, calls: multiset<Call>)
    requires RollbackSide(id, targets, [], digest, calls)
    ensures RollbackSide(id, targets, FreshOutcomes(targets), digest, calls)
  {
  }

  lemma RollbackSideSettles(id: string, targets: seq<string>, outcomes: seq<Outcome>, digest: string,
                            digest': string, calls: multiset<Call>)
    requires RollbackSide(id, targets, outcomes, digest, calls) && AllFresh(outcomes)
    ensures RollbackSide(id, targets, outcomes, digest', calls)
  {
  }

  /** What the user agreed to. */
  predicate SameTerms(r: Record, r': Record) {
    && r'.id == r.id && r'.targets == r.targets && r'.settingKey == r.settingKey
    && r'.oldValue == r.oldValue && r'.newValue == r.newValue
  }

  lemma ForwardStepKeepsTerms(op: Op, r: Record, r': Record)
    requires op.BeginVoiceValidation? || op.MarkVoiceValidated? || op.UpdateVoiceDigest? || op.BeginRestart? || op.UpdateOutcome?
    requires Apply(op, r) == Ok(r')
    ensures SameTerms(r, r') && !r.status.RollingBack? && !r.status.Failed?
  {
    hide FreshOutcomes, ReplaceOutcome, IsDigest;
  }

  lemma RollbackStepKeepsTerms(op: Op, r: Record, r': Record)
    requires op.BeginRollback? || op.MarkRollbackConfigRestored? || op.UpdateRollbackOutcome?
    requires Apply(op, r) == Ok(r')
    ensures SameTerms(r, r') && r'.status.RollingBack?
  {
    hide FreshOutcomes, ReplaceOutcome, IsDigest;
  }

  lemma VerdictKeepsTerms(op: Op, r: Record, r': Record)
    requires op.Finish? || op.FailWorker?
    requires Apply(op, r) == Ok(r')
    ensures SameTerms(r, r') && r'.status == if op.Finish? then op.status else Failed
  {
  }

  lemma UserStepKeepsTerms(op: Op, r: Record, r': Record)
    requires !ExecutorOp(op) && !op.FailWorker?
    requires Apply(op, r) == Ok(r')
    ensures SameTerms(r, r') && !r.status.RollingBack? && (r.status.Failed? ==> r'.status.Failed?)
  {
  }

  lemma ApplyKeepsId(op: Op, r: Record, r': Record)
    requires Apply(op, r) == Ok(r')
    ensures SameTerms(r, r')
  {
    hide Apply, SameTerms;
    if op.BeginRollback? || op.MarkRollbackConfigRestored? || op.UpdateRollbackOutcome? {
      RollbackStepKeepsTerms(op, r, r');
    } else if op.Finish? || op.FailWorker? {
      VerdictKeepsTerms(op, r, r');
    } else if ExecutorOp(op) {
      ForwardStepKeepsTerms(op, r, r');
    } else {
      UserStepKeepsTerms(op, r, r');
    }
  }

  lemma ApplyKeepsConsent(op: Op, r: Record, r': Record, h: History, byExecutor: bool)
    requires RecordSafe(r, h) && Disciplined(op, r, h) && Apply(op, r) == Ok(r')
    requires byExecutor ==> !op.Accept?
    ensures Consent(r', AfterOp(h, op, r', byExecutor))
  {
    hide Ledger, Budget, SuccessReading, RestorationProven;
  }

  lemma ApplyKeepsEvidence(op: Op, r: Record, r': Record, h: History, byExecutor: bool)
    requires RecordSafe(r, h) && Disciplined(op, r, h) && Apply(op, r) == Ok(r')
    ensures var h' := AfterOp(h, op, r', byExecutor);
            && (r'.status == Succeeded ==> SuccessReading(r', h'))
            && (r'.detail == FullyRestored ==> r'.status == Failed && RestorationProven(r', h'))
  {
    hide Ledger, Budget, Consent;
  }

  lemma ApplyKeepsBudget(op: Op, r: Record, r': Record, h: History, byExecutor: bool)
    requires Budget(r, h) && Disciplined(op, r, h) && SameTerms(r, r')
    requires byExecutor ==> if op.UpdateVoiceDigest? then Rank(r') == Rank(r) else Rank(r') < Rank(r)
    requires !byExecutor ==> Rank(r') <= Rank(r)
    ensures Budget(r', AfterOp(h, op, r', byExecutor))
  {
    hide Rank, ReadyBudget;
  }

  /** Every disciplined transition keeps the record safe. */
  lemma ApplyKeepsRecord(op: Op, r: Record, r': Record, h: History, byExecutor: bool)
    requires RecordSafe(r, h) && Disciplined(op, r, h) && Apply(op, r) == Ok(r')
    requires if byExecutor then ExecutorOp(op) else !ExecutorOp(op) || op.BeginRollback?
    ensures RecordSafe(r', AfterOp(h, op, r', byExecutor))
  {
    hide StateOk, Ledger, Consent, Budget, SuccessReading, RestorationProven, Apply, Disciplined, Rank, SameTerms;
    ApplyKeepsConsent(op, r, r', h, byExecutor);
    ApplyKeepsEvidence(op, r, r', h, byExecutor);
    ApplyKeepsLedger(op, r, r', h);
    ApplyKeepsId(op, r, r');
    if ExecutorOp(op) {
      ExecutorStepKeepsState(op, r, r', h);
      RankFalls(op, r, r', h);
    } else {
      UserStepKeepsState(op, r, r');
      RankOfUserStep(op, r, r');
    }
    ApplyKeepsBudget(op, r, r', h, byExecutor);
  }

  /** The history changed at one record only. */
  ghost predicate OnlyRecordChanged(r: Record, h: History, h': History) {
    && h'.records == h.records[r.id := r]
    && (forall c: Call :: c.id != r.id ==> h'.calls[c] == h.calls[c])
    && (forall id: string :: id != r.id ==>
          && (id in h'.accepted <==> id in h.accepted)
          && (id in h'.mayRefresh <==> id in h.mayRefresh)
          && h'.writes[id] == h.writes[id] && h'.refreshes[id] == h.refreshes[id]
          && h'.runs[id] == h.runs[id]
          && (id in h.readings <==> id in h'.readings)
          && (id in h.readings ==> h'.readings[id] == h.readings[id]))
  }

  lemma RecordFrame(r: Record, r': Record, h: History, h': History)
    requires RecordSafe(r, h) && OnlyRecordChanged(r', h, h') && r.id != r'.id
    ensures RecordSafe(r, h')
  {
    LedgerFrame(r, h.calls, h'.calls);
  }

  lemma LedgerFrame(r: Record, calls: multiset<Call>, calls': multiset<Call>)
    requires Ledger(r, calls)
    requires forall c: Call :: c.id == r.id ==> calls'[c] == calls[c]
    ensures Ledger(r, calls')
  {
    assert forall c: Call :: c.id == r.id ==> (c in calls <==> c in calls');
  }

  /** A change of one record and of its own entries in the history keeps the global invariant. */
  lemma ChangeKeepsSafe(journal: Option<Record>, h: History, r: Record, h': History)
    requires Safe(journal, h) && OnlyRecordChanged(r, h, h') && RecordSafe(r, h')
    requires forall c: Call :: c.id == r.id ==> h'.calls[c] <= 1
    ensures Safe(Some(r), h')
  {
    forall id | id in h'.records
      ensures h'.records[id].id == id && RecordSafe(h'.records[id], h')
    {
      if id != r.id {
        RecordFrame(h.records[id], r, h, h');
      }
    }
    forall c: Call ensures h'.calls[c] <= 1 && (c in h'.calls ==> c.id in h'.records) {
      assert c.id != r.id ==> h'.calls[c] == h.calls[c];
    }
    assert forall id :: id != r.id && (id in h'.writes || id in h'.refreshes) ==> id in h.writes || id in h.refreshes;
    assert forall id :: id != r.id && id in h'.accepted ==> id in h.accepted;
    assert forall id :: id != r.id && id in h'.mayRefresh ==> id in h.mayRefresh;
  }

  /** Every disciplined transition of the current record keeps the global invariant. */
  lemma ApplyKeepsSafe(op: Op, r: Record, r': Record, h: History, byExecutor: bool)
    requires Safe(Some(r), h) && Disciplined(op, r, h) && Apply(op, r) == Ok(r')
    requires if byExecutor then ExecutorOp(op) else !ExecutorOp(op) || op.BeginRollback?
    ensures Safe(Some(r'), AfterOp(h, op, r', byExecutor))
  {
    hide Safe, RecordSafe, Disciplined, Apply, AfterOp, OnlyRecordChanged, ExecutorOp;
    JournalRecord(Some(r), h);
    ApplyKeepsRecord(op, r, r', h, byExecutor);
    ApplyKeepsId(op, r, r');
    OnlyItsRecordChanges(op, r', h, byExecutor);
    CallsAreSingle(Some(r), h);
    ChangeKeepsSafe(Some(r), h, r', AfterOp(h, op, r', byExecutor));
  }

  lemma OnlyItsRecordChanges(op: Op, r: Record, h: History, byExecutor: bool)
    ensures OnlyRecordChanged(r, h, AfterOp(h, op, r, byExecutor))
    ensures AfterOp(h, op, r, byExecutor).calls == h.calls
  {
  }

  lemma CallsAreSingle(journal: Option<Record>, h: History)
    requires Safe(journal, h)
    ensures forall c :: h.calls[c] <= 1
    ensures forall c :: c in h.calls ==> c.id in h.records
  {
  }

  predicate IsNewOffer(r: Record) {
    r == NewOffer(r.id, r.settingKey, r.oldValue, r.newValue, r.expectedDigest, r.targets)
  }

  lemma OfferKeepsConfigLog(config: Config, h: History, r: Record)
    requires ConfigSafe(config, h) && r.id !in h.records
    ensures ConfigSafe(config, h.(records := h.records[r.id := r]))
  {
    assert forall i :: 0 <= i < |h.configLog| && h.configLog[i].author.Some? ==> RollbackWrite(h.configLog[i], h.records);
  }

  /** A new offer, under an identifier no record ever had, keeps the global invariant. */
  lemma OfferKeepsSafe(journal: Option<Record>, h: History, r: Record)
    requires Safe(journal, h) && r.id !in h.records
    requires IsNewOffer(r)
    requires r.targets != [] && Distinct(r.targets)
    ensures Safe(Some(r), h.(records := h.records[r.id := r]))
  {
    hide Safe, RecordSafe, IsNewOffer;
    var h' := h.(records := h.records[r.id := r]);
    CallsAreSingle(journal, h);
    NothingRecorded(journal, h, r.id);
    OfferIsSafe(h', r);
    ChangeKeepsSafe(journal, h, r, h');
  }

  lemma NothingRecorded(journal: Option<Record>, h: History, id: string)
    requires Safe(journal, h) && id !in h.records
    ensures id !in h.accepted && id !in h.mayRefresh && h.writes[id] == 0 && h.refreshes[id] == 0
    ensures forall c: Call :: c.id == id ==> c !in h.calls
  {
  }

  lemma OfferIsSafe(h: History, r: Record)
    requires IsNewOffer(r) && r.targets != [] && Distinct(r.targets)
    requires r.id !in h.accepted && r.id !in h.mayRefresh && h.writes[r.id] == 0 && h.refreshes[r.id] == 0
    requires forall c: Call :: c.id == r.id ==> c !in h.calls
    ensures RecordSafe(r, h)
  {
  }

  lemma VerdictOnRollback(op: Op, r: Record, h: History)
    requires Disciplined(op, r, h) && op.Finish? && (r.status.RollingBack? || r.status.Failed?)
    ensures op.status.Failed?
  {
  }

  /** No transition rewrites what was agreed, and a rollback never turns into anything but a failure. */
  lemma ApplyKeepsTerms(op: Op, r: Record, r': Record, h: History)
    requires Disciplined(op, r, h) && Apply(op, r) == Ok(r')
    ensures SameTerms(r, r')
    ensures r.status.RollingBack? || r.status.Failed? ==> r'.status.RollingBack? || r'.status.Failed?
  {
    hide Apply, SameTerms, Disciplined;
    if op.BeginRollback? || op.MarkRollbackConfigRestored? || op.UpdateRollbackOutcome? {
      RollbackStepKeepsTerms(op, r, r');
    } else if op.Finish? || op.FailWorker? {
      VerdictKeepsTerms(op, r, r');
      if op.Finish? && (r.status.RollingBack? || r.status.Failed?) {
        VerdictOnRollback(op, r, h);
      }
    } else if ExecutorOp(op) {
      ForwardStepKeepsTerms(op, r, r');
    } else {
      UserStepKeepsTerms(op, r, r');
    }
  }

  lemma ApplyKeepsConfigLog(op: Op, r: Record, r': Record, h: History, byExecutor: bool, config: Config)
    requires ConfigSafe(config, h) && r.id in h.records && h.records[r.id] == r
    requires Disciplined(op, r, h) && Apply(op, r) == Ok(r')
    ensures ConfigSafe(config, AfterOp(h, op, r', byExecutor))
  {
    ApplyKeepsTerms(op, r, r', h);
    var h' := AfterOp(h, op, r', byExecutor);
    forall i | 0 <= i < |h.configLog| && h.configLog[i].author.Some?
      ensures RollbackWrite(h.configLog[i], h'.records)
    {
      assert RollbackWrite(h.configLog[i], h.records);
    }
  }

  /** The journal's record is one of the safe ones. */
  lemma JournalRecord(journal: Option<Record>, h: History)
    requires Safe(journal, h) && journal.Some?
    ensures var r := journal.value; r.id in h.records && h.records[r.id] == r && RecordSafe(r, h)
  {
  }

  lemma SafeIgnoresConfigLog(journal: Option<Record>, h: History, log: seq<ConfigWrite>)
    requires Safe(journal, h)
    ensures Safe(journal, h.(configLog := log))
  {
    var h' := h.(configLog := log);
    forall id | id in h.records ensures RecordSafe(h.records[id], h') {
      assert RecordSafe(h.records[id], h);
    }
  }

  lemma SafeIgnoresSightings(journal: Option<Record>, h: History, sightings: map<string, Sighting>)
    requires Safe(journal, h)
    ensures Safe(journal, h.(sightings := sightings))
  {
    var h' := h.(sightings := sightings);
    forall id | id in h.records ensures RecordSafe(h.records[id], h') {
      assert RecordSafe(h.records[id], h);
    }
  }

  /** Reading the configuration for a record still at work. */
  lemma ReadingKeepsSafe(r: Record, h: History, reading: Reading)
    requires Safe(Some(r), h) && Executing(r.status)
    ensures Safe(Some(r), h.(readings := h.readings[r.id := reading]))
  {
    hide Safe, RecordSafe;
    var h' := h.(readings := h.readings[r.id := reading]);
    JournalRecord(Some(r), h);
    RereadIsSafe(r, h, reading);
    CallsAreSingle(Some(r), h);
    ChangeKeepsSafe(Some(r), h, r, h');
  }

  lemma RereadIsSafe(r: Record, h: History, reading: Reading)
    requires RecordSafe(r, h) && Executing(r.status)
    ensures RecordSafe(r, h.(readings := h.readings[r.id := reading]))
  {
  }

  lemma RunKeepsSafe(r: Record, h: History)
    requires Safe(Some(r), h)
    ensures Safe(Some(r), h.(runs := h.runs + multiset{r.id}, mayRefresh := h.mayRefresh + {r.id}))
  {
    hide Safe, RecordSafe;
    var h' := h.(runs := h.runs + multiset{r.id}, mayRefresh := h.mayRefresh + {r.id});
    JournalRecord(Some(r), h);
    AnotherRunIsSafe(r, h);
    CallsAreSingle(Some(r), h);
    ChangeKeepsSafe(Some(r), h, r, h');
  }

  lemma AnotherRunIsSafe(r: Record, h: History)
    requires RecordSafe(r, h)
    ensures RecordSafe(r, h.(runs := h.runs + multiset{r.id}, mayRefresh := h.mayRefresh + {r.id}))
  {
  }

  // ----------------------------------------------------------------- external calls

  /** The journal entry that must precede a call. */
  ghost predicate Covered(r: Record, c: Call) {
    match c
    case ValidatorCall(id) => id == r.id && r.status == Validating
    case RestartCall(id, Forward, s) =>
      id == r.id && r.status == Restarting &&
      exists i :: 0 <= i < |r.outcomes| && r.outcomes[i].service == s && r.outcomes[i].attempted
    case RestartCall(id, Rollback, s) =>
      id == r.id && r.status == RollingBack &&
      exists i :: 0 <= i < |r.rollbackOutcomes| && r.rollbackOutcomes[i].service == s && r.rollbackOutcomes[i].attempted
  }

  /** A covered call that was not made before keeps the invariant: the journal entry came first. */
  lemma CallKeepsSafe(r: Record, h: History, c: Call)
    requires Safe(Some(r), h) && Covered(r, c) && c !in h.calls
    ensures Safe(Some(r), h.(calls := h.calls + multiset{c}))
  {
    hide Safe, RecordSafe;
    JournalRecord(Some(r), h);
    CallKeepsRecord(r, h, c);
    CallsAreSingle(Some(r), h);
    CoveredIsOwn(r, c);
    ChangeKeepsSafe(Some(r), h, r, h.(calls := h.calls + multiset{c}));
  }

  lemma CoveredIsOwn(r: Record, c: Call)
    requires Covered(r, c)
    ensures c.id == r.id
  {
  }

  lemma CallKeepsRecord(r: Record, h: History, c: Call)
    requires RecordSafe(r, h) && Covered(r, c)
    ensures RecordSafe(r, h.(calls := h.calls + multiset{c}))
  {
    CoveredCallKeepsLedger(r, h.calls, c);
  }

  lemma CoveredCallKeepsLedger(r: Record, calls: multiset<Call>, c: Call)
    requires StateOk(r) && Ledger(r, calls) && Covered(r, c)
    ensures Ledger(r, calls + multiset{c})
  {
    hide StateOk;
    if c.ValidatorCall? {
      ValidationKeepsLedger(r, calls, c);
    } else {
      RestartKeepsLedger(r, calls, c);
    }
  }

  lemma ValidationKeepsLedger(r: Record, calls: multiset<Call>, c: Call)
    requires StateOk(r) && Ledger(r, calls) && Covered(r, c) && c.ValidatorCall?
    ensures Ledger(r, calls + multiset{c})
  {
    var calls' := calls + multiset{c};
    assert forall phase, s :: RestartCall(r.id, phase, s) in calls' <==> RestartCall(r.id, phase, s) in calls;
  }

  lemma RestartKeepsLedger(r: Record, calls: multiset<Call>, c: Call)
    requires StateOk(r) && Ledger(r, calls) && Covered(r, c) && c.RestartCall?
    ensures Ledger(r, calls + multiset{c})
  {
    var calls' := calls + multiset{c};
    assert forall d :: d in calls' <==> d in calls || d == c;
  }

  // ------------------------------------------------------------------- main results

  /** What a journal entry SUCCEEDED proves. */
  lemma SuccessIsSound(journal: Option<Record>, h: History, id: string)
    requires Safe(journal, h) && id in h.records && h.records[id].status == Succeeded
    ensures var r := h.records[id];
            && id in h.accepted && r.offerDelivered && r.preRestartDelivered
            && |r.outcomes| == |r.targets|
            && (forall i :: 0 <= i < |r.targets| ==>
                  && r.outcomes[i].service == r.targets[i]
                  && Proven(r.outcomes[i], r.expectedDigest, r.ExpectedVoice()))
            && (r.IsVoice() ==> r.voiceValidated)
            && SuccessReading(r, h)
  {
    var r := h.records[id];
    assert RecordSafe(r, h);
    forall i | 0 <= i < |r.targets|
      ensures r.outcomes[i].service == r.targets[i] && Proven(r.outcomes[i], r.expectedDigest, r.ExpectedVoice())
    {
      assert ForwardOk(r.outcomes[i], r.expectedDigest, r.ExpectedVoice());
    }
  }
}
