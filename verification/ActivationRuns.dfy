/**
 Runs: sequences of journal writes, external calls, configuration changes, crashes and user steps, of any
 length. The only volatile thing an execution carries from one step to the next is the call its last
 journal write entitled it to make (`armed`); a crash loses it.
*/
module ActivationRuns {
  import opened Prelude
  import opened ActivationJournal
  import opened ActivationSafety

  /** `digestOf` is the fingerprint of configurations; no step changes it. */
  datatype State = State(journal: Option<Record>, config: Config, history: History, armed: Option<Call>,
                         digestOf: Config -> string)

  datatype Event =
    | OfferEvent(offer: Record)            // the daemon publishes a new offer
    | UserEvent(op: Op)                    // a delivery, a decision, an acknowledgement
    | DaemonEvent(op: Op)                  // the daemon gives up on a worker
    | EditEvent(config: Config)            // the user edits the configuration
    | StartEvent                           // an execution starts
    | EndEvent                             // an execution is over, or was killed; what it carried is lost
    | WriteEvent(op: Op)                   // the executor writes the journal
    | CallEvent(call: Call)                // the executor restarts a service, or asks the voice provider
    | ReadEvent                            // the executor reads the stored configuration
    | SnapshotEvent(service: string, seen: Snapshot)  // the executor looks at a service, and this is what it shows
    | RestoreEvent                         // the executor puts the old voice back

  /** The daemon's transitions that may interleave with an execution. */
  predicate UserOp(op: Op) {
    op.MarkOfferDelivered? || op.Accept? || op.Decline? || op.MarkPreRestartDelivered? || op.Acknowledge?
  }

  predicate AttemptsFirst(outcomes: seq<Outcome>, o: Outcome) {
    o.attempted && o.status == Pending &&
    exists i :: 0 <= i < |outcomes| && outcomes[i].service == o.service && !outcomes[i].attempted
  }

  /** The call a journal write entitles its writer to. */
  function Arms(op: Op, r: Record): Option<Call> {
    match op
    case BeginVoiceValidation => Some(ValidatorCall(r.id))
    case UpdateOutcome(o) =>
      if AttemptsFirst(r.outcomes, o) then Some(RestartCall(r.id, Forward, o.service)) else None
    case UpdateRollbackOutcome(o) =>
      if AttemptsFirst(r.rollbackOutcomes, o) then Some(RestartCall(r.id, Rollback, o.service)) else None
    case _ => None
  }

  /** `restore_voice`: a compare-and-set of the stored voice, from the new value to the old one. */
  predicate Restores(r: Record, before: Config, after: Config) {
    && r.IsVoice() && r.status == RollingBack
    && r.newValue == Text(before.voice) && r.oldValue == Text(after.voice)
    && after == before.(voice := after.voice)
  }

  function Logged(h: History, w: ConfigWrite): History {
    h.(configLog := h.configLog + [w])
  }

  function AfterOffer(s: State, r: Record): State {
    s.(journal := Some(r), history := s.history.(records := s.history.records[r.id := r]))
  }

  function AfterUser(s: State, op: Op, r: Record): State {
    s.(journal := Some(r), history := AfterOp(s.history, op, r, false))
  }

  function AfterWrite(s: State, op: Op, r: Record, r': Record): State {
    s.(journal := Some(r'), history := AfterOp(s.history, op, r', true), armed := Arms(op, r))
  }

  function AfterCall(s: State, c: Call): State {
    s.(history := s.history.(calls := s.history.calls + multiset{c}), armed := None)
  }

  function AfterEdit(s: State, c: Config, author: Option<string>): State {
    s.(config := c, history := Logged(s.history, ConfigWrite(s.config, c, author)))
  }

  /** What is read is what is stored. */
  function ReadingOf(s: State, r: Record): Reading {
    Reading(s.config.voice, s.digestOf(s.config), r)
  }

  function AfterRead(s: State, r: Record): State {
    s.(history := s.history.(readings := s.history.readings[r.id := ReadingOf(s, r)]))
  }

  function AfterSnapshot(s: State, service: string, seen: Snapshot, r: Record): State {
    s.(history := s.history.(sightings := s.history.sightings[service := Sighting(seen, r)]))
  }

  function AfterStart(s: State, id: string): State {
    s.(history := s.history.(runs := s.history.runs + multiset{id}, mayRefresh := s.history.mayRefresh + {id}),
       armed := None)
  }

  ghost predicate Next(s: State, e: Event, s': State) {
    match e
    case OfferEvent(r) =>
      && (s.journal.Some? ==> s.journal.value.acknowledged)
      && r.id !in s.history.records && IsNewOffer(r) && r.targets != [] && Distinct(r.targets)
      && s' == AfterOffer(s, r)
    case UserEvent(op) =>
      && UserOp(op) && s.journal.Some? && Apply(op, s.journal.value).Ok?
      && s' == AfterUser(s, op, Apply(op, s.journal.value).value)
    case DaemonEvent(op) =>
      && (op.FailWorker? || op.BeginRollback?) && s.armed == None
      && s.journal.Some? && Apply(op, s.journal.value).Ok?
      && s' == AfterUser(s, op, Apply(op, s.journal.value).value)
    case EditEvent(c) => s' == AfterEdit(s, c, None)
    case StartEvent => s.journal.Some? && s' == AfterStart(s, s.journal.value.id)
    case EndEvent => s' == s.(armed := None)
    case WriteEvent(op) =>
      && ExecutorOp(op) && s.journal.Some? && Disciplined(op, s.journal.value, s.history)
      && Apply(op, s.journal.value).Ok?
      && s' == AfterWrite(s, op, s.journal.value, Apply(op, s.journal.value).value)
    case CallEvent(c) => s.armed == Some(c) && s' == AfterCall(s, c)
    case ReadEvent =>
      s.journal.Some? && Executing(s.journal.value.status) && s' == AfterRead(s, s.journal.value)
    case SnapshotEvent(service, seen) =>
      && s.journal.Some? && Executing(s.journal.value.status)
      && s' == AfterSnapshot(s, service, seen, s.journal.value)
    case RestoreEvent =>
      s.journal.Some? && Restores(s.journal.value, s.config, s'.config) &&
      s' == AfterEdit(s, s'.config, Some(s.journal.value.id))
  }

  // ------------------------------------------------------------------ invariant

  /** Whoever is entitled to a call has it journaled, and has not made it. */
  ghost predicate ArmedOk(s: State) {
    s.armed.Some? ==>
      && s.journal.Some? && Covered(s.journal.value, s.armed.value)
      && s.armed.value !in s.history.calls
  }

  ghost predicate Inv(s: State) {
    Safe(s.journal, s.history) && ConfigSafe(s.config, s.history) && ArmedOk(s)
  }

  ghost predicate Initial(s: State) {
    && s.journal == None && s.armed == None
    && s.history == History(map[], {}, multiset{}, multiset{}, multiset{}, multiset{}, {}, map[], map[], [])
  }

  lemma UserOpLeavesExecuting(op: Op, r: Record)
    requires UserOp(op) && Executing(r.status) && StateOk(r)
    ensures Apply(op, r).Raise?
  {
  }

  lemma UserStepKeepsArmed(s: State, op: Op, r: Record, r': Record)
    requires Inv(s) && s.journal == Some(r) && Apply(op, r) == Ok(r')
    requires UserOp(op) || s.armed == None
    ensures ArmedOk(AfterUser(s, op, r'))
  {
    JournalRecord(s.journal, s.history);
    if s.armed.Some? {
      assert Executing(r.status);
      UserOpLeavesExecuting(op, r);
    }
  }

  lemma WriteArms(s: State, op: Op, r: Record, r': Record)
    requires Inv(s) && s.journal == Some(r) && Disciplined(op, r, s.history) && Apply(op, r) == Ok(r')
    ensures ArmedOk(AfterWrite(s, op, r, r'))
  {
    hide Safe, Ledger, StateOk;
    JournalRecord(s.journal, s.history);
    if op.UpdateOutcome? && AttemptsFirst(r.outcomes, op.outcome) {
      ForwardWriteArms(r, s.history.calls, op.outcome);
    } else if op.UpdateRollbackOutcome? && AttemptsFirst(r.rollbackOutcomes, op.outcome) {
      RollbackWriteArms(r, s.history.calls, op.outcome);
    } else if op.BeginVoiceValidation? {
      assert Ledger(r, s.history.calls);
      ValidationArms(r, s.history.calls);
    }
  }

  lemma ValidationArms(r: Record, calls: multiset<Call>)
    requires Ledger(r, calls) && !r.voiceValidationAttempted
    ensures ValidatorCall(r.id) !in calls
  {
  }

  lemma ForwardWriteArms(r: Record, calls: multiset<Call>, o: Outcome)
    requires Ledger(r, calls) && r.status == Restarting && AttemptsFirst(r.outcomes, o)
    ensures Covered(r.(outcomes := ReplaceOutcome(r.outcomes, o)), RestartCall(r.id, Forward, o.service))
    ensures RestartCall(r.id, Forward, o.service) !in calls
  {
    OutcomeWriteArms(r.outcomes, r.targets, o);
  }

  lemma RollbackWriteArms(r: Record, calls: multiset<Call>, o: Outcome)
    requires Ledger(r, calls) && r.status == RollingBack && AttemptsFirst(r.rollbackOutcomes, o)
    ensures Covered(r.(rollbackOutcomes := ReplaceOutcome(r.rollbackOutcomes, o)), RestartCall(r.id, Rollback, o.service))
    ensures RestartCall(r.id, Rollback, o.service) !in calls
  {
    OutcomeWriteArms(r.rollbackOutcomes, r.targets, o);
  }

  lemma OutcomeWriteArms(outcomes: seq<Outcome>, targets: seq<string>, o: Outcome)
    requires ServicesMatch(outcomes, targets) && AttemptsFirst(outcomes, o)
    ensures exists i :: 0 <= i < |outcomes| && ReplaceOutcome(outcomes, o)[i].service == o.service && ReplaceOutcome(outcomes, o)[i].attempted
  {
    var i :| 0 <= i < |outcomes| && outcomes[i].service == o.service && !outcomes[i].attempted;
    assert ReplaceOutcome(outcomes, o)[i] == o;
  }

  lemma TransitionKeepsInv(s: State, op: Op, r: Record, r': Record, byExecutor: bool)
    requires Inv(s) && s.journal == Some(r) && Disciplined(op, r, s.history) && Apply(op, r) == Ok(r')
    requires if byExecutor then ExecutorOp(op) else UserOp(op) || (s.armed == None && (op.FailWorker? || op.BeginRollback?))
    ensures Inv(if byExecutor then AfterWrite(s, op, r, r') else AfterUser(s, op, r'))
  {
    hide Safe, ConfigSafe, RecordSafe, Disciplined, ArmedOk, AfterOp, Arms;
    JournalRecord(s.journal, s.history);
    ApplyKeepsSafe(op, r, r', s.history, byExecutor);
    ApplyKeepsConfigLog(op, r, r', s.history, byExecutor, s.config);
    if byExecutor {
      WriteArms(s, op, r, r');
    } else {
      UserStepKeepsArmed(s, op, r, r');
    }
  }

  lemma OfferKeepsInv(s: State, r: Record)
    requires Inv(s) && Next(s, OfferEvent(r), AfterOffer(s, r))
    ensures Inv(AfterOffer(s, r))
  {
    hide Safe, ConfigSafe, Covered, RecordSafe;
    OfferKeepsSafe(s.journal, s.history, r);
    OfferKeepsConfigLog(s.config, s.history, r);
    AcknowledgedIsUnarmed(s);
  }

  lemma AcknowledgedIsUnarmed(s: State)
    requires Inv(s) && (s.journal.Some? ==> s.journal.value.acknowledged)
    ensures s.armed == None
  {
    hide Safe, ConfigSafe;
    if s.journal.Some? {
      JournalRecord(s.journal, s.history);
    }
  }

  lemma CallKeepsInv(s: State, c: Call)
    requires Inv(s) && s.armed == Some(c)
    ensures Inv(AfterCall(s, c))
  {
    hide Safe, Covered;
    CallKeepsSafe(s.journal.value, s.history, c);
  }

  lemma EditKeepsInv(s: State, c: Config)
    requires Inv(s)
    ensures Inv(AfterEdit(s, c, None))
  {
    hide Safe, Covered;
    SafeIgnoresConfigLog(s.journal, s.history, s.history.configLog + [ConfigWrite(s.config, c, None)]);
  }

  lemma RestoreKeepsInv(s: State, c: Config)
    requires Inv(s) && s.journal.Some? && Restores(s.journal.value, s.config, c)
    ensures Inv(AfterEdit(s, c, Some(s.journal.value.id)))
  {
    hide Safe, Covered, RecordSafe;
    var r := s.journal.value;
    JournalRecord(s.journal, s.history);
    SafeIgnoresConfigLog(s.journal, s.history, s.history.configLog + [ConfigWrite(s.config, c, Some(r.id))]);
  }

  lemma ReadKeepsInv(s: State)
    requires Inv(s) && s.journal.Some? && Executing(s.journal.value.status)
    ensures Inv(AfterRead(s, s.journal.value))
  {
    hide Safe, Covered;
    ReadingKeepsSafe(s.journal.value, s.history, ReadingOf(s, s.journal.value));
  }

  lemma SnapshotKeepsInv(s: State, service: string, seen: Snapshot)
    requires Inv(s) && s.journal.Some?
    ensures Inv(AfterSnapshot(s, service, seen, s.journal.value))
  {
    hide Safe, Covered;
    SafeIgnoresSightings(s.journal, s.history, s.history.sightings[service := Sighting(seen, s.journal.value)]);
  }

  lemma StartKeepsInv(s: State)
    requires Inv(s) && s.journal.Some?
    ensures Inv(AfterStart(s, s.journal.value.id))
  {
    hide Safe, Covered;
    RunKeepsSafe(s.journal.value, s.history);
  }

  lemma EndKeepsInv(s: State)
    requires Inv(s)
    ensures Inv(s.(armed := None))
  {
  }

  /** Every step of every run keeps the invariant. */
  lemma NextKeepsInv(s: State, e: Event, s': State)
    requires Inv(s) && Next(s, e, s')
    ensures Inv(s')
  {
    hide Inv, AfterOffer, AfterUser, AfterWrite, AfterCall, AfterEdit, AfterRead, AfterSnapshot, AfterStart, Apply;
    match e
    case OfferEvent(r) => OfferKeepsInv(s, r);
    case UserEvent(op) => TransitionKeepsInv(s, op, s.journal.value, Apply(op, s.journal.value).value, false);
    case DaemonEvent(op) => TransitionKeepsInv(s, op, s.journal.value, Apply(op, s.journal.value).value, false);
    case EditEvent(c) => EditKeepsInv(s, c);
    case StartEvent => StartKeepsInv(s);
    case EndEvent => EndKeepsInv(s);
    case WriteEvent(op) => TransitionKeepsInv(s, op, s.journal.value, Apply(op, s.journal.value).value, true);
    case CallEvent(c) => CallKeepsInv(s, c);
    case ReadEvent => ReadKeepsInv(s);
    case SnapshotEvent(service, seen) => SnapshotKeepsInv(s, service, seen);
    case RestoreEvent => RestoreKeepsInv(s, s'.config);
  }

  // ----------------------------------------------------------------------- runs

  ghost predicate Run(states: seq<State>, events: seq<Event>) {
    && |states| == |events| + 1
    && Initial(states[0])
    && forall i :: 0 <= i < |events| ==> Next(states[i], events[i], states[i + 1])
  }

  lemma RunExtends(states: seq<State>, events: seq<Event>, e: Event, s: State)
    requires Run(states, events) && Next(states[|states| - 1], e, s)
    ensures Run(states + [s], events + [e])
  {
  }

  lemma {:induction false} RunsKeepInv(states: seq<State>, events: seq<Event>, i: nat)
    requires Run(states, events) && i < |states|
    ensures Inv(states[i])
  {
    hide Inv, Next;
    if i == 0 {
      InitialInv(states[0]);
    } else {
      RunsKeepInv(states, events, i - 1);
      NextKeepsInv(states[i - 1], events[i - 1], states[i]);
    }
  }

  lemma InitialInv(s: State)
    requires Initial(s)
    ensures Inv(s)
  {
  }

  /** How often a call occurs among events. */
  function Occurrences(events: seq<Event>, c: Call): nat {
    if events == [] then 0
    else Occurrences(events[..|events| - 1], c) + (if events[|events| - 1] == CallEvent(c) then 1 else 0)
  }

  /** The executor's journal writes for a record among the first `n` events, digest refreshes apart. */
  function Writes(states: seq<State>, events: seq<Event>, id: string, n: nat): nat
    requires |states| == |events| + 1 && n <= |events|
  {
    if n == 0 then 0
    else Writes(states, events, id, n - 1) + (if WritesFor(states[n - 1], events[n - 1], id) then 1 else 0)
  }

  predicate WritesFor(s: State, e: Event, id: string) {
    e.WriteEvent? && !e.op.UpdateVoiceDigest? && s.journal.Some? && s.journal.value.id == id
  }

  /** An execution of the record starts. */
  predicate StartsFor(s: State, e: Event, id: string) {
    e.StartEvent? && s.journal.Some? && s.journal.value.id == id
  }

  /** The executor refreshes the record's expected digest. */
  predicate RefreshesFor(s: State, e: Event, id: string) {
    e.WriteEvent? && e.op.UpdateVoiceDigest? && s.journal.Some? && s.journal.value.id == id
  }

  function Starts(states: seq<State>, events: seq<Event>, id: string, n: nat): nat
    requires |states| == |events| + 1 && n <= |events|
  {
    if n == 0 then 0
    else Starts(states, events, id, n - 1) + (if StartsFor(states[n - 1], events[n - 1], id) then 1 else 0)
  }

  function Refreshes(states: seq<State>, events: seq<Event>, id: string, n: nat): nat
    requires |states| == |events| + 1 && n <= |events|
  {
    if n == 0 then 0
    else Refreshes(states, events, id, n - 1) + (if RefreshesFor(states[n - 1], events[n - 1], id) then 1 else 0)
  }

  lemma NextCounts(s: State, e: Event, s': State, c: Call, id: string)
    requires Inv(s) && Next(s, e, s')
    ensures s'.history.calls[c] == s.history.calls[c] + (if e == CallEvent(c) then 1 else 0)
    ensures s'.history.writes[id] == s.history.writes[id] + (if WritesFor(s, e, id) then 1 else 0)
    ensures s'.history.runs[id] == s.history.runs[id] + (if StartsFor(s, e, id) then 1 else 0)
    ensures s'.history.refreshes[id] == s.history.refreshes[id] + (if RefreshesFor(s, e, id) then 1 else 0)
    ensures id in s'.history.mayRefresh <==>
            StartsFor(s, e, id) || (id in s.history.mayRefresh && !RefreshesFor(s, e, id))
    ensures RefreshesFor(s, e, id) ==> id in s.history.mayRefresh
  {
    hide Inv, Apply;
    if e.WriteEvent? {
      ApplyKeepsId(e.op, s.journal.value, s'.journal.value);
    }
  }

  lemma {:induction false} HistoryCounts(states: seq<State>, events: seq<Event>, c: Call, id: string, n: nat)
    requires Run(states, events) && n <= |events|
    ensures states[n].history.calls[c] == Occurrences(events[..n], c)
    ensures states[n].history.writes[id] == Writes(states, events, id, n)
    ensures states[n].history.runs[id] == Starts(states, events, id, n)
    ensures states[n].history.refreshes[id] == Refreshes(states, events, id, n)
  {
    hide Next, Inv;
    if n > 0 {
      HistoryCounts(states, events, c, id, n - 1);
      RunsKeepInv(states, events, n - 1);
      NextCounts(states[n - 1], events[n - 1], states[n], c, id);
      assert events[..n][..n - 1] == events[..n - 1];
    }
  }

  // ----------------------------------------------------------------- readings

  /** Event k reads the configuration for the record, and none up to n does so later. */
  ghost predicate LastRead(states: seq<State>, events: seq<Event>, id: string, k: nat, n: nat)
    requires |states| == |events| + 1 && n <= |events|
  {
    && k < n && ReadsFor(states[k], events[k], id)
    && (forall j :: k < j < n ==> !ReadsFor(states[j], events[j], id))
  }

  predicate ReadsFor(s: State, e: Event, id: string) {
    e.ReadEvent? && s.journal.Some? && s.journal.value.id == id
  }

  lemma NextReads(s: State, e: Event, s': State, id: string)
    requires Next(s, e, s') && id in s'.history.readings
    ensures if ReadsFor(s, e, id) then s'.history.readings[id] == ReadingOf(s, s.journal.value)
            else id in s.history.readings && s'.history.readings[id] == s.history.readings[id]
  {
    hide Apply, Disciplined;
  }

  /** The reading kept for a record is what was stored at its last read event. */
  lemma {:induction false} ReadingsAreReal(states: seq<State>, events: seq<Event>, id: string, n: nat) returns (k: nat)
    requires Run(states, events) && n <= |events| && id in states[n].history.readings
    ensures k < n && LastRead(states, events, id, k, n) && states[k].journal.Some?
    ensures states[n].history.readings[id] == ReadingOf(states[k], states[k].journal.value)
  {
    hide Next, ReadingOf;
    if n == 0 {
      assert false;
    } else {
      NextReads(states[n - 1], events[n - 1], states[n], id);
      if ReadsFor(states[n - 1], events[n - 1], id) {
        k := n - 1;
      } else {
        k := ReadingsAreReal(states, events, id, n - 1);
      }
    }
  }

  // --------------------------------------------------------------- main results

  /**
   In every run - any number of executions, crashes, user steps and configuration edits - a service is
   restarted at most once per record and phase, and a voice is validated at most once per record.
  */
  lemma CallsHappenAtMostOnce(states: seq<State>, events: seq<Event>, c: Call)
    requires Run(states, events)
    ensures Occurrences(events, c) <= 1
  {
    hide Run;
    RunLength(states, events);
    RunsKeepInv(states, events, |events|);
    HistoryCounts(states, events, c, "", |events|);
    assert events[..|events|] == events;
  }

  lemma RunLength(states: seq<State>, events: seq<Event>)
    requires Run(states, events)
    ensures |states| == |events| + 1
  {
  }

  /**
   The executor's journal writes for a record are linear in its targets however often it is killed and
   started again: 4n + 6, digest refreshes apart (`RefreshedOncePerExecution`).
  */
  lemma WritesAreBounded(states: seq<State>, events: seq<Event>, id: string)
    requires Run(states, events)
    ensures var h := states[|events|].history;
            id in h.records ==>
              && Writes(states, events, id, |events|) <= 4 * |h.records[id].targets| + 6
              && Refreshes(states, events, id, |events|) <= Starts(states, events, id, |events|)
  {
    RunsKeepInv(states, events, |events|);
    HistoryCounts(states, events, ValidatorCall(id), id, |events|);
    var h := states[|events|].history;
    if id in h.records {
      assert RecordSafe(h.records[id], h);
    }
  }

  /** Once refreshed, a record may only be refreshed after another execution started. */
  lemma {:induction false} SpentUntilStart(states: seq<State>, events: seq<Event>, id: string, i: nat, j: nat)
    requires Run(states, events) && i < j <= |events| && RefreshesFor(states[i], events[i], id)
    requires forall k :: i < k < j ==> !StartsFor(states[k], events[k], id)
    ensures id !in states[j].history.mayRefresh
  {
    hide Next, Inv;
    RunsKeepInv(states, events, j - 1);
    NextCounts(states[j - 1], events[j - 1], states[j], ValidatorCall(id), id);
    if i < j - 1 {
      SpentUntilStart(states, events, id, i, j - 1);
    }
  }

  /** Between any two digest refreshes of a record an execution of it starts, and one started before the first. */
  lemma RefreshedOncePerExecution(states: seq<State>, events: seq<Event>, id: string, i: nat, j: nat)
    requires Run(states, events) && i < j < |events|
    requires RefreshesFor(states[i], events[i], id) && RefreshesFor(states[j], events[j], id)
    ensures exists k :: i < k < j && StartsFor(states[k], events[k], id)
    ensures exists k :: 0 <= k < i && StartsFor(states[k], events[k], id)
  {
    hide Next, Inv;
    RunLength(states, events);
    RunsKeepInv(states, events, j);
    RunsKeepInv(states, events, i);
    NextCounts(states[j], events[j], states[j + 1], ValidatorCall(id), id);
    NextCounts(states[i], events[i], states[i + 1], ValidatorCall(id), id);
    if forall k :: i < k < j ==> !StartsFor(states[k], events[k], id) {
      SpentUntilStart(states, events, id, i, j);
    }
    PermittedByStart(states, events, id, i);
  }

  lemma {:induction false} PermittedByStart(states: seq<State>, events: seq<Event>, id: string, i: nat)
    requires Run(states, events) && i <= |events| && id in states[i].history.mayRefresh
    ensures exists k :: 0 <= k < i && StartsFor(states[k], events[k], id)
  {
    hide Next, Inv;
    if i == 0 {
      assert false;
    } else {
      RunsKeepInv(states, events, i - 1);
      NextCounts(states[i - 1], events[i - 1], states[i], ValidatorCall(id), id);
      if !StartsFor(states[i - 1], events[i - 1], id) {
        PermittedByStart(states, events, id, i - 1);
      }
    }
  }

  /** A call is preceded by the user's acceptance of that very record. */
  lemma {:induction false} ConsentComesFirst(states: seq<State>, events: seq<Event>, n: nat, id: string)
    requires Run(states, events) && n <= |events|
    ensures id in states[n].history.accepted ==>
              exists i :: 0 <= i < n && events[i] == UserEvent(Accept) && states[i].journal.Some? && states[i].journal.value.id == id
  {
    if n > 0 && id in states[n].history.accepted {
      assert Next(states[n - 1], events[n - 1], states[n]);
      if id in states[n - 1].history.accepted {
        ConsentComesFirst(states, events, n - 1, id);
      } else {
        assert events[n - 1] == UserEvent(Accept);
      }
    }
  }

  lemma NoCallWithoutConsent(states: seq<State>, events: seq<Event>, n: nat)
    requires Run(states, events) && n < |events| && events[n].CallEvent?
    ensures exists i :: 0 <= i < n && events[i] == UserEvent(Accept) && states[i].journal.Some? && states[i].journal.value.id == events[n].call.id
  {
    var c := events[n].call;
    RunsKeepInv(states, events, n + 1);
    assert Next(states[n], events[n], states[n + 1]);
    var h := states[n + 1].history;
    assert c in h.calls && RecordSafe(h.records[c.id], h);
    assert c.id in h.accepted;
    ConsentComesFirst(states, events, n, c.id);
  }

  /** What a step that is neither an edit nor an offer does to the configuration. */
  ghost predicate OnlyPutsBack(r: Record, before: Config, after: Config) {
    || after == before
    || (r.newValue == Text(before.voice) && r.oldValue.Text? && after == before.(voice := r.oldValue.text))
  }

  lemma QuietStepKeepsVoice(s: State, e: Event, s': State)
    requires Next(s, e, s') && !e.EditEvent? && !e.OfferEvent? && s.journal.Some?
    ensures s'.journal.Some? && SameTerms(s.journal.value, s'.journal.value)
    ensures OnlyPutsBack(s.journal.value, s.config, s'.config)
  {
    hide Apply, SameTerms, Disciplined;
    TermsAreSame(s.journal.value);
    match e {
      case UserEvent(op) => ApplyKeepsId(op, s.journal.value, s'.journal.value);
      case DaemonEvent(op) => ApplyKeepsId(op, s.journal.value, s'.journal.value);
      case WriteEvent(op) => ApplyKeepsId(op, s.journal.value, s'.journal.value);
      case _ =>
    }
  }

  lemma TermsAreSame(r: Record)
    ensures SameTerms(r, r)
  {
  }

  /**
   As long as the user neither edits the configuration nor asks for another activation, any number of
   executions, crashes and rollbacks of a record at most replaces the new voice by the old one and keeps
   everything else; a third voice, once stored, stays.
  */
  lemma {:induction false} ThirdVoiceStays(states: seq<State>, events: seq<Event>, n: nat, m: nat)
    requires Run(states, events) && n <= m <= |events| && states[n].journal.Some?
    requires forall k :: n <= k < m ==> !events[k].EditEvent? && !events[k].OfferEvent?
    ensures states[m].journal.Some? && SameTerms(states[n].journal.value, states[m].journal.value)
    ensures OnlyPutsBack(states[n].journal.value, states[n].config, states[m].config)
    ensures states[n].journal.value.newValue != Text(states[n].config.voice) ==> states[m].config == states[n].config
    decreases m - n
  {
    hide Next;
    if n < m {
      ThirdVoiceStays(states, events, n, m - 1);
      QuietStepKeepsVoice(states[m - 1], events[m - 1], states[m]);
    }
  }

  /** The configuration stored at `s` has the old voice and this fingerprint. */
  ghost predicate HadOldVoice(s: State, r: Record) {
    r.oldValue == Text(s.config.voice) && s.digestOf(s.config) == r.rollbackDigest
  }

  lemma NextRollbackDigest(s: State, e: Event, s': State, id: string)
    requires Inv(s) && Next(s, e, s') && id in s'.history.records
    ensures var r' := s'.history.records[id];
            || r'.rollbackDigest == ""
            || (id in s.history.records && s.history.records[id].rollbackDigest == r'.rollbackDigest
                && s.history.records[id].oldValue == r'.oldValue)
            || (id in s.history.readings && s.history.readings[id].digest == r'.rollbackDigest
                && r'.oldValue == Text(s.history.readings[id].voice))
  {
    hide Inv, Apply, Disciplined;
    if s.journal.Some? {
      JournalIsRecorded(s);
      if e.UserEvent? || e.DaemonEvent? || e.WriteEvent? {
        StepRollbackDigest(e.op, s.journal.value, s'.journal.value, s.history);
      }
    }
  }

  lemma JournalIsRecorded(s: State)
    requires Inv(s) && s.journal.Some?
    ensures s.journal.value.id in s.history.records && s.history.records[s.journal.value.id] == s.journal.value
  {
    JournalRecord(s.journal, s.history);
  }

  lemma StepRollbackDigest(op: Op, r: Record, r': Record, h: History)
    requires Apply(op, r) == Ok(r')
    ensures SameTerms(r, r')
    ensures op.MarkRollbackConfigRestored? && Disciplined(op, r, h) ==>
              r.id in h.readings && h.readings[r.id].digest == r'.rollbackDigest && r'.oldValue == Text(h.readings[r.id].voice)
    ensures !op.MarkRollbackConfigRestored? ==> r'.rollbackDigest == r.rollbackDigest
  {
    hide FreshOutcomes, ReplaceOutcome, IsDigest, SameTerms;
    ApplyKeepsId(op, r, r');
    OldValueIsKept(r, r');
  }

  lemma OldValueIsKept(r: Record, r': Record)
    ensures SameTerms(r, r') ==> r'.id == r.id && r'.oldValue == r.oldValue
  {
  }

  /** The digest a rollback works with is that of a configuration that was stored with the old voice. */
  lemma {:induction false} RollbackDigestIsReal(states: seq<State>, events: seq<Event>, n: nat, id: string)
    requires Run(states, events) && n <= |events| && id in states[n].history.records
    ensures var r := states[n].history.records[id];
            r.rollbackDigest != "" ==> exists k :: 0 <= k < n && HadOldVoice(states[k], r)
  {
    hide Next, Inv;
    var r := states[n].history.records[id];
    if n > 0 && r.rollbackDigest != "" {
      RunsKeepInv(states, events, n - 1);
      var h := states[n - 1].history;
      NextRollbackDigest(states[n - 1], events[n - 1], states[n], id);
      if id in h.readings && h.readings[id].digest == r.rollbackDigest && r.oldValue == Text(h.readings[id].voice) {
        var k := ReadingsAreReal(states, events, id, n - 1);
        assert HadOldVoice(states[k], r);
      } else {
        RollbackDigestIsReal(states, events, n - 1, id);
        var k :| 0 <= k < n - 1 && HadOldVoice(states[k], h.records[id]);
        assert HadOldVoice(states[k], r);
      }
    }
  }

  /** The configuration stored at `s` has the new voice and the digest the record expects. */
  ghost predicate HadNewVoice(s: State, r: Record) {
    r.newValue == Text(s.config.voice) && s.digestOf(s.config) == r.expectedDigest
  }

  predicate OffersDigest(e: Event, r: Record) {
    e.OfferEvent? && e.offer.id == r.id && e.offer.expectedDigest == r.expectedDigest
  }

  lemma NextExpectedDigest(s: State, e: Event, s': State, id: string)
    requires Inv(s) && Next(s, e, s') && id in s'.history.records
    ensures var r' := s'.history.records[id];
            || OffersDigest(e, r')
            || (id in s.history.records && s.history.records[id].expectedDigest == r'.expectedDigest
                && s.history.records[id].newValue == r'.newValue && s.history.records[id].id == r'.id)
            || (id in s.history.readings && s.history.readings[id].digest == r'.expectedDigest
                && r'.newValue == Text(s.history.readings[id].voice))
  {
    hide Inv, Apply, Disciplined;
    if s.journal.Some? {
      JournalIsRecorded(s);
      if e.UserEvent? || e.DaemonEvent? || e.WriteEvent? {
        StepExpectedDigest(e.op, s.journal.value, s'.journal.value, s.history);
      }
    }
  }

  lemma StepExpectedDigest(op: Op, r: Record, r': Record, h: History)
    requires Apply(op, r) == Ok(r')
    ensures r'.id == r.id && r'.newValue == r.newValue
    ensures op.UpdateVoiceDigest? && Disciplined(op, r, h) ==>
              r.id in h.readings && h.readings[r.id].digest == r'.expectedDigest && r'.newValue == Text(h.readings[r.id].voice)
    ensures !op.UpdateVoiceDigest? ==> r'.expectedDigest == r.expectedDigest
  {
    hide FreshOutcomes, ReplaceOutcome, IsDigest;
    ApplyKeepsId(op, r, r');
  }

  /** The digest services are expected to show is the offered one, or that of a configuration stored with the new voice. */
  lemma {:induction false} ExpectedDigestIsReal(states: seq<State>, events: seq<Event>, n: nat, id: string)
    requires Run(states, events) && n <= |events| && id in states[n].history.records
    ensures var r := states[n].history.records[id];
            || (exists k :: 0 <= k < n && OffersDigest(events[k], r))
            || (exists k :: 0 <= k < n && HadNewVoice(states[k], r))
  {
    hide Next, Inv;
    if n == 0 {
      assert false;
    } else {
      var r, h := states[n].history.records[id], states[n - 1].history;
      RunsKeepInv(states, events, n - 1);
      NextExpectedDigest(states[n - 1], events[n - 1], states[n], id);
      if !OffersDigest(events[n - 1], r) {
        if id in h.readings && h.readings[id].digest == r.expectedDigest && r.newValue == Text(h.readings[id].voice) {
          var k := ReadingsAreReal(states, events, id, n - 1);
          assert HadNewVoice(states[k], r);
        } else {
          ExpectedDigestIsReal(states, events, n - 1, id);
          if k :| 0 <= k < n - 1 && OffersDigest(events[k], h.records[id]) {
            assert OffersDigest(events[k], r);
          } else {
            var k :| 0 <= k < n - 1 && HadNewVoice(states[k], h.records[id]);
            assert HadNewVoice(states[k], r);
          }
        }
      }
    }
  }

  /** Event k read the stored configuration when the outcomes stood as in `r`, and it held what `r` activates. */
  ghost predicate SawActivated(s: State, r: Record) {
    && s.journal.Some? && s.journal.value.status == Restarting && s.journal.value.outcomes == r.outcomes
    && if r.IsVoice() then r.newValue == Text(s.config.voice) else r.expectedDigest == s.digestOf(s.config)
  }

  /** The same for a rollback that claims to be complete. */
  ghost predicate SawRestored(s: State, r: Record) {
    && s.journal.Some? && s.journal.value.status == RollingBack
    && s.journal.value.rollbackOutcomes == r.rollbackOutcomes
    && s.digestOf(s.config) == r.rollbackDigest
  }

  /** How a record can end, and what a success and a report of full restoration prove, in every run. */
  lemma VerdictsAreSound(states: seq<State>, events: seq<Event>, n: nat, id: string)
    requires Run(states, events) && n <= |events| && id in states[n].history.records
    ensures var r := states[n].history.records[id];
            && (r.IsVoice() ==> r.status != Partial)
            && (r.status == Succeeded ==>
                  && r.offerDelivered && r.preRestartDelivered
                  && |r.outcomes| == |r.targets|
                  && (forall i :: 0 <= i < |r.targets| ==>
                        r.outcomes[i].service == r.targets[i] && Proven(r.outcomes[i], r.expectedDigest, r.ExpectedVoice()))
                  && (r.IsVoice() ==> r.voiceValidated)
                  && (exists k: nat :: k < n && LastRead(states, events, id, k, n) && SawActivated(states[k], r)))
            && (r.detail == FullyRestored ==>
                  && r.status == Failed && r.IsVoice()
                  && |r.rollbackOutcomes| == |r.targets|
                  && (forall i :: 0 <= i < |r.targets| ==>
                        && r.rollbackOutcomes[i].service == r.targets[i]
                        && (Proven(r.rollbackOutcomes[i], r.rollbackDigest, None) || AlreadyRestored(r.rollbackOutcomes[i], r.rollbackDigest)))
                  && (exists k: nat :: k < n && LastRead(states, events, id, k, n) && SawRestored(states[k], r))
                  && (exists k :: 0 <= k < n && HadOldVoice(states[k], r)))
  {
    hide Inv, LastRead;
    RunsKeepInv(states, events, n);
    RecordKept(states[n], id);
    var h := states[n].history;
    var r := h.records[id];
    if r.status == Succeeded {
      ForwardEvidence(r, h);
      var k := ReadingsAreReal(states, events, id, n);
      assert SawActivated(states[k], r);
    }
    if r.detail == FullyRestored {
      RollbackEvidence(r, h);
      RollbackDigestIsReal(states, events, n, id);
      var k := ReadingsAreReal(states, events, id, n);
      assert SawRestored(states[k], r);
    }
  }

  lemma RecordKept(s: State, id: string)
    requires Inv(s) && id in s.history.records
    ensures s.history.records[id].id == id && RecordSafe(s.history.records[id], s.history)
  {
  }

  lemma ForwardEvidence(r: Record, h: History)
    requires RecordSafe(r, h) && r.status == Succeeded
    ensures |r.outcomes| == |r.targets|
    ensures forall i :: 0 <= i < |r.targets| ==>
              r.outcomes[i].service == r.targets[i] && Proven(r.outcomes[i], r.expectedDigest, r.ExpectedVoice())
  {
    forall i | 0 <= i < |r.targets| ensures Proven(r.outcomes[i], r.expectedDigest, r.ExpectedVoice()) {
      assert ForwardOk(r.outcomes[i], r.expectedDigest, r.ExpectedVoice());
    }
  }

  lemma RollbackEvidence(r: Record, h: History)
    requires RecordSafe(r, h) && r.detail == FullyRestored
    ensures r.rollbackDigest != "" && |r.rollbackOutcomes| == |r.targets|
    ensures forall i :: 0 <= i < |r.targets| ==>
              && r.rollbackOutcomes[i].service == r.targets[i]
              && (Proven(r.rollbackOutcomes[i], r.rollbackDigest, None) || AlreadyRestored(r.rollbackOutcomes[i], r.rollbackDigest))
  {
    forall i | 0 <= i < |r.targets|
      ensures Proven(r.rollbackOutcomes[i], r.rollbackDigest, None) || AlreadyRestored(r.rollbackOutcomes[i], r.rollbackDigest)
    {
      assert RollbackOk(r.rollbackOutcomes[i], r.rollbackDigest);
    }
  }
}
