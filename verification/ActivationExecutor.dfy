/**
 The executor (config_activation.py, execute_activation and what it calls) over one shared world: the
 journal, the configuration file, the user's daemon and the services. A call marked `Interrupted` is a
 process killed there, or an exception nobody catches; what was written before stays written. Between
 any two steps the daemon and the user may act (`Interfere`).
*/
module ActivationExecutor {
  import opened Prelude
  import opened ActivationJournal
  import opened ActivationSafety
  import opened ActivationRuns

  /** A user step changed neither the ledger nor a record the executor is working on. */
  ghost predicate Undisturbed(s: State, s': State) {
    var (j, h, j', h') := (s.journal, s.history, s'.journal, s'.history);
    && s'.armed == s.armed
    && h'.calls == h.calls && h'.writes == h.writes && h'.refreshes == h.refreshes
    && h'.runs == h.runs && h'.mayRefresh == h.mayRefresh && h'.readings == h.readings
    && h.records.Keys <= h'.records.Keys
    && (j.Some? && Executing(j.value.status) ==> j' == j)
    && (forall id :: id in h.records && NotBegun(j, id) ==> NotBegun(j', id))
  }

  /** If the journal holds record `id`, no executor has worked on it yet. */
  predicate NotBegun(j: Option<Record>, id: string) {
    j.Some? && j.value.id == id ==>
      j.value.status.Offered? || j.value.status.Accepted? || j.value.status.Ready? || j.value.status.Declined?
  }

  lemma UserOpDoesNotDisturb(s: State, op: Op, r': Record)
    requires Inv(s) && UserOp(op) && s.journal.Some? && Apply(op, s.journal.value) == Ok(r')
    ensures Undisturbed(s, AfterUser(s, op, r'))
  {
    hide Safe, ConfigSafe, ArmedOk, RecordSafe;
    JournalRecord(s.journal, s.history);
    UserOpOutcome(op, s.journal.value, r');
  }

  lemma UserOpOutcome(op: Op, r: Record, r': Record)
    requires UserOp(op) && Apply(op, r) == Ok(r')
    ensures r'.id == r.id && !Executing(r.status)
    ensures NotBegun(Some(r), r.id) ==> NotBegun(Some(r'), r.id)
  {
    UserStepKeepsTerms(op, r, r');
  }

  lemma OfferDoesNotDisturb(s: State, r: Record)
    requires Inv(s) && r.id !in s.history.records && (s.journal.Some? ==> s.journal.value.acknowledged)
    ensures Undisturbed(s, AfterOffer(s, r))
  {
    if s.journal.Some? {
      JournalRecord(s.journal, s.history);
      assert StateOk(s.journal.value);
    }
  }

  lemma UndisturbedTransitive(s: State, s': State, s'': State)
    requires Undisturbed(s, s') && Undisturbed(s', s'')
    ensures Undisturbed(s, s'')
  {
  }

  /** A transition adds no record to the history. */
  lemma RecordsKnown(s: State, op: Op, r: Record)
    requires Inv(s) && s.journal.Some? && Apply(op, s.journal.value) == Ok(r)
    ensures AfterOp(s.history, op, r, false).records.Keys == s.history.records.Keys
    ensures AfterOp(s.history, op, r, true).records.Keys == s.history.records.Keys
    ensures AfterOp(s.history, op, r, false).sightings == s.history.sightings
  {
    hide Safe, ConfigSafe, Apply, ArmedOk, RecordSafe;
    ApplyKeepsId(op, s.journal.value, r);
    JournalRecord(s.journal, s.history);
  }

  class World {
    const digestOf: Config -> string
    var journal: Option<Record>
    var config: Config
    var issued: set<string>  // identifiers handed out by uuid4 so far
    ghost var history: History
    ghost var armed: Option<Call>
    ghost var states: seq<State>   // the run so far
    ghost var events: seq<Event>

    ghost function Now(): State
      reads this
    {
      State(journal, config, history, armed, digestOf)
    }

    /** The world is where the run has led it, and the run is one of those ActivationRuns speaks of. */
    ghost predicate Valid()
      reads this
    {
      && Inv(Now()) && history.records.Keys == issued
      && Run(states, events) && states[|states| - 1] == Now()
    }

    /** The executor owns the record in the journal: its execution lock is held and the state is its own. */
    ghost predicate Owns(r: Record)
      reads this
    {
      Valid() && journal == Some(r) && Executing(r.status)
    }

    constructor (digestOf: Config -> string, config: Config)
      ensures Valid() && journal == None && events == []
    {
      this.digestOf := digestOf;
      this.config := config;
      journal := None;
      issued := {};
      history := History(map[], {}, multiset{}, multiset{}, multiset{}, multiset{}, {}, map[], map[], []);
      armed := None;
      events := [];
      new;
      states := [Now()];
    }

    /** The world has moved by one step of the run. */
    ghost method Moved(s: State, e: Event)
      requires Inv(s) && Run(states, events) && states[|states| - 1] == s && Next(s, e, Now())
      requires history.records.Keys == issued
      modifies this`states, this`events
      ensures Valid()
    {
      hide Inv, Run, Next;
      NextKeepsInv(s, e, Now());
      RunExtends(states, events, e, Now());
      RunLength(states, events);
      states := states + [Now()];
      events := events + [e];
    }

    // ------------------------------------------------------------ the user's side

    /** Any edit of the configuration, by hand or through the harness. */
    method UserEdit(c: Config)
      requires Valid()
      modifies this
      ensures Valid() && Now() == AfterEdit(old(Now()), c, None)
    {
      hide Inv, Run;
      ghost var s := Now();
      history := Logged(history, ConfigWrite(config, c, None));
      config := c;
      Moved(s, EditEvent(c));
    }

    /** `create_offer`: refused while an earlier result is unacknowledged; targets lose their duplicates. */
    method CreateOffer(id: string, settingKey: SettingKey, oldValue: Value, newValue: Value,
                       restartServices: seq<string>, expectedDigest: string)
      returns (r: Result<Option<Record>>)
      requires Valid() && id !in issued
      modifies this
      ensures Valid()
      ensures restartServices == [] ==> r == Ok(None)
      ensures restartServices != [] ==>
                (r.Raise? <==> old(journal).Some? && !old(journal).value.acknowledged)
      ensures r.Ok? && r.value.Some? ==>
                && r.value.value == NewOffer(id, settingKey, oldValue, newValue, expectedDigest, Dedupe(restartServices))
                && Now() == AfterOffer(old(Now()), r.value.value)
      ensures r.Raise? || r.value.None? ==> Now() == old(Now())
    {
      hide Inv, Run;
      var targets := Dedupe(restartServices);
      assert forall i :: 0 <= i < |restartServices| ==> restartServices[i] in targets;
      if targets == [] {
        return Ok(None);
      }
      if journal.Some? && !journal.value.acknowledged {
        return Raise;
      }
      ghost var s := Now();
      var record := NewOffer(id, settingKey, oldValue, newValue, expectedDigest, targets);
      journal := Some(record);
      issued := issued + {id};
      history := history.(records := history.records[id := record]);
      Moved(s, OfferEvent(record));
      return Ok(Some(record));
    }

    /** `_update` on behalf of the daemon: a delivery, a decision, an acknowledgement, or giving up on a worker. */
    method UserStep(id: string, op: Op) returns (r: Result<Record>)
      requires Valid()
      requires UserOp(op) || (armed == None && (op.FailWorker? || op.BeginRollback?))
      modifies this
      ensures Valid()
      ensures r == if old(journal).Some? && old(journal).value.id == id then Apply(op, old(journal).value) else Raise
      ensures Now() == if r.Ok? then AfterUser(old(Now()), op, r.value) else old(Now())
      ensures history.sightings == old(history.sightings)
    {
      hide Inv, Run, AfterOp;
      if journal.None? || journal.value.id != id {
        return Raise;
      }
      r := Apply(op, journal.value);
      if r.Ok? {
        ghost var s := Now();
        RecordsKnown(s, op, r.value);
        journal := Some(r.value);
        history := AfterOp(history, op, r.value, false);
        Moved(s, if UserOp(op) then UserEvent(op) else DaemonEvent(op));
      }
    }

    /** Whatever the user and the daemon do between two steps of the executor. */
    method Interfere()
      requires Valid()
      modifies this
      ensures Valid() && Undisturbed(old(Now()), Now()) && history.sightings == old(history.sightings)
    {
      hide Inv, Run;
      var steps: nat := *;
      while steps > 0
        invariant Valid() && Undisturbed(old(Now()), Now()) && history.sightings == old(history.sightings)
      {
        ghost var s := Now();
        UserAction();
        UndisturbedTransitive(old(Now()), s, Now());
        steps := steps - 1;
      }
    }

    method UserAction()
      requires Valid()
      modifies this
      ensures Valid() && Undisturbed(old(Now()), Now()) && history.sightings == old(history.sightings)
    {
      hide Inv, Run, Apply, AfterOp;
      var id: string := *;
      if * {
        var c: Config := *;
        UserEdit(c);
      } else if * {
        var key: SettingKey, o: Value, n: Value, services: seq<string>, digest: string := *, *, *, *, *;
        if id !in issued {
          var r := CreateOffer(id, key, o, n, services, digest);
          if r.Ok? && r.value.Some? {
            OfferDoesNotDisturb(old(Now()), r.value.value);
          }
        }
      } else {
        var op: Op := *;
        if UserOp(op) {
          var r := UserStep(id, op);
          if r.Ok? {
            UserOpDoesNotDisturb(old(Now()), op, r.value);
          }
        }
      }
    }

    // ---------------------------------------------------- the executor's primitives

    /** The executor still owns `r`, and nothing it relies on changed since state `s`. */
    ghost predicate StillOwns(r: Record, s: State)
      reads this
    {
      Owns(r) && Undisturbed(s, Now())
    }

    /** Nothing but readings of the configuration was added since `h`. */
    ghost predicate OnlyReadSince(h: History)
      reads this
    {
      && history.calls == h.calls && history.runs == h.runs
      && history.refreshes == h.refreshes && history.mayRefresh == h.mayRefresh
    }

    /** Only this service was looked at since `h`, if any. */
    ghost predicate OnlyLookedAt(h: History, service: string)
      reads this
    {
      forall x :: x != service && x in h.sightings ==> x in history.sightings && history.sightings[x] == h.sightings[x]
    }

    /** `load_config`: what is read is what is stored at that moment, and the run remembers it. */
    method LoadConfig(r: Record) returns (c: Step<Config>)
      requires Owns(r)
      modifies this
      ensures Valid() && OnlyReadSince(old(history))
      ensures c.Done? ==> Owns(r) && JustRead(r, history) && history.readings[r.id] == Reading(c.value.voice, digestOf(c.value), r)
    {
      hide Inv, Run;
      Interfere();
      if * {
        return Interrupted;
      }
      ghost var s := Now();
      history := history.(readings := history.readings[r.id := Reading(config.voice, digestOf(config), r)]);
      Moved(s, ReadEvent);
      return Done(config);
    }

    /** `controller.snapshot`: whatever systemd and the service's own marker say at this moment. */
    method Snapshot(service: string, ghost r: Record) returns (s: Step<Snapshot>)
      requires Owns(r)
      modifies this
      ensures StillOwns(r, old(Now())) && OnlyLookedAt(old(history), service)
      ensures s.Done? ==> JustSeen(r, history, service, Some(s.value))
    {
      hide Inv, Run;
      Interfere();
      if * {
        return Interrupted;
      }
      var seen: Snapshot := *;
      ghost var before := Now();
      history := history.(sightings := history.sightings[service := Sighting(seen, r)]);
      Moved(before, SnapshotEvent(service, seen));
      return Done(seen);
    }

    /** `_update` on behalf of the executor. Killed before or after the atomic replace, or refused by a guard. */
    method Write(r: Record, op: Op) returns (u: Step<Record>)
      requires Owns(r) && ExecutorOp(op) && Disciplined(op, r, history)
      modifies this
      ensures Valid() && history.calls == old(history.calls) && history.readings == old(history.readings)
      ensures u.Done? ==>
                && journal == Some(u.value) && Apply(op, r) == Ok(u.value) && armed == Arms(op, r)
                && (op.UpdateVoiceDigest? || OnlyReadSince(old(history)))
    {
      hide Inv, Run, Apply, Arms, Disciplined, ExecutorOp;
      Interfere();
      DisciplineIsStable(op, r, old(history), history);
      if * {
        return Interrupted;
      }
      var applied := Apply(op, r);
      if applied.Raise? {
        return Interrupted;
      }
      ghost var s := Now();
      RecordsKnown(s, op, applied.value);
      journal := Some(applied.value);
      history := AfterOp(history, op, applied.value, true);
      armed := Arms(op, r);
      Moved(s, WriteEvent(op));
      if * {
        return Interrupted;
      }
      return Done(applied.value);
    }

    /** The calls on the outside world, each right after the write that arms it. It may raise, or kill us. */
    method External(r: Record, c: Call) returns (raised: Step<bool>)
      requires Owns(r) && armed == Some(c)
      modifies this
      ensures Valid() && old(history.calls) <= history.calls <= old(history.calls) + multiset{c}
      ensures raised.Done? ==>
                && Owns(r) && history.calls == old(history.calls) + multiset{c}
                && history.runs == old(history.runs) && history.refreshes == old(history.refreshes)
                && history.mayRefresh == old(history.mayRefresh)
    {
      hide Inv, Run;
      Interfere();
      if * {
        return Interrupted;
      }
      ghost var s := Now();
      history := history.(calls := history.calls + multiset{c});
      armed := None;
      Moved(s, CallEvent(c));
      Interfere();
      if * {
        return Interrupted;
      }
      var failed: bool := *;
      return Done(failed);
    }

    /** `_observe_restart`: poll until the restarted service shows the expected snapshot, or time runs out. */
    method ObserveRestart(r: Record, outcome: Outcome, expectedDigest: string, expectedVoice: Option<string>)
      returns (o: Step<Outcome>)
      requires Owns(r)
      modifies this
      ensures StillOwns(r, old(Now()))
      ensures o.Done? ==>
                Observation(outcome, o.value, expectedDigest, expectedVoice) && JustSeen(r, history, outcome.service, o.value.after)
    {
      hide Inv, Run;
      var polls: nat := *;  // how often the clock is still before the deadline
      var after :- Snapshot(outcome.service, r);
      while polls > 0
        invariant StillOwns(r, old(Now())) && JustSeen(r, history, outcome.service, Some(after))
      {
        if after.activeState == UnitActive && IdentityChanged(outcome.before, after) &&
           MatchesExpectedSnapshot(after, expectedDigest, expectedVoice) {
          break;
        }
        after :- Snapshot(outcome.service, r);
        polls := polls - 1;
      }
      if Observed(outcome.before, after, expectedDigest, expectedVoice) {
        return Done(outcome.(status := Restarted, after := Some(after)));
      }
      return Done(outcome.(status := NotRestarted, after := Some(after)));
    }

    // ------------------------------------------------------------- forward phase

    /** The attempt is journaled before the one restart command goes out. */
    method AttemptRestart(r: Record, i: nat) returns (u: Step<Record>)
      requires Owns(r) && r.status == Restarting && i < |r.outcomes|
      requires r.outcomes[i].status == Pending && !r.outcomes[i].attempted
      modifies this
      ensures Valid()
      ensures u.Done? ==> Owns(u.value) && u.value == r.(outcomes := r.outcomes[i := r.outcomes[i].(attempted := true)])
    {
      hide Inv, Run, Apply, Disciplined, Advances, ForwardOk;
      var attempted := r.outcomes[i].(attempted := true);
      ForwardFacts(r, Now());
      AttemptAdvances(r.outcomes[i], r.expectedDigest, r.ExpectedVoice());
      ForwardDiscipline(r, history, i, attempted);
      var r1 :- Write(r, UpdateOutcome(attempted));
      ForwardWritten(r, history, i, attempted, r1);
      var _ :- External(r1, RestartCall(r.id, Forward, attempted.service));
      return Done(r1);
    }

    /** One round of the forward loop: attempt the restart unless an earlier execution did, then reconcile. */
    method RestartTarget(r: Record, i: nat) returns (u: Step<Record>)
      requires Owns(r) && r.status == Restarting && i < |r.outcomes| && r.outcomes[i].status == Pending
      modifies this
      ensures Valid()
      ensures u.Done? ==> Owns(u.value) && OutcomeSettled(r, u.value, i)
    {
      hide Inv, Run, Apply, Observation, Disciplined, Advances, ForwardOk;
      var r1 := r;
      if !r.outcomes[i].attempted {
        r1 :- AttemptRestart(r, i);
      }
      var outcome := r1.outcomes[i];
      // Whether the command raised or not, what counts is the service: a raise only lengthens the detail.
      var observed :- ObserveRestart(r1, outcome, r1.expectedDigest, r1.ExpectedVoice());
      ObservationAdvances(outcome, observed, r1.expectedDigest, r1.ExpectedVoice());
      ForwardFacts(r1, Now());
      ForwardDiscipline(r1, history, i, observed);
      u := Write(r1, UpdateOutcome(observed));
      if u.Done? {
        ForwardWritten(r1, history, i, observed, u.value);
      }
    }

    /** The forward loop: every outcome is settled when it ends. */
    method RestartAll(r: Record) returns (u: Step<Record>)
      requires Owns(r) && r.status == Restarting
      modifies this
      ensures Valid()
      ensures u.Done? ==>
                && Owns(u.value) && u.value == r.(outcomes := u.value.outcomes)
                && |u.value.outcomes| == |r.outcomes|
                && forall i :: 0 <= i < |u.value.outcomes| ==> u.value.outcomes[i].status != Pending
    {
      hide Inv, Run, Valid, Executing;
      var r1 := r;
      for i := 0 to |r.outcomes|
        invariant Owns(r1) && r1 == r.(outcomes := r1.outcomes) && |r1.outcomes| == |r.outcomes|
        invariant forall j :: 0 <= j < i ==> r1.outcomes[j].status != Pending
        invariant forall j :: i <= j < |r.outcomes| ==> r1.outcomes[j] == r.outcomes[j]
      {
        if r.outcomes[i].status == Pending {
          r1 :- RestartTarget(r1, i);
        }
      }
      return Done(r1);
    }

    /** The snapshots taken before the restarts; a service that is missing or not running fails here. */
    method BeginRestarts(r: Record) returns (u: Step<Record>)
      requires Owns(r) && r.status == Ready
      requires r.IsVoice() ==> r.voiceValidated
      modifies this
      ensures Valid()
      ensures u.Done? ==> Owns(u.value) && u.value == r.(status := Restarting, outcomes := u.value.outcomes)
    {
      hide Inv, Run;
      ReadyFacts(r, Now());
      var initial: seq<Outcome> := [];
      for i := 0 to |r.outcomes|
        invariant Owns(r) && |initial| == i
        invariant forall j :: 0 <= j < i ==>
                    && initial[j].service == r.outcomes[j].service
                    && !initial[j].attempted && initial[j].status != Restarted
                    && BeginsAsShown(r, history, initial[j])
      {
        var before :- Snapshot(r.outcomes[i].service, r);
        var status := if before.Active() then Pending else NotRestarted;
        initial := initial + [r.outcomes[i].(status := status, before := Some(before))];
      }
      u := Write(r, BeginRestart(initial));
    }

    // ---------------------------------------------------------- voice validation

    /**
     One shot: the attempt is durable before the provider is asked, at most this one call is made, and only a
     record that was asked about goes on; an unusable voice rolls back.
    */
    method ValidateVoice(r: Record) returns (u: Step<Record>)
      requires Owns(r) && r.status == Ready && r.IsVoice() && !r.voiceValidated
      modifies this
      ensures Valid() && old(history.calls) <= history.calls <= old(history.calls) + multiset{ValidatorCall(r.id)}
      ensures u.Done? ==>
                && Owns(u.value) && u.value.id == r.id && u.value.IsVoice()
                && (u.value.status == RollingBack || (u.value.status == Ready && u.value.voiceValidated))
                && (u.value.status == Ready ==>
                      && u.value.voiceValidationAttempted
                      && history.calls == old(history.calls) + multiset{ValidatorCall(r.id)})
                && (history.calls == old(history.calls) + multiset{ValidatorCall(r.id)} ==> u.value.voiceValidationAttempted)
                && history.runs == old(history.runs) && history.mayRefresh == old(history.mayRefresh)
    {
      hide Inv, Run, Undisturbed, JustSeen, ForwardShown, RollbackShown, Advances;
      if !r.newValue.Text? {
        u := Write(r, BeginRollback);
        return;
      }
      var r1 :- Write(r, BeginVoiceValidation);
      var raised :- External(r1, ValidatorCall(r.id));
      var usable: bool := *;
      if usable && !raised {
        u := Write(r1, MarkVoiceValidated);
      } else {
        u := Write(r1, BeginRollback);
      }
    }

    /** The stored voice must still be ours before services restart; other edits only move the expected digest. */
    method RefreshVoiceDigest(r: Record) returns (u: Step<Record>)
      requires Owns(r) && r.status == Ready && r.IsVoice() && r.voiceValidated
      requires r.id in history.mayRefresh
      modifies this
      ensures Valid() && history.calls == old(history.calls)
      ensures u.Done? ==>
                && Owns(u.value) && u.value.id == r.id && u.value.IsVoice() && r.id in history.readings
                && (r.newValue != Text(history.readings[r.id].voice) ==> u.value.status == RollingBack)
                && (r.newValue == Text(history.readings[r.id].voice) ==>
                      u.value == r.(expectedDigest := history.readings[r.id].digest))
    {
      hide Inv, Run, Undisturbed;
      var effective :- LoadConfig(r);
      if r.newValue != Text(effective.voice) {
        u := Write(r, BeginRollback);
      } else if digestOf(effective) != r.expectedDigest {
        u := Write(r, UpdateVoiceDigest(digestOf(effective)));
      } else {
        u := Done(r);
      }
    }

    // ------------------------------------------------------------------ rollback

    /** `_restore_previous_voice`: a compare-and-set under the configuration lock, then a fresh read. */
    method RestoreVoice(r: Record) returns (c: Step<Result<Config>>)
      requires Owns(r) && r.status == RollingBack && r.IsVoice() && r.oldValue.Text? && r.newValue.Text?
      modifies this
      ensures Valid()
      ensures c.Done? ==> Owns(r)
      ensures c.Done? && c.value.Ok? ==>
                JustRead(r, history) && history.readings[r.id] == Reading(c.value.value.voice, digestOf(c.value.value), r)
    {
      hide Inv, Run;
      Interfere();
      if * {
        return Interrupted;
      }
      var refused: bool := *;  // a configuration that does not load, validate or write
      if config.voice != r.newValue.text || refused {
        return Done(Raise);
      }
      ghost var s := Now();
      var restored := config.(voice := r.oldValue.text);
      history := Logged(history, ConfigWrite(config, restored, Some(r.id)));
      config := restored;
      Moved(s, RestoreEvent);
      var unreadable: bool := *;
      if unreadable {
        return Done(Raise);
      }
      var read :- LoadConfig(r);
      return Done(Ok(read));
    }

    /**
     The first half of `_execute_voice_rollback`: the stored voice. The record it leaves has failed, or is settled
     on the digest of a configuration that was read with the old voice in it.
    */
    method RestoreConfig(r: Record) returns (u: Step<Record>)
      requires Owns(r) && r.status == RollingBack
      modifies this
      ensures Valid()
      ensures u.Done? ==>
                && journal == Some(u.value) && u.value.id == r.id
                && (u.value.status == Failed || (u.value.status == RollingBack && u.value.RollbackSettled()))
      ensures u.Done? && u.value.status == RollingBack ==>
                if r.RollbackSettled() then u.value == r
                else
                  && u.value == r.(rollbackConfigRestored := true, rollbackDigest := u.value.rollbackDigest)
                  && JustRead(r, history) && history.readings[r.id].digest == u.value.rollbackDigest
                  && r.oldValue == Text(history.readings[r.id].voice)
    {
      hide Inv, Run, Apply, Disciplined, Undisturbed;
      RollingBackFacts(r, Now());
      if !r.oldValue.Text? || !r.newValue.Text? {
        u := GiveUp(r);
        return;
      }
      var current :- LoadConfig(r);
      if !r.rollbackConfigRestored {
        var restored := current;
        if current.voice == r.oldValue.text {
        } else if current.voice == r.newValue.text {
          var attempt :- RestoreVoice(r);
          if attempt.Raise? || attempt.value.voice != r.oldValue.text {
            u := GiveUp(r);
            return;
          }
          restored := attempt.value;
        } else {
          // A third voice was stored meanwhile; it is not overwritten.
          u := GiveUp(r);
          return;
        }
        u := SettleRollback(r, digestOf(restored));
      } else if r.rollbackDigest == "" {
        if current.voice != r.oldValue.text {
          u := GiveUp(r);
          return;
        }
        u := SettleRollback(r, digestOf(current));
      } else {
        u := Done(r);
      }
    }

    /** `finish`. */
    method Declare(r: Record, status: Status, detail: Detail) returns (u: Step<Record>)
      requires Owns(r) && Disciplined(Finish(status, detail), r, history)
      modifies this
      ensures Valid() && history.readings == old(history.readings)
      ensures u.Done? ==>
                journal == Some(u.value) && u.value == r.(status := status, detail := detail) && Final(status)
    {
      hide Inv, Run, Apply, Disciplined, Undisturbed;
      u := Write(r, Finish(status, detail));
      if u.Done? {
        FinishedAs(r, Finish(status, detail), u.value);
      }
    }

    /** The record ends as failed. */
    method GiveUp(r: Record) returns (u: Step<Record>)
      requires Owns(r)
      modifies this
      ensures Valid()
      ensures u.Done? ==> journal == Some(u.value) && u.value.id == r.id && u.value.status == Failed
    {
      hide Inv, Run, Apply, Disciplined, Undisturbed;
      FailingIsDisciplined(r, history);
      u := Declare(r, Failed, OtherDetail);
    }

    /** The digest of the configuration just read, which holds the old voice, becomes part of the record. */
    method SettleRollback(r: Record, digest: string) returns (u: Step<Record>)
      requires Owns(r) && r.status == RollingBack && !r.RollbackSettled() && r.oldValue.Text?
      requires JustRead(r, history) && history.readings[r.id] == Reading(r.oldValue.text, digest, r)
      modifies this
      ensures Valid()
      ensures u.Done? ==>
                && journal == Some(u.value) && u.value == r.(rollbackConfigRestored := true, rollbackDigest := digest)
                && u.value.RollbackSettled() && history.readings == old(history.readings)
    {
      hide Inv, Run, Apply, Disciplined, Undisturbed;
      SettlingIsDisciplined(r, history, digest);
      u := Write(r, MarkRollbackConfigRestored(digest));
      if u.Done? {
        RollbackSettles(r, digest, u.value);
      }
    }

    /** `outcome.before or controller.snapshot(...)`: the snapshot in the journal, or else one just taken. */
    ghost predicate FirstLook(r: Record, i: nat, before: Snapshot)
      requires i < |r.rollbackOutcomes|
      reads this
    {
      var o := r.rollbackOutcomes[i];
      o.before == Some(before) || (o.before.None? && JustSeen(r, history, o.service, Some(before)))
    }

    /** The rollback's attempt, journaled before its one restart command. */
    method AttemptRollback(r: Record, i: nat, before: Snapshot) returns (u: Step<Record>)
      requires Owns(r) && r.status == RollingBack && r.RollbackSettled() && i < |r.rollbackOutcomes|
      requires r.rollbackOutcomes[i].status == Pending && !r.rollbackOutcomes[i].attempted && FirstLook(r, i, before)
      modifies this
      ensures Valid()
      ensures u.Done? ==>
                && Owns(u.value)
                && u.value == r.(rollbackOutcomes :=
                     r.rollbackOutcomes[i := r.rollbackOutcomes[i].(before := Some(before), attempted := true)])
    {
      hide Inv, Run, Apply, Disciplined, Advances, RollbackOk;
      var pending := r.rollbackOutcomes[i].(before := Some(before));
      var attempted := pending.(attempted := true);
      RollbackFacts(r, Now());
      RollbackAttemptAdvances(r.rollbackOutcomes[i], before, r.rollbackDigest);
      RollbackDiscipline(r, history, i, attempted);
      var r1 :- Write(r, UpdateRollbackOutcome(attempted));
      RollbackWritten(r, history, i, attempted, r1);
      var _ :- External(r1, RestartCall(r.id, Rollback, attempted.service));
      return Done(r1);
    }

    /** Restart once, unless an earlier execution already did, and reconcile with what the service shows. */
    method RollbackRestart(r: Record, i: nat, before: Snapshot) returns (u: Step<Record>)
      requires Owns(r) && r.status == RollingBack && r.RollbackSettled() && i < |r.rollbackOutcomes|
      requires r.rollbackOutcomes[i].status == Pending && FirstLook(r, i, before)
      modifies this
      ensures Valid()
      ensures u.Done? ==> Owns(u.value) && RollbackOutcomeSettled(r, u.value, i)
    {
      hide Inv, Run, Apply, Observation, Disciplined, Advances, RollbackOk;
      RollbackFacts(r, Now());
      var r1 := r;
      if !r.rollbackOutcomes[i].attempted {
        r1 :- AttemptRollback(r, i, before);
      }
      var pending := r.rollbackOutcomes[i].(before := Some(before), attempted := true);
      var settled :- ObserveRestart(r1, pending, r.rollbackDigest, None);
      ObservationAdvances(pending, settled, r.rollbackDigest, None);
      AdvancesFrom(r1.rollbackOutcomes[i], pending, settled);
      RollbackFacts(r1, Now());
      RollbackDiscipline(r1, history, i, settled);
      u := Write(r1, UpdateRollbackOutcome(settled));
      if u.Done? {
        RollbackWritten(r1, history, i, settled, u.value);
      }
    }

    /** One round of the rollback loop. */
    method RollbackTarget(r: Record, i: nat) returns (u: Step<Record>)
      requires Owns(r) && r.status == RollingBack && r.RollbackSettled() && i < |r.rollbackOutcomes|
      requires r.rollbackOutcomes[i].status == Pending
      modifies this
      ensures Valid()
      ensures u.Done? ==> Owns(u.value) && RollbackOutcomeSettled(r, u.value, i)
    {
      hide Inv, Run, Apply, Observation, Disciplined, Advances, RollbackOk;
      var outcome := r.rollbackOutcomes[i];
      var before: Snapshot;
      if outcome.before.Some? {
        before := outcome.before.value;
      } else {
        before :- Snapshot(outcome.service, r);
      }
      if before.Active() && before.configDigest != r.rollbackDigest {
        u := RollbackRestart(r, i, before);
        return;
      }
      var settled := if before.Active()
        then outcome.(status := Restarted, before := Some(before), after := Some(before))
        else outcome.(status := NotRestarted, before := Some(before));
      UntouchedAdvances(outcome, before, settled, r.rollbackDigest);
      RollbackFacts(r, Now());
      RollbackDiscipline(r, history, i, settled);
      u := Write(r, UpdateRollbackOutcome(settled));
      if u.Done? {
        RollbackWritten(r, history, i, settled, u.value);
      }
    }

    method RollbackAll(r: Record) returns (u: Step<Record>)
      requires Owns(r) && r.status == RollingBack && r.RollbackSettled()
      modifies this
      ensures Valid()
      ensures u.Done? ==>
                && Owns(u.value) && u.value == r.(rollbackOutcomes := u.value.rollbackOutcomes)
                && |u.value.rollbackOutcomes| == |r.rollbackOutcomes|
                && forall i :: 0 <= i < |u.value.rollbackOutcomes| ==> u.value.rollbackOutcomes[i].status != Pending
    {
      hide Inv, Run, Valid, Executing;
      var r1 := r;
      for i := 0 to |r.rollbackOutcomes|
        invariant Owns(r1) && r1 == r.(rollbackOutcomes := r1.rollbackOutcomes)
        invariant |r1.rollbackOutcomes| == |r.rollbackOutcomes|
        invariant forall j :: 0 <= j < i ==> r1.rollbackOutcomes[j].status != Pending
        invariant forall j :: i <= j < |r.rollbackOutcomes| ==> r1.rollbackOutcomes[j] == r.rollbackOutcomes[j]
      {
        if r.rollbackOutcomes[i].status == Pending {
          r1 :- RollbackTarget(r1, i);
        }
      }
      return Done(r1);
    }

    /** `_execute_voice_rollback`: it always ends in FAILED, and says how much it restored. */
    method ExecuteRollback(r: Record) returns (u: Step<Record>)
      requires Owns(r) && r.status == RollingBack
      modifies this
      ensures Valid()
      ensures u.Done? ==> journal == Some(u.value) && u.value.id == r.id && u.value.status == Failed
    {
      hide Inv, Run, Apply, Disciplined, Undisturbed;
      var r1 :- RestoreConfig(r);
      if r1.status == Failed {
        return Done(r1);
      }
      r1 :- RollbackAll(r1);
      var final :- LoadConfig(r1);
      var restored := digestOf(final) == r1.rollbackDigest && AllRestarted(r1.rollbackOutcomes);
      RollbackReportIsDisciplined(r1, Now(), restored);
      u := Declare(r1, Failed, if restored then FullyRestored else OtherDetail);
    }

    /** `begin_rollback`, and the rollback. */
    method TurnBack(r: Record) returns (u: Step<Record>)
      requires Owns(r)
      modifies this
      ensures Valid()
      ensures u.Done? ==> journal == Some(u.value) && u.value.id == r.id && u.value.status == Failed
    {
      hide Inv, Run, Apply, Disciplined, Undisturbed;
      BeginRollbackIsDisciplined(r, history);
      var r1 :- Write(r, BeginRollback);
      RollbackBegun(r, r1);
      u := ExecuteRollback(r1);
    }

    // ------------------------------------------------------------------- verdict

    /** The final classification once nothing is left to turn back. */
    method Conclude(r: Record, storedMatches: bool) returns (u: Step<Record>)
      requires Owns(r) && r.status == Restarting && JustRead(r, history)
      requires forall i :: 0 <= i < |r.outcomes| ==> r.outcomes[i].status != Pending
      requires r.IsVoice() ==> AllRestarted(r.outcomes) && r.newValue == Text(history.readings[r.id].voice)
      requires storedMatches <==> history.readings[r.id].digest == r.expectedDigest
      modifies this
      ensures Valid()
      ensures u.Done? ==> journal == Some(u.value) && Final(u.value.status) && u.value.id == r.id
      ensures u.Done? ==> Justified(r, u.value, history)
    {
      hide Inv, Run, Apply, Disciplined, Undisturbed, Justified, AllRestarted, VerdictOf, Valid, Executing, Final;
      VerdictIsDisciplined(r, history, storedMatches);
      u := Declare(r, VerdictOf(r, storedMatches), OtherDetail);
      if u.Done? {
        VerdictIsJustified(r, u.value, history, storedMatches);
      }
    }

    /** The final classification, on the settled outcomes and the configuration stored now. */
    method Classify(r: Record) returns (u: Step<Record>)
      requires Owns(r) && r.status == Restarting
      requires forall i :: 0 <= i < |r.outcomes| ==> r.outcomes[i].status != Pending
      modifies this
      ensures Valid()
      ensures u.Done? ==> journal == Some(u.value) && u.value.id == r.id && Final(u.value.status)
      ensures u.Done? ==> Justified(r, u.value, history)
    {
      hide Inv, Run, Apply, Disciplined, Undisturbed, Justified, AllRestarted, VerdictOf;
      var final :- LoadConfig(r);
      var storedMatches := digestOf(final) == r.expectedDigest;
      var voiceOwned := r.IsVoice() && r.newValue == Text(final.voice);
      if r.IsVoice() && (!voiceOwned || !AllRestarted(r.outcomes)) {
        u := TurnBack(r);
        if u.Done? {
          FailureIsJustified(r, u.value, history);
        }
      } else {
        u := Conclude(r, storedMatches);
      }
    }

    /** `_execute_activation` for a record that is ready, or that a killed execution left restarting. */
    method Activate(r: Record) returns (u: Step<Record>)
      requires Owns(r) && (r.status == Ready || r.status == Restarting)
      requires r.id in history.mayRefresh
      modifies this
      ensures Valid()
      ensures u.Done? ==> journal == Some(u.value) && u.value.id == r.id && Final(u.value.status)
    {
      hide Inv, Run;
      var stored :- LoadConfig(r);
      if digestOf(stored) != r.expectedDigest {
        if !r.IsVoice() {
          u := Abandon(r);
          return;
        }
        if r.newValue != Text(stored.voice) {
          u := TurnBack(r);
          return;
        }
      }
      var r1 :- ReachRestarting(r);
      if r1.status == RollingBack {
        u := ExecuteRollback(r1);
        return;
      }
      r1 :- RestartAll(r1);
      u := Classify(r1);
    }

    /** The configuration is not the one that was offered: nothing restarts. */
    method Abandon(r: Record) returns (u: Step<Record>)
      requires Owns(r) && (r.status == Ready || r.status == Restarting) && !r.IsVoice()
      modifies this
      ensures Valid()
      ensures u.Done? ==> journal == Some(u.value) && u.value.id == r.id && u.value.status == Failed
    {
      hide Inv, Run, Apply, Disciplined, Undisturbed;
      var r1 := r;
      if r.status == Ready {
        ReadyFacts(r, Now());
        FreshRestartIsDisciplined(r, history);
        r1 :- Write(r, BeginRestart(r.outcomes));
        RestartBegun(r, r1);
      }
      u := GiveUp(r1);
    }

    /** From READY to RESTARTING, with the voice checks on the way; or into a rollback. */
    method ReachRestarting(r: Record) returns (u: Step<Record>)
      requires Owns(r) && (r.status == Ready || r.status == Restarting)
      requires r.id in history.mayRefresh
      modifies this
      ensures Valid()
      ensures u.Done? ==> Owns(u.value) && u.value.id == r.id && (u.value.status == Restarting || u.value.status == RollingBack)
    {
      hide Inv, Run;
      if r.status == Restarting {
        return Done(r);
      }
      var r1 := r;
      if r.IsVoice() {
        if !r.voiceValidated {
          r1 :- ValidateVoice(r);
        }
        if r1.status == Ready {
          r1 :- RefreshVoiceDigest(r1);
        }
        if r1.status == RollingBack {
          return Done(r1);
        }
      }
      u := BeginRestarts(r1);
    }

    /** `finish` on a record no executor has begun. */
    method FailUnstarted(id: string) returns (u: Step<Record>)
      requires Valid() && NotBegun(journal, id)
      modifies this
      ensures Valid()
      ensures u.Done? ==> journal == Some(u.value) && u.value.id == id && u.value.status == Failed
    {
      hide Inv, Run, Apply, Disciplined, ExecutorOp, Arms, AfterOp, Undisturbed;
      if journal.None? || journal.value.id != id {
        return Interrupted;
      }
      ghost var s := Now();
      FailingUnstarted(journal.value, history);
      var failed := journal.value.(status := Failed, detail := OtherDetail);
      RecordsKnown(s, Finish(Failed, OtherDetail), failed);
      journal := Some(failed);
      history := AfterOp(history, Finish(Failed, OtherDetail), failed, true);
      armed := None;
      Moved(s, WriteEvent(Finish(Failed, OtherDetail)));
      return Done(failed);
    }

    /** An execution asked for before the user's consent was complete: it can only fail the record, or raise. */
    method ExecuteUnstarted(r: Record) returns (u: Step<Record>)
      requires Valid() && journal == Some(r) && (r.status == Offered || r.status == Accepted)
      modifies this
      ensures Valid()
      ensures u.Done? ==> journal == Some(u.value) && u.value.id == r.id && u.value.status == Failed
    {
      hide Inv, Run, Apply, Disciplined, ExecutorOp, Arms, AfterOp, Undisturbed;
      RecordIsKnown(r, Now());
      ghost var found := Now();
      Interfere();
      StillNotBegun(found, Now(), r.id);
      if * {
        return Interrupted;
      }
      ghost var read := Now();
      if digestOf(config) == r.expectedDigest {
        return Interrupted;  // not executable
      }
      Interfere();
      StillNotBegun(read, Now(), r.id);
      u := FailUnstarted(r.id);
    }

    /** `execute_activation`: execute or reconcile one record; a returned record is final. */
    method Execute(recordId: string) returns (u: Step<Record>)
      requires Valid()
      modifies this
      ensures Valid()
      ensures u.Done? ==> journal == Some(u.value) && u.value.id == recordId && Final(u.value.status)
    {
      hide Inv, Run;
      Interfere();
      if journal.None? || journal.value.id != recordId {
        return Interrupted;
      }
      var r := journal.value;
      ghost var s := Now();
      StartKeepsInv(s);
      history := history.(runs := history.runs + multiset{r.id}, mayRefresh := history.mayRefresh + {r.id});
      armed := None;
      Moved(s, StartEvent);
      if Final(r.status) {
        return Done(r);
      }
      if r.status == Offered || r.status == Accepted {
        u := ExecuteUnstarted(r);
      } else if r.status == RollingBack {
        u := ExecuteRollback(r);
      } else if r.status == Validating {
        // The attempt is durable, its result is not: neither repeated nor trusted.
        ValidatingFacts(r, Now());
        u := TurnBack(r);
      } else {
        u := Activate(r);
      }
    }

    // ------------------------------------------------------------ unbounded runs

    /** The process of an execution is gone. */
    ghost method End()
      requires Valid()
      modifies this`armed, this`states, this`events
      ensures Valid() && armed == None
    {
      hide Inv, Run;
      ghost var s := Now();
      armed := None;
      Moved(s, EndEvent);
    }

    /**
     Any number of executions, each killed anywhere or run to its end, with user steps between and
     during them, and with the daemon giving up on workers in between.
    */
    method Live(rounds: nat)
      requires Valid()
      modifies this
      ensures Valid()
      ensures forall c: Call :: Occurrences(events, c) <= 1
    {
      hide Inv, Run, Apply, AfterOp, Undisturbed;
      End();
      for i := 0 to rounds
        invariant Valid() && armed == None
      {
        var id: string := *;
        if * {
          var _ := UserStep(id, FailWorker);
        } else if * {
          var _ := UserStep(id, BeginRollback);
        } else if * {
          UserAction();
        } else {
          var _ := Execute(id);
        }
        End();
      }
      forall c: Call ensures Occurrences(events, c) <= 1 {
        CallsHappenAtMostOnce(states, events, c);
      }
    }
  }

  function CountRestarted(outcomes: seq<Outcome>): nat {
    if outcomes == [] then 0 else (if outcomes[0].status == Restarted then 1 else 0) + CountRestarted(outcomes[1..])
  }

  /** `succeeded == len(outcomes)`. */
  predicate AllRestarted(outcomes: seq<Outcome>)
    ensures AllRestarted(outcomes) <==> forall i :: 0 <= i < |outcomes| ==> outcomes[i].status == Restarted
  {
    CountRestartedBounds(outcomes);
    CountRestarted(outcomes) == |outcomes|
  }

  /** `succeeded` read as a truth value. */
  predicate AnyRestarted(outcomes: seq<Outcome>)
    ensures AnyRestarted(outcomes) <==> exists i :: 0 <= i < |outcomes| && outcomes[i].status == Restarted
  {
    CountRestartedBounds(outcomes);
    CountRestarted(outcomes) != 0
  }

  lemma {:induction false} CountRestartedBounds(outcomes: seq<Outcome>)
    ensures CountRestarted(outcomes) <= |outcomes|
    ensures CountRestarted(outcomes) == |outcomes| <==> forall i :: 0 <= i < |outcomes| ==> outcomes[i].status == Restarted
    ensures CountRestarted(outcomes) > 0 <==> exists i :: 0 <= i < |outcomes| && outcomes[i].status == Restarted
  {
    if outcomes != [] {
      CountRestartedBounds(outcomes[1..]);
      assert forall i :: 0 < i < |outcomes| ==> outcomes[i] == outcomes[1..][i - 1];
    }
  }

  /** The outcome an observation leaves: only the verdict and the snapshot behind it are new. */
  predicate Observation(before: Outcome, o: Outcome, digest: string, voice: Option<string>) {
    && o == before.(status := o.status, after := o.after)
    && o.after.Some?
    && o.status == if Observed(before.before, o.after.value, digest, voice) then Restarted else NotRestarted
  }

  lemma ObservationAdvances(before: Outcome, o: Outcome, digest: string, voice: Option<string>)
    requires before.status == Pending && before.attempted && Observation(before, o, digest, voice)
    ensures o.service == before.service && o.attempted && o.status != Pending
    ensures Advances(before, o) && ForwardOk(o, digest, voice) && o.before == before.before
    ensures voice == None && before.before.Some? ==> RollbackOk(o, digest)
  {
  }

  lemma AttemptAdvances(before: Outcome, digest: string, voice: Option<string>)
    requires before.status == Pending && !before.attempted
    ensures var o := before.(attempted := true); Advances(before, o) && ForwardOk(o, digest, voice)
  {
  }

  /** `u` is `r` with outcome `i` settled. */
  predicate OutcomeSettled(r: Record, u: Record, i: nat)
    requires i < |r.outcomes|
  {
    && |u.outcomes| == |r.outcomes|
    && u.outcomes[i].status != Pending
    && u == r.(outcomes := r.outcomes[i := u.outcomes[i]])
  }

  /** What the invariant says about the forward outcomes of the record at work. */
  lemma ForwardFacts(r: Record, s: State)
    requires Inv(s) && s.journal == Some(r)
    ensures Distinct(r.targets) && ServicesMatch(r.outcomes, r.targets)
  {
    JournalRecord(s.journal, s.history);
  }

  lemma ForwardDiscipline(r: Record, h: History, i: nat, o: Outcome)
    requires Distinct(r.targets) && ServicesMatch(r.outcomes, r.targets) && i < |r.outcomes|
    requires Advances(r.outcomes[i], o) && ForwardOk(o, r.expectedDigest, r.ExpectedVoice())
    requires ForwardShown(r, h, r.outcomes[i], o)
    ensures Disciplined(UpdateOutcome(o), r, h)
  {
  }

  lemma ForwardWritten(r: Record, h: History, i: nat, o: Outcome, u: Record)
    requires Distinct(r.targets) && ServicesMatch(r.outcomes, r.targets) && i < |r.outcomes|
    requires o.service == r.outcomes[i].service && Apply(UpdateOutcome(o), r) == Ok(u)
    ensures u == r.(outcomes := r.outcomes[i := o])
  {
    ReplaceAt(r.outcomes, r.targets, o, i);
    assert u.outcomes[i] == o;
  }

  /**
   The final status is the one the outcomes and the configuration read for the verdict call for. A voice record
   that does not succeed has failed, by way of its rollback.
  */
  ghost predicate Justified(r: Record, u: Record, h: History) {
    if r.IsVoice() then
      || u.status == Failed
      || (u == r.(status := Succeeded, detail := OtherDetail)
          && AllRestarted(r.outcomes) && JustRead(r, h) && r.newValue == Text(h.readings[r.id].voice))
    else
      && JustRead(r, h) && u == r.(status := u.status, detail := OtherDetail)
      && u.status == if AllRestarted(r.outcomes) && h.readings[r.id].digest == r.expectedDigest then Succeeded
                     else if AnyRestarted(r.outcomes) then Partial
                     else Failed
  }

  lemma FailureIsJustified(r: Record, u: Record, h: History)
    requires r.IsVoice() && u.status == Failed
    ensures Justified(r, u, h)
  {
  }

  /** The status once a voice record has not been turned back. */
  function VerdictOf(r: Record, storedMatches: bool): Status {
    if r.IsVoice() then Succeeded
    else if !storedMatches then (if AnyRestarted(r.outcomes) then Partial else Failed)
    else if AllRestarted(r.outcomes) then Succeeded
    else if AnyRestarted(r.outcomes) then Partial
    else Failed
  }

  lemma VerdictIsJustified(r: Record, u: Record, h: History, storedMatches: bool)
    requires JustRead(r, h) && u == r.(status := VerdictOf(r, storedMatches), detail := OtherDetail)
    requires r.IsVoice() ==> AllRestarted(r.outcomes) && r.newValue == Text(h.readings[r.id].voice)
    requires storedMatches <==> h.readings[r.id].digest == r.expectedDigest
    ensures Justified(r, u, h)
  {
  }

  lemma FreshRestartIsDisciplined(r: Record, h: History)
    requires !r.IsVoice() && ServicesMatch(r.outcomes, r.targets) && AllFresh(r.outcomes)
    ensures Disciplined(BeginRestart(r.outcomes), r, h)
  {
  }

  lemma RestartBegun(r: Record, u: Record)
    requires Apply(BeginRestart(r.outcomes), r) == Ok(u)
    ensures u.id == r.id && u.status == Restarting
  {
  }

  lemma FailingIsDisciplined(r: Record, h: History)
    requires Executing(r.status)
    ensures Disciplined(Finish(Failed, OtherDetail), r, h)
  {
  }

  lemma BeginRollbackIsDisciplined(r: Record, h: History)
    ensures Disciplined(BeginRollback, r, h)
  {
  }

  lemma RollbackBegun(r: Record, u: Record)
    requires Apply(BeginRollback, r) == Ok(u)
    ensures u.id == r.id && u.status == RollingBack
  {
  }

  lemma SettlingIsDisciplined(r: Record, h: History, digest: string)
    requires !r.RollbackSettled() && r.oldValue.Text?
    requires JustRead(r, h) && h.readings[r.id] == Reading(r.oldValue.text, digest, r)
    ensures Disciplined(MarkRollbackConfigRestored(digest), r, h)
  {
  }

  lemma RollbackSettles(r: Record, digest: string, u: Record)
    requires Apply(MarkRollbackConfigRestored(digest), r) == Ok(u)
    ensures u == r.(rollbackConfigRestored := true, rollbackDigest := digest) && u.RollbackSettled()
  {
  }

  lemma FinishedAs(r: Record, op: Op, u: Record)
    requires op.Finish? && Apply(op, r) == Ok(u)
    ensures u == r.(status := op.status, detail := op.detail) && Final(u.status)
  {
  }

  lemma VerdictIsDisciplined(r: Record, h: History, storedMatches: bool)
    requires r.status == Restarting && JustRead(r, h)
    requires forall i :: 0 <= i < |r.outcomes| ==> r.outcomes[i].status != Pending
    requires r.IsVoice() ==> AllRestarted(r.outcomes) && r.newValue == Text(h.readings[r.id].voice)
    requires storedMatches <==> h.readings[r.id].digest == r.expectedDigest
    ensures Disciplined(Finish(VerdictOf(r, storedMatches), OtherDetail), r, h)
  {
  }

  lemma RollbackReportIsDisciplined(r: Record, s: State, restored: bool)
    requires Inv(s) && s.journal == Some(r) && r.status == RollingBack
    requires restored ==>
               && AllRestarted(r.rollbackOutcomes) && r.RollbackSettled()
               && JustRead(r, s.history) && s.history.readings[r.id].digest == r.rollbackDigest
    ensures Disciplined(Finish(Failed, if restored then FullyRestored else OtherDetail), r, s.history)
  {
    RollingBackFacts(r, s);
  }

  lemma StillNotBegun(s: State, s': State, id: string)
    requires Undisturbed(s, s') && id in s.history.records && NotBegun(s.journal, id)
    ensures NotBegun(s'.journal, id) && id in s'.history.records
  {
  }

  lemma FailingUnstarted(r: Record, h: History)
    requires NotBegun(Some(r), r.id)
    ensures var op := Finish(Failed, OtherDetail);
            && Disciplined(op, r, h) && Apply(op, r) == Ok(r.(status := Failed, detail := OtherDetail))
            && ExecutorOp(op) && Arms(op, r) == None
  {
  }

  lemma RecordIsKnown(r: Record, s: State)
    requires Inv(s) && s.journal == Some(r)
    ensures r.id in s.history.records
  {
    JournalRecord(s.journal, s.history);
  }

  lemma ReadyFacts(r: Record, s: State)
    requires Inv(s) && s.journal == Some(r) && r.status == Ready
    ensures Distinct(r.targets) && ServicesMatch(r.outcomes, r.targets) && AllFresh(r.outcomes)
    ensures r.voiceValidated == r.voiceValidationAttempted
  {
    JournalRecord(s.journal, s.history);
  }

  lemma ValidatingFacts(r: Record, s: State)
    requires Inv(s) && s.journal == Some(r) && r.status == Validating
    ensures r.IsVoice()
  {
    JournalRecord(s.journal, s.history);
  }

  lemma RollingBackFacts(r: Record, s: State)
    requires Inv(s) && s.journal == Some(r) && r.status == RollingBack
    ensures r.IsVoice() && r.rollbackOutcomes != []
  {
    JournalRecord(s.journal, s.history);
  }

  lemma RollbackFacts(r: Record, s: State)
    requires Inv(s) && s.journal == Some(r) && r.status == RollingBack
    ensures Distinct(r.targets) && ServicesMatch(r.rollbackOutcomes, r.targets)
    ensures forall i :: 0 <= i < |r.rollbackOutcomes| ==>
              && RollbackOk(r.rollbackOutcomes[i], r.rollbackDigest)
              && (r.rollbackOutcomes[i].attempted ==> r.rollbackOutcomes[i].before.Some?)
  {
    JournalRecord(s.journal, s.history);
  }

  lemma RollbackDiscipline(r: Record, h: History, i: nat, o: Outcome)
    requires Distinct(r.targets) && ServicesMatch(r.rollbackOutcomes, r.targets) && i < |r.rollbackOutcomes|
    requires r.RollbackSettled() && Advances(r.rollbackOutcomes[i], o) && RollbackOk(o, r.rollbackDigest)
    requires RollbackShown(r, h, r.rollbackOutcomes[i], o)
    ensures Disciplined(UpdateRollbackOutcome(o), r, h)
  {
  }

  lemma RollbackWritten(r: Record, h: History, i: nat, o: Outcome, u: Record)
    requires Distinct(r.targets) && ServicesMatch(r.rollbackOutcomes, r.targets) && i < |r.rollbackOutcomes|
    requires o.service == r.rollbackOutcomes[i].service && Apply(UpdateRollbackOutcome(o), r) == Ok(u)
    ensures u == r.(rollbackOutcomes := r.rollbackOutcomes[i := o])
  {
    ReplaceAt(r.rollbackOutcomes, r.targets, o, i);
    assert u.rollbackOutcomes[i] == o;
  }

  lemma RollbackAttemptAdvances(o: Outcome, before: Snapshot, digest: string)
    requires o.status == Pending && !o.attempted && RollbackOk(o, digest)
    ensures var a := o.(before := Some(before), attempted := true); Advances(o, a) && RollbackOk(a, digest)
  {
  }

  /** Settling without a restart: already restored, or not running and so left alone. */
  lemma UntouchedAdvances(o: Outcome, before: Snapshot, a: Outcome, digest: string)
    requires o.status == Pending
    requires a == if before.Active() then o.(status := Restarted, before := Some(before), after := Some(before))
                  else o.(status := NotRestarted, before := Some(before))
    requires before.Active() ==> before.configDigest == digest
    ensures Advances(o, a) && RollbackOk(a, digest)
  {
  }

  /** Filling in the snapshot first does not stop an outcome from advancing. */
  lemma AdvancesFrom(stored: Outcome, pending: Outcome, settled: Outcome)
    requires pending == stored.(before := pending.before) && Advances(pending, settled)
    ensures Advances(stored, settled)
  {
  }

  /** `u` is `r` with rollback outcome `i` settled. */
  predicate RollbackOutcomeSettled(r: Record, u: Record, i: nat)
    requires i < |r.rollbackOutcomes|
  {
    && |u.rollbackOutcomes| == |r.rollbackOutcomes|
    && u.rollbackOutcomes[i].status != Pending
    && (forall j :: 0 <= j < |r.rollbackOutcomes| && j != i ==> u.rollbackOutcomes[j] == r.rollbackOutcomes[j])
    && u == r.(rollbackOutcomes := u.rollbackOutcomes)
  }

  lemma DisciplineIsStable(op: Op, r: Record, h: History, h': History)
    requires Disciplined(op, r, h) && h'.refreshes == h.refreshes && h'.runs == h.runs
    requires h'.readings == h.readings && h'.mayRefresh == h.mayRefresh && h'.sightings == h.sightings
    ensures Disciplined(op, r, h')
  {
  }
}
