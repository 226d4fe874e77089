/**
 The evidence of a restart over whole runs: the two snapshots kept with a restarted service were both taken, the
 first before its restart was attempted and the second after, however many executions lie between them.
*/
module ActivationSightings {
  import opened Prelude
  import opened ActivationJournal
  import opened ActivationSafety
  import opened ActivationRuns

  function Outcomes(r: Record, phase: Phase): seq<Outcome> {
    if phase.Forward? then r.outcomes else r.rollbackOutcomes
  }

  /** The executor looked at this service for the record, and it showed this. */
  predicate Looked(s: State, e: Event, id: string, service: string, seen: Option<Snapshot>) {
    && seen.Some? && e == SnapshotEvent(service, seen.value)
    && s.journal.Some? && s.journal.value.id == id
  }

  /** Outcome i is about this service, and its restart has not been attempted. */
  predicate Unattempted(r: Record, phase: Phase, i: nat, service: string) {
    && i < |Outcomes(r, phase)|
    && Outcomes(r, phase)[i].service == service && !Outcomes(r, phase)[i].attempted
  }

  /** Outcome i is that of `o`, with its attempt and its first snapshot in the journal. */
  predicate Attempted(r: Record, phase: Phase, i: nat, o: Outcome) {
    && i < |Outcomes(r, phase)|
    && Outcomes(r, phase)[i].service == o.service && Outcomes(r, phase)[i].before == o.before
    && Outcomes(r, phase)[i].attempted
  }

  ghost predicate TookBefore(s: State, e: Event, id: string, phase: Phase, i: nat, o: Outcome) {
    Looked(s, e, id, o.service, o.before) && Unattempted(s.journal.value, phase, i, o.service)
  }

  ghost predicate TookAfter(s: State, e: Event, id: string, phase: Phase, i: nat, o: Outcome) {
    Looked(s, e, id, o.service, o.after) && Attempted(s.journal.value, phase, i, o)
  }

  // ------------------------------------------------------------------ sightings

  lemma NextSightings(s: State, e: Event, s': State, service: string)
    requires Next(s, e, s') && service in s'.history.sightings
    ensures var x := s'.history.sightings[service];
            || (e == SnapshotEvent(service, x.seen) && s.journal == Some(x.under))
            || (service in s.history.sightings && s.history.sightings[service] == x)
  {
    hide Apply, Disciplined;
  }

  /** A sighting that is remembered was made. */
  lemma {:induction false} SightingsAreReal(states: seq<State>, events: seq<Event>, service: string, n: nat) returns (k: nat)
    requires Run(states, events) && n <= |events| && service in states[n].history.sightings
    ensures k < n
    ensures var x := states[n].history.sightings[service];
            events[k] == SnapshotEvent(service, x.seen) && states[k].journal == Some(x.under)
  {
    hide Next;
    if n == 0 {
      assert false;
    } else {
      NextSightings(states[n - 1], events[n - 1], states[n], service);
      var x := states[n].history.sightings[service];
      if events[n - 1] == SnapshotEvent(service, x.seen) && states[n - 1].journal == Some(x.under) {
        k := n - 1;
      } else {
        k := SightingsAreReal(states, events, service, n - 1);
      }
    }
  }

  // ------------------------------------------------------------- one step of a run

  /** Where the first snapshot of an outcome comes from. */
  ghost predicate BeforeExplained(r: Record, r': Record, h: History, phase: Phase, i: nat)
    requires i < |Outcomes(r', phase)|
  {
    var o := Outcomes(r', phase)[i];
    || o.before.None?
    || (i < |Outcomes(r, phase)| && Outcomes(r, phase)[i].service == o.service && Outcomes(r, phase)[i].before == o.before)
    || (JustSeen(r, h, o.service, o.before) && i < |Outcomes(r, phase)| && Outcomes(r, phase)[i].service == o.service
        && Outcomes(r, phase)[i].before.None? && (phase.Forward? ==> r.status.Ready?))
  }

  /** Where its last snapshot comes from. */
  ghost predicate AfterExplained(r: Record, r': Record, h: History, phase: Phase, i: nat)
    requires i < |Outcomes(r', phase)|
  {
    var o := Outcomes(r', phase)[i];
    || o.after.None? || o.after == o.before
    || (i < |Outcomes(r, phase)| && Outcomes(r, phase)[i].service == o.service
        && Outcomes(r, phase)[i].before == o.before && Outcomes(r, phase)[i].after == o.after)
    || (JustSeen(r, h, o.service, o.after) && Attempted(r, phase, i, o))
  }

  lemma WriteExplained(op: Op, r: Record, r': Record, h: History, phase: Phase, i: nat)
    requires RecordSafe(r, h) && Disciplined(op, r, h) && Apply(op, r) == Ok(r') && i < |Outcomes(r', phase)|
    ensures BeforeExplained(r, r', h, phase, i) && AfterExplained(r, r', h, phase, i)
  {
  }

  /** The outcomes of the record stayed, or are new, or are explained by a write of the record in the journal. */
  ghost predicate StepExplained(s: State, s': State, id: string, phase: Phase, i: nat)
    requires id in s'.history.records && i < |Outcomes(s'.history.records[id], phase)|
  {
    var r' := s'.history.records[id];
    || (id in s.history.records && Outcomes(s.history.records[id], phase) == Outcomes(r', phase))
    || (Outcomes(r', phase)[i].before.None? && Outcomes(r', phase)[i].after.None?)
    || (&& s.journal.Some? && s.journal.value.id == id && id in s.history.records && s.history.records[id] == s.journal.value
        && BeforeExplained(s.journal.value, r', s.history, phase, i)
        && AfterExplained(s.journal.value, r', s.history, phase, i))
  }

  lemma NextExplained(s: State, e: Event, s': State, id: string, phase: Phase, i: nat)
    requires Inv(s) && Next(s, e, s') && id in s'.history.records
    requires i < |Outcomes(s'.history.records[id], phase)|
    ensures StepExplained(s, s', id, phase, i)
  {
    hide Apply, Disciplined, BeforeExplained, AfterExplained, ConfigSafe, ArmedOk, RecordSafe;
    if s.journal.Some? {
      JournalRecord(s.journal, s.history);
      if e.UserEvent? || e.DaemonEvent? || e.WriteEvent? {
        ApplyKeepsId(e.op, s.journal.value, s'.journal.value);
        if id == s.journal.value.id {
          if e.WriteEvent? || e.DaemonEvent? {
            StepIsDisciplined(s, e, s');
            WriteExplained(e.op, s.journal.value, s'.journal.value, s.history, phase, i);
          } else {
            UserLeavesOutcomes(e.op, s.journal.value, s'.journal.value);
          }
        }
      }
    }
  }

  lemma StepIsDisciplined(s: State, e: Event, s': State)
    requires Next(s, e, s') && (e.WriteEvent? || e.DaemonEvent?)
    ensures Disciplined(e.op, s.journal.value, s.history)
  {
  }

  lemma UserLeavesOutcomes(op: Op, r: Record, r': Record)
    requires UserOp(op) && Apply(op, r) == Ok(r')
    ensures r'.outcomes == r.outcomes && r'.rollbackOutcomes == r.rollbackOutcomes
  {
    hide FreshOutcomes, ReplaceOutcome, IsDigest;
  }

  /** What was seen for the first time was seen before any attempt. */
  lemma FirstSeenUnattempted(r: Record, h: History, phase: Phase, i: nat)
    requires RecordSafe(r, h) && i < |Outcomes(r, phase)|
    requires Outcomes(r, phase)[i].before.None? && (phase.Forward? ==> r.status.Ready?)
    ensures !Outcomes(r, phase)[i].attempted
  {
    if phase.Forward? {
      assert Fresh(r.outcomes[i]);
    } else {
      assert RollbackOk(r.rollbackOutcomes[i], r.rollbackDigest);
    }
  }

  // --------------------------------------------------------------------- whole runs

  /** The first snapshot of an outcome was taken, and before its restart was attempted. */
  lemma {:induction false} BeforeWasTaken(states: seq<State>, events: seq<Event>, n: nat, id: string, phase: Phase, i: nat)
    requires Run(states, events) && n <= |events| && id in states[n].history.records
    requires i < |Outcomes(states[n].history.records[id], phase)|
    ensures var o := Outcomes(states[n].history.records[id], phase)[i];
            o.before.Some? ==> exists k :: 0 <= k < n && TookBefore(states[k], events[k], id, phase, i, o)
  {
    hide Next, Inv, RecordSafe;
    var o := Outcomes(states[n].history.records[id], phase)[i];
    if n > 0 && o.before.Some? {
      var s := states[n - 1];
      RunsKeepInv(states, events, n - 1);
      NextExplained(s, events[n - 1], states[n], id, phase, i);
      var r := s.history.records[id];
      if i < |Outcomes(r, phase)| && Outcomes(r, phase)[i].service == o.service && Outcomes(r, phase)[i].before == o.before {
        BeforeWasTaken(states, events, n - 1, id, phase, i);
        var k :| 0 <= k < n - 1 && TookBefore(states[k], events[k], id, phase, i, Outcomes(r, phase)[i]);
        assert TookBefore(states[k], events[k], id, phase, i, o);
      } else {
        RecordKept(s, id);
        FirstSeenUnattempted(r, s.history, phase, i);
        var k := SightingsAreReal(states, events, o.service, n - 1);
        assert TookBefore(states[k], events[k], id, phase, i, o);
      }
    }
  }

  /** Its last snapshot, if it is another one, was taken after. */
  lemma {:induction false} AfterWasTaken(states: seq<State>, events: seq<Event>, n: nat, id: string, phase: Phase, i: nat)
    requires Run(states, events) && n <= |events| && id in states[n].history.records
    requires i < |Outcomes(states[n].history.records[id], phase)|
    ensures var o := Outcomes(states[n].history.records[id], phase)[i];
            o.after.Some? && o.after != o.before ==>
              exists k :: 0 <= k < n && TookAfter(states[k], events[k], id, phase, i, o)
  {
    hide Next, Inv, RecordSafe;
    var o := Outcomes(states[n].history.records[id], phase)[i];
    if n > 0 && o.after.Some? && o.after != o.before {
      var s := states[n - 1];
      RunsKeepInv(states, events, n - 1);
      NextExplained(s, events[n - 1], states[n], id, phase, i);
      var r := s.history.records[id];
      if i < |Outcomes(r, phase)| && Outcomes(r, phase)[i].service == o.service && Outcomes(r, phase)[i].before == o.before
         && Outcomes(r, phase)[i].after == o.after {
        AfterWasTaken(states, events, n - 1, id, phase, i);
        var k :| 0 <= k < n - 1 && TookAfter(states[k], events[k], id, phase, i, Outcomes(r, phase)[i]);
        assert TookAfter(states[k], events[k], id, phase, i, o);
      } else {
        var k := SightingsAreReal(states, events, o.service, n - 1);
        assert TookAfter(states[k], events[k], id, phase, i, o);
      }
    }
  }

  /** Two snapshots of the service, before and after the attempt, stand behind outcome `o`. */
  ghost predicate ObservedTwice(states: seq<State>, events: seq<Event>, n: nat, id: string, phase: Phase, i: nat, o: Outcome)
    requires |states| == |events| + 1 && n <= |events|
  {
    exists j, k :: 0 <= j < k < n && TookBefore(states[j], events[j], id, phase, i, o)
                   && TookAfter(states[k], events[k], id, phase, i, o)
  }

  lemma OnceEach(states: seq<State>, events: seq<Event>, n: nat, id: string, phase: Phase, i: nat)
    requires Run(states, events) && n <= |events| && id in states[n].history.records
    requires i < |Outcomes(states[n].history.records[id], phase)|
    ensures var o := Outcomes(states[n].history.records[id], phase)[i];
            o.before.Some? && o.after.Some? && o.after != o.before ==> ObservedTwice(states, events, n, id, phase, i, o)
  {
    hide Next, Inv;
    var o := Outcomes(states[n].history.records[id], phase)[i];
    if o.before.Some? && o.after.Some? && o.after != o.before {
      AfterWasTaken(states, events, n, id, phase, i);
      var k :| 0 <= k < n && TookAfter(states[k], events[k], id, phase, i, o);
      RunsKeepInv(states, events, k);
      JournalIsRecorded(states[k]);
      BeforeWasTaken(states, events, k, id, phase, i);
      var p := Outcomes(states[k].history.records[id], phase)[i];
      var j :| 0 <= j < k && TookBefore(states[j], events[j], id, phase, i, p);
      assert TookBefore(states[j], events[j], id, phase, i, o);
    }
  }

  /**
   In every run, whatever an outcome says was restarted was looked at twice, before its restart was attempted and
   after, and showed another identity the second time and what was expected of it; except that a rollback leaves
   a service alone which it found running with the restored configuration.
  */
  lemma RestartsWereObserved(states: seq<State>, events: seq<Event>, n: nat, id: string, phase: Phase, i: nat)
    requires Run(states, events) && n <= |events| && id in states[n].history.records
    requires i < |Outcomes(states[n].history.records[id], phase)|
    requires Outcomes(states[n].history.records[id], phase)[i].status == Restarted
    ensures var r := states[n].history.records[id];
            var o := Outcomes(r, phase)[i];
            var (digest, voice) := if phase.Forward? then (r.expectedDigest, r.ExpectedVoice()) else (r.rollbackDigest, None);
            || (&& o.after.Some? && Observed(o.before, o.after.value, digest, voice)
                && ObservedTwice(states, events, n, id, phase, i, o))
            || (&& phase.Rollback? && AlreadyRestored(o, digest)
                && exists k :: 0 <= k < n && TookBefore(states[k], events[k], id, phase, i, o))
  {
    hide Next, Inv, TookBefore, ObservedTwice;
    RunsKeepInv(states, events, n);
    RecordKept(states[n], id);
    OutcomeIsOk(states[n].history.records[id], states[n].history, phase, i);
    OnceEach(states, events, n, id, phase, i);
    BeforeWasTaken(states, events, n, id, phase, i);
  }

  lemma OutcomeIsOk(r: Record, h: History, phase: Phase, i: nat)
    requires RecordSafe(r, h) && i < |Outcomes(r, phase)|
    ensures if phase.Forward? then ForwardOk(r.outcomes[i], r.expectedDigest, r.ExpectedVoice())
            else RollbackOk(r.rollbackOutcomes[i], r.rollbackDigest)
  {
  }
}
