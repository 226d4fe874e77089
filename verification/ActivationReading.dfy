/**
 Reading the journal back (config_activation.py, `_record_from_dict`): a record is rejected unless its identity,
 targets and outcomes fit together. Whatever happened before, the journal never gets into a state that the next
 execution could not read.
*/
module ActivationReading {
  import opened Prelude
  import opened ActivationJournal
  import opened ActivationSafety
  import opened ActivationRuns

  function Services(outcomes: seq<Outcome>): (r: seq<string>)
    ensures |r| == |outcomes|
  {
    seq(|outcomes|, i requires 0 <= i < |outcomes| => outcomes[i].service)
  }

  /** The checks `_record_from_dict` makes on what was stored; `known` are the services with a unit file. */
  predicate Readable(r: Record, known: set<string>) {
    && |r.id| == 32 && IsHex(r.id)
    && (r.rollbackDigest == "" || IsDigest(r.rollbackDigest))
    && r.targets != [] && (forall s :: s in r.targets ==> s in known)
    && Services(r.outcomes) == r.targets
    && (r.rollbackOutcomes == [] || Services(r.rollbackOutcomes) == r.targets)
  }

  /** The part of it that the ledger does not say already. */
  predicate WellNamed(r: Record, known: set<string>) {
    && |r.id| == 32 && IsHex(r.id)
    && (r.rollbackDigest == "" || IsDigest(r.rollbackDigest))
    && (forall s :: s in r.targets ==> s in known)
  }

  /** `create_offer` takes a uuid4 for the identity and refuses unknown services. */
  predicate GoodOffer(e: Event, known: set<string>) {
    e.OfferEvent? ==> |e.offer.id| == 32 && IsHex(e.offer.id) && forall s :: s in e.offer.targets ==> s in known
  }

  lemma ApplyKeepsNames(op: Op, r: Record, known: set<string>)
    requires WellNamed(r, known) && Apply(op, r).Ok?
    ensures WellNamed(Apply(op, r).value, known)
  {
  }

  lemma NextKeepsNames(s: State, e: Event, s': State, known: set<string>)
    requires Next(s, e, s') && GoodOffer(e, known)
    requires s.journal.Some? ==> WellNamed(s.journal.value, known)
    ensures s'.journal.Some? ==> WellNamed(s'.journal.value, known)
  {
    hide WellNamed, Apply, Disciplined;
    match e {
      case OfferEvent(r) =>
        NewOfferIsNamed(r, known);
      case UserEvent(op) =>
        ApplyKeepsNames(op, s.journal.value, known);
      case DaemonEvent(op) =>
        ApplyKeepsNames(op, s.journal.value, known);
      case WriteEvent(op) =>
        ApplyKeepsNames(op, s.journal.value, known);
      case _ =>
    }
  }

  lemma NewOfferIsNamed(r: Record, known: set<string>)
    requires IsNewOffer(r) && GoodOffer(OfferEvent(r), known)
    ensures WellNamed(r, known)
  {
  }

  lemma {:induction false} RunsKeepNames(states: seq<State>, events: seq<Event>, n: nat, known: set<string>)
    requires Run(states, events) && n <= |events| && forall i :: 0 <= i < |events| ==> GoodOffer(events[i], known)
    ensures states[n].journal.Some? ==> WellNamed(states[n].journal.value, known)
  {
    hide Next, WellNamed;
    if n > 0 {
      RunsKeepNames(states, events, n - 1, known);
      NextKeepsNames(states[n - 1], events[n - 1], states[n], known);
    }
  }

  lemma MatchingServices(outcomes: seq<Outcome>, targets: seq<string>)
    requires ServicesMatch(outcomes, targets)
    ensures Services(outcomes) == targets
  {
  }

  /** After any run - any crashes, any user and daemon steps - the journal reads back. */
  lemma EveryJournalReadsBack(states: seq<State>, events: seq<Event>, n: nat, known: set<string>)
    requires Run(states, events) && n <= |events| && forall i :: 0 <= i < |events| ==> GoodOffer(events[i], known)
    ensures states[n].journal.Some? ==> Readable(states[n].journal.value, known)
  {
    hide Run, Next, IsHex, IsDigest;
    RunsKeepNames(states, events, n, known);
    RunLength(states, events);
    RunsKeepInv(states, events, n);
    if states[n].journal.Some? {
      var r := states[n].journal.value;
      JournalRecord(states[n].journal, states[n].history);
      assert Ledger(r, states[n].history.calls);
      MatchingServices(r.outcomes, r.targets);
      if r.rollbackOutcomes != [] {
        MatchingServices(r.rollbackOutcomes, r.targets);
      }
    }
  }
}
