/**
 The outbox table (cursor/store.py and cursor/sqlite_store.py): each function is one SQLite transaction.
 A row is named by its rowid; times are clock readings.
*/
module OutboxStore {
  import opened Prelude

  const MAX_ATTEMPTS := 8
  const LEASE_SECONDS := 30
  const RETRY_SECONDS := 5

  datatype Status = Pending | Running | Succeeded | Failed | Retryable | Unknown

  datatype Row = Row(
    job: string,
    kind: string,
    key: string,                  // concurrency_key
    expected: Option<int>,        // payload.expected_revision
    status: Status,
    attempts: nat,
    lease: Option<nat>,           // lease_token
    leasedAt: int,
    fenced: bool,                 // outcome_json is {"fence": "submitted"}
    nextAt: Option<int>)

  datatype Lease = Lease(effect: nat, kind: string, job: string, expected: Option<int>, token: nat, attempts: nat)

  datatype Verdict = Confirmed | ConfirmedAbsent | FailedEffect | OutcomeUnknown | ManualRequired

  /** `retryable` is only legal on a failure. */
  datatype Observation = Observation(verdict: Verdict, retryable: bool) {
    predicate Legal() {
      retryable ==> verdict == FailedEffect
    }
  }

  /** The table, the jobs' revisions, the tokens handed out, and who crossed each effect's fence. */
  datatype State = State(
    rows: seq<Row>,
    revisions: map<string, int>,
    tokens: set<nat>,
    fencedBy: map<nat, nat>)

  predicate Open(r: Row) {
    r.status == Pending || r.status == Retryable
  }

  predicate Settled(r: Row) {
    r.status == Succeeded || r.status == Failed || r.status == Unknown
  }

  predicate Stale(s: State, job: string, expected: Option<int>) {
    expected.Some? && !(job in s.revisions && s.revisions[job] == expected.value)
  }

  // --------------------------------------------------------------- transactions

  /** `insert_outbox_effects`, one row. */
  function Admit(s: State, job: string, kind: string, key: string, expected: Option<int>): State {
    s.(rows := s.rows + [Row(job, kind, key, expected, Pending, 0, None, 0, false, None)])
  }

  /** `abandon_stale_outbox_effects`: superseded effects that nobody holds fail. */
  function AbandonStale(s: State, kinds: set<string>): State {
    s.(rows := seq(|s.rows|, i requires 0 <= i < |s.rows| =>
         var r := s.rows[i];
         if r.kind in kinds && r.lease.None? && Open(r) && Stale(s, r.job, r.expected)
         then r.(status := Failed, fenced := false, nextAt := None) else r))
  }

  predicate Due(s: State, i: nat, kinds: set<string>, now: int, exclude: set<nat>)
    requires i < |s.rows|
  {
    var r := s.rows[i];
    && r.kind in kinds && i !in exclude && r.lease.None? && Open(r)
    && (forall j :: 0 <= j < |s.rows| && s.rows[j].key == r.key ==>
          !(s.rows[j].status == Running && s.rows[j].lease.Some?))
    && (r.nextAt.None? || r.nextAt.value <= now)
  }

  /** `ORDER BY rowid LIMIT 1`. */
  function FirstDue(s: State, from: nat, kinds: set<string>, now: int, exclude: set<nat>): (r: Option<nat>)
    requires from <= |s.rows|
    ensures r.Some? ==> from <= r.value < |s.rows| && Due(s, r.value, kinds, now, exclude)
    ensures forall i :: from <= i < (if r.Some? then r.value else |s.rows|) ==> !Due(s, i, kinds, now, exclude)
    decreases |s.rows| - from
  {
    if from == |s.rows| then None
    else if Due(s, from, kinds, now, exclude) then Some(from)
    else FirstDue(s, from + 1, kinds, now, exclude)
  }

  function Claim(s: State, kinds: set<string>, now: int, token: nat, exclude: set<nat>): (State, Option<Lease>) {
    var t := AbandonStale(s, kinds);
    var found := FirstDue(t, 0, kinds, now, exclude);
    if found.None? then (t, None)
    else
      var i := found.value;
      var r := t.rows[i];
      (t.(rows := t.rows[i := r.(status := Running, lease := Some(token), leasedAt := now, attempts := r.attempts + 1)],
          tokens := t.tokens + {token}),
       Some(Lease(i, r.kind, r.job, r.expected, token, r.attempts + 1)))
  }

  predicate Holds(s: State, l: Lease) {
    l.effect < |s.rows| && s.rows[l.effect].lease == Some(l.token)
  }

  predicate HoldsRunning(s: State, l: Lease) {
    Holds(s, l) && s.rows[l.effect].status == Running
  }

  /** The submit fence. */
  function MarkDispatched(s: State, l: Lease): (State, bool) {
    if HoldsRunning(s, l) && !Stale(s, s.rows[l.effect].job, l.expected) then
      (s.(rows := s.rows[l.effect := s.rows[l.effect].(fenced := true)], fencedBy := s.fencedBy[l.effect := l.token]), true)
    else (s, false)
  }

  function Renew(s: State, l: Lease, now: int): (State, bool) {
    if HoldsRunning(s, l) then (s.(rows := s.rows[l.effect := s.rows[l.effect].(leasedAt := now)]), true)
    else (s, false)
  }

  /** `complete_outbox_observation`: "applied" or not. */
  function Complete(s: State, effect: nat, token: nat, status: Status, nextAt: Option<int>): (State, bool)
  {
    if effect < |s.rows| && s.rows[effect].lease == Some(token) && s.rows[effect].status == Running then
      (s.(rows := s.rows[effect := s.rows[effect].(status := status, lease := None, fenced := false, nextAt := nextAt)]), true)
    else (s, false)
  }

  predicate Dispatched(s: State, l: Lease) {
    Holds(s, l) && s.rows[l.effect].fenced
  }

  function Observe(s: State, l: Lease, o: Observation, now: int): (State, bool) {
    if l.effect >= |s.rows| then (s, false)
    else
      var effective :=
        if o.retryable && s.rows[l.effect].fenced then Observation(OutcomeUnknown, false)
        else if o.retryable && l.attempts >= MAX_ATTEMPTS then Observation(FailedEffect, false)
        else o;
      if effective.verdict == OutcomeUnknown || effective.verdict == ManualRequired then
        Complete(s, l.effect, l.token, Unknown, None)
      else if effective.retryable then Complete(s, l.effect, l.token, Retryable, Some(now + RETRY_SECONDS))
      else if effective.verdict == FailedEffect then Complete(s, l.effect, l.token, Failed, None)
      else Complete(s, l.effect, l.token, Succeeded, None)
  }

  function Release(s: State, l: Lease, now: int): (State, bool) {
    if !Holds(s, l) || s.rows[l.effect].fenced then (s, false)
    else if l.attempts < MAX_ATTEMPTS then Complete(s, l.effect, l.token, Retryable, Some(now + RETRY_SECONDS))
    else Complete(s, l.effect, l.token, Failed, None)
  }

  /** One row of `reap_expired_outbox_leases`. */
  function Reaped(r: Row, now: int): Row {
    if r.status == Running && r.lease.Some? && r.leasedAt <= now - LEASE_SECONDS then
      var settled := r.(lease := None, fenced := false);
      if r.fenced then settled.(status := Unknown, nextAt := None)
      else if r.attempts < MAX_ATTEMPTS then settled.(status := Retryable, nextAt := Some(now + RETRY_SECONDS))
      else settled.(status := Failed, nextAt := None)
    else r
  }

  function Reap(s: State, now: int): State {
    s.(rows := seq(|s.rows|, i requires 0 <= i < |s.rows| => Reaped(s.rows[i], now)))
  }

  // ------------------------------------------------------------------ invariant

  predicate RowOk(r: Row, fencedBy: Option<nat>) {
    && (r.lease.Some? <==> r.status == Running)
    && (r.fenced <==> r.status == Running && fencedBy.Some?)
    && (fencedBy.Some? ==> Settled(r) || r.lease == fencedBy)
    && (r.status == Pending ==> r.attempts == 0)
    && (r.status == Retryable ==> r.attempts < MAX_ATTEMPTS)
    && r.attempts <= MAX_ATTEMPTS
  }

  function Fence(s: State, i: nat): Option<nat> {
    if i in s.fencedBy then Some(s.fencedBy[i]) else None
  }

  ghost predicate Inv(s: State) {
    && (forall i :: 0 <= i < |s.rows| ==> RowOk(s.rows[i], Fence(s, i)))
    && (forall i :: i in s.fencedBy ==> i < |s.rows|)
    && (forall i, j :: 0 <= i < j < |s.rows| && s.rows[i].status == Running && s.rows[j].status == Running ==>
          s.rows[i].key != s.rows[j].key)
    && (forall i :: 0 <= i < |s.rows| && s.rows[i].lease.Some? ==> s.rows[i].lease.value in s.tokens)
  }

  /** A lease as it was handed out: while its token stands in the row, so do its attempts. */
  ghost predicate LeaseOk(s: State, l: Lease) {
    && l.token in s.tokens && l.effect < |s.rows|
    && (s.rows[l.effect].lease == Some(l.token) ==> s.rows[l.effect].attempts == l.attempts)
    && l.attempts <= MAX_ATTEMPTS
  }

  // ----------------------------------------------------------------------- runs

  /** What any process may do, in any order and with any lease it was ever given; a crash is just silence. */
  datatype Event =
    | AdmitEvent(job: string, kind: string, key: string, expected: Option<int>)
    | ReviseEvent(job: string, revision: int)
    | ClaimEvent(kinds: set<string>, now: int, token: nat, exclude: set<nat>)
    | MarkEvent(lease: Lease)
    | RenewEvent(lease: Lease, now: int)
    | ObserveEvent(lease: Lease, observation: Observation, now: int)
    | ReleaseEvent(lease: Lease, now: int)
    | ReapEvent(now: int)

  /** The table and the leases handed out so far. */
  datatype World = World(table: State, leases: set<Lease>)

  function Next(w: World, e: Event): World {
    match e
    case AdmitEvent(job, kind, key, expected) => w.(table := Admit(w.table, job, kind, key, expected))
    case ReviseEvent(job, revision) => w.(table := w.table.(revisions := w.table.revisions[job := revision]))
    case ClaimEvent(kinds, now, token, exclude) =>
      var (t, l) := Claim(w.table, kinds, now, token, exclude);
      World(t, if l.Some? then w.leases + {l.value} else w.leases)
    case MarkEvent(l) => w.(table := MarkDispatched(w.table, l).0)
    case RenewEvent(l, now) => w.(table := Renew(w.table, l, now).0)
    case ObserveEvent(l, o, now) => w.(table := Observe(w.table, l, o, now).0)
    case ReleaseEvent(l, now) => w.(table := Release(w.table, l, now).0)
    case ReapEvent(now) => w.(table := Reap(w.table, now))
  }

  /** Tokens are fresh uuids; a lease can only be used by whoever was given it; observations are well formed. */
  predicate Enabled(w: World, e: Event) {
    match e
    case ClaimEvent(_, _, token, _) => token !in w.table.tokens
    case MarkEvent(l) => l in w.leases
    case RenewEvent(l, _) => l in w.leases
    case ObserveEvent(l, o, _) => l in w.leases && o.Legal()
    case ReleaseEvent(l, _) => l in w.leases
    case _ => true
  }

  ghost predicate WorldInv(w: World) {
    Inv(w.table) && forall l :: l in w.leases ==> LeaseOk(w.table, l)
  }

  lemma AbandonKeeps(w: World, kinds: set<string>)
    requires WorldInv(w)
    ensures WorldInv(w.(table := AbandonStale(w.table, kinds)))
  {
    var t := AbandonStale(w.table, kinds);
    assert forall i :: 0 <= i < |t.rows| ==> Fence(t, i) == Fence(w.table, i);
  }

  lemma ClaimKeeps(w: World, kinds: set<string>, now: int, token: nat, exclude: set<nat>)
    requires WorldInv(w) && token !in w.table.tokens
    ensures WorldInv(Next(w, ClaimEvent(kinds, now, token, exclude)))
  {
    hide AbandonStale;
    AbandonKeeps(w, kinds);
    var t := AbandonStale(w.table, kinds);
    var found := FirstDue(t, 0, kinds, now, exclude);
    if found.Some? {
      var i := found.value;
      var (t', l) := Claim(w.table, kinds, now, token, exclude);
      assert RowOk(t.rows[i], Fence(t, i));
      assert t'.rows[i].lease == Some(token);
      AbandonKeepsTokens(w.table, kinds);
      assert forall j :: 0 <= j < |t'.rows| ==> Fence(t', j) == Fence(t, j);
      forall m | m in w.leases ensures LeaseOk(t', m) {
        assert LeaseOk(t, m);
      }
    }
  }

  lemma AbandonKeepsTokens(s: State, kinds: set<string>)
    ensures AbandonStale(s, kinds).tokens == s.tokens
  {
  }

  lemma MarkKeeps(w: World, l: Lease)
    requires WorldInv(w) && l in w.leases
    ensures WorldInv(Next(w, MarkEvent(l)))
  {
    var t := MarkDispatched(w.table, l).0;
    if HoldsRunning(w.table, l) && !Stale(w.table, w.table.rows[l.effect].job, l.expected) {
      assert RowOk(w.table.rows[l.effect], Fence(w.table, l.effect));
      assert forall i :: 0 <= i < |t.rows| && i != l.effect ==> Fence(t, i) == Fence(w.table, i);
      assert Fence(t, l.effect) == Some(l.token);
    }
  }

  lemma CompleteKeeps(w: World, effect: nat, token: nat, status: Status, nextAt: Option<int>)
    requires WorldInv(w)
    requires status == Succeeded || status == Failed || status == Unknown || status == Retryable
    requires status == Retryable && effect < |w.table.rows| && w.table.rows[effect].lease == Some(token) ==>
               !w.table.rows[effect].fenced && w.table.rows[effect].attempts < MAX_ATTEMPTS
    ensures WorldInv(w.(table := Complete(w.table, effect, token, status, nextAt).0))
  {
    var t := Complete(w.table, effect, token, status, nextAt).0;
    if effect < |w.table.rows| {
      assert RowOk(w.table.rows[effect], Fence(w.table, effect));
    }
    assert forall i :: 0 <= i < |t.rows| ==> Fence(t, i) == Fence(w.table, i);
  }

  lemma SettleKeeps(w: World, l: Lease, o: Observation, now: int)
    requires WorldInv(w) && l in w.leases && o.Legal()
    ensures WorldInv(Next(w, ObserveEvent(l, o, now))) && WorldInv(Next(w, ReleaseEvent(l, now)))
  {
    hide Complete, Inv;
    assert LeaseOk(w.table, l);
    CompleteKeeps(w, l.effect, l.token, Unknown, None);
    CompleteKeeps(w, l.effect, l.token, Failed, None);
    CompleteKeeps(w, l.effect, l.token, Succeeded, None);
    if !w.table.rows[l.effect].fenced && l.attempts < MAX_ATTEMPTS {
      CompleteKeeps(w, l.effect, l.token, Retryable, Some(now + RETRY_SECONDS));
    }
  }

  lemma ReapKeeps(w: World, now: int)
    requires WorldInv(w)
    ensures WorldInv(Next(w, ReapEvent(now)))
  {
    var t := Reap(w.table, now);
    forall i | 0 <= i < |t.rows| ensures RowOk(t.rows[i], Fence(t, i)) {
      assert RowOk(w.table.rows[i], Fence(w.table, i));
      assert Fence(t, i) == Fence(w.table, i);
    }
  }

  lemma AdmitKeeps(w: World, job: string, kind: string, key: string, expected: Option<int>)
    requires WorldInv(w)
    ensures WorldInv(Next(w, AdmitEvent(job, kind, key, expected)))
  {
    var t := Admit(w.table, job, kind, key, expected);
    assert forall i :: 0 <= i < |t.rows| ==> Fence(t, i) == Fence(w.table, i);
  }

  lemma RenewKeeps(w: World, l: Lease, now: int)
    requires WorldInv(w)
    ensures WorldInv(Next(w, RenewEvent(l, now)))
  {
    var t := Renew(w.table, l, now).0;
    assert forall i :: 0 <= i < |t.rows| ==> Fence(t, i) == Fence(w.table, i);
  }

  lemma ReviseKeeps(w: World, job: string, revision: int)
    requires WorldInv(w)
    ensures WorldInv(Next(w, ReviseEvent(job, revision)))
  {
    var t := w.table.(revisions := w.table.revisions[job := revision]);
    assert forall i :: 0 <= i < |t.rows| ==> Fence(t, i) == Fence(w.table, i);
  }

  lemma NextKeeps(w: World, e: Event)
    requires WorldInv(w) && Enabled(w, e)
    ensures WorldInv(Next(w, e))
  {
    hide WorldInv;
    match e
    case AdmitEvent(job, kind, key, expected) => AdmitKeeps(w, job, kind, key, expected);
    case ReviseEvent(job, revision) => ReviseKeeps(w, job, revision);
    case ClaimEvent(kinds, now, token, exclude) => ClaimKeeps(w, kinds, now, token, exclude);
    case MarkEvent(l) => MarkKeeps(w, l);
    case RenewEvent(l, now) => RenewKeeps(w, l, now);
    case ObserveEvent(l, o, now) => SettleKeeps(w, l, o, now);
    case ReleaseEvent(l, now) => SettleKeeps(w, l, Observation(Confirmed, false), now);
    case ReapEvent(now) => ReapKeeps(w, now);
  }

  function Exec(w: World, events: seq<Event>): World {
    if events == [] then w else Next(Exec(w, events[..|events| - 1]), events[|events| - 1])
  }

  ghost predicate Run(w: World, events: seq<Event>) {
    events == [] ||
    (Run(w, events[..|events| - 1]) && Enabled(Exec(w, events[..|events| - 1]), events[|events| - 1]))
  }

  const EMPTY := World(State([], map[], {}, map[]), {})

  lemma {:induction false} RunsKeepInv(w: World, events: seq<Event>)
    requires WorldInv(w) && Run(w, events)
    ensures WorldInv(Exec(w, events))
  {
    if events != [] {
      RunsKeepInv(w, events[..|events| - 1]);
      NextKeeps(Exec(w, events[..|events| - 1]), events[|events| - 1]);
    }
  }

  // --------------------------------------------------------------- main results

  /** One step neither reopens a fenced effect nor lets another lease have it. */
  lemma FenceSurvivesStep(w: World, e: Event, effect: nat)
    requires WorldInv(w) && Enabled(w, e) && effect in w.table.fencedBy
    ensures effect in Next(w, e).table.fencedBy
    ensures Next(w, e).table.fencedBy[effect] == w.table.fencedBy[effect]
    ensures forall l :: l in Next(w, e).leases && l.effect == effect ==> l in w.leases
  {
    assert RowOk(w.table.rows[effect], Fence(w.table, effect));
    if e.ClaimEvent? {
      var t := AbandonStale(w.table, e.kinds);
      AbandonKeeps(w, e.kinds);
      assert RowOk(t.rows[effect], Fence(t, effect));
    }
  }

  /**
   Across any drains, crashes and reaps, an effect whose fence is committed is never leased to a handler
   again, and no other lease ever crosses that fence.
  */
  lemma {:induction false} FenceIsFinal(w: World, events: seq<Event>, effect: nat)
    requires WorldInv(w) && Run(w, events) && effect in w.table.fencedBy
    ensures var w' := Exec(w, events);
            && effect in w'.table.fencedBy && w'.table.fencedBy[effect] == w.table.fencedBy[effect]
            && (forall l :: l in w'.leases && l.effect == effect ==> l in w.leases)
  {
    if events != [] {
      var front := events[..|events| - 1];
      RunsKeepInv(w, front);
      FenceIsFinal(w, front, effect);
      FenceSurvivesStep(Exec(w, front), events[|events| - 1], effect);
    }
  }

  predicate Claims(w: World, e: Event, effect: nat) {
    e.ClaimEvent? &&
    var l := Claim(w.table, e.kinds, e.now, e.token, e.exclude).1;
    l.Some? && l.value.effect == effect
  }

  function ClaimCount(w: World, events: seq<Event>, effect: nat): nat {
    if events == [] then 0
    else
      var front := events[..|events| - 1];
      ClaimCount(w, front, effect) + (if Claims(Exec(w, front), events[|events| - 1], effect) then 1 else 0)
  }

  function Attempts(s: State, effect: nat): nat {
    if effect < |s.rows| then s.rows[effect].attempts else 0
  }

  lemma StepCountsAttempts(w: World, e: Event, effect: nat)
    requires WorldInv(w) && Enabled(w, e)
    ensures Attempts(Next(w, e).table, effect) == Attempts(w.table, effect) + (if Claims(w, e, effect) then 1 else 0)
  {
    if e.ClaimEvent? {
      var t := AbandonStale(w.table, e.kinds);
      assert Attempts(t, effect) == Attempts(w.table, effect);
      var l := Claim(w.table, e.kinds, e.now, e.token, e.exclude).1;
      assert l.Some? && l.value.effect == effect ==> Claims(w, e, effect);
    }
  }

  lemma {:induction false} AttemptsCountClaims(w: World, events: seq<Event>, effect: nat)
    requires WorldInv(w) && Run(w, events)
    ensures Attempts(Exec(w, events).table, effect) == Attempts(w.table, effect) + ClaimCount(w, events, effect)
  {
    if events != [] {
      var front := events[..|events| - 1];
      RunsKeepInv(w, front);
      AttemptsCountClaims(w, front, effect);
      StepCountsAttempts(Exec(w, front), events[|events| - 1], effect);
    }
  }

  /** In every run from an empty table an effect reaches a handler at most eight times, and two running effects never share a key. */
  lemma ClaimsAreBounded(events: seq<Event>, effect: nat)
    requires Run(EMPTY, events)
    ensures ClaimCount(EMPTY, events, effect) <= MAX_ATTEMPTS
    ensures var s := Exec(EMPTY, events).table;
            forall i, j :: 0 <= i < j < |s.rows| && s.rows[i].status == Running && s.rows[j].status == Running ==>
              s.rows[i].key != s.rows[j].key
  {
    RunsKeepInv(EMPTY, events);
    AttemptsCountClaims(EMPTY, events, effect);
    var s := Exec(EMPTY, events).table;
    if effect < |s.rows| {
      assert RowOk(s.rows[effect], Fence(s, effect));
    }
  }

  /** A release takes effect only before its lease crossed the fence. */
  lemma ReleaseIsBeforeFence(w: World, l: Lease, now: int)
    requires WorldInv(w) && l in w.leases && Release(w.table, l, now).1
    ensures l.effect !in w.table.fencedBy
  {
    assert RowOk(w.table.rows[l.effect], Fence(w.table, l.effect));
  }

  /** A retry asked for after the fence is never granted; one asked for before it waits for its next claim. */
  lemma RetryAfterFenceIsUnknown(w: World, l: Lease, now: int)
    requires WorldInv(w) && l in w.leases && HoldsRunning(w.table, l)
    ensures var (s, applied) := Observe(w.table, l, Observation(FailedEffect, true), now);
            && applied
            && (s.rows[l.effect].status == Unknown <==> l.effect in w.table.fencedBy)
            && (Open(s.rows[l.effect]) <==> l.effect !in w.table.fencedBy && l.attempts < MAX_ATTEMPTS)
  {
    assert RowOk(w.table.rows[l.effect], Fence(w.table, l.effect));
    assert LeaseOk(w.table, l);
  }

  /**
   What becomes of an effect whose holder is gone: with its fence committed it is unknown, without it is due
   again after the retry delay, not before, until its eight attempts are used up. A live lease is left alone.
  */
  lemma ReapRecovers(w: World, now: int, i: nat)
    requires WorldInv(w) && i < |w.table.rows| && w.table.rows[i].status == Running
    ensures var r := w.table.rows[i];
            var t := Reap(w.table, now);
            if r.leasedAt > now - LEASE_SECONDS then t.rows[i] == r
            else if i in w.table.fencedBy then t.rows[i].status == Unknown
            else if r.attempts == MAX_ATTEMPTS then t.rows[i].status == Failed
            else forall later: int, kinds, exclude ::
                   Due(t, i, kinds, later, exclude) <==> r.kind in kinds && i !in exclude && later >= now + RETRY_SECONDS
  {
    assert RowOk(w.table.rows[i], Fence(w.table, i));
  }

  lemma SettledSurvivesStep(w: World, e: Event, effect: nat)
    requires effect < |w.table.rows| && Settled(w.table.rows[effect]) && w.table.rows[effect].lease.None?
    ensures effect < |Next(w, e).table.rows| && Next(w, e).table.rows[effect] == w.table.rows[effect]
  {
    if e.ClaimEvent? {
      var t := AbandonStale(w.table, e.kinds);
      assert t.rows[effect] == w.table.rows[effect];
    }
  }

  /** A settled effect is settled for good: no late observation, release, reap or claim changes its row. */
  lemma {:induction false} SettledIsFinal(w: World, events: seq<Event>, effect: nat)
    requires WorldInv(w) && Run(w, events)
    requires effect < |w.table.rows| && Settled(w.table.rows[effect])
    ensures var s := Exec(w, events).table;
            effect < |s.rows| && s.rows[effect] == w.table.rows[effect]
  {
    assert RowOk(w.table.rows[effect], Fence(w.table, effect));
    if events != [] {
      var front := events[..|events| - 1];
      SettledIsFinal(w, front, effect);
      SettledSurvivesStep(Exec(w, front), events[|events| - 1], effect);
    }
  }

  /**
   The holder of an effect died after committing the fence, and its lease has run out: once reaped the effect is
   unknown in every continuation, whatever its late handler or any other process still does.
  */
  lemma {:induction false} LostAfterFenceIsUnknown(w: World, now: int, events: seq<Event>, effect: nat)
    requires WorldInv(w) && effect in w.table.fencedBy && w.table.rows[effect].status == Running
    requires w.table.rows[effect].leasedAt <= now - LEASE_SECONDS
    requires Run(Next(w, ReapEvent(now)), events)
    ensures var s := Exec(Next(w, ReapEvent(now)), events).table;
            effect < |s.rows| && s.rows[effect].status == Unknown && s.rows[effect].attempts == w.table.rows[effect].attempts
  {
    ReapRecovers(w, now, effect);
    ReapKeeps(w, now);
    SettledIsFinal(Next(w, ReapEvent(now)), events, effect);
  }
}
