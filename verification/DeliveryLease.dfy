/**
 Leased delivery of job results (cursor/delivery.py over the delivery states of cursor/lifecycle.py): each
 function is one `store.update`. A job's file keeps one lease; what a daemon believes about the tokens it was
 given is kept apart in `grants`, so that the two can be compared.
*/
module DeliveryLease {
  import opened Prelude

  const LEASE_SECONDS := 300.0   // DELIVERY_CLAIM_SECONDS
  const RETRY_SECONDS := 5.0     // DELIVERY_RETRY_SECONDS

  datatype Status = Queued | Routing | Running | Reconciling | AwaitingUser | Blocked | Completed | Failed | Cancelled

  datatype Ack = Pending | Deferred | Desktop | Spoken | Dismissed

  datatype Delivery =
    | Waiting(generation: nat, attempts: nat, ack: Ack, repeated: bool, retryAt: real)
    | Claimed(generation: nat, attempts: nat, ack: Ack, repeated: bool, retryAt: real, token: nat, claimedAt: real)
    | Delivered(generation: nat, attempts: nat, ack: Ack, repeated: bool)

  datatype Job = Job(
    status: Status,
    delivery: Delivery,
    foregroundUntil: real,
    completedAt: Option<real>,
    createdAt: real)

  predicate Deliverable(s: Status) {
    s.AwaitingUser? || s.Blocked? || s.Completed? || s.Failed? || s.Cancelled?
  }

  /** Python's `x or y` on an optional number: zero counts as missing. */
  function OrElse(x: Option<real>, y: real): real {
    if x.Some? && x.value != 0.0 then x.value else y
  }

  // ------------------------------------------------------------ delivery states

  predicate Holds(d: Delivery, token: nat) {
    d.Claimed? && d.token == token
  }

  predicate Fresh(d: Delivery, now: real) {
    d.Claimed? && now - d.claimedAt < LEASE_SECONDS
  }

  /** Which acknowledgement may follow which (lifecycle.py). */
  predicate Allowed(from: Ack, to: Ack) {
    match from
    case Pending => !to.Pending?
    case Desktop => to.Spoken? || to.Dismissed?
    case Deferred => to.Spoken? || to.Desktop? || to.Dismissed?
    case _ => false
  }

  function Prepare(d: Delivery, repeat: bool): Delivery {
    Waiting(d.generation + 1, 0, Pending, repeat || d.repeated, 0.0)
  }

  /** `claim_delivery` on one job, with the verdict of its `eligible` callback. */
  predicate Claimable(j: Job, now: real, foreground: bool, eligible: bool) {
    && Deliverable(j.status)
    && !j.delivery.Delivered?
    && eligible
    && (foreground || now >= j.foregroundUntil)
    && now >= j.delivery.retryAt
    && (foreground || j.status.AwaitingUser? || j.status.Blocked? || now - OrElse(j.completedAt, now) >= 1.0)
    && !Fresh(j.delivery, now)
  }

  function Claim(j: Job, token: nat, now: real): Job
    requires !j.delivery.Delivered?
  {
    var d := j.delivery;
    j.(delivery := Claimed(d.generation, d.attempts + 1, d.ack, d.repeated, d.retryAt, token, now))
  }

  function Renew(j: Job, token: nat, now: real): Option<Job> {
    if Holds(j.delivery, token) && Fresh(j.delivery, now) then Some(j.(delivery := j.delivery.(claimedAt := now)))
    else None
  }

  function Acknowledge(j: Job, token: nat, ack: Ack, now: real): Option<Job> {
    var d := j.delivery;
    if !Holds(d, token) || !Fresh(d, now) || !Allowed(d.ack, ack) then None
    else if ack.Spoken? || ack.Dismissed? then Some(j.(delivery := Delivered(d.generation, d.attempts, ack, d.repeated)))
    else Some(j.(delivery := Waiting(d.generation, d.attempts, ack, d.repeated, 0.0)))
  }

  function Release(j: Job, token: nat, retry: bool, now: real): Option<Job> {
    var d := j.delivery;
    if !Holds(d, token) then None
    else Some(j.(delivery :=
      Waiting(d.generation, d.attempts, d.ack, d.repeated, if retry then now + RETRY_SECONDS else 0.0)))
  }

  /** `mark_delivered` (without a claim) or `dismiss_announcement`. */
  function Drop(j: Job, dismiss: bool): Option<Job> {
    var d := j.delivery;
    if dismiss then
      if d.ack.Dismissed? then None
      else Some(j.(delivery := Delivered(d.generation, d.attempts, Dismissed, d.repeated)))
    else if d.Delivered? then (if d.ack.Spoken? then Some(j) else None)
    else Some(j.(delivery := Delivered(d.generation, d.attempts, Spoken, d.repeated)))
  }

  // ----------------------------------------------------------------------- runs

  /** What the daemon that got a token knows: when it last claimed or renewed, and whether its lease is over. */
  datatype Grant = Grant(job: nat, renewedAt: real, over: bool)

  datatype Acknowledged = Acknowledged(job: nat, generation: nat, ack: Ack)

  datatype World = World(
    jobs: map<nat, Job>,
    clock: real,
    grants: map<nat, Grant>,
    acks: seq<Acknowledged>)    // the acknowledgements that succeeded, in order

  datatype Event =
    | CreateEvent(id: nat, job: Job)
    | ClaimEvent(id: nat, token: nat, now: real, foreground: bool, eligible: bool)
    | RenewEvent(id: nat, token: nat, now: real)
    | AckEvent(id: nat, token: nat, ack: Ack, now: real)
    | ReleaseEvent(id: nat, token: nat, retry: bool, now: real)
    | PrepareEvent(id: nat, repeat: bool)          // a new result, or "repeat that"
    | DropEvent(id: nat, dismiss: bool)
    | ReviseEvent(id: nat, status: Status, foregroundUntil: real, completedAt: Option<real>)

  /**
   Tokens are fresh and a new job waits with its first announcement. The time of an event is read before its
   transaction, and by another process: it may lie behind times the store has already seen.
  */
  predicate Enabled(w: World, e: Event) {
    match e
    case CreateEvent(id, job) => id !in w.jobs && job.delivery.Waiting? && job.delivery.ack.Pending?
    case ClaimEvent(id, token, now, _, _) => id in w.jobs && token !in w.grants
    case AckEvent(id, _, ack, _) => id in w.jobs && (ack.Spoken? || ack.Desktop? || ack.Deferred?)
    case _ => e.id in w.jobs
  }

  function Tick(w: World, now: real): World {
    w.(clock := if w.clock < now then now else w.clock)
  }

  function Put(w: World, id: nat, j: Job): World {
    w.(jobs := w.jobs[id := j])
  }

  function Revoke(w: World, id: nat): World {
    w.(grants := map t | t in w.grants ::
         if w.grants[t].job == id then w.grants[t].(over := true) else w.grants[t])
  }

  function Next(w: World, e: Event): World {
    if !Enabled(w, e) then w else
    match e
    case CreateEvent(id, job) => Put(w, id, job)
    case ClaimEvent(id, token, now, foreground, eligible) =>
      if Claimable(w.jobs[id], now, foreground, eligible) then
        Tick(Put(w, id, Claim(w.jobs[id], token, now)), now).(grants := w.grants[token := Grant(id, now, false)])
      else Tick(w, now)
    case RenewEvent(id, token, now) =>
      var r := Renew(w.jobs[id], token, now);
      if r.None? || token !in w.grants then Tick(w, now)
      else Tick(Put(w, id, r.value), now).(grants := w.grants[token := w.grants[token].(renewedAt := now)])
    case AckEvent(id, token, ack, now) =>
      var r := Acknowledge(w.jobs[id], token, ack, now);
      if r.None? || token !in w.grants then Tick(w, now)
      else Tick(Put(w, id, r.value), now)
           .(grants := w.grants[token := w.grants[token].(over := true)],
             acks := w.acks + [Acknowledged(id, w.jobs[id].delivery.generation, ack)])
    case ReleaseEvent(id, token, retry, now) =>
      var r := Release(w.jobs[id], token, retry, now);
      if r.None? || token !in w.grants then Tick(w, now)
      else Tick(Put(w, id, r.value), now).(grants := w.grants[token := w.grants[token].(over := true)])
    case PrepareEvent(id, repeat) =>
      Revoke(Put(w, id, w.jobs[id].(delivery := Prepare(w.jobs[id].delivery, repeat))), id)
    case DropEvent(id, dismiss) =>
      var r := Drop(w.jobs[id], dismiss);
      if r.None? then w else Revoke(Put(w, id, r.value), id)
    case ReviseEvent(id, status, foregroundUntil, completedAt) =>
      Put(w, id, w.jobs[id].(status := status, foregroundUntil := foregroundUntil, completedAt := completedAt))
  }

  function Exec(w: World, events: seq<Event>): World {
    if events == [] then w else Next(Exec(w, events[..|events| - 1]), events[|events| - 1])
  }

  predicate Run(w: World, events: seq<Event>) {
    events == [] ||
    (Run(w, events[..|events| - 1]) && Enabled(Exec(w, events[..|events| - 1]), events[|events| - 1]))
  }

  function Rank(a: Ack): nat {
    match a case Pending => 0 case Deferred => 1 case Desktop => 2 case Spoken => 3 case Dismissed => 4
  }

  /** The daemon's own view: it was granted the lease, did not end it, and heard of no new result. */
  predicate Live(g: Grant, now: real) {
    !g.over && now - g.renewedAt < LEASE_SECONDS
  }

  ghost predicate JobOk(id: nat, j: Job, grants: map<nat, Grant>) {
    && (j.delivery.Delivered? <==> (j.delivery.ack.Spoken? || j.delivery.ack.Dismissed?))
    && (j.delivery.Claimed? ==>
          j.delivery.token in grants && grants[j.delivery.token] == Grant(id, j.delivery.claimedAt, false))
  }

  ghost predicate GrantOk(token: nat, g: Grant, w: World) {
    && g.job in w.jobs
    && g.renewedAt <= w.clock
    && (Live(g, w.clock) ==> Holds(w.jobs[g.job].delivery, token))
  }

  /** Acknowledgements of one result only move forward, and the job remembers how far. */
  ghost predicate AckOk(i: nat, w: World)
    requires i < |w.acks|
  {
    var a := w.acks[i];
    && a.job in w.jobs
    && a.generation <= w.jobs[a.job].delivery.generation
    && (a.generation == w.jobs[a.job].delivery.generation ==> Rank(a.ack) <= Rank(w.jobs[a.job].delivery.ack))
  }

  /** Of two acknowledgements of one job, the later is of a later result or a further step. */
  ghost predicate Advances(a: Acknowledged, b: Acknowledged) {
    a.job == b.job ==> a.generation < b.generation || (a.generation == b.generation && Rank(a.ack) < Rank(b.ack))
  }

  ghost predicate Inv(w: World) {
    && (forall id :: id in w.jobs ==> JobOk(id, w.jobs[id], w.grants))
    && (forall t :: t in w.grants ==> GrantOk(t, w.grants[t], w))
    && (forall i :: 0 <= i < |w.acks| ==> AckOk(i, w))
    && (forall i, j :: 0 <= i < j < |w.acks| ==> Advances(w.acks[i], w.acks[j]))
  }

  const EMPTY := World(map[], 0.0, map[], [])

  lemma JobsKeep(w: World, e: Event, id: nat)
    requires Inv(w) && Enabled(w, e) && id in Next(w, e).jobs
    ensures JobOk(id, Next(w, e).jobs[id], Next(w, e).grants)
  {
    assert id in w.jobs ==> JobOk(id, w.jobs[id], w.grants);
    assert e.id in w.jobs ==> JobOk(e.id, w.jobs[e.id], w.grants);
  }

  lemma GrantsKeep(w: World, e: Event, token: nat)
    requires Inv(w) && Enabled(w, e) && token in Next(w, e).grants
    ensures GrantOk(token, Next(w, e).grants[token], Next(w, e))
  {
    assert token in w.grants ==> GrantOk(token, w.grants[token], w);
    assert e.id in w.jobs ==> JobOk(e.id, w.jobs[e.id], w.grants);
  }

  lemma AcksKeep(w: World, e: Event)
    requires Inv(w) && Enabled(w, e)
    ensures forall i, j :: 0 <= i < j < |Next(w, e).acks| ==> Advances(Next(w, e).acks[i], Next(w, e).acks[j])
    ensures forall i :: 0 <= i < |Next(w, e).acks| ==> AckOk(i, Next(w, e))
  {
    var v := Next(w, e);
    forall i: nat | i < |v.acks| ensures AckOk(i, v) {
      assert i < |w.acks| ==> AckOk(i, w) && v.acks[i] == w.acks[i];
    }
    if |v.acks| > |w.acks| {
      var last := v.acks[|w.acks|];
      forall i | 0 <= i < |w.acks| ensures Advances(v.acks[i], last) {
        assert AckOk(i, w) && v.acks[i] == w.acks[i];
      }
    }
  }

  lemma NextKeeps(w: World, e: Event)
    requires Inv(w) && Enabled(w, e)
    ensures Inv(Next(w, e))
  {
    hide Next, JobOk, GrantOk, AckOk, Enabled;
    var v := Next(w, e);
    forall id | id in v.jobs ensures JobOk(id, v.jobs[id], v.grants) {
      JobsKeep(w, e, id);
    }
    forall t | t in v.grants ensures GrantOk(t, v.grants[t], v) {
      GrantsKeep(w, e, t);
    }
    AcksKeep(w, e);
  }

  lemma {:induction false} RunsKeepInv(w: World, events: seq<Event>)
    requires Inv(w) && Run(w, events)
    ensures Inv(Exec(w, events))
  {
    if events != [] {
      RunsKeepInv(w, events[..|events| - 1]);
      NextKeeps(Exec(w, events[..|events| - 1]), events[|events| - 1]);
    }
  }

  // --------------------------------------------------------------- main results

  /** At any time at most one daemon holds a job's result. */
  lemma AtMostOneLive(events: seq<Event>, s: nat, t: nat)
    requires Run(EMPTY, events)
    ensures var w := Exec(EMPTY, events);
            (s in w.grants && t in w.grants && w.grants[s].job == w.grants[t].job
             && Live(w.grants[s], w.clock) && Live(w.grants[t], w.clock)) ==> s == t
  {
    RunsKeepInv(EMPTY, events);
    var w := Exec(EMPTY, events);
    assert s in w.grants ==> GrantOk(s, w.grants[s], w);
    assert t in w.grants ==> GrantOk(t, w.grants[t], w);
  }

  /**
   The store accepts exactly what the daemon's own clock tells it is still its lease. With a reading behind the
   store's it accepts no more than that, and still everything that is live at the store's.
  */
  lemma AcknowledgesExactlyWhileLive(events: seq<Event>, id: nat, token: nat, ack: Ack, now: real)
    requires Run(EMPTY, events) && Enabled(Exec(EMPTY, events), AckEvent(id, token, ack, now))
    ensures var w := Exec(EMPTY, events);
            var accepted := Acknowledge(w.jobs[id], token, ack, now).Some?;
            var mine := token in w.grants && w.grants[token].job == id && Allowed(w.jobs[id].delivery.ack, ack);
            && (accepted ==> mine && Live(w.grants[token], now))
            && (mine && Live(w.grants[token], Tick(w, now).clock) ==> accepted)
    ensures var w := Exec(EMPTY, events);
            var accepted := Renew(w.jobs[id], token, now).Some?;
            var mine := token in w.grants && w.grants[token].job == id;
            && (accepted ==> mine && Live(w.grants[token], now))
            && (mine && Live(w.grants[token], Tick(w, now).clock) ==> accepted)
  {
    RunsKeepInv(EMPTY, events);
    var w := Exec(EMPTY, events);
    assert JobOk(id, w.jobs[id], w.grants);
    assert token in w.grants ==> GrantOk(token, w.grants[token], w);
  }

  /** A claim never takes a result from a daemon whose lease is live, not even with a reading that is behind. */
  lemma ClaimWaitsForHolder(events: seq<Event>, id: nat, token: nat, now: real, foreground: bool, eligible: bool,
                            holder: nat)
    requires Run(EMPTY, events) && Enabled(Exec(EMPTY, events), ClaimEvent(id, token, now, foreground, eligible))
    requires var w := Exec(EMPTY, events);
             holder in w.grants && w.grants[holder].job == id && Live(w.grants[holder], Tick(w, now).clock)
    ensures !Claimable(Exec(EMPTY, events).jobs[id], now, foreground, eligible)
  {
    RunsKeepInv(EMPTY, events);
    var w := Exec(EMPTY, events);
    assert GrantOk(holder, w.grants[holder], w);
    assert JobOk(id, w.jobs[id], w.grants);
  }

  /**
   A result is spoken at most once, put on the desktop at most once and deferred at most once, in the order
   deferred, desktop, spoken; a job whose result was not renewed in between is spoken at most once.
  */
  lemma AcknowledgementsAdvance(events: seq<Event>, i: nat, j: nat)
    requires Run(EMPTY, events) && i < j < |Exec(EMPTY, events).acks|
    ensures var acks := Exec(EMPTY, events).acks; Advances(acks[i], acks[j])
  {
    RunsKeepInv(EMPTY, events);
  }

  /** An event that only the daemon holding one of these tokens can cause. */
  predicate Uses(e: Event, tokens: set<nat>) {
    (e.RenewEvent? || e.AckEvent? || e.ReleaseEvent?) && e.token in tokens
  }

  lemma DeadStaysDeadStep(w: World, e: Event, token: nat, since: real)
    requires Inv(w) && Enabled(w, e)
    requires token in w.grants && !Live(w.grants[token], since)
    requires Uses(e, {token}) ==> since <= e.now
    ensures var v := Next(w, e); token in v.grants && !Live(v.grants[token], since)
    ensures (e.AckEvent? || e.RenewEvent?) && e.token == token ==> Next(w, e) == Tick(w, e.now)
  {
    assert e.id in w.jobs ==> JobOk(e.id, w.jobs[e.id], w.grants);
  }

  /**
   A token that was released, used or replaced, or expired by its daemon's own clock, never acknowledges or renews
   again; the clock of that one daemon does not go back.
  */
  lemma {:induction false} DeadTokensStayDead(w: World, events: seq<Event>, token: nat, since: real, k: nat)
    requires Inv(w) && Run(w, events) && k < |events|
    requires token in w.grants && !Live(w.grants[token], since)
    requires forall i :: 0 <= i < |events| && Uses(events[i], {token}) ==> since <= events[i].now
    ensures var u := Exec(w, events);
            token in u.grants && !Live(u.grants[token], since)
    ensures Run(w, events[..k]) && Enabled(Exec(w, events[..k]), events[k])
    ensures (events[k].AckEvent? || events[k].RenewEvent?) && events[k].token == token ==>
              Next(Exec(w, events[..k]), events[k]) == Tick(Exec(w, events[..k]), events[k].now)
  {
    var n := |events| - 1;
    var front := events[..n];
    RunsKeepInv(w, front);
    if k < n {
      DeadTokensStayDead(w, front, token, since, k);
      assert front[..k] == events[..k];
    } else if front != [] {
      DeadTokensStayDead(w, front, token, since, 0);
    }
    DeadStaysDeadStep(Exec(w, front), events[n], token, since);
  }

  /** A token that lost its job to another one never has it again, whatever time anyone reads. */
  lemma LostStaysLostStep(w: World, e: Event, token: nat)
    requires Inv(w) && Enabled(w, e)
    requires token in w.grants && !Holds(w.jobs[w.grants[token].job].delivery, token)
    ensures var v := Next(w, e);
            && token in v.grants && v.grants[token].job == w.grants[token].job
            && !Holds(v.jobs[v.grants[token].job].delivery, token)
    ensures Uses(e, {token}) ==> Next(w, e) == Tick(w, e.now)
  {
    assert e.id in w.jobs ==> JobOk(e.id, w.jobs[e.id], w.grants);
  }

  lemma {:induction false} LostTokensStayLost(w: World, events: seq<Event>, token: nat, k: nat)
    requires Inv(w) && Run(w, events) && k < |events|
    requires token in w.grants && !Holds(w.jobs[w.grants[token].job].delivery, token)
    ensures var u := Exec(w, events);
            && token in u.grants && u.grants[token].job == w.grants[token].job && u.grants[token].job in u.jobs
            && !Holds(u.jobs[u.grants[token].job].delivery, token)
    ensures Run(w, events[..k]) && Enabled(Exec(w, events[..k]), events[k])
    ensures Uses(events[k], {token}) ==>
              Next(Exec(w, events[..k]), events[k]) == Tick(Exec(w, events[..k]), events[k].now)
  {
    var n := |events| - 1;
    var front := events[..n];
    RunsKeepInv(w, front);
    assert GrantOk(token, w.grants[token], w);
    if k < n {
      LostTokensStayLost(w, front, token, k);
      assert front[..k] == events[..k];
    } else if front != [] {
      LostTokensStayLost(w, front, token, 0);
    }
    LostStaysLostStep(Exec(w, front), events[n], token);
  }

  // ------------------------------------------------------------- claiming again

  /** At position `i` the run claimed job `id` for `token`, at the time `now`. */
  predicate ClaimedAt(events: seq<Event>, i: nat, id: nat, token: nat, now: real) {
    && i < |events|
    && events[i].ClaimEvent? && events[i].id == id && events[i].token == token && events[i].now == now
    && Enabled(Exec(EMPTY, events[..i]), events[i])
    && Claimable(Exec(EMPTY, events[..i]).jobs[id], now, events[i].foreground, events[i].eligible)
  }

  /** What ends a claim: a new result, its own daemon, or a claim that read a time when its lease was over. */
  predicate Reopens(e: Event, id: nat, token: nat, claimed: real) {
    || (e.PrepareEvent? && e.id == id)
    || Uses(e, {token})
    || (e.ClaimEvent? && e.id == id && e.now - claimed >= LEASE_SECONDS)
  }

  /** The job is still held by the claim, or its result was delivered or dismissed without a claim. */
  predicate Taken(w: World, id: nat, token: nat, claimed: real) {
    id in w.jobs && var d := w.jobs[id].delivery;
    d.Delivered? || (Holds(d, token) && d.claimedAt == claimed)
  }

  lemma TakenStep(w: World, e: Event, id: nat, token: nat, claimed: real)
    requires Taken(w, id, token, claimed) && !Reopens(e, id, token, claimed)
    ensures Taken(Next(w, e), id, token, claimed)
    ensures e.ClaimEvent? && e.id == id ==> !Claimable(w.jobs[id], e.now, e.foreground, e.eligible)
  {
  }

  lemma {:induction false} TakenUntilReopened(events: seq<Event>, i: nat, n: nat, id: nat, token: nat, now: real)
    requires ClaimedAt(events, i, id, token, now) && i < n <= |events|
    requires forall k :: i < k < n ==> !Reopens(events[k], id, token, now)
    ensures Taken(Exec(EMPTY, events[..n]), id, token, now)
    decreases n
  {
    assert events[..n][..n - 1] == events[..n - 1];
    if i < n - 1 {
      TakenUntilReopened(events, i, n - 1, id, token, now);
      TakenStep(Exec(EMPTY, events[..n - 1]), events[n - 1], id, token, now);
    }
  }

  /**
   A job that was claimed is claimed again only after a new result was prepared for it, or its first claim was used
   or renewed, or someone read a time at which that claim's lease was over.
  */
  lemma SecondClaimNeedsReopening(events: seq<Event>, i: nat, j: nat, id: nat, token: nat, now: real, other: nat, later: real)
    requires i < j && ClaimedAt(events, i, id, token, now) && ClaimedAt(events, j, id, other, later)
    ensures exists k :: i < k <= j && Reopens(events[k], id, token, now)
  {
    if forall k :: i < k <= j ==> !Reopens(events[k], id, token, now) {
      TakenUntilReopened(events, i, j, id, token, now);
      TakenStep(Exec(EMPTY, events[..j]), events[j], id, token, now);
      assert false;
    }
  }
}
