/**
 Background announcements (cursor/announcements.py) drained over the delivery store (cursor/delivery.py). The
 local time of day is a parameter; the desktop notification is an arbitrary yes or no.
*/
module AnnouncementDrain {
  import opened Prelude
  import opened DeliveryLease

  const BATCH_LIMIT := 8        // ANNOUNCEMENT_BATCH_LIMIT
  const DAY := 86_400_000_000   // microseconds

  datatype Mode = All | ActionRequired | DesktopOnly | Quiet

  datatype Kind = Completion | Question | Failure | Cancellation | Informational

  datatype Disposition = Speak | OnDesktop | Defer

  datatype Window = Window(start: nat, end: nat)

  datatype Snooze = Snooze(until: real, muteEverything: bool)

  /** What stays fixed during one drain: settings, snooze, and the time. */
  datatype Policy = Policy(mode: Mode, quiet: Option<Window>, snooze: Option<Snooze>, now: real, timeOfDay: nat)

  // --------------------------------------------------------------------- policy

  function Classify(s: Status): Kind
    requires Deliverable(s)
  {
    match s
    case Completed => Completion
    case AwaitingUser => Question
    case Failed => Failure
    case Cancelled => Cancellation
    case _ => Informational
  }

  predicate NeedsAction(k: Kind) {
    k.Question? || k.Failure? || k.Informational?
  }

  predicate InQuietHours(quiet: Option<Window>, t: nat) {
    quiet.Some? &&
    var w := quiet.value;
    if w.start <= w.end then w.start <= t < w.end else t >= w.start || t < w.end
  }

  /** Also over midnight, quiet hours are the times less than the window's length after its start. */
  lemma QuietHoursWrap(w: Window, t: nat)
    requires w.start < DAY && w.end < DAY && t < DAY
    ensures InQuietHours(Some(w), t) <==> (t - w.start) % DAY < (w.end - w.start) % DAY
  {
    ModWraps(t - w.start);
    ModWraps(w.end - w.start);
  }

  lemma ModWraps(x: int)
    requires -DAY < x < DAY
    ensures x % DAY == if x < 0 then x + DAY else x
  {
    if x < 0 {
      assert (x + DAY) % DAY == x + DAY;
      assert x / DAY == -1;
    }
  }

  predicate Snoozed(p: Policy) {
    p.snooze.Some? && p.now < p.snooze.value.until
  }

  function Dispose(p: Policy, k: Kind): Disposition {
    if Snoozed(p) && p.snooze.value.muteEverything then Defer
    else if p.mode.Quiet? || InQuietHours(p.quiet, p.timeOfDay) then Defer
    else if Snoozed(p) && !NeedsAction(k) then Defer
    else if p.mode.DesktopOnly? then OnDesktop
    else if p.mode.ActionRequired? then (if NeedsAction(k) then Speak else Defer)
    else Speak
  }

  /** A less important announcement never gets through where a more important one does not. */
  lemma ActionComesFirst(p: Policy, k: Kind, urgent: Kind)
    requires NeedsAction(urgent)
    ensures !Dispose(p, k).Defer? ==> Dispose(p, urgent) == Dispose(p, k)
    ensures Snoozed(p) && !NeedsAction(k) ==> Dispose(p, k).Defer?
  {
  }

  predicate AutoEligible(p: Policy, j: Job)
    requires Deliverable(j.status)
  {
    var ack := j.delivery.ack;
    match Dispose(p, Classify(j.status))
    case Speak => ack.Pending? || ack.Deferred? || ack.Desktop?
    case OnDesktop => ack.Pending? || ack.Deferred?
    case Defer => ack.Pending?
  }

  // ----------------------------------------------------------- claiming in order

  /** `DeliveryClaim`: the token, and the job as it was when claimed. */
  datatype Lease = Lease(id: nat, token: nat, job: Job)

  function Ids(claims: seq<Lease>): (s: set<nat>) {
    set c | c in claims :: c.id
  }

  /** Sort key of `claim_delivery`; the listing itself is in order of job ids. */
  predicate Before(jobs: map<nat, Job>, a: nat, b: nat)
    requires a in jobs && b in jobs
  {
    var x, y := OrElse(jobs[a].completedAt, jobs[a].createdAt), OrElse(jobs[b].completedAt, jobs[b].createdAt);
    x < y || (x == y && a < b)
  }

  predicate Due(j: Job, now: real, eligible: Job -> bool) {
    Claimable(j, now, false, eligible(j))
  }

  function DueSet(jobs: map<nat, Job>, now: real, eligible: Job -> bool): (due: set<nat>)
    ensures due <= jobs.Keys
  {
    set id | id in jobs && Due(jobs[id], now, eligible)
  }

  predicate IsFirst(jobs: map<nat, Job>, ids: set<nat>, first: nat)
    requires ids <= jobs.Keys
  {
    first in ids && forall id | id in ids :: id == first || Before(jobs, first, id)
  }

  lemma {:induction false} FirstExists(jobs: map<nat, Job>, ids: set<nat>)
    requires ids <= jobs.Keys && ids != {}
    ensures exists id :: id in ids && IsFirst(jobs, ids, id)
    decreases |ids|
  {
    var x :| x in ids;
    var rest := ids - {x};
    if rest == {} {
      assert ids == {x};
      assert IsFirst(jobs, ids, x);
    } else {
      FirstExists(jobs, rest);
      var y :| y in rest && IsFirst(jobs, rest, y);
      if Before(jobs, x, y) {
        assert forall id :: id in rest && Before(jobs, y, id) ==> Before(jobs, x, id);
        assert IsFirst(jobs, ids, x);
      } else {
        assert IsFirst(jobs, ids, y);
      }
    }
  }

  /** What claiming leaves of the jobs: those claimed now held, each by its own token, and the rest untouched. */
  ghost predicate ClaimsOf(before: map<nat, Job>, after: map<nat, Job>, claims: seq<Lease>, now: real) {
    && after.Keys == before.Keys
    && (forall c :: c in claims ==>
          c.id in before && !before[c.id].delivery.Delivered? && after[c.id] == c.job == Claim(before[c.id], c.token, now))
    && (forall id :: id in before && id !in Ids(claims) ==> after[id] == before[id])
  }

  /** The claims are the earliest of the due jobs, in order and without repetition. */
  ghost predicate Earliest(jobs: map<nat, Job>, due: set<nat>, claims: seq<Lease>)
    requires due <= jobs.Keys
  {
    && Ids(claims) <= due
    && (forall i, j :: 0 <= i < j < |claims| ==> claims[i].id in jobs && claims[j].id in jobs
                                                 && Before(jobs, claims[i].id, claims[j].id))
    && (forall c, id :: c in claims && id in due && id !in Ids(claims) ==>
                          c.id in jobs && Before(jobs, c.id, id))
  }

  lemma DueIsOpen(j: Job, now: real, eligible: Job -> bool)
    requires Due(j, now, eligible)
    ensures !j.delivery.Delivered?
  {
  }

  lemma ClaimedIsNotDue(j: Job, token: nat, now: real, eligible: Job -> bool)
    requires !j.delivery.Delivered?
    ensures !Due(Claim(j, token, now), now, eligible)
  {
  }

  lemma {:induction false} DistinctIds(claims: seq<Lease>)
    requires forall i, j :: 0 <= i < j < |claims| ==> claims[i].id != claims[j].id
    ensures |Ids(claims)| == |claims|
  {
    if claims != [] {
      var n := |claims| - 1;
      DistinctIds(claims[..n]);
      assert Ids(claims) == Ids(claims[..n]) + {claims[n].id} by {
        assert claims == claims[..n] + [claims[n]];
      }
    }
  }

  lemma EarliestAreDistinct(jobs: map<nat, Job>, due: set<nat>, claims: seq<Lease>)
    requires due <= jobs.Keys && Earliest(jobs, due, claims)
    ensures |Ids(claims)| == |claims|
    ensures forall i, j :: 0 <= i < j < |claims| ==> claims[i].id != claims[j].id
  {
    forall i, j | 0 <= i < j < |claims| ensures claims[i].id != claims[j].id {
      assert Before(jobs, claims[i].id, claims[j].id);
    }
    DistinctIds(claims);
  }

  lemma OneMoreClaimed(jobs: map<nat, Job>, mid: map<nat, Job>, claims: seq<Lease>, c: Lease, now: real)
    requires ClaimsOf(jobs, mid, claims, now)
    requires c.id in jobs && c.id !in Ids(claims) && !jobs[c.id].delivery.Delivered?
    requires c.job == Claim(jobs[c.id], c.token, now)
    ensures ClaimsOf(jobs, mid[c.id := c.job], claims + [c], now)
    ensures Ids(claims + [c]) == Ids(claims) + {c.id}
  {
    hide Claim;
    var more := claims + [c];
    assert forall x :: x in more <==> x in claims || x == c;
    assert Ids(more) == Ids(claims) + {c.id};
    forall x | x in more
      ensures x.id in jobs && !jobs[x.id].delivery.Delivered?
              && mid[c.id := c.job][x.id] == x.job == Claim(jobs[x.id], x.token, now) {
      assert x in claims ==> x.id in Ids(claims);
    }
  }

  lemma OneMoreEarliest(jobs: map<nat, Job>, due: set<nat>, claims: seq<Lease>, c: Lease)
    requires due <= jobs.Keys && Earliest(jobs, due, claims)
    requires IsFirst(jobs, due - Ids(claims), c.id)
    ensures Earliest(jobs, due, claims + [c])
  {
    hide Before;
    var more := claims + [c];
    assert Ids(more) == Ids(claims) + {c.id} by {
      assert forall x :: x in more <==> x in claims || x == c;
    }
    forall i, j | 0 <= i < j < |more|
      ensures more[i].id in jobs && more[j].id in jobs && Before(jobs, more[i].id, more[j].id) {
      assert more[i] in claims;
    }
    forall x, id | x in more && id in due && id !in Ids(more) ensures x.id in jobs && Before(jobs, x.id, id) {
      assert x == c || x in claims;
    }
  }

  /** Claims do not change the order. */
  lemma ClaimsKeepOrder(jobs: map<nat, Job>, mid: map<nat, Job>, claims: seq<Lease>, now: real, ids: set<nat>, id: nat)
    requires ClaimsOf(jobs, mid, claims, now) && ids <= jobs.Keys && IsFirst(mid, ids, id)
    ensures IsFirst(jobs, ids, id)
  {
    forall x | x in jobs ensures mid[x].completedAt == jobs[x].completedAt && mid[x].createdAt == jobs[x].createdAt {
      if x in Ids(claims) {
        var c :| c in claims && c.id == x;
      }
    }
  }

  /** One more claim, of the first job still due. */
  lemma OneMoreClaim(jobs: map<nat, Job>, mid: map<nat, Job>, after: map<nat, Job>, claims: seq<Lease>, c: Lease,
                     now: real, eligible: Job -> bool)
    requires ClaimsOf(jobs, mid, claims, now)
    requires Earliest(jobs, DueSet(jobs, now, eligible), claims)
    requires DueSet(mid, now, eligible) == DueSet(jobs, now, eligible) - Ids(claims)
    requires IsFirst(mid, DueSet(mid, now, eligible), c.id)
    requires !mid[c.id].delivery.Delivered? && c.job == Claim(mid[c.id], c.token, now) && after == mid[c.id := c.job]
    ensures ClaimsOf(jobs, after, claims + [c], now)
    ensures Earliest(jobs, DueSet(jobs, now, eligible), claims + [c])
    ensures DueSet(after, now, eligible) == DueSet(jobs, now, eligible) - Ids(claims + [c])
  {
    hide Claimable, Claim, Before, Earliest;
    assert c.id in DueSet(mid, now, eligible) && mid[c.id] == jobs[c.id];
    DueIsOpen(mid[c.id], now, eligible);
    OneMoreClaimed(jobs, mid, claims, c, now);
    ClaimsKeepOrder(jobs, mid, claims, now, DueSet(mid, now, eligible), c.id);
    OneMoreEarliest(jobs, DueSet(jobs, now, eligible), claims, c);
    ClaimedIsNotDue(mid[c.id], c.token, now, eligible);
    assert DueSet(after, now, eligible) == DueSet(mid, now, eligible) - {c.id};
  }

  // ---------------------------------------------------------------------- drain

  datatype DrainResult = DrainResult(
    speak: seq<Lease>,
    desktop: seq<Lease>,
    desktopFailed: seq<Lease>,
    deferred: seq<Lease>)

  /** What a drain makes of one job; `shown` is whether the notification succeeded. */
  function Applied(p: Policy, j: Job, token: nat, shown: bool): Job
    requires Deliverable(j.status) && !j.delivery.Delivered?
  {
    var d := j.delivery;
    match Dispose(p, Classify(j.status))
    case Speak => Claim(j, token, p.now)
    case OnDesktop =>
      j.(delivery := if shown then Waiting(d.generation, d.attempts + 1, Desktop, d.repeated, 0.0)
                     else Waiting(d.generation, d.attempts + 1, d.ack, d.repeated, p.now + RETRY_SECONDS))
    case Defer => j.(delivery := Waiting(d.generation, d.attempts + 1, Deferred, d.repeated, 0.0))
  }

  /** The policy as the callback `claim_delivery` is given; it is only asked about deliverable jobs. */
  function Eligible(p: Policy): Job -> bool {
    (j: Job) => Deliverable(j.status) && AutoEligible(p, j)
  }

  /** No matter how the notification went, the job is not due again at this time. */
  lemma AppliedIsNotDue(p: Policy, j: Job, token: nat, shown: bool)
    requires Deliverable(j.status) && !j.delivery.Delivered?
    ensures !Due(Applied(p, j, token, shown), p.now, Eligible(p))
  {
  }

  /** What the policy makes of a claim, judged by the job as claimed. */
  function KindOf(p: Policy, c: Lease): Disposition
    requires Deliverable(c.job.status)
  {
    Dispose(p, Classify(c.job.status))
  }

  predicate AllDeliverable(claims: seq<Lease>) {
    forall c :: c in claims ==> Deliverable(c.job.status)
  }

  /** The claims dealt out to the four lists, in claim order; `done` says whose application the store accepted. */
  function Split(p: Policy, claims: seq<Lease>, done: seq<bool>): (r: DrainResult)
    requires |claims| == |done| && AllDeliverable(claims)
  {
    if claims == [] then DrainResult([], [], [], [])
    else
      var n := |claims| - 1;
      Dealt(p, Split(p, claims[..n], done[..n]), claims[n], done[n])
  }

  function Dealt(p: Policy, q: DrainResult, c: Lease, ok: bool): DrainResult
    requires Deliverable(c.job.status)
  {
    match KindOf(p, c)
    case Speak => q.(speak := q.speak + [c])
    case OnDesktop => if ok then q.(desktop := q.desktop + [c]) else q.(desktopFailed := q.desktopFailed + [c])
    case Defer => if ok then q.(deferred := q.deferred + [c]) else q
  }

  /** What is in the lists, all together. */
  function Listed(r: DrainResult): multiset<Lease> {
    multiset(r.speak) + multiset(r.desktop) + multiset(r.desktopFailed) + multiset(r.deferred)
  }

  predicate NoRefusedDeferral(p: Policy, claims: seq<Lease>, done: seq<bool>)
    requires |claims| == |done| && AllDeliverable(claims)
  {
    forall i :: 0 <= i < |claims| ==> KindOf(p, claims[i]).Defer? ==> done[i]
  }

  lemma DealtListsOne(p: Policy, q: DrainResult, c: Lease, ok: bool)
    requires Deliverable(c.job.status)
    ensures Listed(Dealt(p, q, c, ok)) == Listed(q) + (if KindOf(p, c).Defer? && !ok then multiset{} else multiset{c})
  {
  }

  /** Every claim is in just one list, except a deferral the store refused, which is in none. */
  lemma {:induction false} OnlyRefusedDeferralsAreUnlisted(p: Policy, claims: seq<Lease>, done: seq<bool>)
    requires |claims| == |done| && AllDeliverable(claims)
    ensures Listed(Split(p, claims, done)) <= multiset(claims)
    ensures Listed(Split(p, claims, done)) == multiset(claims) <==> NoRefusedDeferral(p, claims, done)
  {
    hide KindOf, Dealt, Listed;
    ListedByInduction(p, claims, done);
  }

  lemma OneMoreListed(all: multiset<Lease>, front: seq<Lease>, c: Lease, listed: bool)
    requires all <= multiset(front)
    ensures var more := all + (if listed then multiset{c} else multiset{});
            && more <= multiset(front + [c])
            && (listed && all == multiset(front) ==> more == multiset(front + [c]))
            && (!listed || |all| < |front| ==> |more| < |front| + 1)
  {
    assert |multiset(front) - all| == |front| - |all|;
  }

  lemma RefusedDeferralStep(p: Policy, claims: seq<Lease>, done: seq<bool>)
    requires claims != [] && |claims| == |done| && AllDeliverable(claims)
    ensures var n := |claims| - 1;
            && AllDeliverable(claims[..n]) && Deliverable(claims[n].job.status)
            && (NoRefusedDeferral(p, claims, done) <==>
                NoRefusedDeferral(p, claims[..n], done[..n]) && !(KindOf(p, claims[n]).Defer? && !done[n]))
  {
    hide KindOf;
    assert claims[|claims| - 1] in claims;
  }

  lemma {:induction false} ListedByInduction(p: Policy, claims: seq<Lease>, done: seq<bool>)
    requires |claims| == |done| && AllDeliverable(claims)
    ensures var all := Listed(Split(p, claims, done));
            && all <= multiset(claims)
            && (NoRefusedDeferral(p, claims, done) ==> all == multiset(claims))
            && (!NoRefusedDeferral(p, claims, done) ==> |all| < |claims|)
  {
    hide KindOf, Dealt;
    if claims != [] {
      hide Listed, NoRefusedDeferral, AllDeliverable;
      var n := |claims| - 1;
      var front, c, ok := claims[..n], claims[n], done[n];
      RefusedDeferralStep(p, claims, done);
      ListedByInduction(p, front, done[..n]);
      var q := Split(p, front, done[..n]);
      DealtListsOne(p, q, c, ok);
      OneMoreListed(Listed(q), front, c, !(KindOf(p, c).Defer? && !ok));
      assert claims == front + [c];
    }
  }

  /** The claims handled so far are dealt out. */
  ghost predicate DealtSoFar(p: Policy, claims: seq<Lease>, done: seq<bool>, r: DrainResult) {
    && |done| <= |claims| && AllDeliverable(claims) && AllDeliverable(claims[..|done|])
    && r == Split(p, claims[..|done|], done)
  }

  lemma OneMoreDealt(p: Policy, claims: seq<Lease>, done: seq<bool>, r: DrainResult, ok: bool)
    requires DealtSoFar(p, claims, done, r) && |done| < |claims| && Deliverable(claims[|done|].job.status)
    ensures DealtSoFar(p, claims, done + [ok], Dealt(p, r, claims[|done|], ok))
  {
    var i := |done|;
    assert claims[..i + 1][..i] == claims[..i] && (done + [ok])[..i] == done;
  }

  lemma AllDealt(p: Policy, claims: seq<Lease>, done: seq<bool>, r: DrainResult)
    requires DealtSoFar(p, claims, done, r) && |done| == |claims|
    ensures AllDeliverable(claims) && r == Split(p, claims, done)
  {
    assert claims[..|done|] == claims;
  }

  /** A drain: the eight earliest due jobs are claimed and each is applied once; no other job changes. */
  ghost predicate Drained(p: Policy, before: map<nat, Job>, after: map<nat, Job>, claims: seq<Lease>, shown: seq<bool>) {
    var due := DueSet(before, p.now, Eligible(p));
    && |claims| == |shown| == (if |due| < BATCH_LIMIT then |due| else BATCH_LIMIT)
    && Earliest(before, due, claims)
    && after.Keys == before.Keys
    && (forall i :: 0 <= i < |claims| ==>
          && claims[i].id in due && claims[i].job == Claim(before[claims[i].id], claims[i].token, p.now)
          && (KindOf(p, claims[i]).Defer? ==> shown[i])
          && after[claims[i].id] == Applied(p, before[claims[i].id], claims[i].token, shown[i]))
    && (forall id :: id in before && id !in Ids(claims) ==> after[id] == before[id])
  }

  /** The drain loop in the middle: the claims already applied, and those still only held. */
  ghost predicate Halfway(p: Policy, before: map<nat, Job>, jobs: map<nat, Job>, claims: seq<Lease>, shown: seq<bool>) {
    var due := DueSet(before, p.now, Eligible(p));
    && |shown| <= |claims|
    && jobs.Keys == before.Keys
    && (forall i :: 0 <= i < |claims| ==>
          && claims[i].id in due && claims[i].job == Claim(before[claims[i].id], claims[i].token, p.now)
          && (i < |shown| && KindOf(p, claims[i]).Defer? ==> shown[i])
          && jobs[claims[i].id] ==
             if i < |shown| then Applied(p, before[claims[i].id], claims[i].token, shown[i]) else claims[i].job)
    && (forall id :: id in before && id !in Ids(claims) ==> jobs[id] == before[id])
  }

  /** What `Apply` does to a held job. */
  function AppliedHeld(p: Policy, j: Job, shown: bool): Job
    requires Deliverable(j.status)
  {
    var d := j.delivery;
    match Dispose(p, Classify(j.status))
    case Speak => j
    case OnDesktop =>
      j.(delivery := if shown then Waiting(d.generation, d.attempts, Desktop, d.repeated, 0.0)
                     else Waiting(d.generation, d.attempts, d.ack, d.repeated, p.now + RETRY_SECONDS))
    case Defer => j.(delivery := Waiting(d.generation, d.attempts, Deferred, d.repeated, 0.0))
  }

  lemma HeldIsReady(p: Policy, before: map<nat, Job>, jobs: map<nat, Job>, claims: seq<Lease>, shown: seq<bool>)
    requires Halfway(p, before, jobs, claims, shown) && |shown| < |claims|
    ensures var c := claims[|shown|];
            c.id in jobs && c.id in before &&
            var j := jobs[c.id];
            && j.status == c.job.status && Deliverable(j.status) && AutoEligible(p, j)
            && Holds(j.delivery, c.token) && j.delivery.claimedAt == p.now
  {
  }

  lemma OneMoreApplied(p: Policy, before: map<nat, Job>, mid: map<nat, Job>, after: map<nat, Job>, claims: seq<Lease>,
                       shown: seq<bool>, ok: bool)
    requires Halfway(p, before, mid, claims, shown) && |shown| < |claims|
    requires forall i, j :: 0 <= i < j < |claims| ==> claims[i].id != claims[j].id
    requires var id := claims[|shown|].id;
             && id in mid && Deliverable(mid[id].status) && after == mid[id := AppliedHeld(p, mid[id], ok)]
             && (KindOf(p, claims[|shown|]).Defer? ==> ok)
    ensures Halfway(p, before, after, claims, shown + [ok])
  {
    var c := claims[|shown|];
    assert c in claims && c.id in Ids(claims);
    assert after[c.id] == Applied(p, before[c.id], c.token, ok);
  }

  lemma HalfwayStartsAndEnds(p: Policy, before: map<nat, Job>, jobs: map<nat, Job>, claims: seq<Lease>, shown: seq<bool>)
    ensures ClaimsOf(before, jobs, claims, p.now) && Earliest(before, DueSet(before, p.now, Eligible(p)), claims) ==>
              Halfway(p, before, jobs, claims, [])
    ensures && Halfway(p, before, jobs, claims, shown)
            && |claims| == |shown|
            && Earliest(before, DueSet(before, p.now, Eligible(p)), claims)
            && (var due := DueSet(before, p.now, Eligible(p));
                |claims| == if |due| < BATCH_LIMIT then |due| else BATCH_LIMIT)
            ==> Drained(p, before, jobs, claims, shown)
  {
    var due := DueSet(before, p.now, Eligible(p));
    if ClaimsOf(before, jobs, claims, p.now) && Earliest(before, due, claims) {
      forall i | 0 <= i < |claims| ensures claims[i].id in due {
        assert claims[i] in claims && claims[i].id in Ids(claims);
      }
    }
  }

  lemma DrainSettlesItsClaims(p: Policy, before: map<nat, Job>, after: map<nat, Job>, claims: seq<Lease>, shown: seq<bool>)
    requires Drained(p, before, after, claims, shown)
    ensures var due := DueSet(before, p.now, Eligible(p));
            && Ids(claims) <= due
            && DueSet(after, p.now, Eligible(p)) == due - Ids(claims)
            && |DueSet(after, p.now, Eligible(p))| == (if |due| < BATCH_LIMIT then 0 else |due| - BATCH_LIMIT)
  {
    var due := DueSet(before, p.now, Eligible(p));
    EarliestAreDistinct(before, due, claims);
    forall id | id in Ids(claims) ensures !Due(after[id], p.now, Eligible(p)) {
      var i :| 0 <= i < |claims| && claims[i].id == id;
      assert claims[i] in claims && claims[i].id in due;
      AppliedIsNotDue(p, before[id], claims[i].token, shown[i]);
    }
    assert DueSet(after, p.now, Eligible(p)) == due - Ids(claims);
    assert |due - Ids(claims)| == |due| - |Ids(claims)|;
  }

  /** A sequence of drains under one policy, whatever the notifications do. */
  ghost predicate Drains(p: Policy, states: seq<map<nat, Job>>, claims: seq<seq<Lease>>, shown: seq<seq<bool>>) {
    && |states| == |claims| + 1 && |shown| == |claims|
    && forall k :: 0 <= k < |claims| ==> Drained(p, states[k], states[k + 1], claims[k], shown[k])
  }

  /** Repeated draining runs dry, eight at a time, and never touches a job twice. */
  lemma {:induction false} DrainingRunsDry(p: Policy, states: seq<map<nat, Job>>, claims: seq<seq<Lease>>,
                                           shown: seq<seq<bool>>)
    requires Drains(p, states, claims, shown)
    ensures var due := DueSet(states[0], p.now, Eligible(p));
            var left := DueSet(states[|claims|], p.now, Eligible(p));
            && |left| == (if |due| < BATCH_LIMIT * |claims| then 0 else |due| - BATCH_LIMIT * |claims|)
            && left <= due
            && (forall k :: 0 <= k < |claims| ==> Ids(claims[k]) !! left)
    ensures forall k, m :: 0 <= k < m < |claims| ==> Ids(claims[k]) !! Ids(claims[m])
  {
    hide Drained, Due;
    var n := |claims|;
    if n > 0 {
      var front := n - 1;
      assert Drains(p, states[..n], claims[..front], shown[..front]);
      DrainingRunsDry(p, states[..n], claims[..front], shown[..front]);
      DrainSettlesItsClaims(p, states[front], states[n], claims[front], shown[front]);
      assert states[..n][0] == states[0] && states[..n][front] == states[front];
      forall k | 0 <= k < front ensures Ids(claims[k]) !! DueSet(states[front], p.now, Eligible(p)) {
        assert claims[..front][k] == claims[k];
      }
      forall k, m | 0 <= k < m < n ensures Ids(claims[k]) !! Ids(claims[m]) {
        if m < front {
          assert claims[..front][k] == claims[k] && claims[..front][m] == claims[m];
        } else {
          assert Ids(claims[m]) <= DueSet(states[front], p.now, Eligible(p));
        }
      }
    }
  }

  // ------------------------------------------------------- claims in a shared run

  /** The run went on from `before` without a use of the tokens `mine`. */
  ghost predicate Grown(before: seq<Event>, after: seq<Event>, mine: set<nat>) {
    before <= after && forall k :: |before| <= k < |after| ==> !Uses(after[k], mine)
  }

  lemma StillGrown(events: seq<Event>, mine: set<nat>)
    ensures Grown(events, events, mine)
  {
  }

  /** One claim was tried. */
  ghost predicate OneMore(before: seq<Event>, after: seq<Event>) {
    |after| == |before| + 1 && before <= after && after[|before|].ClaimEvent?
  }

  lemma GrownIsLonger(before: seq<Event>, after: seq<Event>, mine: set<nat>)
    requires Grown(before, after, mine)
    ensures before <= after
  {
  }

  lemma GrownByOne(before: seq<Event>, mid: seq<Event>, mine: set<nat>)
    requires Grown(before, mid, mine)
    ensures forall after :: OneMore(mid, after) ==> Grown(before, after, mine)
  {
  }

  lemma GrownFurther(before: seq<Event>, mid: seq<Event>, after: seq<Event>, mine: set<nat>)
    requires Grown(before, mid, mine) && Grown(mid, after, mine)
    ensures Grown(before, after, mine)
  {
  }

  lemma NothingIsForgotten(w: World, e: Event)
    ensures w.jobs.Keys <= Next(w, e).jobs.Keys && w.grants.Keys <= Next(w, e).grants.Keys
  {
  }

  lemma ClaimIsAt(events: seq<Event>, e: Event)
    requires e.ClaimEvent? && Enabled(Exec(EMPTY, events), e)
    requires Claimable(Exec(EMPTY, events).jobs[e.id], e.now, e.foreground, e.eligible)
    ensures ClaimedAt(events + [e], |events|, e.id, e.token, e.now)
  {
    assert (events + [e])[..|events|] == events;
  }

  function Tokens(claims: seq<Lease>): set<nat> {
    set c | c in claims :: c.token
  }

  /** After place `from` of the run the token was not used. */
  ghost predicate Unused(events: seq<Event>, from: nat, token: nat) {
    forall k :: from < k < |events| ==> !Uses(events[k], {token})
  }

  /** At place `i` the run made this claim, of the job as it was then. */
  ghost predicate Granted(events: seq<Event>, i: nat, c: Lease) {
    && i < |events| && events[i].ClaimEvent?
    && ClaimedAt(events, i, c.id, c.token, events[i].now)
    && c.job == Claim(Exec(EMPTY, events[..i]).jobs[c.id], c.token, events[i].now)
  }

  /** The run went on since `before`, and the last thing in it is this claim. */
  ghost predicate JustGranted(before: seq<Event>, events: seq<Event>, c: Lease) {
    |events| > |before| && Granted(events, |events| - 1, c)
  }

  lemma GrantedSince(before: seq<Event>, mid: seq<Event>, events: seq<Event>, mine: set<nat>)
    requires Grown(before, mid, mine)
    ensures forall c :: JustGranted(mid, events, c) ==> JustGranted(before, events, c)
  {
  }

  /** The claims, made one after the other at the places `at` of the run since `before`. */
  ghost predicate ClaimedIn(before: seq<Event>, events: seq<Event>, claims: seq<Lease>, at: seq<nat>) {
    && |at| == |claims| && before <= events
    && (forall i :: 0 <= i < |at| ==> |before| <= at[i] && Granted(events, at[i], claims[i]))
    && (forall i, j :: 0 <= i < j < |at| ==> at[i] < at[j] && claims[i].token != claims[j].token)
  }

  ghost predicate AllUnused(events: seq<Event>, claims: seq<Lease>, at: seq<nat>) {
    |at| == |claims| && forall i :: 0 <= i < |at| ==> Unused(events, at[i], claims[i].token)
  }

  lemma NothingClaimed(events: seq<Event>)
    ensures ClaimedIn(events, events, [], []) && AllUnused(events, [], []) && Tokens([]) == {} && Ids([]) == {}
  {
  }

  lemma StillGranted(mid: seq<Event>, events: seq<Event>, i: nat, c: Lease)
    requires Granted(mid, i, c) && mid <= events
    ensures Granted(events, i, c)
  {
    assert events[..i] == mid[..i];
  }

  lemma StillClaimed(before: seq<Event>, mid: seq<Event>, events: seq<Event>, claims: seq<Lease>, at: seq<nat>)
    requires ClaimedIn(before, mid, claims, at) && mid <= events
    ensures ClaimedIn(before, events, claims, at)
  {
    hide Granted;
    forall i | 0 <= i < |at| ensures Granted(events, at[i], claims[i]) {
      StillGranted(mid, events, at[i], claims[i]);
    }
  }

  lemma StillUnused(mid: seq<Event>, events: seq<Event>, claims: seq<Lease>, at: seq<nat>)
    requires AllUnused(mid, claims, at) && Grown(mid, events, Tokens(claims))
    ensures AllUnused(events, claims, at)
  {
    forall i | 0 <= i < |at| ensures Unused(events, at[i], claims[i].token) {
      assert claims[i].token in Tokens(claims);
    }
  }

  lemma OneMoreClaimedIn(before: seq<Event>, mid: seq<Event>, events: seq<Event>, claims: seq<Lease>, at: seq<nat>, c: Lease)
    requires ClaimedIn(before, mid, claims, at) && AllUnused(mid, claims, at)
    requires Grown(mid, events, Tokens(claims)) && JustGranted(mid, events, c) && c.token !in Tokens(claims)
    ensures |events| > 0
    ensures ClaimedIn(before, events, claims + [c], at + [|events| - 1])
    ensures AllUnused(events, claims + [c], at + [|events| - 1])
    ensures Tokens(claims + [c]) == Tokens(claims) + {c.token} && Ids(claims + [c]) == Ids(claims) + {c.id}
  {
    StillClaimed(before, mid, events, claims, at);
    StillUnused(mid, events, claims, at);
    PlacesAreInRun(before, mid, claims, at);
    hide Granted, Unused;
    assert forall x :: x in claims + [c] <==> x in claims || x == c;
    forall i | 0 <= i < |claims| ensures claims[i].token != c.token {
      assert claims[i].token in Tokens(claims);
    }
    NothingAfterLast(events, c.token);
  }

  lemma PlacesAreInRun(before: seq<Event>, events: seq<Event>, claims: seq<Lease>, at: seq<nat>)
    requires ClaimedIn(before, events, claims, at)
    ensures forall i :: 0 <= i < |at| ==> at[i] < |events| && events[at[i]].ClaimEvent?
  {
  }

  lemma NothingAfterLast(events: seq<Event>, token: nat)
    requires events != []
    ensures Unused(events, |events| - 1, token)
  {
  }

  /** A new result for the job, or a claim of it at a time when a claim made at `claimed` is over. */
  predicate NewlyDue(e: Event, id: nat, claimed: real) {
    || (e.PrepareEvent? && e.id == id)
    || (e.ClaimEvent? && e.id == id && e.now - claimed >= LEASE_SECONDS)
  }

  /** Two claims of one job stand for two results, or the first had run out. */
  ghost predicate OncePerResult(events: seq<Event>, claims: seq<Lease>, at: seq<nat>) {
    |at| == |claims| &&
    forall i, j :: 0 <= i < j < |claims| && claims[i].id == claims[j].id ==>
      && at[i] < at[j] < |events| && events[at[i]].ClaimEvent?
      && exists k :: at[i] < k <= at[j] && NewlyDue(events[k], claims[i].id, events[at[i]].now)
  }

  lemma ClaimedOncePerResult(before: seq<Event>, events: seq<Event>, claims: seq<Lease>, at: seq<nat>)
    requires ClaimedIn(before, events, claims, at) && AllUnused(events, claims, at)
    ensures OncePerResult(events, claims, at)
  {
    forall i, j | 0 <= i < j < |claims| && claims[i].id == claims[j].id
      ensures at[i] < at[j] < |events| && events[at[i]].ClaimEvent?
      ensures exists k :: at[i] < k <= at[j] && NewlyDue(events[k], claims[i].id, events[at[i]].now)
    {
      var c, d := claims[i], claims[j];
      assert Granted(events, at[i], c) && Granted(events, at[j], d) && Unused(events, at[i], c.token);
      SecondClaimNeedsReopening(events, at[i], at[j], c.id, c.token, events[at[i]].now, d.token, events[at[j]].now);
      var k :| at[i] < k <= at[j] && Reopens(events[k], c.id, c.token, events[at[i]].now);
      assert NewlyDue(events[k], c.id, events[at[i]].now);
    }
  }

  lemma StillOncePerResult(mid: seq<Event>, events: seq<Event>, claims: seq<Lease>, at: seq<nat>)
    requires OncePerResult(mid, claims, at) && mid <= events
    ensures OncePerResult(events, claims, at)
  {
    forall i, j | 0 <= i < j < |claims| && claims[i].id == claims[j].id
      ensures exists k :: at[i] < k <= at[j] && NewlyDue(events[k], claims[i].id, events[at[i]].now)
    {
      var k :| at[i] < k <= at[j] && NewlyDue(mid[k], claims[i].id, mid[at[i]].now);
      assert events[k] == mid[k];
    }
  }

  // ------------------------------------------------- applying claims in a shared run

  /** At place `u` the token of `c` is used as the policy says; `done` is whether the store accepted it. */
  ghost predicate AppliedAt(events: seq<Event>, u: nat, c: Lease, kind: Disposition, done: bool) {
    && u < |events| && Uses(events[u], {c.token}) && events[u].id == c.id && c.id in Exec(EMPTY, events[..u]).jobs
    && (events[u].AckEvent? || events[u].ReleaseEvent?)
    && (kind.Defer? ==> events[u].AckEvent?)
    && (events[u].AckEvent? ==> events[u].ack == if kind.OnDesktop? then Desktop else Deferred)
    && (events[u].ReleaseEvent? ==> events[u].retry)
    && (done <==> events[u].AckEvent? &&
                  Acknowledge(Exec(EMPTY, events[..u]).jobs[c.id], c.token, events[u].ack, events[u].now).Some?)
  }

  /** Since its claim at `from` a spoken claim is untouched, and any other was applied exactly once. */
  ghost predicate Handled(events: seq<Event>, from: nat, c: Lease, kind: Disposition, done: bool) {
    if kind.Speak? then Unused(events, from, c.token)
    else
      exists u :: from < u && AppliedAt(events, u, c, kind, done)
                  && forall k :: from < k < |events| && k != u ==> !Uses(events[k], {c.token})
  }

  lemma HandledLater(mid: seq<Event>, events: seq<Event>, from: nat, c: Lease, kind: Disposition, done: bool)
    requires Handled(mid, from, c, kind, done) && Grown(mid, events, {c.token})
    ensures Handled(events, from, c, kind, done)
  {
    if !kind.Speak? {
      var u :| from < u && AppliedAt(mid, u, c, kind, done)
               && forall k :: from < k < |mid| && k != u ==> !Uses(mid[k], {c.token});
      assert events[..u] == mid[..u];
      assert AppliedAt(events, u, c, kind, done);
    }
  }

  /** One `Apply`: others go on without these tokens, then, unless it is to be spoken, the claim is applied. */
  ghost predicate AppliedIn(mid: seq<Event>, events: seq<Event>, mine: set<nat>, c: Lease, kind: Disposition, done: bool) {
    if kind.Speak? then Grown(mid, events, mine)
    else
      && |events| > |mid| && Grown(mid, events[..|events| - 1], mine)
      && AppliedAt(events, |events| - 1, c, kind, done)
  }

  /** The drain after some of its claims: those are handled, and the others not yet used. */
  ghost predicate AllHandled(p: Policy, events: seq<Event>, claims: seq<Lease>, at: seq<nat>, done: seq<bool>) {
    && |done| <= |claims| == |at| && AllDeliverable(claims)
    && (forall i :: 0 <= i < |claims| ==> at[i] < |events|)
    && (forall i, j :: 0 <= i < j < |claims| ==> claims[i].token != claims[j].token)
    && (forall i :: 0 <= i < |done| ==> Handled(events, at[i], claims[i], KindOf(p, claims[i]), done[i]))
    && (forall i :: |done| <= i < |claims| ==> Unused(events, at[i], claims[i].token))
  }

  lemma HandledNow(mid: seq<Event>, events: seq<Event>, mine: set<nat>, from: nat, c: Lease, kind: Disposition, done: bool)
    requires from < |mid| && Unused(mid, from, c.token) && c.token in mine && AppliedIn(mid, events, mine, c, kind, done)
    ensures Handled(events, from, c, kind, done)
  {
    if !kind.Speak? {
      var u := |events| - 1;
      forall k | from < k < |events| && k != u ensures !Uses(events[k], {c.token}) {
        assert events[..u][k] == events[k];
      }
    }
  }

  lemma NextToHandle(p: Policy, events: seq<Event>, claims: seq<Lease>, at: seq<nat>, done: seq<bool>)
    requires AllHandled(p, events, claims, at, done) && |done| < |claims|
    ensures var c := claims[|done|]; Deliverable(c.job.status) && c.token in Tokens(claims) && c.id in Ids(claims)
  {
    assert claims[|done|] in claims;
  }

  /** Applying one claim uses no other's token. */
  lemma OthersUnused(mid: seq<Event>, events: seq<Event>, mine: set<nat>, c: Lease, kind: Disposition, done: bool, token: nat)
    requires AppliedIn(mid, events, mine, c, kind, done) && token in mine && token != c.token
    ensures Grown(mid, events, {token})
  {
    if !kind.Speak? {
      forall k | |mid| <= k < |events| ensures !Uses(events[k], {token}) {
        assert k < |events| - 1 ==> events[..|events| - 1][k] == events[k];
      }
    }
  }

  lemma OneMoreHandled(p: Policy, mid: seq<Event>, events: seq<Event>, claims: seq<Lease>, at: seq<nat>, done: seq<bool>,
                       ok: bool)
    requires AllHandled(p, mid, claims, at, done) && |done| < |claims|
    requires AppliedIn(mid, events, Tokens(claims), claims[|done|], KindOf(p, claims[|done|]), ok)
    ensures AllHandled(p, events, claims, at, done + [ok])
  {
    hide AppliedIn, Handled, Grown, KindOf, Uses;
    var n, mine := |done|, Tokens(claims);
    var c := claims[n];
    HandledNow(mid, events, mine, at[n], c, KindOf(p, c), ok);
    RunGrows(mid, events, mine, c, KindOf(p, c), ok);
    forall i | 0 <= i < |claims| && i != n
      ensures if i < n then Handled(events, at[i], claims[i], KindOf(p, claims[i]), done[i])
              else Unused(events, at[i], claims[i].token)
    {
      assert claims[i] in claims && claims[i].token in mine;
      OthersUnused(mid, events, mine, c, KindOf(p, c), ok, claims[i].token);
      if i < n {
        HandledLater(mid, events, at[i], claims[i], KindOf(p, claims[i]), done[i]);
      } else {
        UnusedLater(mid, events, at[i], claims[i].token);
      }
    }
  }

  lemma UseIsApplied(mid: seq<Event>, events: seq<Event>, mine: set<nat>, c: Lease, kind: Disposition, e: Event)
    requires Grown(mid, events, mine) && !kind.Speak? && c.id in Exec(EMPTY, events).jobs
    requires e.AckEvent? || e.ReleaseEvent?
    requires e.id == c.id && e.token == c.token
    requires e.AckEvent? ==> e.ack == if kind.OnDesktop? then Desktop else Deferred
    requires e.ReleaseEvent? ==> e.retry && !kind.Defer?
    ensures AppliedIn(mid, events + [e], mine, c, kind,
              e.AckEvent? && Acknowledge(Exec(EMPTY, events).jobs[c.id], c.token, e.ack, e.now).Some?)
  {
    assert (events + [e])[..|events|] == events;
  }

  lemma RunGrows(mid: seq<Event>, events: seq<Event>, mine: set<nat>, c: Lease, kind: Disposition, done: bool)
    requires AppliedIn(mid, events, mine, c, kind, done)
    ensures mid <= events
  {
  }

  lemma UnusedLater(mid: seq<Event>, events: seq<Event>, from: nat, token: nat)
    requires Unused(mid, from, token) && Grown(mid, events, {token})
    ensures Unused(events, from, token)
  {
  }

  lemma NoneHandled(p: Policy, before: seq<Event>, events: seq<Event>, claims: seq<Lease>, at: seq<nat>)
    requires ClaimedIn(before, events, claims, at) && AllUnused(events, claims, at)
    ensures AllHandled(p, events, claims, at, []) && DealtSoFar(p, claims, [], DrainResult([], [], [], []))
  {
    forall c | c in claims ensures Deliverable(c.job.status) {
      var i :| 0 <= i < |claims| && claims[i] == c;
      assert Granted(events, at[i], c);
    }
  }

  // ------------------------------------------------------------------ the store

  class Store {
    var world: World
    ghost var events: seq<Event>

    /** Everything done to the store was a step of the delivery protocol. */
    ghost predicate Valid()
      reads this
    {
      Run(EMPTY, events) && world == Exec(EMPTY, events)
    }

    constructor ()
      ensures Valid()
    {
      world := EMPTY;
      events := [];
    }

    method Transact(e: Event)
      requires Valid() && Enabled(world, e)
      modifies this
      ensures Valid() && world == Next(old(world), e) && events == old(events) + [e]
    {
      hide Next, Enabled;
      assert (events + [e])[..|events|] == events;
      world := Next(world, e);
      events := events + [e];
    }

    /** uuid4: a token nobody was given before. */
    method FreshToken() returns (token: nat)
      ensures token !in world.grants
    {
      token := 0;
      ghost var left := world.grants.Keys;
      while token in world.grants
        invariant forall t :: t in world.grants && t >= token ==> t in left
        decreases left
      {
        left := left - {token};
        token := token + 1;
      }
    }

    /** Other daemons, the user and new results: anything but the use of these tokens, at any clock readings. */
    method Interfere(mine: set<nat>)
      requires Valid()
      modifies this
      ensures Valid() && Grown(old(events), events, mine)
      ensures old(world).jobs.Keys <= world.jobs.Keys && old(world).grants.Keys <= world.grants.Keys
    {
      hide Run, Exec;
      var steps: nat := *;
      while steps > 0
        invariant Valid() && Grown(old(events), events, mine)
        invariant old(world).jobs.Keys <= world.jobs.Keys && old(world).grants.Keys <= world.grants.Keys
      {
        var e: Event := *;
        if Enabled(world, e) && !Uses(e, mine) {
          NothingIsForgotten(world, e);
          Transact(e);
        }
        steps := steps - 1;
      }
    }

    /** `claim_delivery` of one job: claimed exactly when it is due, and then by a token of its own. */
    method ClaimJob(id: nat, now: real, eligible: Job -> bool) returns (claim: Option<Lease>)
      requires Valid() && id in world.jobs
      modifies this
      ensures Valid() && OneMore(old(events), events)
      ensures old(world).jobs.Keys <= world.jobs.Keys && old(world).grants.Keys <= world.grants.Keys
      ensures claim.Some? <==> Due(old(world.jobs[id]), now, eligible)
      ensures claim.None? ==> world.jobs == old(world.jobs)
      ensures claim.Some? ==>
                && claim.value.id == id && claim.value.token !in old(world.grants) && claim.value.token in world.grants
                && !old(world.jobs[id]).delivery.Delivered?
                && claim.value.job == Claim(old(world.jobs[id]), claim.value.token, now)
                && world.jobs == old(world.jobs)[id := claim.value.job]
                && JustGranted(old(events), events, claim.value)
    {
      hide Run, Exec;
      var token := FreshToken();
      var e := ClaimEvent(id, token, now, false, eligible(world.jobs[id]));
      var claimed := Due(world.jobs[id], now, eligible);
      NothingIsForgotten(world, e);
      if claimed {
        ClaimIsAt(events, e);
      }
      Transact(e);
      return if claimed then Some(Lease(id, token, world.jobs[id])) else None;
    }

    /** A job's turn in the listing: with others at work it may have changed since. */
    method ClaimInTurn(id: nat, now: real, eligible: Job -> bool, alone: bool, mine: set<nat>) returns (claim: Option<Lease>)
      requires Valid() && id in world.jobs && mine <= world.grants.Keys
      modifies this
      ensures Valid() && Grown(old(events), events, mine)
      ensures old(world).jobs.Keys <= world.jobs.Keys && old(world).grants.Keys <= world.grants.Keys
      ensures alone ==> (claim.Some? <==> Due(old(world.jobs[id]), now, eligible))
      ensures alone && claim.None? ==> world.jobs == old(world.jobs)
      ensures alone && claim.Some? ==>
                && !old(world.jobs[id]).delivery.Delivered?
                && claim.value.job == Claim(old(world.jobs[id]), claim.value.token, now)
                && world.jobs == old(world.jobs)[id := claim.value.job]
      ensures claim.Some? ==>
                && claim.value.id == id && claim.value.token in world.grants && claim.value.token !in mine
                && JustGranted(old(events), events, claim.value)
    {
      hide Run, Exec, Grown, JustGranted, Claim, Due;
      StillGrown(events, mine);
      if !alone {
        Interfere(mine);
      }
      ghost var sofar := events;
      GrownByOne(old(events), sofar, mine);
      claim := ClaimJob(id, now, eligible);
      GrantedSince(old(events), sofar, events, mine);
    }

    /**
     `claim_delivery` without a job id: the first claimable job in completion order. Alone, that is the first due
     job; with others at work each job is judged as it is found at its turn.
    */
    method ClaimNext(now: real, eligible: Job -> bool, alone: bool, mine: set<nat>) returns (claim: Option<Lease>)
      requires Valid() && mine <= world.grants.Keys
      modifies this
      ensures Valid() && Grown(old(events), events, mine)
      ensures old(world).jobs.Keys <= world.jobs.Keys && old(world).grants.Keys <= world.grants.Keys
      ensures alone && claim.None? ==> world.jobs == old(world.jobs) && DueSet(world.jobs, now, eligible) == {}
      ensures alone && claim.Some? ==>
                && IsFirst(old(world.jobs), DueSet(old(world.jobs), now, eligible), claim.value.id)
                && !old(world.jobs)[claim.value.id].delivery.Delivered?
                && claim.value.job == Claim(old(world.jobs)[claim.value.id], claim.value.token, now)
                && world.jobs == old(world.jobs)[claim.value.id := claim.value.job]
      ensures claim.Some? ==>
                && claim.value.id in world.jobs && claim.value.token in world.grants && claim.value.token !in mine
                && JustGranted(old(events), events, claim.value)
    {
      hide Run, Exec, Grown, JustGranted, Claim, Due, DueSet, IsFirst;
      var jobs := world.jobs;
      var remaining := jobs.Keys;
      StillGrown(events, mine);
      while remaining != {}
        invariant Valid() && Grown(old(events), events, mine)
        invariant jobs.Keys <= world.jobs.Keys && old(world).grants.Keys <= world.grants.Keys
        invariant alone ==> world.jobs == jobs
        invariant remaining <= jobs.Keys
        invariant forall id :: id in jobs && id !in remaining ==> !(alone && Due(jobs[id], now, eligible))
        decreases |remaining|
      {
        FirstExists(jobs, remaining);
        var id :| id in remaining && IsFirst(jobs, remaining, id);
        ghost var sofar := events;
        claim := ClaimInTurn(id, now, eligible, alone, mine);
        GrownFurther(old(events), sofar, events, mine);
        GrantedSince(old(events), sofar, events, mine);
        if claim.Some? {
          if alone {
            FirstOfDue(jobs, remaining, now, eligible, id);
          }
          return;
        }
        remaining := remaining - {id};
      }
      if alone {
        NothingIsDue(jobs, now, eligible);
      }
      return None;
    }

    /**
     `pending_deliveries`: alone, the earliest due jobs, up to `limit`, each claimed once. With others at work
     between and during the claims, still no more than `limit`, and a job is claimed twice only if a new result
     was prepared for it in between or its first claim had run out; `at` are the claims' places in the run.
    */
    method PendingDeliveries(limit: int, clock: Option<real>, eligible: Job -> bool, alone: bool)
      returns (r: Result<seq<Lease>>, ghost at: seq<nat>)
      requires Valid()
      modifies this
      ensures Valid()
      ensures r.Raise? <==> limit <= 0
      ensures r.Raise? ==> world == old(world)
      ensures r.Ok? && alone && clock.Some? ==>
                var due := DueSet(old(world.jobs), clock.value, eligible);
                && |r.value| == (if |due| < limit then |due| else limit)
                && Earliest(old(world.jobs), due, r.value)
                && ClaimsOf(old(world.jobs), world.jobs, r.value, clock.value)
      ensures r.Ok? ==> |r.value| <= limit && Tokens(r.value) <= world.grants.Keys && Ids(r.value) <= world.jobs.Keys
      ensures r.Ok? ==> ClaimedIn(old(events), events, r.value, at) && AllUnused(events, r.value, at)
      ensures r.Ok? ==> OncePerResult(events, r.value, at)
    {
      hide Run, Exec, Earliest, ClaimsOf, DueSet, IsFirst, ClaimedIn, AllUnused, OncePerResult, Grown, JustGranted, Tokens, Ids, Claim;
      at := [];
      if limit <= 0 {
        return Raise, at;
      }
      ghost var before := world.jobs;
      ghost var fixed := alone && clock.Some?;
      ghost var due := if fixed then DueSet(before, clock.value, eligible) else {};
      var claims: seq<Lease> := [];
      var mine: set<nat> := {};
      if fixed {
        NoClaims(before, clock.value, eligible);
      }
      NothingClaimed(events);
      while |claims| < limit
        invariant Valid() && |claims| <= limit
        invariant fixed ==> ClaimsOf(before, world.jobs, claims, clock.value) && Earliest(before, due, claims)
        invariant fixed ==> DueSet(world.jobs, clock.value, eligible) == due - Ids(claims)
        invariant ClaimedIn(old(events), events, claims, at) && AllUnused(events, claims, at)
        invariant mine == Tokens(claims) && mine <= world.grants.Keys && Ids(claims) <= world.jobs.Keys
        decreases limit - |claims|
      {
        ghost var mid := world.jobs;
        ghost var earlier := events;
        var now: real := *;
        if clock.Some? {
          now := clock.value;
        }
        var claim := ClaimNext(now, eligible, alone, mine);
        GrownIsLonger(earlier, events, mine);
        if claim.None? {
          StillClaimed(old(events), earlier, events, claims, at);
          StillUnused(earlier, events, claims, at);
          if fixed {
            EarliestAreDistinct(before, due, claims);
            AllClaimed(due, claims, before);
          }
          ClaimedOncePerResult(old(events), events, claims, at);
          return Ok(claims), at;
        }
        if fixed {
          OneMoreClaim(before, mid, world.jobs, claims, claim.value, now, eligible);
        }
        OneMoreClaimedIn(old(events), earlier, events, claims, at, claim.value);
        claims, at := claims + [claim.value], at + [|events| - 1];
        mine := mine + {claim.value.token};
      }
      if fixed {
        EarliestAreDistinct(before, due, claims);
        NotTooMany(due, claims, before);
      }
      ClaimedOncePerResult(old(events), events, claims, at);
      return Ok(claims), at;
    }

    /** The batch of a drain: claimed, and nothing applied yet. */
    method Batch(p: Policy, alone: bool) returns (claims: seq<Lease>, ghost at: seq<nat>)
      requires Valid()
      modifies this
      ensures Valid() && Tokens(claims) <= world.grants.Keys && Ids(claims) <= world.jobs.Keys
      ensures |claims| <= BATCH_LIMIT && ClaimedIn(old(events), events, claims, at) && OncePerResult(events, claims, at)
      ensures AllHandled(p, events, claims, at, []) && DealtSoFar(p, claims, [], DrainResult([], [], [], []))
      ensures alone ==>
                var due := DueSet(old(world.jobs), p.now, Eligible(p));
                && |claims| == (if |due| < BATCH_LIMIT then |due| else BATCH_LIMIT)
                && Earliest(old(world.jobs), due, claims)
                && (forall i, j :: 0 <= i < j < |claims| ==> claims[i].id != claims[j].id)
                && Halfway(p, old(world.jobs), world.jobs, claims, [])
    {
      hide *;
      BatchIsPositive();
      ghost var before := world.jobs;
      var clock := Some(p.now);
      if !alone {
        clock := *;
      }
      var r: Result<seq<Lease>>;
      r, at := PendingDeliveries(BATCH_LIMIT, clock, Eligible(p), alone);
      claims := r.value;
      NoneHandled(p, old(events), events, claims, at);
      if alone {
        EarliestAreDistinct(before, DueSet(before, p.now, Eligible(p)), claims);
        HalfwayStartsAndEnds(p, before, world.jobs, claims, []);
      }
    }

    /**
     `_apply_desktop` or `_apply_deferred`, or nothing for a claim that is to be spoken. Others may act before the
     store is asked; `done` is whether it accepted the acknowledgement.
    */
    method Apply(p: Policy, c: Lease, alone: bool, mine: set<nat>) returns (done: bool)
      requires Valid() && c.id in world.jobs && c.token in mine && mine <= world.grants.Keys && Deliverable(c.job.status)
      requires alone ==>
                 var j := world.jobs[c.id];
                 j.status == c.job.status && AutoEligible(p, j) && Holds(j.delivery, c.token) && j.delivery.claimedAt == p.now
      modifies this
      ensures Valid() && mine <= world.grants.Keys && old(world).jobs.Keys <= world.jobs.Keys
      ensures AppliedIn(old(events), events, mine, c, KindOf(p, c), done)
      ensures alone ==>
                && world.jobs == old(world.jobs)[c.id := AppliedHeld(p, old(world.jobs)[c.id], done)]
                && (KindOf(p, c).Defer? ==> done)
    {
      hide Run, Exec, Grown, Dispose, Classify;
      done := true;
      StillGrown(events, mine);
      var kind := KindOf(p, c);
      if kind.Speak? {
        return;
      }
      var shown: bool := *;
      if !alone {
        Interfere(mine);
      }
      var e := if kind.Defer? then AckEvent(c.id, c.token, Deferred, p.now)
               else if shown then AckEvent(c.id, c.token, Desktop, p.now)
               else ReleaseEvent(c.id, c.token, true, p.now);
      done := e.AckEvent? && Acknowledge(world.jobs[c.id], c.token, e.ack, p.now).Some?;
      UseIsApplied(old(events), events, mine, c, kind, e);
      NothingIsForgotten(world, e);
      Transact(e);
    }

    /**
     `drain_background_announcements`; `acquired` says whether this daemon got the drain lock. At most eight jobs
     are claimed, each once per result; each claim is judged as claimed and applied exactly once, or kept for
     speech; and it is listed by what the store accepted. Alone, the claims are the first due jobs and the
     whole store is determined.
    */
    method Drain(p: Policy, acquired: bool, alone: bool)
      returns (r: DrainResult, ghost claims: seq<Lease>, ghost at: seq<nat>, ghost done: seq<bool>)
      requires Valid()
      modifies this
      ensures Valid()
      ensures !acquired ==> world == old(world) && r == DrainResult([], [], [], [])
      ensures acquired ==>
                && |claims| == |done| <= BATCH_LIMIT
                && ClaimedIn(old(events), events, claims, at) && OncePerResult(events, claims, at)
                && AllHandled(p, events, claims, at, done)
                && r == Split(p, claims, done)
      ensures acquired && alone ==> Drained(p, old(world.jobs), world.jobs, claims, done)
    {
      hide *;
      r, claims, at, done := DrainResult([], [], [], []), [], [], [];
      if !acquired {
        return;
      }
      ghost var before := world.jobs;
      var pending: seq<Lease>;
      pending, at := Batch(p, alone);
      claims := pending;
      ghost var batched := events;
      var mine := Tokens(pending);
      for i := 0 to |pending|
        invariant Valid() && mine <= world.grants.Keys && Ids(claims) <= world.jobs.Keys && |done| == i
        invariant batched <= events && AllHandled(p, events, claims, at, done)
        invariant DealtSoFar(p, claims, done, r)
        invariant alone ==> Halfway(p, before, world.jobs, claims, done)
      {
        var c := pending[i];
        NextToHandle(p, events, claims, at, done);
        if alone {
          HeldIsReady(p, before, world.jobs, claims, done);
        }
        ghost var mid, was := world.jobs, events;
        var ok := Apply(p, c, alone, mine);
        OneMoreHandled(p, was, events, claims, at, done, ok);
        RunGrows(was, events, mine, c, KindOf(p, c), ok);
        if alone {
          OneMoreApplied(p, before, mid, world.jobs, claims, done, ok);
        }
        OneMoreDealt(p, claims, done, r, ok);
        r, done := Dealt(p, r, c, ok), done + [ok];
      }
      AllDealt(p, claims, done, r);
      StillClaimed(old(events), batched, events, claims, at);
      StillOncePerResult(batched, events, claims, at);
      if alone {
        HalfwayStartsAndEnds(p, before, world.jobs, claims, done);
      }
    }
  }

  /** The jobs looked at before were not due. */
  lemma FirstOfDue(jobs: map<nat, Job>, remaining: set<nat>, now: real, eligible: Job -> bool, id: nat)
    requires remaining <= jobs.Keys && IsFirst(jobs, remaining, id) && Due(jobs[id], now, eligible)
    requires forall x :: x in jobs && x !in remaining ==> !Due(jobs[x], now, eligible)
    ensures IsFirst(jobs, DueSet(jobs, now, eligible), id)
  {
  }

  lemma NothingIsDue(jobs: map<nat, Job>, now: real, eligible: Job -> bool)
    requires forall x :: x in jobs ==> !Due(jobs[x], now, eligible)
    ensures DueSet(jobs, now, eligible) == {}
  {
  }

  lemma BatchIsPositive()
    ensures BATCH_LIMIT > 0
  {
  }

  lemma NoClaims(jobs: map<nat, Job>, now: real, eligible: Job -> bool)
    ensures ClaimsOf(jobs, jobs, [], now) && Earliest(jobs, DueSet(jobs, now, eligible), [])
    ensures DueSet(jobs, now, eligible) - Ids([]) == DueSet(jobs, now, eligible)
  {
  }

  lemma NotTooMany(due: set<nat>, claims: seq<Lease>, jobs: map<nat, Job>)
    requires due <= jobs.Keys && Earliest(jobs, due, claims) && |Ids(claims)| == |claims|
    ensures |claims| <= |due|
  {
    assert |due - Ids(claims)| == |due| - |Ids(claims)|;
  }

  lemma AllClaimed(due: set<nat>, claims: seq<Lease>, jobs: map<nat, Job>)
    requires due <= jobs.Keys && Earliest(jobs, due, claims) && |Ids(claims)| == |claims| && due - Ids(claims) == {}
    ensures |claims| == |due|
  {
    assert due == Ids(claims) by {
      assert forall id :: id in due ==> id in Ids(claims) || id in due - Ids(claims);
    }
  }
}
