/**
 The drain loop (cursor/outbox.py) against the shared table: other drains, reapers and job revisions run
 between any two of its transactions, and it may be killed at any of them (`Interrupted`).
*/
module OutboxDrain {
  import opened Prelude
  import opened OutboxStore

  /** How a handler ends; `DispatchStale` and `OtherException` are the exceptions the drain tells apart. */
  datatype HandlerResult = Returned(observation: Observation) | DispatchStale | OtherException

  /** An event that settles a lease: an observation reported, or a release that took effect. */
  predicate Settles(w: World, e: Event, l: Lease) {
    match e
    case ObserveEvent(m, _, _) => m == l
    case ReleaseEvent(m, now) => m == l && Release(w.table, l, now).1
    case _ => false
  }

  function SettleCount(events: seq<Event>, l: Lease): nat {
    if events == [] then 0
    else
      var front := events[..|events| - 1];
      SettleCount(front, l) + (if Settles(Exec(EMPTY, front), events[|events| - 1], l) then 1 else 0)
  }

  /** An event that no one but the holder of `mine` could cause. */
  predicate Uses(e: Event, mine: set<Lease>) {
    match e
    case MarkEvent(l) => l in mine
    case ObserveEvent(l, _, _) => l in mine
    case ReleaseEvent(l, _) => l in mine
    case _ => false
  }

  lemma LeasesGrow(w: World, e: Event)
    ensures w.leases <= Next(w, e).leases
  {
  }

  lemma {:induction false} UnissuedIsUnsettled(events: seq<Event>, l: Lease)
    requires Run(EMPTY, events) && l !in Exec(EMPTY, events).leases
    ensures SettleCount(events, l) == 0
  {
    if events != [] {
      var front := events[..|events| - 1];
      LeasesGrow(Exec(EMPTY, front), events[|events| - 1]);
      UnissuedIsUnsettled(front, l);
    }
  }

  lemma RunAppend(events: seq<Event>, e: Event)
    requires Run(EMPTY, events) && Enabled(Exec(EMPTY, events), e)
    ensures Run(EMPTY, events + [e]) && Exec(EMPTY, events + [e]) == Next(Exec(EMPTY, events), e)
    ensures forall l :: SettleCount(events + [e], l) ==
              SettleCount(events, l) + (if Settles(Exec(EMPTY, events), e, l) then 1 else 0)
  {
    assert (events + [e])[..|events|] == events;
  }

  class Outbox {
    var world: World
    ghost var events: seq<Event>

    ghost predicate Valid()
      reads this
    {
      Run(EMPTY, events) && world == Exec(EMPTY, events)
    }

    constructor ()
      ensures Valid()
    {
      world := EMPTY;
      events := [];
    }

    method Transact(e: Event)
      requires Valid() && Enabled(world, e)
      modifies this
      ensures Valid() && world == Next(old(world), e)
      ensures forall l :: SettleCount(events, l) ==
                SettleCount(old(events), l) + (if Settles(old(world), e, l) then 1 else 0)
    {
      hide Run, Exec, Next, SettleCount, Enabled, Settles;
      RunAppend(events, e);
      world := Next(world, e);
      events := events + [e];
    }

    /** Everybody else, and this drain's own lease renewer. */
    method Interfere(mine: set<Lease>)
      requires Valid() && mine <= world.leases
      modifies this
      ensures Valid() && old(world).leases <= world.leases
      ensures forall l :: l in mine ==> SettleCount(events, l) == SettleCount(old(events), l)
    {
      hide Run, Exec, Next, SettleCount;
      var steps: nat := *;
      while steps > 0
        invariant Valid() && old(world).leases <= world.leases
        invariant forall l :: l in mine ==> SettleCount(events, l) == SettleCount(old(events), l)
      {
        var e: Event := *;
        if Enabled(world, e) && !Uses(e, mine) {
          LeasesGrow(world, e);
          Transact(e);
        }
        steps := steps - 1;
      }
    }

    /** `time.time()`, unless the caller fixed the time: every transaction reads its own. */
    method Clock(fixed: Option<int>) returns (now: int)
      ensures fixed.Some? ==> now == fixed.value
    {
      now := *;
      if fixed.Some? {
        now := fixed.value;
      }
    }

    /** uuid4: a token nobody was given before. */
    method FreshToken() returns (token: nat)
      ensures token !in world.table.tokens
    {
      token := 0;
      ghost var left := world.table.tokens;
      while token in world.table.tokens
        invariant forall t :: t in world.table.tokens && t >= token ==> t in left
        decreases left
      {
        left := left - {token};
        token := token + 1;
      }
    }

    /** A handler is arbitrary code around `mark_dispatched`; it reports, raises, or dies. */
    method Handle(l: Lease, mine: set<Lease>) returns (h: Step<HandlerResult>)
      requires Valid() && l in mine && mine <= world.leases
      modifies this
      ensures Valid() && old(world).leases <= world.leases
      ensures forall m :: m in mine ==> SettleCount(events, m) == SettleCount(old(events), m)
      ensures h.Done? && h.value.Returned? ==> h.value.observation.Legal()
    {
      hide Run, Exec, Next, SettleCount;
      var steps: nat := *;
      while steps > 0
        invariant Valid() && old(world).leases <= world.leases
        invariant forall m :: m in mine ==> SettleCount(events, m) == SettleCount(old(events), m)
      {
        Interfere(mine);
        if * {
          return Interrupted;
        }
        if * {
          var marked := MarkDispatched(world.table, l).1;
          LeasesGrow(world, MarkEvent(l));
          Transact(MarkEvent(l));
          if !marked {
            Interfere(mine);
            var stale := RevisionStale(world.table, l);
            if * {
              return Done(if stale then DispatchStale else OtherException);
            }
          }
        }
        steps := steps - 1;
      }
      if * {
        return Done(OtherException);
      }
      var o: Observation := *;
      return Done(if o.Legal() then Returned(o) else OtherException);
    }

    /** After the handler: exactly one observation, or one release that took effect. */
    method Settle(l: Lease, h: HandlerResult, clock: Option<int>, mine: set<Lease>) returns (r: Step<()>)
      requires Valid() && l in mine && mine <= world.leases && (h.Returned? ==> h.observation.Legal())
      requires SettleCount(events, l) == 0
      modifies this
      ensures Valid() && old(world).leases <= world.leases
      ensures r.Done? ==> SettleCount(events, l) == 1
      ensures SettleCount(events, l) <= 1
      ensures forall m :: m in mine && m != l ==> SettleCount(events, m) == SettleCount(old(events), m)
    {
      hide Run, Exec, SettleCount, Next, WorldInv;
      Interfere(mine);
      if * {
        return Interrupted;
      }
      var report := Observation(OutcomeUnknown, false);
      match h {
        case DispatchStale =>
          report := Observation(FailedEffect, false);
        case OtherException =>
          var dispatched := Dispatched(world.table, l);
          Interfere(mine);
          if !dispatched {
            var now := Clock(clock);
            var released := Release(world.table, l, now).1;
            LeasesGrow(world, ReleaseEvent(l, now));
            Transact(ReleaseEvent(l, now));
            if released {
              return Done(());
            }
            Interfere(mine);
            if * {
              return Interrupted;
            }
          }
        case Returned(o) =>
          report := o;
      }
      var now := Clock(clock);
      LeasesGrow(world, ObserveEvent(l, report, now));
      Transact(ObserveEvent(l, report, now));
      return Done(());
    }

    /** `drain_outbox`; `claimed` is ghost: the leases of this drain, in order. */
    method Drain(kinds: set<string>, clock: Option<int>, limit: int)
      returns (processed: Step<nat>, ghost claimed: seq<Lease>)
      requires Valid()
      modifies this
      ensures Valid()
      ensures processed.Done? ==> processed.value == |claimed|
      ensures |claimed| <= (if limit < 0 then 0 else limit)
      ensures forall i, j :: 0 <= i < j < |claimed| ==> claimed[i].effect != claimed[j].effect
      ensures forall i :: 0 <= i < |claimed| ==> claimed[i].kind in kinds && claimed[i] !in old(world).leases
      ensures forall i :: 0 <= i < |claimed| ==>
                (if processed.Done? || i < |claimed| - 1 then SettleCount(events, claimed[i]) == 1
                 else SettleCount(events, claimed[i]) <= 1)
    {
      hide Run, Exec, SettleCount, Next, Enabled;
      claimed := [];
      if kinds == {} {
        return Done(0), [];
      }
      var count := 0;
      var mine: set<Lease> := {};
      var seen: set<nat> := {};
      while count < limit
        invariant Valid() && count == |claimed| && (limit >= 0 ==> count <= limit) && (limit < 0 ==> count == 0)
        invariant mine <= world.leases && (forall l :: l in mine <==> l in claimed) && old(world).leases <= world.leases
        invariant forall i :: 0 <= i < |claimed| ==> claimed[i].effect in seen
        invariant forall i, j :: 0 <= i < j < |claimed| ==> claimed[i].effect != claimed[j].effect
        invariant forall i :: 0 <= i < |claimed| ==> claimed[i].kind in kinds && claimed[i] !in old(world).leases
        invariant forall i :: 0 <= i < |claimed| ==> SettleCount(events, claimed[i]) == 1
        decreases limit - count
      {
        Interfere(mine);
        if * {
          return Interrupted, claimed;
        }
        var token := FreshToken();
        var now := Clock(clock);
        var claim := ClaimEvent(kinds, now, token, seen);
        var lease := Claim(world.table, kinds, now, token, seen).1;
        ClaimIsNew(events, kinds, now, token, seen);
        Transact(claim);
        if lease.None? {
          break;
        }
        var l := lease.value;
        claimed := claimed + [l];
        mine := mine + {l};
        seen := seen + {l.effect};
        var h := Handle(l, mine);
        if h.Interrupted? {
          return Interrupted, claimed;
        }
        var settled := Settle(l, h.value, clock, mine);
        if settled.Interrupted? {
          return Interrupted, claimed;
        }
        count := count + 1;
      }
      return Done(count), claimed;
    }
  }

  /** `outbox_revision_stale`. */
  predicate RevisionStale(s: State, l: Lease) {
    l.expected.Some? && l.expected.value >= 0 && Stale(s, l.job, l.expected)
  }

  lemma ClaimIsNew(events: seq<Event>, kinds: set<string>, now: int, token: nat, seen: set<nat>)
    requires Run(EMPTY, events) && token !in Exec(EMPTY, events).table.tokens
    ensures var w := Exec(EMPTY, events);
            var e := ClaimEvent(kinds, now, token, seen);
            var l := Claim(w.table, kinds, now, token, seen).1;
            && Enabled(w, e) && (forall m :: !Settles(w, e, m))
            && w.leases <= Next(w, e).leases
            && (l.Some? ==>
                  && l.value !in w.leases && l.value in Next(w, e).leases
                  && l.value.kind in kinds && l.value.effect !in seen
                  && SettleCount(events, l.value) == 0)
  {
    RunsKeepInv(EMPTY, events);
    var w := Exec(EMPTY, events);
    var l := Claim(w.table, kinds, now, token, seen).1;
    forall m | m in w.leases ensures m.token != token {
      assert LeaseOk(w.table, m);
    }
    if l.Some? {
      UnissuedIsUnsettled(events, l.value);
    }
  }
}
