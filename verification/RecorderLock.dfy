/**
 The recorder operations (recorder.py) as lock-protected code over the shared files. Other processes start, exit
 and are reaped between any two steps (`Environment`); where the lock is dropped, so do all other operations
 (`Interfere`). A killed operation is a prefix of its steps, and every prefix of a lawful run is lawful.
*/
module RecorderLock {
  import opened Prelude
  import opened RecorderProtocol

  /** A pidfd: it goes on meaning the same process after its pid is reused. */
  datatype Pidfd = Pidfd(pid: nat, identity: nat)

  /** What `cancel_recording` remembers while it does not hold the lock. */
  datatype Ticket = Ticket(fd: Pidfd, mode: Mode)

  /** Nothing but processes moved on. */
  ghost predicate Aged(s: State, t: State) {
    && t.manual.owner == s.manual.owner && t.dictation.owner == s.dictation.owner
    && (s.manual.audio.Some? ==> t.manual.audio.Some?) && (s.dictation.audio.Some? ==> t.dictation.audio.Some?)
    && t.generations == s.generations
    && s.procs.next <= t.procs.next
    && (forall i :: i in t.procs.alive && i < s.procs.next ==> i in s.procs.alive)
    && (forall i :: i in s.procs.target ==> i in t.procs.target && t.procs.target[i] == s.procs.target[i])
    && (forall i: nat, r :: Matches(t.procs, i, r) ==> i < s.procs.next && Matches(s.procs, i, r))
    && (forall p :: p in t.procs.table && t.procs.table[p] < s.procs.next ==>
                      p in s.procs.table && s.procs.table[p] == t.procs.table[p])
    && (forall p :: p in s.procs.table && s.procs.table[p] in t.procs.alive ==>
                      p in t.procs.table && t.procs.table[p] == s.procs.table[p])
  }

  /** Identities are not reused: who was gone stays gone. */
  ghost predicate Later(s: State, t: State) {
    s.procs.next <= t.procs.next
    && forall i: nat :: i < s.procs.next && i !in s.procs.alive ==> i !in t.procs.alive
  }

  ghost predicate Sound(s: State) {
    Inv(s) && forall i :: i in s.procs.target ==> i < s.procs.next
  }

  lemma NextKeepsSound(s: State, e: Event)
    requires Sound(s) && Lawful(s, e)
    ensures Sound(Next(s, e))
  {
    NextKeeps(s, e);
  }

  lemma {:induction false} RunsKeepSound(s: State, events: seq<Event>)
    requires Sound(s) && Run(s, events)
    ensures Sound(Exec(s, events))
  {
    if events != [] {
      RunsKeepSound(s, events[..|events| - 1]);
      NextKeepsSound(Exec(s, events[..|events| - 1]), events[|events| - 1]);
    }
  }

  lemma ProcessStepAges(s: State, e: Event)
    requires Sound(s) && Lawful(s, e) && IsProcess(e)
    ensures Aged(s, Next(s, e))
  {
  }

  lemma AgedTrans(s: State, t: State, u: State)
    requires Sound(s) && Aged(s, t) && Aged(t, u)
    ensures Aged(s, u)
  {
  }

  /** An ownership file that names no live recorder will not come to name one by itself. */
  lemma UnownedStays(s: State, t: State, r: Rec)
    requires Sound(s) && Sound(t) && Aged(s, t) && LiveOwner(s, r).None?
    ensures LiveOwner(t, r).None?
  {
  }

  lemma SameFiles(s: State, t: State, r: Rec)
    requires Aged(s, t)
    ensures At(t, r).owner == At(s, r).owner && At(t, Other(r)).owner == At(s, Other(r)).owner
    ensures At(s, r).audio.Some? ==> At(t, r).audio.Some?
    ensures t.generations == s.generations && Later(s, t)
  {
  }

  /** Forgetting a file that now names nobody overlooks no one it named before. */
  lemma NobodyOverlooked(start: State, now: State, after: State, r: Rec)
    requires Sound(start) && Aged(start, now) && LiveOwner(now, r).None?
    requires Aged(SetOwner(now, r, Missing), after)
    ensures At(after, r).owner.Missing? && At(after, Other(r)).owner == At(start, Other(r)).owner && Later(start, after)
    ensures after.generations == start.generations
    ensures forall i :: LiveOwner(start, r) == Some(i) ==> i !in after.procs.alive
  {
  }

  /** Upgrading the old format goes on naming the same process. */
  lemma SameOwner(start: State, now: State, after: State, r: Rec, fd: Pidfd)
    requires Sound(start) && Aged(start, now) && LiveOwner(now, r) == Some(fd.identity)
    requires At(start, r).owner == Legacy(fd.pid)
    requires Aged(SetOwner(now, r, Recorded(fd.pid, fd.identity, ByHand)), after)
    ensures At(after, r).owner == Recorded(fd.pid, fd.identity, ByHand)
    ensures At(after, Other(r)).owner == At(start, Other(r)).owner && after.generations == start.generations
    ensures Later(start, after)
    ensures forall i :: LiveOwner(start, r) == Some(i) && i in after.procs.alive ==> LiveOwner(after, r) == Some(i)
  {
    SameFiles(start, now, r);
    assert now.procs.table[fd.pid] == fd.identity;
  }

  lemma LegacyGone(start: State, now: State, r: Rec, pid: nat)
    requires Sound(start) && Aged(start, now) && At(start, r).owner == Legacy(pid)
    requires pid !in start.procs.table || start.procs.table[pid] !in now.procs.alive
    ensures LiveOwner(now, r).None?
  {
  }

  lemma LegacyMatches(s: State, r: Rec, pid: nat)
    requires At(s, r).owner == Legacy(pid) && pid in s.procs.table
    ensures LiveOwner(s, r) == (if Matches(s.procs, s.procs.table[pid], r) then Some(s.procs.table[pid]) else None)
  {
  }

  /** A process seen alive at the end was the one at its pid, with its command line, all along. */
  lemma SeenAlive(start: State, mid: State, now: State, r: Rec, fd: Pidfd)
    requires Sound(start) && Sound(mid) && Aged(start, mid) && Aged(mid, now) && fd.identity in now.procs.alive
    requires fd.pid in start.procs.table && start.procs.table[fd.pid] == fd.identity
    ensures fd.pid in mid.procs.table && mid.procs.table[fd.pid] == fd.identity
    ensures fd.pid in now.procs.table && now.procs.table[fd.pid] == fd.identity
    ensures Matches(mid.procs, fd.identity, r) ==> Matches(now.procs, fd.identity, r)
  {
    assert fd.identity in mid.procs.alive;
  }

  lemma NobodyAt(s: State, r: Rec)
    requires match At(s, r).owner
             case Recorded(pid, identity, _) => pid !in s.procs.table || s.procs.table[pid] != identity
             case Missing => true
             case _ => false
    ensures LiveOwner(s, r).None?
  {
  }

  /** The identity read after opening the pidfd belongs to the process that was opened. */
  lemma SameProcess(start: State, atOpen: State, now: State, r: Rec, pid: nat, expected: nat)
    requires Sound(start) && Aged(start, atOpen) && Aged(atOpen, now) && Aged(start, now)
    requires At(start, r).owner.Recorded? && At(start, r).owner.pid == pid && At(start, r).owner.identity == expected
    requires pid in now.procs.table && now.procs.table[pid] == expected
    ensures pid in atOpen.procs.table && atOpen.procs.table[pid] == expected
    ensures pid in start.procs.table && start.procs.table[pid] == expected
    ensures forall i :: LiveOwner(start, r) == Some(i) && i in now.procs.alive ==> LiveOwner(now, r) == Some(i)
  {
  }

  class Microphone {
    var state: State
    ghost const origin: State
    ghost var events: seq<Event>

    ghost predicate Valid()
      reads this
    {
      Sound(origin) && Run(origin, events) && state == Exec(origin, events)
    }

    /** Any files an earlier session may have left, as long as they do not already break the rule. */
    constructor (found: State)
      requires Sound(found)
      ensures Valid() && state == found
    {
      state := found;
      origin := found;
      events := [];
    }

    lemma IsSound()
      requires Valid()
      ensures Sound(state)
    {
      RunsKeepSound(origin, events);
    }

    method Transact(e: Event)
      requires Valid() && Lawful(state, e)
      modifies this
      ensures Valid() && Sound(state) && state == Next(old(state), e) && events == old(events) + [e]
    {
      hide Next, Lawful;
      assert (events + [e])[..|events|] == events;
      state := Next(state, e);
      events := events + [e];
      IsSound();
    }

    /** Processes come and go; those in `keep`, the ones executing, do not. */
    method Environment(keep: set<nat>)
      requires Valid() && keep <= state.procs.alive
      modifies this
      ensures Valid() && Sound(state) && Aged(old(state), state) && keep <= state.procs.alive
      ensures Later(old(state), state)
    {
      hide *;
      IsSound();
      AgedRefl(state);
      var steps: nat := *;
      while steps > 0
        invariant Valid() && Sound(state) && Aged(old(state), state) && keep <= state.procs.alive
      {
        var e: Event := *;
        if IsProcess(e) && Lawful(state, e) && !(e.ExitEvent? && e.identity in keep) {
          ghost var before := state;
          ProcessStepAges(state, e);
          KeepsAlive(state, e, keep);
          Transact(e);
          AgedTrans(old(state), before, state);
        }
        steps := steps - 1;
      }
      SameFiles(old(state), state, Manual);
    }

    /** Everyone else's operations, while this one does not hold the lock. */
    method Interfere()
      requires Valid()
      modifies this
      ensures Valid() && Sound(state) && Later(old(state), state)
    {
      hide *;
      IsSound();
      StillLater(state);
      var steps: nat := *;
      while steps > 0
        invariant Valid() && Sound(state) && Later(old(state), state)
      {
        var e: Event := *;
        if Lawful(state, e) {
          StepIsLater(old(state), state, e);
          Transact(e);
        }
        steps := steps - 1;
      }
    }

    /** `_pidfd_exited`. */
    method Exited(fd: Pidfd, keep: set<nat>) returns (gone: bool)
      requires Valid() && keep <= state.procs.alive
      modifies this
      ensures Valid() && Sound(state) && Aged(old(state), state) && keep <= state.procs.alive
      ensures Later(old(state), state)
      ensures gone <==> fd.identity !in state.procs.alive
    {
      hide *;
      Environment(keep);
      gone := fd.identity !in state.procs.alive;
    }

    /** Drop an ownership file that names no live recorder. */
    method Forget(r: Rec, keep: set<nat>)
      requires Valid() && Sound(state) && LiveOwner(state, r).None? && keep <= state.procs.alive
      modifies this
      ensures Valid() && Sound(state) && keep <= state.procs.alive
      ensures Later(old(state), state)
      ensures Aged(SetOwner(old(state), r, Missing), state)
      ensures At(state, r).owner.Missing? && At(state, Other(r)).owner == old(At(state, Other(r)).owner)
      ensures state.generations == old(state).generations
    {
      hide Run, Exec, Inv, Matches;
      ghost var before := state;
      Environment(keep);
      UnownedStays(before, state, r);
      Transact(ClearEvent(r, None));
    }

    /** `_write_state` over a file in the old format. */
    method Upgrade(r: Rec, fd: Pidfd, keep: set<nat>)
      requires Valid() && Sound(state) && keep <= state.procs.alive
      requires At(state, r).owner == Legacy(fd.pid) && LiveOwner(state, r) == Some(fd.identity)
      modifies this
      ensures Valid() && Sound(state) && keep <= state.procs.alive
      ensures Later(old(state), state)
      ensures Aged(SetOwner(old(state), r, Recorded(fd.pid, fd.identity, ByHand)), state)
    {
      hide Run, Exec;
      Environment(keep);
      Transact(MigrateEvent(r, fd.identity));
    }

    /** `_owned_pidfd` on a file in the old format: it is either upgraded or forgotten. */
    method OwnedLegacy(r: Rec, pid: nat, keep: set<nat>) returns (o: Result<Option<Pidfd>>)
      requires Valid() && keep <= state.procs.alive && At(state, r).owner == Legacy(pid)
      modifies this
      ensures Valid() && Sound(state) && keep <= state.procs.alive
      ensures Later(old(state), state)
      ensures At(state, Other(r)).owner == old(At(state, Other(r)).owner) && state.generations == old(state).generations
      ensures o.Ok? && o.value.None? ==> At(state, r).owner.Missing?
      ensures o.Ok? && o.value.Some? ==>
                var fd := o.value.value;
                && At(state, r).owner == Recorded(fd.pid, fd.identity, ByHand)
                && fd.pid in old(state).procs.table && fd.identity == old(state).procs.table[fd.pid]
      ensures o.Raise? ==> At(state, r).owner == old(At(state, r).owner)
      ensures forall i :: old(LiveOwner(state, r)) == Some(i) && i in state.procs.alive && o.Ok? ==>
                LiveOwner(state, r) == Some(i)
    {
      hide *;
      IsSound();
      ghost var start := state;
      AgedRefl(start);
      if pid !in state.procs.table {
        LegacyGone(start, state, r, pid);
        Forget(r, keep);
        NobodyOverlooked(start, start, state, r);
        return Ok(None);
      }
      var fd := Pidfd(pid, state.procs.table[pid]);
      var gone := Exited(fd, keep);
      ghost var before := state;
      if gone {
        LegacyGone(start, before, r, pid);
        Forget(r, keep);
        NobodyOverlooked(start, before, state, r);
        return Ok(None);
      }
      Environment(keep);
      AgedTrans(start, before, state);
      var identity := if pid in state.procs.table then Some(state.procs.table[pid]) else None;
      ghost var readIdentity := state;
      Environment(keep);
      AgedTrans(start, readIdentity, state);
      SameFiles(start, state, r);
      var unreadable := *;
      if unreadable || identity.None? || pid !in state.procs.table {
        return Raise;
      }
      var matches := Matches(state.procs, state.procs.table[pid], r);
      ghost var readCommand := state;
      LegacyMatches(readCommand, r, pid);
      if !matches {
        Forget(r, keep);
        NobodyOverlooked(start, readCommand, state, r);
        return Ok(None);
      }
      gone := Exited(fd, keep);
      ghost var checked := state;
      AgedTrans(start, readCommand, checked);
      SameFiles(start, checked, r);
      if gone {
        LegacyGone(start, checked, r, pid);
        Forget(r, keep);
        NobodyOverlooked(start, checked, state, r);
        return Ok(None);
      }
      SeenAlive(start, readCommand, checked, r, fd);
      AgedTrans(readIdentity, readCommand, checked);
      SeenAlive(start, readIdentity, checked, r, fd);
      assert identity == Some(fd.identity);
      LegacyMatches(checked, r, pid);
      Upgrade(r, Pidfd(pid, identity.value), keep);
      SameOwner(start, checked, state, r, fd);
      return Ok(Some(fd));
    }

    /**
     `_owned_pidfd`: no owner only if the file is gone; an owner only if the file names that very process; and a
     live owner is never overlooked.
    */
    method OwnedPidfd(r: Rec, keep: set<nat>) returns (o: Result<Option<Pidfd>>)
      requires Valid() && keep <= state.procs.alive
      modifies this
      ensures Valid() && Sound(state) && keep <= state.procs.alive
      ensures Later(old(state), state)
      ensures At(state, Other(r)).owner == old(At(state, Other(r)).owner) && state.generations == old(state).generations
      ensures o.Ok? && o.value.None? ==> At(state, r).owner.Missing?
      ensures o.Ok? && o.value.Some? ==>
                && At(state, r).owner.Recorded?
                && At(state, r).owner.pid == o.value.value.pid
                && At(state, r).owner.identity == o.value.value.identity
                && (old(At(state, r).owner.Recorded?) ==> At(state, r).owner == old(At(state, r).owner))
      ensures o.Ok? && o.value.Some? ==>
                var fd := o.value.value;
                fd.pid in old(state).procs.table && old(state).procs.table[fd.pid] in state.procs.alive ==>
                  fd.identity == old(state).procs.table[fd.pid]
      ensures o.Raise? ==> At(state, r).owner == old(At(state, r).owner)
      ensures forall i :: old(LiveOwner(state, r)) == Some(i) && i in state.procs.alive && o.Ok? ==>
                LiveOwner(state, r) == Some(i)
    {
      hide *;
      IsSound();
      ghost var start := state;
      AgedRefl(start);
      StillLater(start);
      match At(state, r).owner {
        case Missing =>
          NobodyAt(start, r);
          return Ok(None);
        case Invalid =>
          return Raise;
        case Legacy(pid) =>
          o := OwnedLegacy(r, pid, keep);
        case Recorded(pid, expected, _) =>
          Environment(keep);
          ghost var atOpen := state;
          SameFiles(start, atOpen, r);
          if pid !in state.procs.table {
            NobodyAt(state, r);
            Forget(r, keep);
            NobodyOverlooked(start, atOpen, state, r);
            return Ok(None);
          }
          var fd := Pidfd(pid, state.procs.table[pid]);
          Environment(keep);
          ghost var checked := state;
          AgedTrans(start, atOpen, checked);
          SameFiles(start, checked, r);
          var unreadable := *;
          if unreadable || pid !in state.procs.table {
            return Raise;
          }
          if state.procs.table[pid] != expected {
            NobodyAt(state, r);
            Forget(r, keep);
            NobodyOverlooked(start, checked, state, r);
            return Ok(None);
          }
          SameProcess(start, atOpen, checked, r, pid, expected);
          return Ok(Some(fd));
      }
    }

    /** Remove an audio file nobody records to. */
    method RemoveAudio(r: Rec, keep: set<nat>)
      requires Valid() && Sound(state) && At(state, r).owner.Missing? && keep <= state.procs.alive
      modifies this
      ensures Valid() && Sound(state) && keep <= state.procs.alive
      ensures Later(old(state), state)
      ensures At(state, r).owner.Missing? && At(state, Other(r)).owner == old(At(state, Other(r)).owner)
      ensures state.generations == old(state).generations && Aged(SetAudio(old(state), r, None), state)
    {
      hide Run, Exec, Inv, Matches;
      Environment(keep);
      Transact(RemoveAudioEvent(r));
    }

    /** A name no generation has: uuid4. */
    method FreshName() returns (name: nat)
      ensures name !in state.generations
    {
      name := 0;
      ghost var left := state.generations.Keys;
      while name in state.generations
        invariant forall n :: n in state.generations && n >= name ==> n in left
        decreases left
      {
        left := left - {name};
        name := name + 1;
      }
    }

    /** `_handoff_audio_locked`: the recording leaves the shared path whole, or is dropped when it is only a header. */
    method HandOff(r: Rec, actor: Option<nat>, keep: set<nat>) returns (g: Result<nat>)
      requires Valid() && keep <= state.procs.alive
      requires LiveOwner(state, r).None? || (LiveOwner(state, r) == actor && actor.value in keep)
      modifies this
      ensures Valid() && Sound(state) && keep <= state.procs.alive
      ensures At(state, r).owner == old(At(state, r).owner) && At(state, Other(r)).owner == old(At(state, Other(r)).owner)
      ensures Later(old(state), state)
      ensures g.Raise? ==> state.generations == old(state).generations
      ensures g.Ok? ==>
                && g.value !in old(state).generations && g.value in state.generations
                && state.generations[g.value] > WAV_HEADER_SIZE
                && state.generations == old(state).generations[g.value := state.generations[g.value]]
                && At(state, r).audio.None?
    {
      hide Run, Exec, Inv, Matches;
      IsSound();
      ghost var start := state;
      Environment(keep);
      OwnerAfter(start, state, r, actor);
      if At(state, r).audio.None? {
        return Raise;
      }
      var name := FreshName();
      Transact(HandOffEvent(r, name, actor));
      if state.generations[name] <= WAV_HEADER_SIZE {
        Transact(DropEvent(name));
        return Raise;
      }
      return Ok(name);
    }

    /** `start_recording`; `prepared` is false when STT is not ready or preparing raises. */
    method Start(r: Rec, prepared: bool) returns (already: Result<bool>)
      requires Valid()
      modifies this
      ensures Valid()
      ensures already.Ok? ==> At(state, r).owner.Recorded?
      ensures already.Ok? && already.value && old(At(state, r).owner.Recorded?) ==>
                At(state, r).owner == old(At(state, r).owner)
      ensures already.Ok? && !already.value ==>
                && At(state, r).owner.mode == ByHand && At(state, Other(r)).owner.Missing?
                && old(state).procs.next <= At(state, r).owner.identity
      ensures state.generations == old(state).generations
    {
      hide Run, Exec, Inv, Matches, Aged, Next;
      var owned := OwnedPidfd(r, {});
      if owned.Raise? {
        return Raise;
      }
      if owned.value.Some? {
        return Ok(true);
      }
      var conflict := OwnedPidfd(Other(r), {});
      if conflict.Raise? || conflict.value.Some? || !prepared {
        return Raise;
      }
      RemoveAudio(r, {});
      var launched := Launch(r);
      return if launched.Ok? then Ok(false) else Raise;
    }

    /** The rest of `start_recording`: spawn, wait until sound arrives, record the owner. */
    method Launch(r: Rec) returns (started: Result<()>)
      requires Valid() && Sound(state) && BothMissing(state)
      modifies this
      ensures Valid() && state.generations == old(state).generations
      ensures started.Ok? ==>
                && At(state, r).owner.Recorded? && At(state, r).owner.mode == ByHand
                && At(state, Other(r)).owner.Missing? && old(state).procs.next <= At(state, r).owner.identity
    {
      hide Run, Exec, Inv, Matches, Aged;
      var pid := FreshPid();
      var fd := Pidfd(pid, state.procs.next);
      Transact(SpawnEvent(pid, Some(r)));
      ghost var spawned := state;
      var lost := *;
      if lost {
        return Raise;
      }
      Environment({});
      var identity := if pid in state.procs.table then Some(state.procs.table[pid]) else None;
      ghost var read := state;
      var ready := *;
      var gone := Exited(fd, {});
      ghost var checked := state;
      AgedTrans(spawned, read, checked);
      SameFiles(spawned, checked, r);
      if !gone {
        SeenAlive(spawned, read, checked, r, fd);
      }
      var written := *;
      if !ready || identity.None? || gone || !written {
        gone := Terminate(fd);
        SameFiles(checked, state, r);
        if gone {
          RemoveAudio(r, {});
        }
        return Raise;
      }
      Environment({});
      SameFiles(checked, state, r);
      Transact(RecordEvent(r, pid, identity.value, ByHand));
      return Ok(());
    }

    /** A pid not in use. */
    method FreshPid() returns (pid: nat)
      ensures pid !in state.procs.table
    {
      pid := 1;
      ghost var left := state.procs.table.Keys;
      while pid in state.procs.table
        invariant forall p :: p in state.procs.table && p >= pid ==> p in left
        decreases left
      {
        left := left - {pid};
        pid := pid + 1;
      }
    }

    /** `terminate_pidfd`: signals, and whether the process went. */
    method Terminate(fd: Pidfd) returns (gone: bool)
      requires Valid() && Sound(state)
      modifies this
      ensures Valid() && Sound(state) && Aged(old(state), state)
      ensures gone <==> fd.identity !in state.procs.alive
    {
      gone := Exited(fd, {});
    }

    /** `claim_current_process`, by the live process `me`. */
    method Claim(r: Rec, me: Pidfd, mode: Mode) returns (claimed: Result<()>)
      requires Valid() && me.identity in state.procs.alive
      modifies this
      ensures Valid() && state.generations == old(state).generations
      ensures claimed.Ok? ==>
                At(state, r).owner == Recorded(me.pid, me.identity, mode) && At(state, Other(r)).owner.Missing?
    {
      hide Run, Exec, Matches, Aged, LiveOwner;
      var keep := {me.identity};
      var owned := OwnedPidfd(r, keep);
      if owned.Raise? || owned.value.Some? {
        return Raise;
      }
      var conflict := OwnedPidfd(Other(r), keep);
      if conflict.Raise? || conflict.value.Some? {
        return Raise;
      }
      var unreadable := *;
      if unreadable {
        return Raise;
      }
      RemoveAudio(r, keep);
      Transact(RecordEvent(r, me.pid, me.identity, mode));
      return Ok(());
    }

    /** `stop_recording`: on success the recorder is gone, its file cleared, and its sound in a new generation. */
    method Stop(r: Rec) returns (g: Result<nat>)
      requires Valid()
      modifies this
      ensures Valid()
      ensures g.Raise? ==> state.generations == old(state).generations
      ensures g.Ok? ==>
                && g.value !in old(state).generations && g.value in state.generations
                && state.generations[g.value] > WAV_HEADER_SIZE
                && state.generations == old(state).generations[g.value := state.generations[g.value]]
                && At(state, r).owner.Missing? && At(state, r).audio.None?
                && (forall i :: old(LiveOwner(state, r)) == Some(i) ==> i !in state.procs.alive)
    {
      hide Run, Exec, Matches, Aged, LiveOwner, Inv;
      IsSound();
      LiveOwnersAreKnown(state, r);
      var owned := OwnedPidfd(r, {});
      if owned.Raise? || owned.value.None? {
        return Raise;
      }
      var fd := owned.value.value;
      ghost var found := state;
      OwnerIsRecorded(found, r);
      var gone := Exited(fd, {});
      SameFiles(found, state, r);
      if !gone {
        ghost var waited := state;
        gone := Exited(fd, {});
        SameFiles(waited, state, r);
        if !gone {
          return Raise;
        }
      }
      OwnerIsRecorded(state, r);
      Forget(r, {});
      NobodyAt(state, r);
      g := HandOff(r, None, {});
    }

    /** `handoff_recording`. */
    method TakeOver(r: Rec) returns (g: Result<nat>)
      requires Valid()
      modifies this
      ensures Valid()
      ensures g.Raise? ==> state.generations == old(state).generations
      ensures g.Ok? ==>
                && g.value !in old(state).generations && g.value in state.generations
                && state.generations[g.value] > WAV_HEADER_SIZE
                && At(state, r).owner.Missing? && At(state, r).audio.None?
    {
      hide Run, Exec, Matches, Aged;
      var owned := OwnedPidfd(r, {});
      if owned.Raise? || owned.value.Some? {
        return Raise;
      }
      g := HandOff(r, None, {});
    }

    /** `write_audio_generation`: a caller's `writer` fills the shared path while no recorder owns either file. */
    method WriteGeneration(r: Rec) returns (g: Result<nat>)
      requires Valid()
      modifies this
      ensures Valid()
      ensures g.Raise? ==> state.generations == old(state).generations
      ensures g.Ok? ==>
                && g.value !in old(state).generations && g.value in state.generations
                && state.generations[g.value] > WAV_HEADER_SIZE
                && At(state, r).owner.Missing? && At(state, Other(r)).owner.Missing? && At(state, r).audio.None?
    {
      hide Run, Exec, Matches, Aged, LiveOwner, Inv;
      var owned := OwnedPidfd(r, {});
      if owned.Raise? || owned.value.Some? {
        return Raise;
      }
      var conflict := OwnedPidfd(Other(r), {});
      if conflict.Raise? || conflict.value.Some? {
        return Raise;
      }
      RemoveAudio(r, {});
      NobodyAt(state, r);
      var raised := *;
      if raised {
        RemoveAudio(r, {});
        return Raise;
      }
      g := HandOff(r, None, {});
      if g.Raise? {
        RemoveAudio(r, {});
      }
    }

    /** `complete_current_recording`, by the live process `me`: only the recorded owner may end its recording. */
    method Complete(r: Rec, me: Pidfd, mode: Mode, cancelled: bool, retain: bool) returns (g: Result<nat>)
      requires Valid() && me.identity in state.procs.alive
      requires me.pid in state.procs.table && state.procs.table[me.pid] == me.identity
      modifies this
      ensures Valid()
      ensures g.Raise? ==> state.generations == old(state).generations
      ensures g.Ok? ==>
                && !cancelled
                && g.value !in old(state).generations && g.value in state.generations
                && state.generations[g.value] > WAV_HEADER_SIZE
                && At(state, r).owner == (if retain then Recorded(me.pid, me.identity, mode) else Missing)
                && At(state, r).audio.None?
    {
      hide Run, Exec, Matches, Aged;
      var keep := {me.identity};
      var owned := OwnedPidfd(r, keep);
      if owned.Raise? || owned.value.None? {
        return Raise;
      }
      var fd := owned.value.value;
      if fd.pid != me.pid || At(state, r).owner.mode != mode {
        return Raise;
      }
      assert fd == me;
      if cancelled {
        Transact(ClearEvent(r, Some(me.identity)));
        RemoveAudio(r, keep);
        return Raise;
      }
      if !retain {
        Transact(ClearEvent(r, Some(me.identity)));
      }
      g := HandOff(r, Some(me.identity), keep);
    }

    /** The first locked half of `cancel_recording`. */
    method BeginCancel(r: Rec) returns (t: Result<Option<Ticket>>)
      requires Valid()
      modifies this
      ensures Valid() && Sound(state) && state.generations == old(state).generations
      ensures t.Ok? && t.value.Some? ==> t.value.value.fd.identity < state.procs.next
      ensures t.Ok? && t.value.None? ==> At(state, r).owner.Missing?
      ensures Later(old(state), state)
      ensures forall i :: old(LiveOwner(state, r)) == Some(i) && i in state.procs.alive && t.Ok? ==>
                t.value.Some? && t.value.value.fd.identity == i
    {
      hide Run, Exec, Matches, Aged;
      IsSound();
      var owned := OwnedPidfd(r, {});
      if owned.Raise? {
        return Raise;
      }
      if owned.value.None? {
        RemoveAudio(r, {});
        return Ok(None);
      }
      return Ok(Some(Ticket(owned.value.value, At(state, r).owner.mode)));
    }

    /** The second locked half: the recorder it signalled is gone, but the file may by now be another's. */
    method EndCancel(r: Rec, t: Ticket) returns (done: Result<()>)
      requires Valid() && Sound(state) && t.fd.identity < state.procs.next && t.fd.identity !in state.procs.alive
      modifies this
      ensures Valid() && state.generations == old(state).generations && Later(old(state), state)
      ensures var o := old(At(state, r).owner);
              if o.Invalid? then done.Raise? && state == old(state)
              else if o.Missing? || o == Recorded(t.fd.pid, t.fd.identity, t.mode)
              then done.Ok? && At(state, r).owner.Missing?
              else done.Ok? && state == old(state)
    {
      hide Run, Exec, Matches;
      match At(state, r).owner {
        case Invalid =>
          return Raise;
        case Legacy(_) =>
          return Ok(());
        case Recorded(pid, identity, mode) =>
          if pid != t.fd.pid || identity != t.fd.identity || mode != t.mode {
            return Ok(());
          }
        case Missing =>
      }
      Forget(r, {});
      RemoveAudio(r, {});
      return Ok(());
    }

    /**
     `cancel_recording`; anything may happen while it waits without the lock. Success means that the recorder
     that was live when it was called is gone.
    */
    method Cancel(r: Rec) returns (done: Result<()>)
      requires Valid()
      modifies this
      ensures Valid()
      ensures forall i :: old(LiveOwner(state, r)) == Some(i) && done.Ok? ==> i !in state.procs.alive
    {
      hide Run, Exec, Matches, Aged;
      IsSound();
      var t := BeginCancel(r);
      if t.Raise? {
        return Raise;
      }
      if t.value.None? {
        return Ok(());
      }
      Interfere();
      var gone := Exited(t.value.value.fd, {});
      if !gone {
        return Raise;
      }
      Interfere();
      done := EndCancel(r, t.value.value);
    }
  }

  lemma OwnerAfter(s: State, t: State, r: Rec, actor: Option<nat>)
    requires Sound(s) && Sound(t) && Aged(s, t)
    requires LiveOwner(s, r).None? || (LiveOwner(s, r) == actor && actor.value in t.procs.alive)
    ensures LiveOwner(t, r).None? || LiveOwner(t, r) == actor
  {
  }

  lemma LiveOwnersAreKnown(s: State, r: Rec)
    requires Sound(s)
    ensures forall i :: LiveOwner(s, r) == Some(i) ==> i < s.procs.next && i in s.procs.alive
  {
  }

  lemma OwnerIsRecorded(s: State, r: Rec)
    requires At(s, r).owner.Recorded?
    ensures LiveOwner(s, r).Some? ==> LiveOwner(s, r) == Some(At(s, r).owner.identity)
                                      && At(s, r).owner.identity in s.procs.alive
  {
  }

  lemma AgedRefl(s: State)
    requires Sound(s)
    ensures Aged(s, s)
  {
  }

  lemma KeepsAlive(s: State, e: Event, keep: set<nat>)
    requires keep <= s.procs.alive && !(e.ExitEvent? && e.identity in keep)
    ensures keep <= Next(s, e).procs.alive
  {
  }

  lemma StillLater(s: State)
    ensures Later(s, s)
  {
  }

  lemma StepIsLater(s: State, t: State, e: Event)
    requires Later(s, t)
    ensures Later(s, Next(t, e))
  {
    forall i: nat | i < s.procs.next && i !in s.procs.alive ensures i !in Next(t, e).procs.alive {
      assert i !in t.procs.alive;
    }
  }
}
