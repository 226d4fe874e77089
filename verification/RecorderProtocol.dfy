/**
 Who owns the microphone (recorder.py): two ownership files, manual and dictation, behind one lock, naming a
 recorder process by pid and identity. Pids are reused; an identity (boot and start time) never is. Events are
 single file-system or process steps; `Lawful` is what the locked sections guarantee of each other.
*/
module RecorderProtocol {
  import opened Prelude

  const WAV_HEADER_SIZE := 44

  datatype Rec = Manual | Dictation

  function Other(r: Rec): Rec {
    if r.Manual? then Dictation else Manual
  }

  datatype Mode = ByHand | Vad

  /** An ownership file; `Legacy` is the old format, a bare pid. */
  datatype Owner = Missing | Invalid | Legacy(pid: nat) | Recorded(pid: nat, identity: nat, mode: Mode)

  datatype Slot = Slot(owner: Owner, audio: Option<nat>)   // the audio file, by its size

  /** Pids to identities, zombies included; `target` is the audio file a pw-record process was told to write. */
  datatype Procs = Procs(table: map<nat, nat>, alive: set<nat>, target: map<nat, Option<Rec>>, next: nat)

  datatype State = State(manual: Slot, dictation: Slot, procs: Procs, generations: map<nat, nat>)

  function At(s: State, r: Rec): Slot {
    if r.Manual? then s.manual else s.dictation
  }

  function Set(s: State, r: Rec, slot: Slot): State {
    if r.Manual? then s.(manual := slot) else s.(dictation := slot)
  }

  function SetOwner(s: State, r: Rec, o: Owner): State {
    Set(s, r, At(s, r).(owner := o))
  }

  function SetAudio(s: State, r: Rec, a: Option<nat>): State {
    Set(s, r, At(s, r).(audio := a))
  }

  /** The command line of a zombie is empty, so only a running process can match. */
  predicate Matches(p: Procs, identity: nat, r: Rec) {
    identity in p.alive && identity in p.target && p.target[identity] == Some(r)
  }

  /** The live recorder that an ownership file names, if any. */
  function LiveOwner(s: State, r: Rec): Option<nat> {
    match At(s, r).owner
    case Recorded(pid, identity, _) =>
      if pid in s.procs.table && s.procs.table[pid] == identity && identity in s.procs.alive then Some(identity)
      else None
    case Legacy(pid) =>
      if pid in s.procs.table && Matches(s.procs, s.procs.table[pid], r) then Some(s.procs.table[pid]) else None
    case _ => None
  }

  predicate BothMissing(s: State) {
    s.manual.owner.Missing? && s.dictation.owner.Missing?
  }

  /** `actor` is the identity of the process whose code takes the step, where that matters. */
  datatype Event =
    | SpawnEvent(pid: nat, target: Option<Rec>)
    | ExitEvent(identity: nat)
    | ReapEvent(pid: nat)
    | SoundEvent(r: Rec, size: nat)
    | RecordEvent(r: Rec, pid: nat, identity: nat, mode: Mode)
    | MigrateEvent(r: Rec, identity: nat)
    | ClearEvent(r: Rec, actor: Option<nat>)
    | RemoveAudioEvent(r: Rec)
    | HandOffEvent(r: Rec, name: nat, actor: Option<nat>)
    | DropEvent(name: nat)

  /** Steps that happen whoever holds the lock. */
  predicate IsProcess(e: Event) {
    (e.SpawnEvent? && e.target.None?) || e.ExitEvent? || e.ReapEvent? || e.SoundEvent?
  }

  predicate Lawful(s: State, e: Event) {
    match e
    case SpawnEvent(pid, target) => pid !in s.procs.table && (target.Some? ==> BothMissing(s))
    case ExitEvent(identity) => identity in s.procs.alive
    case ReapEvent(pid) => pid in s.procs.table && s.procs.table[pid] !in s.procs.alive
    case SoundEvent(r, size) => At(s, r).audio.Some? ==> At(s, r).audio.value <= size
    case RecordEvent(r, pid, identity, _) => BothMissing(s) && identity < s.procs.next
    case MigrateEvent(r, identity) =>
      && At(s, r).owner.Legacy? && identity < s.procs.next
      && LiveOwner(s, r) == (if identity in s.procs.alive then Some(identity) else None)
    case ClearEvent(r, actor) => LiveOwner(s, r).None? || LiveOwner(s, r) == actor
    case RemoveAudioEvent(r) => LiveOwner(s, r).None?
    case HandOffEvent(r, name, actor) =>
      && At(s, r).audio.Some? && name !in s.generations
      && (LiveOwner(s, r).None? || LiveOwner(s, r) == actor)
    case DropEvent(name) => name in s.generations && s.generations[name] <= WAV_HEADER_SIZE
  }

  function Next(s: State, e: Event): State {
    var p := s.procs;
    match e
    case SpawnEvent(pid, target) =>
      s.(procs := Procs(p.table[pid := p.next], p.alive + {p.next}, p.target[p.next := target], p.next + 1))
    case ExitEvent(identity) => s.(procs := p.(alive := p.alive - {identity}))
    case ReapEvent(pid) => s.(procs := p.(table := p.table - {pid}))
    case SoundEvent(r, size) => SetAudio(s, r, Some(size))
    case RecordEvent(r, pid, identity, mode) => SetOwner(s, r, Recorded(pid, identity, mode))
    case MigrateEvent(r, identity) =>
      if At(s, r).owner.Legacy? then SetOwner(s, r, Recorded(At(s, r).owner.pid, identity, ByHand)) else s
    case ClearEvent(r, _) => SetOwner(s, r, Missing)
    case RemoveAudioEvent(r) => SetAudio(s, r, None)
    case HandOffEvent(r, name, _) =>
      if At(s, r).audio.None? then s
      else SetAudio(s, r, None).(generations := s.generations[name := At(s, r).audio.value])
    case DropEvent(name) => s.(generations := s.generations - {name})
  }

  function Exec(s: State, events: seq<Event>): State {
    if events == [] then s else Next(Exec(s, events[..|events| - 1]), events[|events| - 1])
  }

  ghost predicate Run(s: State, events: seq<Event>) {
    events == [] ||
    (Run(s, events[..|events| - 1]) && Lawful(Exec(s, events[..|events| - 1]), events[|events| - 1]))
  }

  ghost predicate Inv(s: State) {
    && (forall pid :: pid in s.procs.table ==> s.procs.table[pid] < s.procs.next)
    && (forall p, q :: p in s.procs.table && q in s.procs.table && s.procs.table[p] == s.procs.table[q] ==> p == q)
    && (forall i :: i in s.procs.alive ==> i < s.procs.next)
    && (forall r :: At(s, r).owner.Recorded? ==> At(s, r).owner.identity < s.procs.next)
    && (LiveOwner(s, Manual).None? || LiveOwner(s, Dictation).None?)
  }

  /** A step that leaves an ownership file alone finds no new live recorder in it. */
  lemma LiveOwnerOnlyDies(s: State, e: Event, r: Rec)
    requires Inv(s) && Lawful(s, e) && !(e.RecordEvent? && e.r == r)
    ensures LiveOwner(Next(s, e), r).Some? ==> LiveOwner(Next(s, e), r) == LiveOwner(s, r)
  {
  }

  lemma NextKeeps(s: State, e: Event)
    requires Inv(s) && Lawful(s, e)
    ensures Inv(Next(s, e))
  {
    if e.RecordEvent? {
      LiveOwnerOnlyDies(s, e, Other(e.r));
    } else {
      LiveOwnerOnlyDies(s, e, Manual);
      LiveOwnerOnlyDies(s, e, Dictation);
    }
    forall r | At(Next(s, e), r).owner.Recorded?
      ensures At(Next(s, e), r).owner.identity < Next(s, e).procs.next {
      assert At(s, r).owner.Recorded? ==> At(s, r).owner.identity < s.procs.next;
    }
  }

  lemma {:induction false} RunsKeepInv(s: State, events: seq<Event>)
    requires Inv(s) && Run(s, events)
    ensures Inv(Exec(s, events))
  {
    if events != [] {
      RunsKeepInv(s, events[..|events| - 1]);
      NextKeeps(Exec(s, events[..|events| - 1]), events[|events| - 1]);
    }
  }

  // --------------------------------------------------------------- main results

  /** Over every run, the two files never both name a live recorder. */
  lemma NeverBothLive(s: State, events: seq<Event>)
    requires Inv(s) && Run(s, events)
    ensures LiveOwner(Exec(s, events), Manual).None? || LiveOwner(Exec(s, events), Dictation).None?
  {
    RunsKeepInv(s, events);
  }

  predicate TakesFrom(e: Event, r: Rec) {
    (e.RemoveAudioEvent? || e.HandOffEvent? || e.ClearEvent? || e.RecordEvent?) && e.r == r
  }

  predicate ActsAs(e: Event, identity: nat) {
    (e.ClearEvent? || e.HandOffEvent?) && e.actor == Some(identity)
  }

  lemma LiveOwnerKeptStep(s: State, e: Event, r: Rec, identity: nat)
    requires Inv(s) && Lawful(s, e) && LiveOwner(s, r) == Some(identity) && !ActsAs(e, identity)
    ensures identity in Next(s, e).procs.alive ==> LiveOwner(Next(s, e), r) == Some(identity)
    ensures !TakesFrom(e, r)
    ensures At(s, r).audio.Some? ==>
              At(Next(s, e), r).audio.Some? && At(s, r).audio.value <= At(Next(s, e), r).audio.value
  {
  }

  lemma DeadStaysDead(s: State, e: Event, identity: nat)
    requires identity < s.procs.next && identity !in s.procs.alive
    ensures identity < Next(s, e).procs.next && identity !in Next(s, e).procs.alive
  {
  }

  /**
   While a recorder lives, and until it gives up its recording itself, nobody removes its record, replaces
   it, or takes its audio, whatever pids come and go: what it recorded only grows.
  */
  lemma {:induction false} LiveRecorderKeepsItsAudio(s: State, events: seq<Event>, r: Rec, identity: nat)
    requires Inv(s) && Run(s, events) && LiveOwner(s, r) == Some(identity)
    requires identity in Exec(s, events).procs.alive
    requires forall k :: 0 <= k < |events| ==> !ActsAs(events[k], identity)
    ensures LiveOwner(Exec(s, events), r) == Some(identity)
    ensures forall k :: 0 <= k < |events| ==> !TakesFrom(events[k], r)
    ensures At(s, r).audio.Some? ==>
              At(Exec(s, events), r).audio.Some? && At(s, r).audio.value <= At(Exec(s, events), r).audio.value
  {
    if events != [] {
      var n := |events| - 1;
      var front := events[..n];
      RunsKeepInv(s, front);
      if identity !in Exec(s, front).procs.alive {
        IdentityKnown(s, front, identity);
        DeadStaysDead(Exec(s, front), events[n], identity);
      }
      LiveRecorderKeepsItsAudio(s, front, r, identity);
      LiveOwnerKeptStep(Exec(s, front), events[n], r, identity);
    }
  }

  lemma {:induction false} IdentityKnown(s: State, events: seq<Event>, identity: nat)
    requires identity < s.procs.next
    ensures identity < Exec(s, events).procs.next
  {
    if events != [] {
      IdentityKnown(s, events[..|events| - 1], identity);
    }
  }

  /** A handed-off recording with sound in it is never dropped or altered. */
  lemma {:induction false} GenerationsAreKept(s: State, events: seq<Event>, name: nat)
    requires Run(s, events) && name in s.generations && s.generations[name] > WAV_HEADER_SIZE
    ensures name in Exec(s, events).generations && Exec(s, events).generations[name] == s.generations[name]
  {
    if events != [] {
      GenerationsAreKept(s, events[..|events| - 1], name);
    }
  }
}
