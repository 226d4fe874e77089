/**
 The alias part of the vocabulary store (vocabulary.py): parsing, adding, removing, importing. A file holds one
 document; saving sorts it by phrase, which no reader can tell (`Vocabulary.OrderDoesNotMatter`).
*/
module VocabularyStore {
  import opened Prelude
  import opened AsciiText
  import opened Vocabulary

  /** One record of a document: `target` None stands for a value that is no string or has no canonical form. */
  datatype Entry = Entry(phrase: Option<string>, target: Option<(string, Kind, string)>)

  ghost predicate Good(aliases: seq<Alias>) {
    Valid(aliases) && Unique(aliases)
  }

  predicate Knows(aliases: seq<Alias>, phrase: string) {
    exists i :: 0 <= i < |aliases| && aliases[i].phrase == phrase
  }

  /** `alias_for`. */
  method AliasFor(aliases: seq<Alias>, phrase: string) returns (r: Option<Alias>)
    requires Good(aliases)
    ensures r.Some? <==> Knows(aliases, phrase)
    ensures r.Some? ==> r.value in aliases && r.value.phrase == phrase && Targets(aliases)[phrase] == r.value.target
  {
    for i := 0 to |aliases|
      invariant !Knows(aliases[..i], phrase)
    {
      if aliases[i].phrase == phrase {
        TargetOf(aliases, aliases[i]);
        return Some(aliases[i]);
      }
    }
    assert aliases[..|aliases|] == aliases;
    return None;
  }

  /** The entries other than this phrase's, in order. */
  function Without(aliases: seq<Alias>, phrase: string): (r: seq<Alias>)
    ensures forall a :: a in r <==> a in aliases && a.phrase != phrase
  {
    if aliases == [] then []
    else
      var last := aliases[|aliases| - 1];
      assert forall a :: a in aliases <==> a in aliases[..|aliases| - 1] || a == last;
      Without(aliases[..|aliases| - 1], phrase) + if last.phrase == phrase then [] else [last]
  }

  lemma {:induction false} WithoutKeepsUnique(aliases: seq<Alias>, phrase: string)
    requires Unique(aliases)
    ensures Unique(Without(aliases, phrase)) && !Knows(Without(aliases, phrase), phrase)
  {
    if aliases != [] {
      var front, last := aliases[..|aliases| - 1], aliases[|aliases| - 1];
      WithoutKeepsUnique(front, phrase);
      var w := Without(front, phrase);
      forall i | 0 <= i < |w| ensures w[i].phrase != last.phrase {
        assert w[i] in w;
        var j :| 0 <= j < |front| && front[j] == w[i];
        assert aliases[j] == front[j];
      }
      forall i | 0 <= i < |Without(aliases, phrase)| ensures Without(aliases, phrase)[i].phrase != phrase {
        assert Without(aliases, phrase)[i] in Without(aliases, phrase);
      }
    }
  }

  lemma TargetsAre(aliases: seq<Alias>, m: map<string, string>)
    requires Unique(aliases)
    requires forall a :: a in aliases ==> a.phrase in m && m[a.phrase] == a.target
    requires forall p :: p in m ==> exists a :: a in aliases && a.phrase == p
    ensures Targets(aliases) == m
  {
    forall p | p in m ensures p in Targets(aliases) && Targets(aliases)[p] == m[p] {
      var a :| a in aliases && a.phrase == p;
      TargetOf(aliases, a);
    }
  }

  lemma WithoutTargets(aliases: seq<Alias>, phrase: string)
    requires Unique(aliases)
    ensures Targets(Without(aliases, phrase)) == Targets(aliases) - {phrase}
  {
    WithoutKeepsUnique(aliases, phrase);
    var m := Targets(aliases) - {phrase};
    forall a | a in Without(aliases, phrase) ensures a.phrase in m && m[a.phrase] == a.target {
      TargetOf(aliases, a);
    }
    forall p | p in m ensures exists a :: a in Without(aliases, phrase) && a.phrase == p {
      var a :| a in aliases && a.phrase == p;
      assert a in Without(aliases, phrase);
    }
    TargetsAre(Without(aliases, phrase), m);
  }

  /** Appending an alias for a new phrase. */
  lemma Appended(aliases: seq<Alias>, a: Alias)
    requires Good(aliases) && IsPhrase(a.phrase) && !Knows(aliases, a.phrase)
    ensures Good(aliases + [a]) && Targets(aliases + [a]) == Targets(aliases)[a.phrase := a.target]
  {
    assert (aliases + [a])[..|aliases|] == aliases;
  }

  // --------------------------------------------------------------------- parsing

  /** The alias an entry stands for. */
  function Read(e: Entry): Result<Alias> {
    if e.phrase.None? || e.target.None? then Raise
    else
      var phrase := NormalizePhrase(e.phrase.value);
      if phrase.Raise? then Raise
      else Ok(Alias(phrase.value, e.target.value.0, e.target.value.1, e.target.value.2))
  }

  /** Every entry is readable, and its phrase resolves to its target. */
  ghost predicate Reads(entries: seq<Entry>, aliases: seq<Alias>) {
    forall i :: 0 <= i < |entries| ==>
      Read(entries[i]).Ok? && Read(entries[i]).value.phrase in Targets(aliases)
      && Targets(aliases)[Read(entries[i]).value.phrase] == Read(entries[i]).value.target
  }

  /** `_parse_aliases`: it fails exactly if an entry is unreadable or two give one phrase different targets. */
  method Parse(entries: seq<Entry>) returns (r: Result<seq<Alias>>)
    ensures r.Raise? <==>
              (exists i :: 0 <= i < |entries| && Read(entries[i]).Raise?) ||
              (exists i, j :: 0 <= i < j < |entries| && Read(entries[i]).Ok? && Read(entries[j]).Ok?
                              && Read(entries[i]).value.phrase == Read(entries[j]).value.phrase
                              && Read(entries[i]).value.target != Read(entries[j]).value.target)
    ensures r.Ok? ==>
              && Good(r.value)
              && (forall a :: a in r.value ==> exists i :: 0 <= i < |entries| && Read(entries[i]) == Ok(a))
              && Reads(entries, r.value)
  {
    hide Targets, NormalizePhrase, IsPhrase;
    var aliases: seq<Alias> := [];
    var seen: map<string, string> := map[];
    NothingStored();
    for i := 0 to |entries|
      invariant Good(aliases) && seen == Targets(aliases)
      invariant forall k :: 0 <= k < i ==> Read(entries[k]).Ok?
      invariant forall p :: p in seen <==> Knows(aliases, p)
      invariant forall p :: p in seen ==> exists k :: 0 <= k < i && Read(entries[k]).value.phrase == p && Read(entries[k]).value.target == seen[p]
      invariant forall a :: a in aliases ==> exists k :: 0 <= k < i && Read(entries[k]) == Ok(a)
      invariant forall k :: 0 <= k < i ==>
                  Read(entries[k]).value.phrase in seen && seen[Read(entries[k]).value.phrase] == Read(entries[k]).value.target
    {
      var read := Read(entries[i]);
      if read.Raise? {
        return Raise;
      }
      var a := read.value;
      if a.phrase in seen && seen[a.phrase] != a.target {
        var k :| 0 <= k < i && Read(entries[k]).value.phrase == a.phrase && Read(entries[k]).value.target == seen[a.phrase];
        return Raise;
      }
      if a.phrase !in seen {
        NormalizedIsPhrase(entries[i].phrase.value);
        Appended(aliases, a);
        KnowsOneMore(aliases, a);
        seen := seen[a.phrase := a.target];
        aliases := aliases + [a];
      }
    }
    return Ok(aliases);
  }

  lemma NothingStored()
    ensures Good([]) && Targets([]) == map[]
  {
  }

  lemma KnowsOneMore(aliases: seq<Alias>, a: Alias)
    ensures forall p :: Knows(aliases + [a], p) <==> Knows(aliases, p) || p == a.phrase
  {
    forall p ensures Knows(aliases + [a], p) <==> Knows(aliases, p) || p == a.phrase {
      assert (aliases + [a])[|aliases|] == a;
      assert forall i :: 0 <= i < |aliases| ==> (aliases + [a])[i] == aliases[i];
    }
  }

  /** A dictionary entry set: an existing phrase keeps its place, a new one goes last. */
  function Overlay(aliases: seq<Alias>, a: Alias): seq<Alias> {
    if aliases == [] then [a]
    else if aliases[0].phrase == a.phrase then [a] + aliases[1..]
    else [aliases[0]] + Overlay(aliases[1..], a)
  }

  lemma {:induction false} OverlayMembers(aliases: seq<Alias>, a: Alias)
    requires Unique(aliases)
    ensures Unique(Overlay(aliases, a))
    ensures forall x :: x in Overlay(aliases, a) <==> x == a || (x in aliases && x.phrase != a.phrase)
  {
    if aliases != [] {
      var first, rest := aliases[0], aliases[1..];
      assert aliases == [first] + rest;
      assert forall j :: 0 <= j < |rest| ==> rest[j] == aliases[j + 1];
      if first.phrase == a.phrase {
        assert forall x :: x in rest ==> x.phrase != a.phrase;
      } else {
        OverlayMembers(rest, a);
        var o := Overlay(rest, a);
        forall j | 0 <= j < |o| ensures o[j].phrase != first.phrase {
          assert o[j] in o;
        }
      }
    }
  }

  lemma OverlayTargets(aliases: seq<Alias>, a: Alias)
    requires Good(aliases) && IsPhrase(a.phrase)
    ensures Good(Overlay(aliases, a)) && Targets(Overlay(aliases, a)) == Targets(aliases)[a.phrase := a.target]
  {
    OverlayMembers(aliases, a);
    var m := Targets(aliases)[a.phrase := a.target];
    forall x | x in Overlay(aliases, a) ensures x.phrase in m && m[x.phrase] == x.target {
      if x != a {
        TargetOf(aliases, x);
      }
    }
    forall p | p in m ensures exists x :: x in Overlay(aliases, a) && x.phrase == p {
      if p == a.phrase {
        assert a in Overlay(aliases, a);
      } else {
        var x :| x in aliases && x.phrase == p;
        assert x in Overlay(aliases, a);
      }
    }
    TargetsAre(Overlay(aliases, a), m);
  }

  /** The dictionaries of `import_entries`. */
  method Merge(current: seq<Alias>, incoming: seq<Alias>) returns (merged: seq<Alias>)
    requires Good(current) && Good(incoming)
    ensures Good(merged) && Targets(merged) == Targets(current) + Targets(incoming)
  {
    hide *;
    merged := current;
    MergeStarts(current, incoming);
    for i := 0 to |incoming|
      invariant Good(merged)
      invariant Targets(merged) == Targets(current) + Targets(incoming[..i])
    {
      MergeStep(merged, current, incoming, i);
      merged := Overlay(merged, incoming[i]);
    }
    assert incoming[..|incoming|] == incoming;
  }

  lemma MergeStarts(current: seq<Alias>, incoming: seq<Alias>)
    ensures Targets(current) + Targets(incoming[..0]) == Targets(current)
  {
    NothingStored();
    assert incoming[..0] == [];
  }

  lemma MergeStep(merged: seq<Alias>, current: seq<Alias>, incoming: seq<Alias>, i: nat)
    requires Good(merged) && Good(incoming) && i < |incoming|
    requires Targets(merged) == Targets(current) + Targets(incoming[..i])
    ensures Good(Overlay(merged, incoming[i]))
    ensures Targets(Overlay(merged, incoming[i])) == Targets(current) + Targets(incoming[..i + 1])
  {
    hide Targets, IsPhrase, Unique, Overlay;
    var a := incoming[i];
    assert a in incoming;
    OverlayTargets(merged, a);
    TargetsStep(incoming, i);
    PutLast(Targets(current), Targets(incoming[..i]), a.phrase, a.target);
  }

  lemma PutLast<K, V>(m: map<K, V>, n: map<K, V>, k: K, v: V)
    ensures (m + n)[k := v] == m + n[k := v]
  {
  }

  // ------------------------------------------------------------------- the store

  class Store {
    var aliases: seq<Alias>

    ghost predicate Sound()
      reads this
    {
      Good(aliases)
    }

    constructor ()
      ensures Sound() && aliases == []
    {
      aliases := [];
    }

    /** `add_alias`; `owned` is what `resolve_owned_alias_target` made of the target. */
    method Add(phrase: string, owned: Result<(string, Kind, string)>, force: bool) returns (done: Result<()>)
      requires Sound()
      modifies this
      ensures Sound()
      ensures var p := NormalizePhrase(phrase);
              var old_ := old(Targets(aliases));
              if p.Raise? || owned.Raise? || (p.value in old_ && old_[p.value] != owned.value.0 && !force)
              then done.Raise? && aliases == old(aliases)
              else done.Ok? && Targets(aliases) == old_[p.value := owned.value.0]
    {
      hide Targets, NormalizePhrase, IsPhrase;
      var p := NormalizePhrase(phrase);
      if p.Raise? || owned.Raise? {
        return Raise;
      }
      KnownTargets(aliases);
      var existing := AliasFor(aliases, p.value);
      if existing.Some? && existing.value.target != owned.value.0 && !force {
        return Raise;
      }
      NormalizedIsPhrase(phrase);
      WithoutKeepsUnique(aliases, p.value);
      WithoutTargets(aliases, p.value);
      Appended(Without(aliases, p.value), Alias(p.value, owned.value.0, owned.value.1, owned.value.2));
      aliases := Without(aliases, p.value) + [Alias(p.value, owned.value.0, owned.value.1, owned.value.2)];
      return Ok(());
    }

    /** `remove_alias`. */
    method Remove(phrase: string) returns (done: Result<()>)
      requires Sound()
      modifies this
      ensures Sound()
      ensures var p := NormalizePhrase(phrase);
              if p.Raise? || p.value !in old(Targets(aliases)) then done.Raise? && aliases == old(aliases)
              else done.Ok? && Targets(aliases) == old(Targets(aliases)) - {p.value}
    {
      hide Targets, NormalizePhrase, IsPhrase;
      var p := NormalizePhrase(phrase);
      if p.Raise? {
        return Raise;
      }
      KnownTargets(aliases);
      var existing := AliasFor(aliases, p.value);
      if existing.None? {
        return Raise;
      }
      WithoutKeepsUnique(aliases, p.value);
      WithoutTargets(aliases, p.value);
      aliases := Without(aliases, p.value);
      return Ok(());
    }

    /** `import_entries`: a backup replaces the store, or overrides it phrase by phrase. */
    method Import(entries: seq<Entry>, replace: bool) returns (done: Result<()>, ghost incoming: seq<Alias>)
      requires Sound()
      modifies this
      ensures Sound()
      ensures done.Raise? ==> aliases == old(aliases)
      ensures done.Ok? ==>
                && Good(incoming) && Reads(entries, incoming)
                && Targets(aliases) == if replace then Targets(incoming) else old(Targets(aliases)) + Targets(incoming)
    {
      hide Targets, IsPhrase, Read, Valid, Unique;
      incoming := [];
      var parsed := Parse(entries);
      if parsed.Raise? {
        return Raise, [];
      }
      incoming := parsed.value;
      if replace {
        aliases := parsed.value;
      } else {
        aliases := Merge(aliases, parsed.value);
      }
      return Ok(()), incoming;
    }

    /** Text is resolved with the aliases of the store. */
    method Resolved(text: string) returns (r: string)
      requires Sound()
      ensures r == ResolveText(aliases, text)
    {
      r := Resolve(aliases, text);
    }
  }

  lemma KnownTargets(aliases: seq<Alias>)
    ensures forall p :: p in Targets(aliases) <==> Knows(aliases, p)
  {
    forall p ensures p in Targets(aliases) <==> Knows(aliases, p) {
      if p in Targets(aliases) {
        var a :| a in aliases && a.phrase == p;
        var i :| 0 <= i < |aliases| && aliases[i] == a;
      }
    }
  }

  lemma TargetsStep(aliases: seq<Alias>, i: nat)
    requires i < |aliases|
    ensures Targets(aliases[..i + 1]) == Targets(aliases[..i])[aliases[i].phrase := aliases[i].target]
  {
    assert aliases[..i + 1][..i] == aliases[..i];
  }
}
