/** `extract_ticket_targets` and `resolve_named_tickets` (ticket_targets.py), from the spans the patterns found. */
module TicketExtraction {
  import opened Prelude
  import opened AsciiText
  import opened TicketTargets

  datatype Extent = Extent(start: nat, end: nat)

  datatype GitHubMatch = GitHubMatch(raw: string, at: Extent, owner: string, repo: string, number: nat)

  datatype LinearMatch = LinearMatch(raw: string, at: Extent, team: string, number: nat)

  /** The matches of the four GitHub patterns in pattern order, the bare repositories, and the Linear pattern. */
  datatype Matches = Matches(github: seq<GitHubMatch>, repositories: seq<Extent>, linear: seq<LinearMatch>)

  ghost predicate ValidMatches(m: Matches) {
    forall x :: x in m.linear ==> IsTeam(x.team)
  }

  datatype Extraction = Extraction(references: seq<TicketReference>, requested: nat)

  predicate Meets(a: Extent, b: Extent) {
    a.start < b.end && a.end > b.start
  }

  predicate Overlaps(at: Extent, spans: seq<Extent>) {
    exists i :: 0 <= i < |spans| && Meets(at, spans[i])
  }

  // ----------------------------------------------------------------- candidates

  function GitHubCandidates(ms: seq<GitHubMatch>): seq<TicketReference> {
    seq(|ms|, i requires 0 <= i < |ms| =>
          GitHubReference(ms[i].raw, ms[i].at.start, ms[i].owner, ms[i].repo, ms[i].number))
  }

  function GitHubSpans(ms: seq<GitHubMatch>): seq<Extent> {
    seq(|ms|, i requires 0 <= i < |ms| => ms[i].at)
  }

  /** The Linear matches kept, and the spans taken after them. */
  function LinearScan(ms: seq<LinearMatch>, spans: seq<Extent>): (seq<TicketReference>, seq<Extent>) {
    if ms == [] then ([], spans)
    else
      var front := LinearScan(ms[..|ms| - 1], spans);
      var m := ms[|ms| - 1];
      if Overlaps(m.at, front.1) then front
      else (front.0 + [LinearReference(m.raw, m.at.start, m.team, m.number)], front.1 + [m.at])
  }

  function ScopedCandidate(item: ScopedItem, scope: Scope): TicketReference {
    if item.error.Some? then TicketReference(item.raw, item.position, None, None, true, item.error)
    else ScopedReference(item.raw, item.position, item.value, scope)
  }

  function ItemExtent(item: ScopedItem): Extent {
    Extent(item.position, item.end)
  }

  /** The scoped items kept, and how many requests they stand for. */
  function ScopedScan(items: seq<ScopedItem>, spans: seq<Extent>, scope: Scope): (seq<TicketReference>, nat) {
    if items == [] then ([], 0)
    else
      var front := ScopedScan(items[..|items| - 1], spans, scope);
      var item := items[|items| - 1];
      if Overlaps(ItemExtent(item), spans) then front
      else (front.0 + [ScopedCandidate(item, scope)], front.1 + item.requested)
  }

  /** All candidates in the order they are collected, and the number of requests. */
  function Collect(m: Matches, items: seq<ScopedItem>, scope: Scope): (seq<TicketReference>, nat) {
    var linear := LinearScan(m.linear, GitHubSpans(m.github) + m.repositories);
    var scoped := ScopedScan(items, linear.1, scope);
    (GitHubCandidates(m.github) + linear.0 + scoped.0, |m.github| + |linear.0| + scoped.1)
  }

  // --------------------------------------------------------- overlap suppression

  /** Strictly increasing positions below `n`. */
  predicate Selects(kept: seq<nat>, n: nat) {
    && (forall k :: 0 <= k < |kept| ==> kept[k] < n)
    && (forall k, m :: 0 <= k < m < |kept| ==> kept[k] < kept[m])
  }

  /** The items at the kept positions. */
  function Picked(items: seq<ScopedItem>, kept: seq<nat>): seq<ScopedItem>
    requires Selects(kept, |items|)
  {
    seq(|kept|, k requires 0 <= k < |kept| => items[kept[k]])
  }

  function KeptReferences(ms: seq<LinearMatch>, kept: seq<nat>): seq<TicketReference>
    requires Selects(kept, |ms|)
  {
    seq(|kept|, k requires 0 <= k < |kept| =>
          var m := ms[kept[k]]; LinearReference(m.raw, m.at.start, m.team, m.number))
  }

  function KeptExtents(ms: seq<LinearMatch>, kept: seq<nat>): seq<Extent>
    requires Selects(kept, |ms|)
  {
    seq(|kept|, k requires 0 <= k < |kept| => ms[kept[k]].at)
  }

  function Candidates(items: seq<ScopedItem>, scope: Scope): seq<TicketReference> {
    seq(|items|, k requires 0 <= k < |items| => ScopedCandidate(items[k], scope))
  }

  /** What a Linear scan kept, by position: the references, and the spans added to those taken before. */
  ghost predicate KeptLinear(ms: seq<LinearMatch>, spans: seq<Extent>, kept: seq<nat>) {
    Selects(kept, |ms|) && LinearScan(ms, spans) == (KeptReferences(ms, kept), spans + KeptExtents(ms, kept))
  }

  /** Match `i` meets nothing taken before, nor a kept match ahead of it. */
  ghost predicate Free(ms: seq<LinearMatch>, spans: seq<Extent>, kept: seq<nat>, i: nat)
    requires i < |ms| && Selects(kept, |ms|)
  {
    && !Overlaps(ms[i].at, spans)
    && forall k :: 0 <= k < |kept| && kept[k] < i ==> !Meets(ms[i].at, ms[kept[k]].at)
  }

  /** Whether the last of the matches is taken changes nothing for those before it. */
  lemma EarlierStand(ms: seq<LinearMatch>, spans: seq<Extent>, front: seq<nat>, kept: seq<nat>, i: nat)
    requires i < |ms| - 1 && Selects(front, |ms| - 1)
    requires kept == front || kept == front + [|ms| - 1]
    ensures Selects(kept, |ms|)
    ensures i in kept <==> i in front
    ensures Free(ms, spans, kept, i) <==> Free(ms[..|ms| - 1], spans, front, i)
  {
  }

  lemma KeptLinearStep(ms: seq<LinearMatch>, spans: seq<Extent>, front: seq<nat>) returns (kept: seq<nat>)
    requires ms != [] && KeptLinear(ms[..|ms| - 1], spans, front)
    ensures kept == if Overlaps(ms[|ms| - 1].at, LinearScan(ms[..|ms| - 1], spans).1) then front else front + [|ms| - 1]
    ensures KeptLinear(ms, spans, kept)
  {
    hide Overlaps, LinearReference;
    var n := |ms| - 1;
    kept := if Overlaps(ms[n].at, LinearScan(ms[..n], spans).1) then front else front + [n];
    assert KeptReferences(ms, front) == KeptReferences(ms[..n], front);
    assert KeptExtents(ms, front) == KeptExtents(ms[..n], front);
    if kept != front {
      assert KeptReferences(ms, kept) ==
             KeptReferences(ms, front) + [LinearReference(ms[n].raw, ms[n].at.start, ms[n].team, ms[n].number)];
      assert spans + KeptExtents(ms, kept) == spans + KeptExtents(ms, front) + [ms[n].at];
    }
  }

  /** The Linear scan keeps exactly the matches that meet nothing taken, be it before or by an earlier match. */
  lemma {:induction false} LinearKeepsTheFree(ms: seq<LinearMatch>, spans: seq<Extent>) returns (kept: seq<nat>)
    ensures KeptLinear(ms, spans, kept)
    ensures forall i :: 0 <= i < |ms| ==> (i in kept <==> Free(ms, spans, kept, i))
  {
    hide LinearScan, Overlaps, Meets;
    if ms == [] {
      kept := [];
      NothingScanned(spans);
    } else {
      var n := |ms| - 1;
      var front := LinearKeepsTheFree(ms[..n], spans);
      kept := KeptLinearStep(ms, spans, front);
      TakenSplits(ms[..n], spans, front, ms[n].at);
      hide KeptLinear;
      forall i | 0 <= i < |ms| ensures i in kept <==> Free(ms, spans, kept, i) {
        if i < n {
          EarlierStand(ms, spans, front, kept, i);
        } else {
          assert n in kept <==> kept != front;
        }
      }
    }
  }

  lemma NothingScanned(spans: seq<Extent>)
    ensures KeptLinear([], spans, [])
  {
    assert KeptReferences([], []) == [];
    assert spans + KeptExtents([], []) == spans;
  }

  /** What is taken after some matches is what was taken before, and the kept matches. */
  lemma TakenSplits(ms: seq<LinearMatch>, spans: seq<Extent>, kept: seq<nat>, at: Extent)
    requires KeptLinear(ms, spans, kept)
    ensures Overlaps(at, LinearScan(ms, spans).1) <==>
            Overlaps(at, spans) || exists k :: 0 <= k < |kept| && Meets(at, ms[kept[k]].at)
  {
    var taken := LinearScan(ms, spans).1;
    var more := KeptExtents(ms, kept);
    if Overlaps(at, spans) {
      var i :| 0 <= i < |spans| && Meets(at, spans[i]);
      assert taken[i] == spans[i];
    }
    if k :| 0 <= k < |kept| && Meets(at, ms[kept[k]].at) {
      assert taken[|spans| + k] == more[k];
    }
    if Overlaps(at, taken) {
      var i :| 0 <= i < |taken| && Meets(at, taken[i]);
      assert taken[i] == if i < |spans| then spans[i] else more[i - |spans|];
    }
  }

  lemma PickedStep(items: seq<ScopedItem>, front: seq<nat>, scope: Scope)
    requires items != [] && Selects(front, |items| - 1)
    ensures var n := |items| - 1;
            && Selects(front, |items|) && Selects(front + [n], |items|)
            && Picked(items, front) == Picked(items[..n], front)
            && Requested(Picked(items, front + [n])) == Requested(Picked(items, front)) + items[n].requested
            && Candidates(Picked(items, front + [n]), scope) ==
               Candidates(Picked(items, front), scope) + [ScopedCandidate(items[n], scope)]
  {
    hide ScopedCandidate;
    var n := |items| - 1;
    assert Picked(items, front) == Picked(items[..n], front);
    assert Picked(items, front + [n]) == Picked(items, front) + [items[n]];
    RequestedConcat(Picked(items, front), [items[n]]);
    assert [items[n]][1..] == [];
  }

  /** The scoped scan keeps exactly the items that meet no span taken, and counts the requests of those. */
  lemma {:induction false} ScopedKeepsTheFree(items: seq<ScopedItem>, spans: seq<Extent>, scope: Scope)
    returns (kept: seq<nat>)
    ensures Selects(kept, |items|)
    ensures forall i :: 0 <= i < |items| ==> (i in kept <==> !Overlaps(ItemExtent(items[i]), spans))
    ensures var (references, requested) := ScopedScan(items, spans, scope);
            references == Candidates(Picked(items, kept), scope) && requested == Requested(Picked(items, kept))
  {
    hide Overlaps, ScopedCandidate, Candidates, Requested, Picked;
    if items == [] {
      kept := [];
      NothingPicked(scope);
    } else {
      var n := |items| - 1;
      var front := ScopedKeepsTheFree(items[..n], spans, scope);
      PickedStep(items, front, scope);
      kept := if Overlaps(ItemExtent(items[n]), spans) then front else front + [n];
      forall i | 0 <= i < |items| ensures i in kept <==> !Overlaps(ItemExtent(items[i]), spans) {
        if i < n {
          assert i in kept <==> i in front;
          assert items[..n][i] == items[i];
        } else {
          assert n in kept <==> kept != front;
        }
      }
    }
  }

  lemma NothingPicked(scope: Scope)
    ensures Selects([], 0) && Requested(Picked([], [])) == 0 && Candidates(Picked([], []), scope) == []
  {
  }

  /**
   The more specific reading of a stretch of text wins. Every GitHub match is a candidate; a Linear match is one
   exactly if it meets no GitHub match, no bare repository and no earlier Linear candidate; a scoped item is one
   exactly if it meets none of those. The requests are counted for the candidates alone, a rejected range in full.
  */
  lemma SpecificReadingsWin(m: Matches, items: seq<ScopedItem>, scope: Scope) returns (linear: seq<nat>, scoped: seq<nat>)
    ensures Selects(linear, |m.linear|) && Selects(scoped, |items|)
    ensures var specific := GitHubSpans(m.github) + m.repositories;
            && (forall i :: 0 <= i < |m.linear| ==> (i in linear <==> Free(m.linear, specific, linear, i)))
            && (forall i :: 0 <= i < |items| ==>
                  (i in scoped <==>
                   && !Overlaps(ItemExtent(items[i]), specific)
                   && forall k :: 0 <= k < |linear| ==> !Meets(ItemExtent(items[i]), m.linear[linear[k]].at)))
    ensures var (candidates, requested) := Collect(m, items, scope);
            && candidates == GitHubCandidates(m.github) + KeptReferences(m.linear, linear)
                             + Candidates(Picked(items, scoped), scope)
            && requested == |m.github| + |linear| + Requested(Picked(items, scoped))
  {
    var specific := GitHubSpans(m.github) + m.repositories;
    linear := LinearKeepsTheFree(m.linear, specific);
    var taken := LinearScan(m.linear, specific).1;
    scoped := ScopedKeepsTheFree(items, taken, scope);
    forall i | 0 <= i < |items|
      ensures Overlaps(ItemExtent(items[i]), taken) <==>
              Overlaps(ItemExtent(items[i]), specific)
              || exists k :: 0 <= k < |linear| && Meets(ItemExtent(items[i]), m.linear[linear[k]].at)
    {
      TakenSplits(m.linear, specific, linear, ItemExtent(items[i]));
    }
  }

  // --------------------------------------------------------------- stable order

  /** `list.sort` by position: a later candidate goes after the earlier ones at its position. */
  function Insert(c: TicketReference, s: seq<TicketReference>): seq<TicketReference> {
    if s == [] || s[|s| - 1].position <= c.position then s + [c] else Insert(c, s[..|s| - 1]) + [s[|s| - 1]]
  }

  function SortByPosition(s: seq<TicketReference>): seq<TicketReference> {
    if s == [] then [] else Insert(s[|s| - 1], SortByPosition(s[..|s| - 1]))
  }

  ghost predicate Ordered(s: seq<TicketReference>) {
    forall i, j :: 0 <= i < j < |s| ==> s[i].position <= s[j].position
  }

  function AtPosition(s: seq<TicketReference>, p: nat): seq<TicketReference> {
    if s == [] then []
    else AtPosition(s[..|s| - 1], p) + if s[|s| - 1].position == p then [s[|s| - 1]] else []
  }

  lemma {:induction false} InsertKeeps(c: TicketReference, s: seq<TicketReference>)
    ensures multiset(Insert(c, s)) == multiset(s) + multiset{c}
  {
    if s != [] && s[|s| - 1].position > c.position {
      InsertKeeps(c, s[..|s| - 1]);
      assert s == s[..|s| - 1] + [s[|s| - 1]];
    }
  }

  lemma {:induction false} InsertOrders(c: TicketReference, s: seq<TicketReference>)
    requires Ordered(s)
    ensures Ordered(Insert(c, s))
  {
    if s != [] && s[|s| - 1].position > c.position {
      var front, last := s[..|s| - 1], s[|s| - 1];
      InsertOrders(c, front);
      InsertKeeps(c, front);
      var t := Insert(c, front);
      forall i | 0 <= i < |t| ensures t[i].position <= last.position {
        assert t[i] in multiset(t);
        assert t[i] in front || t[i] == c;
      }
    }
  }

  lemma {:induction false} InsertIsStable(c: TicketReference, s: seq<TicketReference>, p: nat)
    requires Ordered(s)
    ensures AtPosition(Insert(c, s), p) == AtPosition(s, p) + if c.position == p then [c] else []
  {
    if s == [] || s[|s| - 1].position <= c.position {
      assert (s + [c])[..|s|] == s;
    } else {
      var front, last := s[..|s| - 1], s[|s| - 1];
      InsertIsStable(c, front, p);
      var t := Insert(c, front);
      assert (t + [last])[..|t|] == t;
    }
  }

  lemma {:induction false} SortOrders(s: seq<TicketReference>)
    ensures Ordered(SortByPosition(s)) && multiset(SortByPosition(s)) == multiset(s)
  {
    hide Insert, Ordered;
    if s == [] {
      NothingIsOrdered();
    } else {
      var front := s[..|s| - 1];
      SortOrders(front);
      InsertKeeps(s[|s| - 1], SortByPosition(front));
      InsertOrders(s[|s| - 1], SortByPosition(front));
      assert s == front + [s[|s| - 1]];
    }
  }

  lemma NothingIsOrdered()
    ensures Ordered([])
  {
  }

  /** Sorting orders by position and keeps the order of candidates at one position. */
  lemma {:induction false} SortIsStable(s: seq<TicketReference>, p: nat)
    ensures Ordered(SortByPosition(s)) && multiset(SortByPosition(s)) == multiset(s)
    ensures AtPosition(SortByPosition(s), p) == AtPosition(s, p)
  {
    hide Insert, Ordered;
    SortOrders(s);
    if s != [] {
      var front := s[..|s| - 1];
      SortIsStable(front, p);
      InsertIsStable(s[|s| - 1], SortByPosition(front), p);
    }
  }

  // -------------------------------------------------------------- first by key

  /** Whether one of `s` has this key. */
  predicate Has<K(==)>(s: seq<TicketReference>, key: TicketReference -> K, k: K) {
    exists i :: 0 <= i < |s| && key(s[i]) == k
  }

  function FirstByKey<K(==)>(s: seq<TicketReference>, key: TicketReference -> K): seq<TicketReference> {
    if s == [] then []
    else
      var front := FirstByKey(s[..|s| - 1], key);
      var last := s[|s| - 1];
      if Has(front, key, key(last)) then front else front + [last]
  }

  lemma FirstByKeyStep<K>(s: seq<TicketReference>, key: TicketReference -> K, i: nat)
    requires i < |s|
    ensures var front := FirstByKey(s[..i], key);
            FirstByKey(s[..i + 1], key) == if Has(front, key, key(s[i])) then front else front + [s[i]]
  {
    assert s[..i + 1][..i] == s[..i];
  }

  /** The loop with a `seen` set, which ends both functions of this module. */
  method KeepFirst<K(==)>(s: seq<TicketReference>, key: TicketReference -> K) returns (unique: seq<TicketReference>)
    ensures unique == FirstByKey(s, key)
  {
    hide FirstByKey, Has;
    unique := [];
    var seen: set<K> := {};
    NothingFirst(s, key);
    for i := 0 to |s|
      invariant unique == FirstByKey(s[..i], key)
      invariant forall k :: k in seen <==> Has(unique, key, k)
    {
      FirstByKeyStep(s, key, i);
      var k := key(s[i]);
      assert Has(unique, key, key(s[i])) <==> k in seen;
      assert FirstByKey(s[..i + 1], key) == if Has(unique, key, key(s[i])) then unique else unique + [s[i]];
      if k !in seen {
        seen := seen + {k};
        HasOneMore(unique, key, s[i]);
        unique := unique + [s[i]];
      }
    }
    assert s[..|s|] == s;
  }

  lemma NothingFirst<K>(s: seq<TicketReference>, key: TicketReference -> K)
    ensures FirstByKey(s[..0], key) == [] && forall k :: !Has([], key, k)
  {
  }

  lemma HasOneMore<K>(s: seq<TicketReference>, key: TicketReference -> K, x: TicketReference)
    ensures forall k :: Has(s + [x], key, k) <==> Has(s, key, k) || k == key(x)
  {
    forall k ensures Has(s + [x], key, k) <==> Has(s, key, k) || k == key(x) {
      assert (s + [x])[|s|] == x;
      assert forall j :: 0 <= j < |s| ==> (s + [x])[j] == s[j];
    }
  }

  lemma {:induction false} FirstByKeyIsUnique<K>(s: seq<TicketReference>, key: TicketReference -> K)
    ensures var r := FirstByKey(s, key);
            && |r| <= |s| && (r == [] <==> s == [])
            && (forall x :: x in r ==> x in s)
            && (forall i, j :: 0 <= i < j < |r| ==> key(r[i]) != key(r[j]))
  {
    if s != [] {
      var n := |s| - 1;
      var front, last := FirstByKey(s[..n], key), s[n];
      FirstByKeyIsUnique(s[..n], key);
      assert forall x :: x in s[..n] ==> x in s;
      if !Has(front, key, key(last)) {
        assert forall i :: 0 <= i < |front| ==> key(front[i]) != key(last);
      }
    }
  }

  lemma {:induction false} FirstByKeyIsOrdered<K>(s: seq<TicketReference>, key: TicketReference -> K)
    requires Ordered(s)
    ensures Ordered(FirstByKey(s, key))
  {
    if s != [] {
      var n := |s| - 1;
      FirstByKeyIsOrdered(s[..n], key);
      FirstByKeyIsUnique(s[..n], key);
      forall x | x in FirstByKey(s[..n], key) ensures x.position <= s[n].position {
        var i :| 0 <= i < n && s[..n][i] == x;
      }
    }
  }

  /** One of `r` stands for x from no later on. */
  predicate StandsFor<K(==)>(r: seq<TicketReference>, key: TicketReference -> K, x: TicketReference) {
    exists i :: 0 <= i < |r| && key(r[i]) == key(x) && r[i].position <= x.position
  }

  lemma {:induction false} FirstByKeyStandsForAll<K>(s: seq<TicketReference>, key: TicketReference -> K, k: nat)
    requires Ordered(s) && k < |s|
    ensures StandsFor(FirstByKey(s, key), key, s[k])
  {
    var n := |s| - 1;
    var front, last := FirstByKey(s[..n], key), s[n];
    var r := FirstByKey(s, key);
    if k < n {
      FirstByKeyStandsForAll(s[..n], key, k);
      assert StandsFor(front, key, s[k]);
      var i :| 0 <= i < |front| && key(front[i]) == key(s[k]) && front[i].position <= s[k].position;
      assert r[i] == front[i];
    } else if Has(front, key, key(last)) {
      var i :| 0 <= i < |front| && key(front[i]) == key(last);
      FirstByKeyIsUnique(s[..n], key);
      assert front[i] in front;
      var j :| 0 <= j < n && s[..n][j] == front[i];
      assert r[i] == front[i] && s[j].position <= s[n].position;
    } else {
      assert r[|front|] == last;
    }
  }

  // ------------------------------------------------------------------ extraction

  /**
   The `seen` key. The program joins raw text and error with a colon; neither error texts nor canonical
   identities contain one, so keys are equal exactly when these are.
  */
  datatype Key = Named(folded: string) | Rejected(folded: string, error: Option<RefError>)

  function KeyOf(r: TicketReference): Key {
    if r.canonical.Some? then Named(Lower(Text(r.canonical.value))) else Rejected(Lower(r.raw), r.error)
  }

  function Extracted(m: Matches, items: seq<ScopedItem>, scope: Scope): Extraction {
    var (candidates, requested) := Collect(m, items, scope);
    Extraction(FirstByKey(SortByPosition(candidates), KeyOf), requested)
  }

  /** `extract_ticket_targets`. */
  method Extract(m: Matches, l: Lexer, prefixes: seq<Prefix>, scope: Scope) returns (r: Extraction)
    requires ValidLexer(l) && forall p :: p in prefixes ==> p.end <= |l.text|
    ensures r == Extracted(m, ScopedItems(l, prefixes), scope)
  {
    hide ScopedItems, SortByPosition, FirstByKey, Overlaps, ValidLexer, GitHubReference, LinearReference, ScopedCandidate;
    var candidates: seq<TicketReference> := [];
    var spans: seq<Extent> := [];
    for i := 0 to |m.github|
      invariant candidates == GitHubCandidates(m.github[..i]) && spans == GitHubSpans(m.github[..i])
    {
      var x := m.github[i];
      candidates := candidates + [GitHubReference(x.raw, x.at.start, x.owner, x.repo, x.number)];
      spans := spans + [x.at];
    }
    assert m.github[..|m.github|] == m.github;
    spans := spans + m.repositories;
    ghost var taken := spans;
    for i := 0 to |m.linear|
      invariant candidates == GitHubCandidates(m.github) + LinearScan(m.linear[..i], taken).0
      invariant spans == LinearScan(m.linear[..i], taken).1
    {
      var x := m.linear[i];
      assert m.linear[..i + 1][..i] == m.linear[..i];
      if !Overlaps(x.at, spans) {
        candidates := candidates + [LinearReference(x.raw, x.at.start, x.team, x.number)];
        spans := spans + [x.at];
      }
    }
    assert m.linear[..|m.linear|] == m.linear;
    var requested := |candidates|;
    ghost var specific := candidates;
    var items := ScanScoped(l, prefixes);
    for i := 0 to |items|
      invariant candidates == specific + ScopedScan(items[..i], spans, scope).0
      invariant requested == |specific| + ScopedScan(items[..i], spans, scope).1
    {
      var item := items[i];
      assert items[..i + 1][..i] == items[..i];
      if !Overlaps(ItemExtent(item), spans) {
        requested := requested + item.requested;
        candidates := candidates + [ScopedCandidate(item, scope)];
      }
    }
    assert items[..|items|] == items;
    var unique := KeepFirst(SortByPosition(candidates), KeyOf);
    return Extraction(unique, requested);
  }

  lemma {:induction false} ItemsRequestSomething(l: Lexer, position: nat, singular: bool, first: bool)
    requires ValidLexer(l) && position <= |l.text|
    ensures forall x :: x in ListItems(l, position, singular, first) ==> x.requested >= 1
    decreases |l.text| - position
  {
    var e := Element(l, position, singular, first);
    if e.Some? {
      var next := l.next(e.value.1);
      if next.Some? {
        ItemsRequestSomething(l, next.value, singular, false);
      }
    }
  }

  lemma {:induction false} ScopedItemsRequestSomething(l: Lexer, prefixes: seq<Prefix>)
    requires ValidLexer(l) && forall p :: p in prefixes ==> p.end <= |l.text|
    ensures forall x :: x in ScopedItems(l, prefixes) ==> x.requested >= 1
  {
    if prefixes != [] {
      var n := |prefixes| - 1;
      ScopedItemsRequestSomething(l, prefixes[..n]);
      ItemsRequestSomething(l, prefixes[n].end, prefixes[n].singular, true);
    }
  }

  lemma {:induction false} ScopedScanCounts(items: seq<ScopedItem>, spans: seq<Extent>, scope: Scope)
    requires forall x :: x in items ==> x.requested >= 1
    ensures var r := ScopedScan(items, spans, scope);
            |r.0| <= r.1 && (r.0 == [] <==> r.1 == 0) && forall x :: x in r.0 ==> WellFormed(x)
  {
    if items != [] {
      var n := |items| - 1;
      ScopedScanCounts(items[..n], spans, scope);
      assert items[n] in items;
      if IsTeam(scope.name) {
        UpperTeam(scope.name);
      }
    }
  }

  lemma {:induction false} LinearScanIsWellFormed(ms: seq<LinearMatch>, spans: seq<Extent>)
    requires forall x :: x in ms ==> IsTeam(x.team)
    ensures forall x :: x in LinearScan(ms, spans).0 ==> WellFormed(x)
  {
    if ms != [] {
      var n := |ms| - 1;
      LinearScanIsWellFormed(ms[..n], spans);
      assert ms[n] in ms;
      UpperTeam(ms[n].team);
    }
  }

  lemma CollectCounts(m: Matches, items: seq<ScopedItem>, scope: Scope)
    requires ValidMatches(m) && forall x :: x in items ==> x.requested >= 1
    ensures var (candidates, requested) := Collect(m, items, scope);
            && |candidates| <= requested && (candidates == [] <==> requested == 0)
            && forall x :: x in candidates ==> WellFormed(x)
  {
    var linear := LinearScan(m.linear, GitHubSpans(m.github) + m.repositories);
    LinearScanIsWellFormed(m.linear, GitHubSpans(m.github) + m.repositories);
    ScopedScanCounts(items, linear.1, scope);
  }

  lemma ExtractedReferences(m: Matches, items: seq<ScopedItem>, scope: Scope)
    ensures Extracted(m, items, scope) ==
            Extraction(FirstByKey(SortByPosition(Collect(m, items, scope).0), KeyOf), Collect(m, items, scope).1)
  {
  }

  /**
   Extraction conserves requests: what it returns is ordered by position, unique by folded identity, never more
   than was requested, empty only if nothing was, and stands for every candidate found.
  */
  lemma ExtractionConservesRequests(m: Matches, l: Lexer, prefixes: seq<Prefix>, scope: Scope)
    requires ValidLexer(l) && ValidMatches(m) && forall p :: p in prefixes ==> p.end <= |l.text|
    ensures var items := ScopedItems(l, prefixes);
            var r := Extracted(m, items, scope);
            && Ordered(r.references)
            && (forall i, j :: 0 <= i < j < |r.references| ==> KeyOf(r.references[i]) != KeyOf(r.references[j]))
            && |r.references| <= r.requested
            && (r.references == [] <==> r.requested == 0)
            && (forall x :: x in r.references ==> WellFormed(x))
            && (forall x :: x in Collect(m, items, scope).0 ==> StandsFor(r.references, KeyOf, x))
  {
    hide *;
    var items := ScopedItems(l, prefixes);
    ScopedItemsRequestSomething(l, prefixes);
    CollectCounts(m, items, scope);
    var candidates := Collect(m, items, scope).0;
    ExtractedReferences(m, items, scope);
    SortOrders(candidates);
    var sorted := SortByPosition(candidates);
    forall x ensures x in sorted <==> x in candidates {
      assert x in multiset(sorted) <==> x in multiset(candidates);
    }
    assert |sorted| == |multiset(sorted)| == |candidates|;
    FirstByKeyIsUnique(sorted, KeyOf);
    FirstByKeyIsOrdered(sorted, KeyOf);
    forall x | x in candidates ensures StandsFor(FirstByKey(sorted, KeyOf), KeyOf, x) {
      var k :| 0 <= k < |sorted| && sorted[k] == x;
      FirstByKeyStandsForAll(sorted, KeyOf, k);
    }
  }

  // ------------------------------------------------------------------ resolution

  function Resolved(references: seq<TicketReference>): (r: seq<TicketReference>)
    ensures forall x :: x in r <==> x in references && x.canonical.Some?
  {
    if references == [] then []
    else
      var n := |references| - 1;
      assert references == references[..n] + [references[n]];
      Resolved(references[..n]) + if references[n].canonical.Some? then [references[n]] else []
  }

  function CanonicalText(r: TicketReference): Option<string> {
    if r.canonical.Some? then Some(Text(r.canonical.value)) else None
  }

  /** The focused ticket joins the spoken ones: before them if "this ticket" was said before the first of them. */
  function WithFocused(resolved: seq<TicketReference>, focused: Option<TicketReference>, includeFocused: bool,
                       deictic: Option<nat>, length: nat): seq<TicketReference>
  {
    if !includeFocused || focused.None? || (exists x :: x in resolved && CanonicalText(x) == CanonicalText(focused.value))
    then resolved
    else
      var firstSpoken := if resolved != [] then resolved[0].position else length;
      if deictic.Some? && deictic.value <= firstSpoken then [focused.value] + resolved else resolved + [focused.value]
  }

  function NamedTickets(e: Extraction, focused: Option<TicketReference>, includeFocused: bool, deictic: Option<nat>,
                        length: nat): seq<TicketReference>
  {
    FirstByKey(WithFocused(Resolved(e.references), focused, includeFocused, deictic, length), CanonicalText)
  }

  /**
   `resolve_named_tickets`; `focused` is what `parse_focused_ticket` made of the focused issue. No identified ticket
   that was spoken is lost, nor the focused one if it is asked for, and none is named twice.
  */
  method ResolveNamed(e: Extraction, focused: Option<TicketReference>, includeFocused: bool, deictic: Option<nat>,
                      length: nat) returns (tickets: seq<TicketReference>)
    requires focused.Some? ==> focused.value.canonical.Some?
    ensures tickets == NamedTickets(e, focused, includeFocused, deictic, length)
    ensures forall x :: x in e.references && x.canonical.Some? ==> Has(tickets, CanonicalText, CanonicalText(x))
    ensures includeFocused && focused.Some? ==> Has(tickets, CanonicalText, CanonicalText(focused.value))
    ensures forall i, j :: 0 <= i < j < |tickets| ==> CanonicalText(tickets[i]) != CanonicalText(tickets[j])
  {
    hide Has, FirstByKey;
    tickets := KeepFirst(WithFocused(Resolved(e.references), focused, includeFocused, deictic, length), CanonicalText);
    NamedTicketsAreDistinct(e, focused, includeFocused, deictic, length);
    NamedTicketsAreComplete(e, focused, includeFocused, deictic, length);
  }

  lemma {:induction false} FirstByKeyKeepsKeys<K>(s: seq<TicketReference>, key: TicketReference -> K, x: TicketReference)
    requires x in s
    ensures Has(FirstByKey(s, key), key, key(x))
  {
    var n := |s| - 1;
    var front := FirstByKey(s[..n], key);
    HasOneMore(front, key, s[n]);
    if x in s[..n] {
      FirstByKeyKeepsKeys(s[..n], key, x);
      assert Has(front + [s[n]], key, key(x));
    } else {
      assert x == s[n] && Has(front + [s[n]], key, key(x));
    }
  }

  /** Every identified ticket that was spoken is among the named ones, and so is the focused one if asked for. */
  lemma NamedTicketsAreComplete(e: Extraction, focused: Option<TicketReference>, includeFocused: bool,
                                deictic: Option<nat>, length: nat)
    ensures var ts := NamedTickets(e, focused, includeFocused, deictic, length);
            && (forall x :: x in e.references && x.canonical.Some? ==> Has(ts, CanonicalText, CanonicalText(x)))
            && (includeFocused && focused.Some? ==> Has(ts, CanonicalText, CanonicalText(focused.value)))
  {
    hide FirstByKey, Has;
    var all := WithFocused(Resolved(e.references), focused, includeFocused, deictic, length);
    forall x | x in all ensures Has(FirstByKey(all, CanonicalText), CanonicalText, CanonicalText(x)) {
      FirstByKeyKeepsKeys(all, CanonicalText, x);
    }
    forall x | x in e.references && x.canonical.Some? ensures x in all {
    }
    if includeFocused && focused.Some? && focused.value !in all {
      var x :| x in Resolved(e.references) && CanonicalText(x) == CanonicalText(focused.value);
      assert x in all;
    }
  }

  /** Named tickets are distinct, identified, and each was spoken or is the focused one. */
  lemma NamedTicketsAreDistinct(e: Extraction, focused: Option<TicketReference>, includeFocused: bool,
                                deictic: Option<nat>, length: nat)
    requires focused.Some? ==> focused.value.canonical.Some?
    ensures var ts := NamedTickets(e, focused, includeFocused, deictic, length);
            && (forall t :: t in ts ==> t.canonical.Some? && (t in e.references || (includeFocused && Some(t) == focused)))
            && (forall i, j :: 0 <= i < j < |ts| ==> CanonicalText(ts[i]) != CanonicalText(ts[j]))
  {
    assert forall x :: x in WithFocused(Resolved(e.references), focused, includeFocused, deictic, length) ==>
             x in Resolved(e.references) || (includeFocused && Some(x) == focused);
    FirstByKeyIsUnique(WithFocused(Resolved(e.references), focused, includeFocused, deictic, length), CanonicalText);
  }
}
