/** Alias resolution and the alias part of the vocabulary store (vocabulary.py), on ASCII text. */
module Vocabulary {
  import opened Prelude
  import opened AsciiText

  datatype Kind = RepositoryAlias | IssueAlias | LinearAlias

  datatype Alias = Alias(phrase: string, target: string, kind: Kind, source: string)

  predicate IsWord(c: char) { IsAlnum(c) || c == '_' }

  /** `_normalize_phrase`. */
  function NormalizePhrase(value: string): Result<string> {
    var collapsed := Collapse(value);
    if collapsed == "" then Raise else Ok(Lower(collapsed))
  }

  /** What normalizing gives: words in lower case, single spaces between them. */
  predicate IsPhrase(p: string) {
    SingleSpaced(p) && Lower(p) == p
  }

  lemma NormalizedIsPhrase(value: string)
    ensures NormalizePhrase(value).Ok? ==> IsPhrase(NormalizePhrase(value).value)
  {
    var c := Collapse(value);
    CollapseSpaces(value);
    if c != "" {
      assert forall i :: 0 <= i < |c| ==> (IsSpace(Lower(c)[i]) <==> IsSpace(c[i])) && (Lower(c)[i] == ' ' <==> c[i] == ' ');
    }
  }

  // ------------------------------------------------------------------- matching

  /** The end of the run of blanks at `p`. */
  function SkipBlanks(text: string, p: nat): (q: nat)
    requires p <= |text|
    ensures p <= q <= |text| && (forall i :: p <= i < q ==> IsSpace(text[i])) && (q < |text| ==> !IsSpace(text[q]))
    decreases |text| - p
  {
    if p < |text| && IsSpace(text[p]) then SkipBlanks(text, p + 1) else p
  }

  /** A phrase as a pattern: letters ignoring case, a space standing for any run of blanks. */
  function Match(phrase: string, text: string, p: nat): (end: Option<nat>)
    requires p <= |text|
    ensures end.Some? ==> p <= end.value <= |text| && (phrase != "" ==> p < end.value)
  {
    if phrase == "" then Some(p)
    else if p == |text| then None
    else if phrase[0] == ' ' then
      if IsSpace(text[p]) then Match(phrase[1..], text, SkipBlanks(text, p)) else None
    else if LowerChar(text[p]) == phrase[0] then Match(phrase[1..], text, p + 1)
    else None
  }

  /** Where an alias ends that stands at `p` as whole words. */
  function Hit(phrase: string, text: string, p: nat): (end: Option<nat>)
    requires p <= |text|
    ensures end.Some? ==> p <= end.value <= |text| && (phrase != "" ==> p < end.value)
  {
    if p > 0 && IsWord(text[p - 1]) then None
    else
      var end := Match(phrase, text, p);
      if end.Some? && end.value < |text| && IsWord(text[end.value]) then None else end
  }

  predicate BlanksAreSpaces(s: string) {
    forall i :: 0 <= i < |s| && IsSpace(s[i]) ==> s[i] == ' '
  }

  lemma BlanksHaveNoCase(c: char)
    ensures IsSpace(LowerChar(c)) <==> IsSpace(c)
    ensures IsSpace(c) ==> LowerChar(c) == c
  {
  }

  /** Phrases found at one place are prefixes of each other: a text has one reading. */
  lemma {:induction false} MatchesNest(a: string, b: string, text: string, p: nat)
    requires p <= |text| && |a| <= |b| && BlanksAreSpaces(a) && BlanksAreSpaces(b)
    requires Match(a, text, p).Some? && Match(b, text, p).Some?
    ensures a == b[..|a|]
    decreases |a|
  {
    if a != "" {
      BlanksHaveNoCase(text[p]);
      MatchesNest(a[1..], b[1..], text, if a[0] == ' ' then SkipBlanks(text, p) else p + 1);
      assert a == [a[0]] + a[1..];
    }
  }

  lemma {:induction false} MatchWord(phrase: string, text: string, p: nat, w: nat)
    requires p <= |text| && w <= |phrase| && (forall i :: 0 <= i < w ==> !IsSpace(phrase[i]))
    requires Match(phrase, text, p).Some?
    ensures p + w <= |text| && Lower(text[p..p + w]) == phrase[..w]
    ensures forall i :: p <= i < p + w ==> !IsSpace(text[i])
    ensures Match(phrase[w..], text, p + w) == Match(phrase, text, p)
    decreases w
  {
    if w > 0 {
      BlanksHaveNoCase(text[p]);
      MatchWord(phrase[1..], text, p + 1, w - 1);
      assert phrase[1..][w - 1..] == phrase[w..];
      assert phrase[1..][..w - 1] == phrase[1..w];
      assert text[p..p + w] == [text[p]] + text[p + 1..p + w];
    } else {
      assert phrase[0..] == phrase;
    }
  }

  lemma {:induction false} StripLeftSkips(text: string, p: nat, q: nat, e: nat)
    requires p <= q <= e <= |text| && (forall i :: p <= i < q ==> IsSpace(text[i]))
    requires q < e ==> !IsSpace(text[q])
    ensures StripLeft(text[p..e]) == text[q..e]
    decreases q - p
  {
    if p < q {
      StripLeftSkips(text, p + 1, q, e);
      assert text[p..e][1..] == text[p + 1..e];
    }
  }

  lemma WordOfMatch(text: string, p: nat, w: nat, e: nat)
    requires p + w <= e <= |text| && (forall i :: p <= i < p + w ==> !IsSpace(text[i])) && (p + w < e ==> IsSpace(text[p + w]))
    ensures Word(text[p..e]) == w
  {
    var s := text[p..e];
    assert forall i :: 0 <= i < w ==> s[i] == text[p + i];
    assert w < |s| ==> s[w] == text[p + w];
  }

  lemma TailIsSpaced(phrase: string)
    requires SingleSpaced(phrase) && Word(phrase) < |phrase|
    ensures phrase[Word(phrase)] == ' ' && SingleSpaced(phrase[Word(phrase) + 1..])
  {
    var w := Word(phrase);
    var rest := phrase[w + 1..];
    forall i | 0 <= i < |rest| && IsSpace(rest[i]) ensures rest[i] == ' ' && i + 1 < |rest| && !IsSpace(rest[i + 1]) {
      assert rest[i] == phrase[w + 1 + i] && IsSpace(phrase[w + 1 + i]);
    }
  }

  lemma TailIsPhrase(phrase: string)
    requires IsPhrase(phrase) && Word(phrase) < |phrase|
    ensures var w := Word(phrase);
            && phrase[w] == ' ' && IsPhrase(phrase[w + 1..])
            && phrase == phrase[..w] + [' '] + phrase[w + 1..]
  {
    hide SingleSpaced, Lower;
    TailIsSpaced(phrase);
    LowerFrom(phrase, Word(phrase) + 1);
  }

  lemma LowerFrom(s: string, k: nat)
    requires k <= |s|
    ensures Lower(s[k..]) == Lower(s)[k..]
  {
  }

  lemma CollapseHead(s: string, w: nat, t: string)
    requires s != "" && !IsSpace(s[0]) && w == Word(s) && t == StripLeft(s[w..])
    ensures Collapse(s) == if t == "" then s[..w] else s[..w] + [' '] + Collapse(t)
  {
    assert StripLeft(s) == s;
    assert StripLeft(t) == t;
    CollapseSpaces(t);
  }

  /** The text a phrase matches normalizes back to it, so the target look-up finds that very alias. */
  lemma {:induction false} MatchNormalizes(phrase: string, text: string, p: nat)
    requires IsPhrase(phrase) && p <= |text| && Match(phrase, text, p).Some?
    ensures var e := Match(phrase, text, p).value;
            p < e && Lower(Collapse(text[p..e])) == phrase && !IsSpace(text[p])
    decreases |phrase|
  {
    hide Collapse, Lower, IsPhrase, StripLeft;
    var e := Match(phrase, text, p).value;
    var w := Word(phrase);
    PhraseStartsWithWord(phrase);
    MatchWord(phrase, text, p, w);
    var s := text[p..e];
    assert text[p] == s[0] && s[..w] == text[p..p + w];
    if w == |phrase| {
      WordOfMatch(text, p, w, e);
      StripLeftSkips(text, e, e, e);
      assert s[w..] == text[e..e] && phrase[..w] == phrase;
      CollapseHead(s, w, text[e..e]);
    } else {
      var rest := phrase[w + 1..];
      TailIsPhrase(phrase);
      assert phrase[w..][1..] == rest && phrase[w..][0] == ' ';
      var q := SkipBlanks(text, p + w);
      WordOfMatch(text, p, w, e);
      MatchNormalizes(rest, text, q);
      StripLeftSkips(text, p + w, q, e);
      assert s[w..] == text[p + w..e];
      CollapseHead(s, w, text[q..e]);
      LowerJoined(s[..w], Collapse(text[q..e]));
    }
  }

  lemma PhraseStartsWithWord(phrase: string)
    requires IsPhrase(phrase)
    ensures Word(phrase) > 0
  {
  }

  lemma LowerJoined(s: string, t: string)
    ensures Lower(s + [' '] + t) == Lower(s) + [' '] + Lower(t)
  {
  }

  // ----------------------------------------------------------------- resolution

  predicate Valid(aliases: seq<Alias>) {
    forall a :: a in aliases ==> IsPhrase(a.phrase)
  }

  predicate Unique(aliases: seq<Alias>) {
    forall i, j :: 0 <= i < j < |aliases| ==> aliases[i].phrase != aliases[j].phrase
  }

  /** `sorted` by length, longest first, stable. */
  function InsertByLength(a: Alias, s: seq<Alias>): seq<Alias> {
    if s == [] || |s[|s| - 1].phrase| >= |a.phrase| then s + [a]
    else InsertByLength(a, s[..|s| - 1]) + [s[|s| - 1]]
  }

  function LongestFirst(aliases: seq<Alias>): seq<Alias> {
    if aliases == [] then [] else InsertByLength(aliases[|aliases| - 1], LongestFirst(aliases[..|aliases| - 1]))
  }

  /** The alternation: the first phrase in the list that stands at `p`, and where it ends. */
  function FirstHit(ordered: seq<Alias>, text: string, p: nat): (r: Option<(string, nat)>)
    requires p <= |text| && forall a :: a in ordered ==> a.phrase != ""
    ensures r.Some? ==> p < r.value.1 <= |text|
  {
    if ordered == [] then None
    else
      var end := Hit(ordered[0].phrase, text, p);
      if end.Some? then Some((ordered[0].phrase, end.value)) else FirstHit(ordered[1..], text, p)
  }

  /** The target table; a later entry with the same phrase would win. */
  function Targets(aliases: seq<Alias>): (m: map<string, string>)
    ensures forall p :: p in m <==> exists a :: a in aliases && a.phrase == p
  {
    if aliases == [] then map[]
    else
      var last := aliases[|aliases| - 1];
      var m := Targets(aliases[..|aliases| - 1])[last.phrase := last.target];
      assert forall a :: a in aliases <==> a in aliases[..|aliases| - 1] || a == last;
      m
  }

  /** A piece of the original text and what is written for it. */
  datatype Piece = Copied(original: string) | Replaced(original: string, written: string)

  function Written(p: Piece): string {
    if p.Copied? then p.original else p.written
  }

  function AllWritten(pieces: seq<Piece>): string {
    if pieces == [] then "" else AllWritten(pieces[..|pieces| - 1]) + Written(pieces[|pieces| - 1])
  }

  function AllOriginal(pieces: seq<Piece>): string {
    if pieces == [] then "" else AllOriginal(pieces[..|pieces| - 1]) + pieces[|pieces| - 1].original
  }

  function Phrases(aliases: seq<Alias>): set<string> {
    set a | a in aliases :: a.phrase
  }

  /** The phrase that a left-to-right reading replaces at `p`: the longest that stands there. */
  ghost predicate LongestAt(phrases: set<string>, text: string, p: nat, hit: Option<(string, nat)>)
    requires p <= |text|
  {
    match hit
    case None => forall q :: q in phrases ==> Hit(q, text, p).None?
    case Some((phrase, end)) =>
      && phrase in phrases && Hit(phrase, text, p) == Some(end)
      && (forall q :: q in phrases && Hit(q, text, p).Some? ==> |q| <= |phrase|)
  }

  ghost predicate Descending(s: seq<Alias>) {
    forall i, j :: 0 <= i < j < |s| ==> |s[i].phrase| >= |s[j].phrase|
  }

  lemma {:induction false} InsertedByLength(a: Alias, s: seq<Alias>)
    requires Descending(s)
    ensures Descending(InsertByLength(a, s)) && forall x :: x in InsertByLength(a, s) <==> x in s || x == a
  {
    if s != [] && |s[|s| - 1].phrase| < |a.phrase| {
      var front, last := s[..|s| - 1], s[|s| - 1];
      InsertedByLength(a, front);
      assert s == front + [last];
      var t := InsertByLength(a, front);
      forall i | 0 <= i < |t| ensures |t[i].phrase| >= |last.phrase| {
        assert t[i] in t;
        assert t[i] in front || t[i] == a;
      }
    }
  }

  lemma {:induction false} SortedByLength(aliases: seq<Alias>)
    ensures Descending(LongestFirst(aliases)) && forall x :: x in LongestFirst(aliases) <==> x in aliases
  {
    hide Descending, InsertByLength;
    if aliases == [] {
      NothingDescends();
    } else {
      var front, last := aliases[..|aliases| - 1], aliases[|aliases| - 1];
      SortedByLength(front);
      assert aliases == front + [last];
      InsertedByLength(last, LongestFirst(front));
    }
  }

  lemma NothingDescends()
    ensures Descending([])
  {
  }

  lemma {:induction false} FirstHitIsLongest(ordered: seq<Alias>, text: string, p: nat)
    requires p <= |text| && Descending(ordered) && forall a :: a in ordered ==> a.phrase != ""
    ensures LongestAt(Phrases(ordered), text, p, FirstHit(ordered, text, p))
  {
    if ordered != [] {
      FirstHitIsLongest(ordered[1..], text, p);
      assert ordered == [ordered[0]] + ordered[1..];
      assert Phrases(ordered) == {ordered[0].phrase} + Phrases(ordered[1..]);
      forall q | q in Phrases(ordered) ensures |q| <= |ordered[0].phrase| {
        var a :| a in ordered && a.phrase == q;
      }
    }
  }

  lemma LongestHit(aliases: seq<Alias>, text: string, p: nat)
    requires p <= |text| && Valid(aliases)
    ensures (forall a :: a in LongestFirst(aliases) ==> a.phrase != "")
    ensures LongestAt(Phrases(aliases), text, p, FirstHit(LongestFirst(aliases), text, p))
  {
    hide Hit;
    SortedByLength(aliases);
    assert Phrases(LongestFirst(aliases)) == Phrases(aliases);
    FirstHitIsLongest(LongestFirst(aliases), text, p);
  }

  /** There is one longest phrase at a place. */
  lemma LongestIsOne(phrases: set<string>, text: string, p: nat, x: Option<(string, nat)>, y: Option<(string, nat)>)
    requires p <= |text| && forall q :: q in phrases ==> IsPhrase(q)
    requires LongestAt(phrases, text, p, x) && LongestAt(phrases, text, p, y)
    ensures x == y
  {
    hide Match, Lower;
    if x.Some? && y.Some? {
      MatchesNest(x.value.0, y.value.0, text, p);
      assert x.value.0 == y.value.0;
    }
  }

  /** The left-to-right reading of `text` from `p` on. */
  function Pieces(aliases: seq<Alias>, text: string, p: nat): seq<Piece>
    requires p <= |text| && Valid(aliases)
    decreases |text| - p
  {
    LongestHit(aliases, text, p);
    if p == |text| then []
    else
      var hit := FirstHit(LongestFirst(aliases), text, p);
      if hit.None? then [Copied([text[p]])] + Pieces(aliases, text, p + 1)
      else
        var (phrase, end) := hit.value;
        [Replaced(text[p..end], Targets(aliases)[phrase])] + Pieces(aliases, text, end)
  }

  function ResolveText(aliases: seq<Alias>, text: string): string
    requires Valid(aliases)
  {
    AllWritten(Pieces(aliases, text, 0))
  }

  /** `Vocabulary.resolve_text`: `re.sub` copies what lies between the matches. */
  method Resolve(aliases: seq<Alias>, text: string) returns (resolved: string)
    requires Valid(aliases)
    ensures resolved == ResolveText(aliases, text)
  {
    hide Pieces, AllWritten, Targets, LongestFirst, LongestAt, FirstHit;
    if aliases == [] {
      NothingToResolve(text, 0);
      return text;
    }
    var ordered := LongestFirst(aliases);
    var targets := Targets(aliases);
    ghost var pieces := Pieces(aliases, text, 0);
    ghost var done: seq<Piece> := [];
    resolved := "";
    var p := 0;
    NothingWritten();
    while p < |text|
      invariant p <= |text| && pieces == done + Pieces(aliases, text, p) && resolved == AllWritten(done)
    {
      PiecesStep(aliases, text, p);
      var hit := FirstHit(ordered, text, p);
      if hit.None? {
        WrittenStep(done, Copied([text[p]]));
        resolved := resolved + [text[p]];
        done := done + [Copied([text[p]])];
        p := p + 1;
      } else {
        var matched := text[p..hit.value.1];
        var phrase := Lower(Collapse(matched));
        var piece := Replaced(matched, targets[phrase]);
        WrittenStep(done, piece);
        resolved := resolved + targets[phrase];
        done := done + [piece];
        p := hit.value.1;
      }
    }
    assert done == pieces by {
      NoPieces(aliases, text);
    }
  }

  lemma NothingWritten()
    ensures AllWritten([]) == ""
  {
  }

  lemma NoPieces(aliases: seq<Alias>, text: string)
    requires Valid(aliases)
    ensures Pieces(aliases, text, |text|) == []
  {
  }

  lemma WrittenStep(done: seq<Piece>, piece: Piece)
    ensures AllWritten(done + [piece]) == AllWritten(done) + Written(piece)
  {
    assert (done + [piece])[..|done|] == done;
  }

  /** The look-up by normalized match finds the phrase that matched. */
  lemma PiecesStep(aliases: seq<Alias>, text: string, p: nat)
    requires p < |text| && Valid(aliases)
    ensures forall a :: a in LongestFirst(aliases) ==> a.phrase != ""
    ensures var hit := FirstHit(LongestFirst(aliases), text, p);
            if hit.None? then Pieces(aliases, text, p) == [Copied([text[p]])] + Pieces(aliases, text, p + 1)
            else
              var matched := text[p..hit.value.1];
              var phrase := Lower(Collapse(matched));
              && phrase == hit.value.0 && phrase in Targets(aliases)
              && Pieces(aliases, text, p) ==
                 [Replaced(matched, Targets(aliases)[phrase])] + Pieces(aliases, text, hit.value.1)
  {
    hide Match, Collapse, Lower, FirstHit;
    LongestHit(aliases, text, p);
    var hit := FirstHit(LongestFirst(aliases), text, p);
    if hit.Some? {
      var a :| a in aliases && a.phrase == hit.value.0;
      MatchNormalizes(hit.value.0, text, p);
    }
  }

  lemma {:induction false} NothingToResolve(text: string, p: nat)
    requires p <= |text|
    ensures AllWritten(Pieces([], text, p)) == text[p..]
    decreases |text| - p
  {
    PiecesCover([], text, p);
    WrittenIsOriginal(Pieces([], text, p));
    AllCopied(text, p);
  }

  lemma {:induction false} AllCopied(text: string, p: nat)
    requires p <= |text|
    ensures forall x :: x in Pieces([], text, p) ==> x.Copied?
    decreases |text| - p
  {
    if p < |text| {
      AllCopied(text, p + 1);
    }
  }

  lemma {:induction false} WrittenIsOriginal(pieces: seq<Piece>)
    ensures (forall x :: x in pieces ==> x.Copied?) ==> AllWritten(pieces) == AllOriginal(pieces)
  {
    if pieces != [] {
      WrittenIsOriginal(pieces[..|pieces| - 1]);
    }
  }

  lemma {:induction false} OriginalConcat(a: seq<Piece>, b: seq<Piece>)
    ensures AllOriginal(a + b) == AllOriginal(a) + AllOriginal(b)
  {
    if b == [] {
      assert a + b == a;
    } else {
      assert (a + b)[..|a + b| - 1] == a + b[..|b| - 1];
      OriginalConcat(a, b[..|b| - 1]);
    }
  }

  lemma NothingOriginal()
    ensures AllOriginal([]) == ""
  {
  }

  lemma OneOriginal(piece: Piece)
    ensures AllOriginal([piece]) == piece.original
  {
    assert [piece][..0] == [];
  }

  /** The pieces are the original text, in order: nothing is lost, and nothing written is read again. */
  lemma {:induction false} PiecesCover(aliases: seq<Alias>, text: string, p: nat)
    requires p <= |text| && Valid(aliases)
    ensures AllOriginal(Pieces(aliases, text, p)) == text[p..]
    decreases |text| - p
  {
    hide Pieces, Targets, FirstHit, LongestFirst, AllOriginal, Valid, Lower, Collapse;
    if p == |text| {
      NothingOriginal();
      NoPieces(aliases, text);
    } else {
      PiecesStep(aliases, text, p);
      var hit := FirstHit(LongestFirst(aliases), text, p);
      var q := if hit.None? then p + 1 else hit.value.1;
      var first := if hit.None? then Copied([text[p]])
                   else Replaced(text[p..q], Targets(aliases)[Lower(Collapse(text[p..q]))]);
      PiecesCover(aliases, text, q);
      OriginalConcat([first], Pieces(aliases, text, q));
      OneOriginal(first);
      assert text[p..] == text[p..q] + text[q..];
    }
  }

  lemma {:induction false} TargetOf(aliases: seq<Alias>, a: Alias)
    requires Unique(aliases) && a in aliases
    ensures a.phrase in Targets(aliases) && Targets(aliases)[a.phrase] == a.target
  {
    var front, last := aliases[..|aliases| - 1], aliases[|aliases| - 1];
    if a != last {
      assert a in front;
      TargetOf(front, a);
      var i :| 0 <= i < |front| && front[i] == a;
      assert aliases[i] == a;
    }
  }

  lemma SameTargets(aliases: seq<Alias>, others: seq<Alias>)
    requires Unique(aliases) && Unique(others) && multiset(aliases) == multiset(others)
    ensures Targets(aliases) == Targets(others) && Phrases(aliases) == Phrases(others)
    ensures Valid(aliases) <==> Valid(others)
  {
    SameMembers(aliases, others);
    forall p | p in Targets(aliases) ensures p in Targets(others) && Targets(aliases)[p] == Targets(others)[p] {
      var a :| a in aliases && a.phrase == p;
      TargetOf(aliases, a);
      TargetOf(others, a);
    }
    forall p | p in Targets(others) ensures p in Targets(aliases) {
      var a :| a in others && a.phrase == p;
    }
  }

  lemma SameMembers(aliases: seq<Alias>, others: seq<Alias>)
    requires multiset(aliases) == multiset(others)
    ensures forall a :: a in aliases <==> a in others
  {
    forall a ensures a in aliases <==> a in others {
      assert a in multiset(aliases) <==> a in multiset(others);
    }
  }

  lemma {:induction false} SamePieces(aliases: seq<Alias>, others: seq<Alias>, text: string, p: nat)
    requires p <= |text| && Valid(aliases) && Valid(others)
    requires Targets(aliases) == Targets(others) && Phrases(aliases) == Phrases(others)
    ensures Pieces(aliases, text, p) == Pieces(others, text, p)
    decreases |text| - p
  {
    hide LongestAt, FirstHit, LongestFirst, Targets, IsPhrase;
    LongestHit(aliases, text, p);
    LongestHit(others, text, p);
    forall q | q in Phrases(aliases) ensures IsPhrase(q) {
      var a :| a in aliases && a.phrase == q;
    }
    LongestIsOne(Phrases(aliases), text, p, FirstHit(LongestFirst(aliases), text, p),
                 FirstHit(LongestFirst(others), text, p));
    if p < |text| {
      var hit := FirstHit(LongestFirst(aliases), text, p);
      SamePieces(aliases, others, text, if hit.None? then p + 1 else hit.value.1);
    }
  }

  /** Resolution does not depend on the order in which the aliases are stored. */
  lemma OrderDoesNotMatter(aliases: seq<Alias>, others: seq<Alias>, text: string)
    requires Valid(aliases) && Valid(others) && Unique(aliases) && Unique(others)
    requires multiset(aliases) == multiset(others)
    ensures ResolveText(aliases, text) == ResolveText(others, text)
  {
    SameTargets(aliases, others);
    SamePieces(aliases, others, text, 0);
  }
}
