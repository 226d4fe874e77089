/**
 Extraction of ticket references from trusted text (ticket_targets.py). The regular expressions are given: what
 each of them found, with its span, and a lexer for numbers, range separators and list separators.
*/
module TicketTargets {
  import opened Prelude
  import opened AsciiText

  const MAX_RANGE := 25   // _MAX_TICKET_RANGE_SIZE

  datatype Source = GitHub | Linear

  /** A canonical identity, kept in its parts; `Text` is the string the program compares. */
  datatype Canonical = GitHubIssue(repository: string, number: nat) | LinearIssue(team: string, number: nat)

  function Text(c: Canonical): string {
    match c
    case GitHubIssue(repository, n) => repository + ['#'] + Digits(n)
    case LinearIssue(team, n) => team + ['-'] + Digits(n)
  }

  /** One constructor for each text of the program: the text is part of what tells rejected tickets apart. */
  datatype RefError =
    | BadRepository | GitHubNotPositive | LinearNotPositive | IssueNotPositive | MissingScope | BadTeam
    | RangeNotPositive | RangeDescends | RangeTooLong

  datatype TicketReference = TicketReference(
    raw: string,
    position: nat,
    source: Option<Source>,
    canonical: Option<Canonical>,
    scoped: bool,
    error: Option<RefError>)

  // ----------------------------------------------------------- canonical forms

  predicate IsOwnerChar(c: char) { IsAlnum(c) || c == '-' }

  predicate IsRepoChar(c: char) { IsAlnum(c) || c == '_' || c == '.' || c == '-' }

  /** `GitHubClient.validate_repository`. */
  function ValidateRepository(value: string): (r: Option<string>)
    ensures r.Some? ==> '#' !in r.value && IsTrimmed(r.value) && r.value != ""
  {
    var stripped := Strip(value);
    var n := |stripped|;
    var candidate := if n >= 4 && stripped[n - 4..] == ['.', 'g', 'i', 't'] then stripped[..n - 4] else stripped;
    var slash := FirstIndex(candidate, '/');
    if slash == |candidate| then None
    else
      var owner, repo := candidate[..slash], candidate[slash + 1..];
      if && 1 <= |owner| <= 39 && All(owner, IsOwnerChar) && IsAlnum(owner[0]) && IsAlnum(owner[|owner| - 1])
         && 1 <= |repo| <= 100 && All(repo, IsRepoChar) && repo != ['.'] && repo != ['.', '.']
      then
        assert candidate == owner + ['/'] + repo;
        Some(candidate)
      else None
  }

  predicate IsTeam(s: string) {
    |s| >= 2 && All(s, IsAlnum) && !IsDigit(s[0])
  }

  function GitHubReference(raw: string, position: nat, owner: string, repo: string, number: nat): TicketReference {
    var repository := ValidateRepository(owner + ['/'] + repo);
    if repository.None? then TicketReference(raw, position, None, None, false, Some(BadRepository))
    else if number < 1 then TicketReference(raw, position, Some(GitHub), None, false, Some(GitHubNotPositive))
    else TicketReference(raw, position, Some(GitHub), Some(GitHubIssue(repository.value, number)), false, None)
  }

  function LinearReference(raw: string, position: nat, team: string, number: nat): TicketReference {
    if number < 1 then TicketReference(raw, position, Some(Linear), None, false, Some(LinearNotPositive))
    else TicketReference(raw, position, Some(Linear), Some(LinearIssue(Upper(team), number)), false, None)
  }

  /** The page the user is on: its provider, and the repository or team. */
  datatype Scope = Scope(source: Option<Source>, name: string)

  function ScopedReference(raw: string, position: nat, number: nat, scope: Scope): TicketReference {
    if number < 1 then TicketReference(raw, position, None, None, true, Some(IssueNotPositive))
    else if scope.name == "" || scope.source.None? then
      TicketReference(raw, position, None, None, true, Some(MissingScope))
    else if scope.source.value.GitHub? then
      var repository := ValidateRepository(scope.name);
      if repository.None? then TicketReference(raw, position, Some(GitHub), None, true, Some(BadRepository))
      else TicketReference(raw, position, Some(GitHub), Some(GitHubIssue(repository.value, number)), true, None)
    else if !IsTeam(scope.name) then TicketReference(raw, position, Some(Linear), None, true, Some(BadTeam))
    else TicketReference(raw, position, Some(Linear), Some(LinearIssue(Upper(scope.name), number)), true, None)
  }

  /** What every reference in the program satisfies. */
  predicate WellFormed(r: TicketReference) {
    r.canonical.Some? ==>
      match r.canonical.value
      case GitHubIssue(repository, n) =>
        r.source == Some(GitHub) && '#' !in repository && repository != "" && IsTrimmed(repository) && n >= 1
      case LinearIssue(team, n) =>
        && r.source == Some(Linear) && n >= 1
        && (forall i :: 0 <= i < |team| ==> !IsLower(team[i]) && !IsSpace(team[i]))
  }

  lemma UpperTeam(team: string)
    requires forall i :: 0 <= i < |team| ==> !IsSpace(team[i])
    ensures forall i :: 0 <= i < |team| ==> !IsLower(Upper(team)[i]) && !IsSpace(Upper(team)[i])
  {
  }

  // -------------------------------------------------------------- scoped lists

  /** The matchers `_scoped_items` uses: a number, a range separator, and the way to the next list element. */
  datatype Lexer = Lexer(
    text: string,
    number: (nat, bool) -> Option<(nat, nat)>,   // start, digit grouping allowed: value and end
    separator: nat -> Option<nat>,               // its end
    next: nat -> Option<nat>)                    // where the next element starts, if the list goes on

  ghost predicate ValidLexer(l: Lexer) {
    && (forall p: nat, g :: p <= |l.text| && l.number(p, g).Some? ==> p < l.number(p, g).value.1 <= |l.text|)
    && (forall p: nat :: p <= |l.text| && l.separator(p).Some? ==> p < l.separator(p).value <= |l.text|)
    && (forall p: nat :: p <= |l.text| && l.next(p).Some? ==> p <= l.next(p).value <= |l.text|)
  }

  datatype ScopedItem = ScopedItem(raw: string, position: nat, end: nat, value: nat, requested: nat, error: Option<RefError>)

  function Span(v: nat, w: nat): nat {
    (if v <= w then w - v else v - w) + 1
  }

  function RangeError(v: nat, w: nat): Option<RefError> {
    if v < 1 || w < 1 then Some(RangeNotPositive)
    else if w < v then Some(RangeDescends)
    else if Span(v, w) > MAX_RANGE then Some(RangeTooLong)
    else None
  }

  function Expand(v: nat, w: nat, start: nat, end: nat): seq<ScopedItem>
    requires v <= w
  {
    seq(w - v + 1, i requires 0 <= i < w - v + 1 => ScopedItem(Digits(v + i), start, end, v + i, 1, None))
  }

  /** The items of one list element, and where it ends. */
  function Element(l: Lexer, start: nat, singular: bool, first: bool): (r: Option<(seq<ScopedItem>, nat)>)
    requires ValidLexer(l) && start <= |l.text|
    ensures r.Some? ==> start < r.value.1 <= |l.text|
  {
    var parsed := l.number(start, singular && first);
    if parsed.None? then None
    else
      var (v, end) := parsed.value;
      var separator := l.separator(end);
      var last := if separator.Some? then l.number(separator.value, singular) else None;
      if last.None? then Some(([ScopedItem(l.text[start..end], start, end, v, 1, None)], end))
      else
        var (w, stop) := last.value;
        var error := RangeError(v, w);
        if error.Some? then Some(([ScopedItem(l.text[start..stop], start, stop, 0, Span(v, w), error)], stop))
        else Some((Expand(v, w, start, stop), stop))
  }

  function ListItems(l: Lexer, position: nat, singular: bool, first: bool): seq<ScopedItem>
    requires ValidLexer(l) && position <= |l.text|
    decreases |l.text| - position
  {
    var e := Element(l, position, singular, first);
    if e.None? then []
    else
      var next := l.next(e.value.1);
      if next.None? then e.value.0 else e.value.0 + ListItems(l, next.value, singular, false)
  }

  datatype Prefix = Prefix(end: nat, singular: bool)

  function ScopedItems(l: Lexer, prefixes: seq<Prefix>): seq<ScopedItem>
    requires ValidLexer(l) && forall p :: p in prefixes ==> p.end <= |l.text|
  {
    if prefixes == [] then []
    else
      var n := |prefixes| - 1;
      ScopedItems(l, prefixes[..n]) + ListItems(l, prefixes[n].end, prefixes[n].singular, true)
  }

  /** One spoken range, accepted or rejected. */
  method ScanRange(l: Lexer, v: nat, w: nat, start: nat, stop: nat) returns (items: seq<ScopedItem>)
    requires start <= stop <= |l.text|
    ensures items == var error := RangeError(v, w);
                     if error.Some? then [ScopedItem(l.text[start..stop], start, stop, 0, Span(v, w), error)]
                     else Expand(v, w, start, stop)
  {
    var requested := Span(v, w);
    if v < 1 || w < 1 {
      items := [ScopedItem(l.text[start..stop], start, stop, 0, requested, Some(RangeNotPositive))];
    } else if w < v {
      items := [ScopedItem(l.text[start..stop], start, stop, 0, requested, Some(RangeDescends))];
    } else if requested > MAX_RANGE {
      items := [ScopedItem(l.text[start..stop], start, stop, 0, requested, Some(RangeTooLong))];
    } else {
      items := [];
      for number := v to w + 1
        invariant items == Expand(v, w, start, stop)[..number - v]
      {
        items := items + [ScopedItem(Digits(number), start, stop, number, 1, None)];
      }
    }
  }

  /** One element of a list: a number, or a range. */
  method ScanElement(l: Lexer, start: nat, singular: bool, first: bool) returns (r: Option<(seq<ScopedItem>, nat)>)
    requires ValidLexer(l) && start <= |l.text|
    ensures r == Element(l, start, singular, first)
  {
    var parsed := l.number(start, singular && first);
    if parsed.None? {
      return None;
    }
    var v, end := parsed.value.0, parsed.value.1;
    var separator := l.separator(end);
    var last := if separator.Some? then l.number(separator.value, singular) else None;
    if last.None? {
      return Some(([ScopedItem(l.text[start..end], start, end, v, 1, None)], end));
    }
    var items := ScanRange(l, v, last.value.0, start, last.value.1);
    return Some((items, last.value.1));
  }

  lemma ListUnfolds(l: Lexer, position: nat, singular: bool, first: bool, items: seq<ScopedItem>)
    requires ValidLexer(l) && position <= |l.text|
    ensures var e := Element(l, position, singular, first);
            items + ListItems(l, position, singular, first) ==
            if e.None? then items
            else
              var next := l.next(e.value.1);
              items + e.value.0 + if next.None? then [] else ListItems(l, next.value, singular, false)
    ensures var e := Element(l, position, singular, first);
            e.Some? && l.next(e.value.1).Some? ==>
              position < e.value.1 <= l.next(e.value.1).value <= |l.text|
  {
    var e := Element(l, position, singular, first);
    if e.None? {
      assert items + [] == items;
    } else {
      var next := l.next(e.value.1);
      var rest := if next.None? then [] else ListItems(l, next.value, singular, false);
      assert items + (e.value.0 + rest) == items + e.value.0 + rest;
      assert e.value.0 + [] == e.value.0;
    }
  }

  /** One list, element after element, as long as separators lead on. */
  method ScanList(l: Lexer, prefix: Prefix) returns (items: seq<ScopedItem>)
    requires ValidLexer(l) && prefix.end <= |l.text|
    ensures items == ListItems(l, prefix.end, prefix.singular, true)
  {
    hide ListItems, Element, ValidLexer;
    items := [];
    ghost var all := ListItems(l, prefix.end, prefix.singular, true);
    var position := prefix.end;
    var first := true;
    while true
      invariant position <= |l.text|
      invariant all == items + ListItems(l, position, prefix.singular, first)
      decreases |l.text| - position
    {
      ListUnfolds(l, position, prefix.singular, first, items);
      var element := ScanElement(l, position, prefix.singular, first);
      if element.None? {
        break;
      }
      first := false;
      items := items + element.value.0;
      var next := l.next(element.value.1);
      if next.None? {
        break;
      }
      position := next.value;
    }
  }

  /** `_scoped_items`. */
  method ScanScoped(l: Lexer, prefixes: seq<Prefix>) returns (items: seq<ScopedItem>)
    requires ValidLexer(l) && forall p :: p in prefixes ==> p.end <= |l.text|
    ensures items == ScopedItems(l, prefixes)
  {
    items := [];
    for k := 0 to |prefixes|
      invariant items == ScopedItems(l, prefixes[..k])
    {
      var found := ScanList(l, prefixes[k]);
      assert prefixes[..k + 1][..k] == prefixes[..k];
      items := items + found;
    }
    assert prefixes[..|prefixes|] == prefixes;
  }

  function Requested(items: seq<ScopedItem>): nat {
    if items == [] then 0 else items[0].requested + Requested(items[1..])
  }

  lemma {:induction false} RequestedConcat(a: seq<ScopedItem>, b: seq<ScopedItem>)
    ensures Requested(a + b) == Requested(a) + Requested(b)
  {
    if a == [] {
      assert a + b == b;
    } else {
      RequestedConcat(a[1..], b);
      assert (a + b)[1..] == a[1..] + b;
    }
  }

  /** The requests of each list, prefix by prefix. */
  function ListRequests(l: Lexer, prefixes: seq<Prefix>): seq<nat>
    requires ValidLexer(l) && forall p :: p in prefixes ==> p.end <= |l.text|
  {
    seq(|prefixes|, k requires 0 <= k < |prefixes| =>
          Requested(ListItems(l, prefixes[k].end, prefixes[k].singular, true)))
  }

  function Sum(s: seq<nat>): nat {
    if s == [] then 0 else Sum(s[..|s| - 1]) + s[|s| - 1]
  }

  /** All lists together request what each of them does: none hides requests of another. */
  lemma {:induction false} RequestsAddUp(l: Lexer, prefixes: seq<Prefix>)
    requires ValidLexer(l) && forall p :: p in prefixes ==> p.end <= |l.text|
    ensures Requested(ScopedItems(l, prefixes)) == Sum(ListRequests(l, prefixes))
  {
    if prefixes != [] {
      var n := |prefixes| - 1;
      RequestsAddUp(l, prefixes[..n]);
      RequestedConcat(ScopedItems(l, prefixes[..n]), ListItems(l, prefixes[n].end, prefixes[n].singular, true));
      assert ListRequests(l, prefixes)[..n] == ListRequests(l, prefixes[..n]);
    }
  }

  lemma {:induction false} RequestedOnes(items: seq<ScopedItem>)
    requires forall i :: 0 <= i < |items| ==> items[i].requested == 1
    ensures Requested(items) == |items|
  {
    if items != [] {
      RequestedOnes(items[1..]);
    }
  }

  /**
   A spoken range v..w counts as |v - w| + 1 requests whether it is accepted or not; it is accepted exactly when
   it ascends from a positive number and is at most 25 long, and then it names v, v + 1, ..., w in order.
  */
  lemma RangesCountInFull(l: Lexer, start: nat, singular: bool, first: bool)
    requires ValidLexer(l) && start <= |l.text|
    requires var parsed := l.number(start, singular && first);
             && parsed.Some? && l.separator(parsed.value.1).Some?
             && l.number(l.separator(parsed.value.1).value, singular).Some?
    ensures var v := l.number(start, singular && first).value.0;
            var w := l.number(l.separator(l.number(start, singular && first).value.1).value, singular).value.0;
            var items := Element(l, start, singular, first).value.0;
            && Requested(items) == (if v <= w then w - v else v - w) + 1
            && (1 <= v <= w < v + MAX_RANGE ==>
                  |items| == w - v + 1 && forall i :: 0 <= i < |items| ==> items[i].error.None? && items[i].value == v + i)
            && (!(1 <= v <= w < v + MAX_RANGE) ==> |items| == 1 && items[0].error.Some?)
  {
    var items := Element(l, start, singular, first).value.0;
    if items[0].error.None? {
      RequestedOnes(items);
    } else {
      assert items[1..] == [];
    }
  }
}
