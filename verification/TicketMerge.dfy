/**
 Admission of ticket merges and the closing set they carry (ticket_merge.py). The utterance patterns are given by
 what they found; JSON text is given by its value, `json.loads(json.dumps(v))` being v.
*/
module TicketMerge {
  import opened Prelude
  import opened AsciiText
  import opened TicketTargets
  import opened TicketExtraction

  const MAX_MERGE_TICKETS := 8

  datatype Into = IntoFocused | IntoNamed(target: string)

  datatype Utterance = Utterance(
    mergeVerb: bool,
    blocked: bool,
    ticketObject: bool,
    deictic: Option<nat>,
    length: nat,
    into: Option<Into>)

  /** What the two focused-issue patterns matched, if either did. */
  datatype Focus = GitHubFocus(raw: string, owner: string, repo: string, number: nat)
                 | LinearFocus(raw: string, team: string, number: nat)

  /** `parse_focused_ticket`. */
  function ParseFocused(focus: Option<Focus>): Option<TicketReference> {
    if focus.None? then None
    else
      var r := match focus.value
               case GitHubFocus(raw, owner, repo, n) => GitHubReference(raw, 0, owner, repo, n)
               case LinearFocus(raw, team, n) => LinearReference(raw, 0, team, n);
      if r.canonical.Some? then Some(r) else None
  }

  ghost predicate ValidFocus(focus: Option<Focus>) {
    focus.Some? && focus.value.LinearFocus? ==> IsTeam(focus.value.team)
  }

  lemma FocusedIsWellFormed(focus: Option<Focus>)
    requires ValidFocus(focus) && ParseFocused(focus).Some?
    ensures WellFormed(ParseFocused(focus).value) && ParseFocused(focus).value.canonical.Some?
  {
    if focus.value.LinearFocus? {
      UpperTeam(focus.value.team);
    }
  }

  // ------------------------------------------------------------------ admission

  datatype Admission = Admission(tickets: seq<TicketReference>, survivor: Option<TicketReference>)

  predicate WantsContext(u: Utterance) {
    u.mergeVerb && !u.blocked && u.ticketObject
  }

  predicate NamesSome(e: Extraction) {
    exists r :: r in e.references && (r.canonical.Some? || r.scoped)
  }

  function TextOf(r: TicketReference): string {
    if r.canonical.Some? then Text(r.canonical.value) else ""
  }

  /** `rsplit("#", 1)[0]`. */
  function RepositoryOf(text: string): string {
    var i := LastIndex(text, '#');
    if i < 0 then text else text[..i]
  }

  predicate OneSource(tickets: seq<TicketReference>)
    requires tickets != []
  {
    tickets[0].source.Some? && forall t :: t in tickets ==> t.source == tickets[0].source
  }

  predicate OneRepository(tickets: seq<TicketReference>)
    requires tickets != []
  {
    forall t :: t in tickets ==> RepositoryOf(TextOf(t)) == RepositoryOf(TextOf(tickets[0]))
  }

  /** The first ticket with this text, ignoring case. */
  function FirstNamed(tickets: seq<TicketReference>, target: string): Option<TicketReference> {
    if tickets == [] then None
    else if tickets[0].canonical.Some? && Lower(TextOf(tickets[0])) == Lower(target) then Some(tickets[0])
    else FirstNamed(tickets[1..], target)
  }

  /** `select_merge_survivor`. */
  function SelectSurvivor(u: Utterance, tickets: seq<TicketReference>, focus: Option<Focus>): Option<TicketReference> {
    match u.into
    case None => if tickets == [] then None else Some(tickets[0])
    case Some(IntoNamed(target)) => if target == "" then None else FirstNamed(tickets, target)
    case Some(IntoFocused) =>
      var focused := ParseFocused(focus);
      if focused.None? then None else FirstNamed(tickets, TextOf(focused.value))
  }

  /** `admit_ticket_merge`. */
  function Admit(u: Utterance, e: Extraction, focus: Option<Focus>): Option<Admission> {
    if !WantsContext(u) && !(u.mergeVerb && !u.blocked && NamesSome(e)) then None
    else if u.blocked || !(u.ticketObject || NamesSome(e)) then None
    else
      var tickets := NamedTickets(e, ParseFocused(focus), WantsContext(u), u.deictic, u.length);
      if |tickets| < 2 || |tickets| > MAX_MERGE_TICKETS || !OneSource(tickets) then Some(Admission([], None))
      else if tickets[0].source == Some(GitHub) && !OneRepository(tickets) then Some(Admission([], None))
      else
        var survivor := SelectSurvivor(u, tickets, focus);
        Some(if survivor.None? then Admission([], None) else Admission(tickets, survivor))
  }

  // ---------------------------------------------------------------- closing set

  datatype ClosingTicket = ClosingTicket(
    identity: string,
    marker: string,
    state: string,
    issueId: Option<string>,
    repository: Option<string>,
    number: Option<int>,
    terminalStateId: Option<string>,
    terminalStateName: Option<string>)

  datatype Field = Identity | Marker | StateField | IssueId | Repository | NumberField | TerminalId | TerminalName

  datatype Json = JNull | JBool(b: bool) | JNumber(n: int) | JString(s: string) | JList(items: seq<Json>)
                | JObject(fields: map<Field, Json>)

  function Get(fields: map<Field, Json>, f: Field): Json {
    if f in fields then fields[f] else JNull
  }

  function OptionalString(s: Option<string>): Json {
    if s.Some? then JString(s.value) else JNull
  }

  function EncodeTicket(t: ClosingTicket): Json {
    JObject(map[
      Identity := JString(t.identity), Marker := JString(t.marker), StateField := JString(t.state),
      IssueId := OptionalString(t.issueId), Repository := OptionalString(t.repository),
      NumberField := if t.number.Some? then JNumber(t.number.value) else JNull,
      TerminalId := OptionalString(t.terminalStateId), TerminalName := OptionalString(t.terminalStateName)])
  }

  /** `encode_merge_closing`. */
  function EncodeClosing(tickets: seq<ClosingTicket>): Json {
    JList(seq(|tickets|, i requires 0 <= i < |tickets| => EncodeTicket(tickets[i])))
  }

  predicate IsHex(c: char) { IsDigit(c) || 'a' <= c <= 'f' }

  predicate IsMarker(s: string) { |s| == 32 && All(s, IsHex) }

  predicate IsClosingState(s: string) {
    s == "planned" || s == "submitted" || s == "created" || s == "ambiguous" || s == "manual_required"
  }

  predicate Falsy(j: Json) {
    match j
    case JNull => true
    case JBool(b) => !b
    case JNumber(n) => n == 0
    case JString(s) => s == ""
    case JList(items) => items == []
    case JObject(fields) => fields == map[]
  }

  function Clean(j: Json): Result<Option<string>> {
    if j.JNull? then Ok(None)
    else if !j.JString? then Raise
    else Ok(if Strip(j.s) == "" then None else Some(Strip(j.s)))
  }

  function CleanNumber(j: Json): Result<Option<int>> {
    match j
    case JNull => Ok(None)
    case JNumber(n) => Ok(Some(n))
    case JBool(b) => Ok(Some(if b then 1 else 0))   // isinstance(True, int)
    case _ => Raise
  }

  function CleanName(j: Json): Result<Option<string>> {
    if j.JNull? then Ok(None)
    else if !j.JString? then Raise
    else Ok(if Strip(j.s) == "" then None else Some(Collapse(j.s)))
  }

  /** `_validated_closing`. */
  function DecodeTicket(j: Json): Result<ClosingTicket> {
    if !j.JObject? then Raise
    else
      var identity, marker := Get(j.fields, Identity), Get(j.fields, Marker);
      var given := Get(j.fields, StateField);
      var state := if Falsy(given) then JString("planned") else given;
      if !identity.JString? || Strip(identity.s) == "" then Raise
      else if !marker.JString? || !IsMarker(marker.s) then Raise
      else if !state.JString? || !IsClosingState(state.s) then Raise
      else
        var issueId := Clean(Get(j.fields, IssueId));
        var repository := Clean(Get(j.fields, Repository));
        var number := CleanNumber(Get(j.fields, NumberField));
        var terminalId := Clean(Get(j.fields, TerminalId));
        var terminalName := CleanName(Get(j.fields, TerminalName));
        if issueId.Raise? || repository.Raise? || number.Raise? || terminalId.Raise? || terminalName.Raise? then Raise
        else Ok(ClosingTicket(Strip(identity.s), marker.s, state.s, issueId.value, repository.value, number.value,
                              terminalId.value, terminalName.value))
  }

  function DecodeAll(items: seq<Json>): Result<seq<ClosingTicket>> {
    if items == [] then Ok([])
    else
      var first := DecodeTicket(items[0]);
      if first.Raise? then Raise
      else
        var rest := DecodeAll(items[1..]);
        if rest.Raise? then Raise else Ok([first.value] + rest.value)
  }

  /** `decode_merge_closing`; no payload means nothing to close. */
  function DecodeClosing(payload: Option<Json>): Result<seq<ClosingTicket>> {
    if payload.None? then Ok([])
    else if !payload.value.JList? || payload.value.items == [] || |payload.value.items| > MAX_MERGE_TICKETS then Raise
    else DecodeAll(payload.value.items)
  }

  /** Tickets in the form the decoder produces. */
  predicate Normal(t: ClosingTicket) {
    && t.identity != "" && IsTrimmed(t.identity)
    && IsMarker(t.marker)
    && IsClosingState(t.state)
    && (t.issueId.Some? ==> t.issueId.value != "" && IsTrimmed(t.issueId.value))
    && (t.repository.Some? ==> t.repository.value != "" && IsTrimmed(t.repository.value))
    && (t.terminalStateId.Some? ==> t.terminalStateId.value != "" && IsTrimmed(t.terminalStateId.value))
    && (t.terminalStateName.Some? ==> SingleSpaced(t.terminalStateName.value))
  }

  lemma CleanKeeps(s: Option<string>)
    ensures Clean(OptionalString(s)) == Ok(s) <==> (s.Some? ==> s.value != "" && IsTrimmed(s.value))
    ensures Clean(OptionalString(s)).Ok?
  {
    if s.Some? {
      StripTrims(s.value);
    }
  }

  lemma CleanNameKeeps(s: Option<string>)
    ensures CleanName(OptionalString(s)) == Ok(s) <==> (s.Some? ==> SingleSpaced(s.value))
    ensures CleanName(OptionalString(s)).Ok?
  {
    if s.Some? {
      StripIsEmpty(s.value);
      CollapseSpaces(s.value);
      CollapseKeeps(s.value);
    }
  }

  lemma StatesAreNotEmpty(s: string)
    ensures IsClosingState(s) ==> s != ""
    ensures s == "" ==> "planned" != s
  {
  }

  /** A ticket survives the round trip exactly when it is in normal form. */
  lemma TicketRoundTrip(t: ClosingTicket)
    ensures DecodeTicket(EncodeTicket(t)) == Ok(t) <==> Normal(t)
  {
    hide Clean, CleanName, IsMarker, IsClosingState, Strip, IsTrimmed, SingleSpaced;
    StripTrims(t.identity);
    CleanKeeps(t.issueId);
    CleanKeeps(t.repository);
    CleanKeeps(t.terminalStateId);
    CleanNameKeeps(t.terminalStateName);
    StatesAreNotEmpty(t.state);
  }

  lemma {:induction false} AllRoundTrip(ts: seq<ClosingTicket>, items: seq<Json>)
    requires |items| == |ts| && forall i :: 0 <= i < |ts| ==> items[i] == EncodeTicket(ts[i])
    ensures DecodeAll(items) == Ok(ts) <==> forall i :: 0 <= i < |ts| ==> Normal(ts[i])
  {
    hide DecodeTicket, EncodeTicket, Normal;
    if ts != [] {
      TicketRoundTrip(ts[0]);
      AllRoundTrip(ts[1..], items[1..]);
      assert ts == [ts[0]] + ts[1..];
      assert forall i :: 1 <= i < |ts| ==> ts[i] == ts[1..][i - 1];
      if DecodeAll(items) == Ok(ts) {
        assert DecodeAll(items).value[0] == ts[0] && DecodeAll(items).value[1..] == ts[1..];
      }
    }
  }

  /** Decoding undoes encoding exactly for one to eight tickets in normal form. */
  lemma ClosingRoundTrip(ts: seq<ClosingTicket>)
    ensures DecodeClosing(Some(EncodeClosing(ts))) == Ok(ts) <==>
            1 <= |ts| <= MAX_MERGE_TICKETS && forall i :: 0 <= i < |ts| ==> Normal(ts[i])
  {
    AllRoundTrip(ts, EncodeClosing(ts).items);
  }

  // ------------------------------------------------------------------- dispatch

  const PLACEHOLDER := seq(32, _ => '0')

  /** `_closing_from_reference`. */
  function ClosingFrom(r: TicketReference): Result<ClosingTicket> {
    if r.canonical.None? || r.source.None? then Raise
    else if r.source.value.Linear? then
      Ok(ClosingTicket(TextOf(r), PLACEHOLDER, "planned", None, None, None, None, None))
    else
      var split := RSplit(TextOf(r), '#');
      if split.Raise? || !All(split.value.1, IsDigit) || split.value.1 == "" then Raise
      else Ok(ClosingTicket(TextOf(r), PLACEHOLDER, "planned", None, Some(split.value.0),
                            Some(Number(split.value.1)), None, None))
  }

  datatype Dispatch = Dispatch(
    githubRepository: Option<string>,
    githubIssue: Option<int>,
    issueKey: Option<string>,
    survivor: string,
    closing: Json)

  function ClosingOf(tickets: seq<TicketReference>, survivor: TicketReference): Result<seq<ClosingTicket>> {
    if tickets == [] then Ok([])
    else if CanonicalText(tickets[0]) == CanonicalText(survivor) then ClosingOf(tickets[1..], survivor)
    else
      var first := ClosingFrom(tickets[0]);
      if first.Raise? then Raise
      else
        var rest := ClosingOf(tickets[1..], survivor);
        if rest.Raise? then Raise else Ok([first.value] + rest.value)
  }

  /** `merge_turn_arguments`. */
  function MergeTurn(survivor: TicketReference, tickets: seq<TicketReference>): Result<Dispatch> {
    if survivor.canonical.None? || survivor.source.None? then Raise
    else
      var closing := ClosingOf(tickets, survivor);
      if closing.Raise? || closing.value == [] then Raise
      else
        var text, payload := TextOf(survivor), EncodeClosing(closing.value);
        if survivor.source.value.Linear? then Ok(Dispatch(None, None, Some(text), text, payload))
        else
          var split := RSplit(text, '#');
          if split.Raise? || !All(split.value.1, IsDigit) || split.value.1 == "" then Raise
          else Ok(Dispatch(Some(split.value.0), Some(Number(split.value.1)), None, text, payload))
  }

  /** The other tickets, in order. */
  function Others(tickets: seq<TicketReference>, survivor: TicketReference): seq<TicketReference> {
    if tickets == [] then []
    else (if tickets[0] == survivor then [] else [tickets[0]]) + Others(tickets[1..], survivor)
  }

  lemma GitHubText(r: TicketReference)
    requires WellFormed(r) && r.canonical.Some? && r.source == Some(GitHub)
    ensures r.canonical.value.GitHubIssue?
    ensures RSplit(TextOf(r), '#') == Ok((r.canonical.value.repository, Digits(r.canonical.value.number)))
    ensures RepositoryOf(TextOf(r)) == r.canonical.value.repository
    ensures TextOf(r) != "" && IsTrimmed(TextOf(r))
  {
    RSplitJoined(r.canonical.value.repository, '#', Digits(r.canonical.value.number));
  }

  lemma LinearText(r: TicketReference)
    requires WellFormed(r) && r.canonical.Some? && r.source == Some(Linear)
    ensures r.canonical.value.LinearIssue?
    ensures forall i :: 0 <= i < |TextOf(r)| ==> !IsLower(TextOf(r)[i])
    ensures TextOf(r) != "" && IsTrimmed(TextOf(r))
  {
  }

  lemma PlaceholderIsMarker()
    ensures IsMarker(PLACEHOLDER)
  {
  }

  /** A trusted reference becomes a closing ticket in normal form, under its own identity and number. */
  lemma ClosingFromIsNormal(r: TicketReference)
    requires WellFormed(r) && r.canonical.Some?
    ensures ClosingFrom(r).Ok? && Normal(ClosingFrom(r).value) && ClosingFrom(r).value.identity == TextOf(r)
    ensures r.source == Some(GitHub) ==>
              ClosingFrom(r).value.repository == Some(r.canonical.value.repository)
              && ClosingFrom(r).value.number == Some(r.canonical.value.number)
  {
    PlaceholderIsMarker();
    if r.source == Some(GitHub) {
      GitHubText(r);
      NumberOfDigits(r.canonical.value.number);
    } else {
      LinearText(r);
    }
  }

  /** Tickets admitted together are told apart even ignoring case. */
  lemma AdmittedDifferIgnoringCase(a: TicketReference, b: TicketReference)
    requires WellFormed(a) && WellFormed(b) && a.canonical.Some? && b.canonical.Some? && a.source == b.source
    requires a.source == Some(GitHub) ==> RepositoryOf(TextOf(a)) == RepositoryOf(TextOf(b))
    requires TextOf(a) != TextOf(b)
    ensures Lower(TextOf(a)) != Lower(TextOf(b))
  {
    if a.source == Some(Linear) {
      LinearText(a);
      LinearText(b);
      if Lower(TextOf(a)) == Lower(TextOf(b)) {
        LowerTellsUpperApart(TextOf(a), TextOf(b));
      }
    } else {
      GitHubText(a);
      GitHubText(b);
      var repository, m, n := a.canonical.value.repository, a.canonical.value.number, b.canonical.value.number;
      LowerConcat(repository + ['#'], Digits(m));
      LowerConcat(repository + ['#'], Digits(n));
      LowerDigits(m);
      LowerDigits(n);
      var k := |repository| + 1;
      assert Lower(TextOf(a))[k..] == Digits(m);
      assert Lower(TextOf(b))[k..] == Digits(n);
    }
  }

  ghost predicate Distinguished(tickets: seq<TicketReference>) {
    && (forall t :: t in tickets ==> t.canonical.Some? && WellFormed(t))
    && (forall i, j :: 0 <= i < j < |tickets| ==> CanonicalText(tickets[i]) != CanonicalText(tickets[j]))
  }

  lemma {:induction false} OthersAreTheRest(tickets: seq<TicketReference>, survivor: TicketReference)
    ensures var others := Others(tickets, survivor);
            && (forall t :: t in others <==> t in tickets && t != survivor)
            && (survivor !in tickets ==> |others| == |tickets|)
  {
    if tickets != [] {
      OthersAreTheRest(tickets[1..], survivor);
      assert tickets == [tickets[0]] + tickets[1..];
    }
  }

  lemma {:induction false} OneFewer(tickets: seq<TicketReference>, survivor: TicketReference)
    requires survivor in tickets && Distinct(tickets)
    ensures |Others(tickets, survivor)| == |tickets| - 1
  {
    var rest := tickets[1..];
    assert tickets == [tickets[0]] + rest;
    assert forall j :: 0 <= j < |rest| ==> rest[j] == tickets[j + 1];
    if tickets[0] == survivor {
      assert survivor !in rest;
      OthersAreTheRest(rest, survivor);
    } else {
      OneFewer(rest, survivor);
    }
  }

  /** The closing set is the other tickets, in order, each under its own identity. */
  lemma {:induction false} ClosingIsOthers(tickets: seq<TicketReference>, survivor: TicketReference)
    requires forall t :: t in tickets ==> t.canonical.Some? && WellFormed(t)
    requires forall t :: t in tickets && CanonicalText(t) == CanonicalText(survivor) ==> t == survivor
    ensures var closing := ClosingOf(tickets, survivor);
            var others := Others(tickets, survivor);
            && closing.Ok? && |closing.value| == |others|
            && (forall i :: 0 <= i < |others| ==> closing.value[i].identity == TextOf(others[i]) && Normal(closing.value[i]))
  {
    hide Normal, WellFormed, ClosingFrom, TextOf, Text;
    if tickets != [] {
      var first, rest := tickets[0], tickets[1..];
      assert forall t :: t in rest ==> t in tickets;
      ClosingIsOthers(rest, survivor);
      if first != survivor {
        assert CanonicalText(first) != CanonicalText(survivor);
        ClosingFromIsNormal(first);
      }
    }
  }

  lemma {:induction false} FirstNamedIsAmong(tickets: seq<TicketReference>, target: string)
    ensures var r := FirstNamed(tickets, target);
            r.Some? ==> r.value in tickets && r.value.canonical.Some? && Lower(TextOf(r.value)) == Lower(target)
    ensures FirstNamed(tickets, target).None? ==>
              forall t :: t in tickets && t.canonical.Some? ==> Lower(TextOf(t)) != Lower(target)
  {
    if tickets != [] {
      FirstNamedIsAmong(tickets[1..], target);
    }
  }

  lemma SurvivorIsAmong(u: Utterance, tickets: seq<TicketReference>, focus: Option<Focus>)
    ensures SelectSurvivor(u, tickets, focus).Some? ==> SelectSurvivor(u, tickets, focus).value in tickets
    ensures SelectSurvivor(u, tickets, focus).Some? && u.into.Some? && u.into.value.IntoNamed? ==>
              Lower(TextOf(SelectSurvivor(u, tickets, focus).value)) == Lower(u.into.value.target)
  {
    match u.into {
      case None =>
      case Some(IntoNamed(target)) => FirstNamedIsAmong(tickets, target);
      case Some(IntoFocused) =>
        if ParseFocused(focus).Some? {
          FirstNamedIsAmong(tickets, TextOf(ParseFocused(focus).value));
        }
    }
  }

  /** What admission promises of an admitted merge. */
  ghost predicate Admissible(tickets: seq<TicketReference>, survivor: TicketReference) {
    && 2 <= |tickets| <= MAX_MERGE_TICKETS
    && Distinguished(tickets)
    && survivor in tickets
    && (forall t :: t in tickets ==> t.source == survivor.source)
    && (survivor.source == Some(GitHub) ==>
          forall t :: t in tickets ==> RepositoryOf(TextOf(t)) == RepositoryOf(TextOf(survivor)))
  }

  lemma AdmittedIsAdmissible(u: Utterance, e: Extraction, focus: Option<Focus>)
    requires ValidFocus(focus) && forall r :: r in e.references ==> WellFormed(r)
    requires Admit(u, e, focus).Some? && Admit(u, e, focus).value.survivor.Some?
    ensures var a := Admit(u, e, focus).value; Admissible(a.tickets, a.survivor.value)
  {
    hide WellFormed, NamedTickets, ParseFocused, RepositoryOf, SelectSurvivor, FirstNamed;
    var tickets := NamedTickets(e, ParseFocused(focus), WantsContext(u), u.deictic, u.length);
    if ParseFocused(focus).Some? {
      FocusedIsWellFormed(focus);
    }
    NamedTicketsAreDistinct(e, ParseFocused(focus), WantsContext(u), u.deictic, u.length);
    SurvivorIsAmong(u, tickets, focus);
  }

  /**
   A merge never closes its survivor: an admitted merge has two to eight tickets of one provider (and of one
   GitHub repository), the survivor among them; the payload it carries decodes to the other tickets, all of them,
   in order, and none equals the survivor even ignoring case.
  */
  lemma MergeNeverClosesItsSurvivor(u: Utterance, e: Extraction, focus: Option<Focus>)
    requires ValidFocus(focus) && forall r :: r in e.references ==> WellFormed(r)
    requires Admit(u, e, focus).Some? && Admit(u, e, focus).value.survivor.Some?
    ensures var a := Admit(u, e, focus).value;
            var survivor := a.survivor.value;
            var others := Others(a.tickets, survivor);
            && Admissible(a.tickets, survivor)
            && MergeTurn(survivor, a.tickets).Ok?
            && var d := MergeTurn(survivor, a.tickets).value;
               && d.survivor == TextOf(survivor)
               && (survivor.source == Some(GitHub) ==>
                     && survivor.canonical.value.GitHubIssue?
                     && d.githubRepository == Some(survivor.canonical.value.repository)
                     && d.githubIssue == Some(survivor.canonical.value.number))
               && DecodeClosing(Some(d.closing)).Ok?
               && var closing := DecodeClosing(Some(d.closing)).value;
                  && |closing| == |others| == |a.tickets| - 1
                  && (forall t :: t in others <==> t in a.tickets && t != survivor)
                  && (forall i :: 0 <= i < |closing| ==>
                        && closing[i].identity == TextOf(others[i])
                        && Lower(closing[i].identity) != Lower(TextOf(survivor)))
  {
    hide Admit, WellFormed, RepositoryOf, Normal, DecodeClosing, EncodeClosing, RSplit, Number, Digits, All;
    AdmittedIsAdmissible(u, e, focus);
    var a := Admit(u, e, focus).value;
    var survivor := a.survivor.value;
    SameTextSameTicket(a.tickets, survivor);
    OthersAreTheRest(a.tickets, survivor);
    OneFewer(a.tickets, survivor);
    ClosingIsOthers(a.tickets, survivor);
    var closing := ClosingOf(a.tickets, survivor).value;
    ClosingRoundTrip(closing);
    HasSource(survivor);
    if survivor.source == Some(GitHub) {
      GitHubText(survivor);
      NumberOfDigits(survivor.canonical.value.number);
    }
    var others := Others(a.tickets, survivor);
    forall i | 0 <= i < |others| ensures Lower(TextOf(others[i])) != Lower(TextOf(survivor)) {
      assert others[i] in others;
      assert CanonicalText(others[i]) != CanonicalText(survivor);
      AdmittedDifferIgnoringCase(others[i], survivor);
    }
  }

  lemma HasSource(r: TicketReference)
    requires WellFormed(r) && r.canonical.Some?
    ensures r.source.Some?
  {
  }

  lemma SameTextSameTicket(tickets: seq<TicketReference>, survivor: TicketReference)
    requires Distinguished(tickets) && survivor in tickets
    ensures forall t :: t in tickets && CanonicalText(t) == CanonicalText(survivor) ==> t == survivor
  {
    forall t | t in tickets && CanonicalText(t) == CanonicalText(survivor) ensures t == survivor {
      var i :| 0 <= i < |tickets| && tickets[i] == t;
      var j :| 0 <= j < |tickets| && tickets[j] == survivor;
    }
  }
}
