/**
 The spoken cardinal parser (ticket_targets.py, _spoken_number_at). Text is a sequence of tokens: a number
 word, a gap (a run of white space and hyphens), or anything else.
*/
module SpokenNumbers {
  import opened Prelude

  type SmallValue = n: nat | n < 20
  type TensDigit = n: nat | 2 <= n <= 9 witness 2

  datatype NumberWord = Small(value: SmallValue) | Tens(digit: TensDigit) | Hundred | Thousand | And

  datatype Token = Word(word: NumberWord) | Gap(text: string) | Other(text: string)

  datatype Last = Start | SmallLast | TensLast | HundredLast | ScaleLast | AndLast | GroupedTens | GroupedSmall

  /** The loop's variables `total`, `group`, `last` and `used_thousand`. */
  datatype Acc = Acc(total: nat, group: nat, last: Last, usedThousand: bool)

  const EMPTY := Acc(0, 0, Start, false)

  datatype Verdict = Took(acc: Acc) | Halt | Bad

  predicate WordAt(tokens: seq<Token>, p: nat) {
    p < |tokens| && tokens[p].Word?
  }

  predicate GapAt(tokens: seq<Token>, p: nat) {
    p < |tokens| && tokens[p].Gap?
  }

  predicate Counts(w: NumberWord) {
    w.Small? || w.Tens?
  }

  /** The look-ahead of "and": a small or tens word must follow, across an optional gap. */
  predicate CountsAfter(tokens: seq<Token>, p: nat) {
    var q := if GapAt(tokens, p) then p + 1 else p;
    WordAt(tokens, q) && Counts(tokens[q].word)
  }

  /** One round of the loop: `joins` is the look-ahead of "and". */
  function Advance(a: Acc, w: NumberWord, grouped: bool, joins: bool): Verdict {
    match w
    case Small(n) =>
      if a.last.SmallLast? || a.last.GroupedSmall? then Bad
      else Took(a.(group := a.group + n, last := if a.last.GroupedTens? then GroupedSmall else SmallLast))
    case Tens(d) =>
      if grouped && a.last.SmallLast? && !a.usedThousand && a.total == 0 && 1 <= a.group <= 99 then
        Took(a.(group := a.group * 100 + 10 * d, last := GroupedTens))
      else if a.last.Start? || a.last.HundredLast? || a.last.ScaleLast? || a.last.AndLast? then
        Took(a.(group := a.group + 10 * d, last := TensLast))
      else Bad
    case Hundred =>
      if !a.last.SmallLast? || !(1 <= a.group <= 9) then Bad
      else Took(a.(group := a.group * 100, last := HundredLast))
    case Thousand =>
      if !(1 <= a.group <= 999) || a.usedThousand then Bad
      else Took(Acc(a.total + a.group * 1000, 0, ScaleLast, true))
    case And =>
      if !(a.last.HundredLast? || a.last.ScaleLast?) || !joins then Halt
      else Took(a.(last := AndLast))
  }

  /** The loop as a function: `end` is where the last word taken ends, None if none was. */
  function Scan(tokens: seq<Token>, p: nat, a: Acc, end: Option<nat>, grouped: bool): Option<(nat, nat)>
    decreases |tokens| - p
  {
    if !WordAt(tokens, p) then Result(a, end)
    else
      match Advance(a, tokens[p].word, grouped, CountsAfter(tokens, p + 1))
      case Bad => None
      case Halt => Result(a, end)
      case Took(a') =>
        if GapAt(tokens, p + 1) then Scan(tokens, p + 2, a', Some(p + 1), grouped)
        else Result(a', Some(p + 1))
  }

  function Result(a: Acc, end: Option<nat>): Option<(nat, nat)> {
    if end.Some? then Some((a.total + a.group, end.value)) else None
  }

  function SpokenNumber(tokens: seq<Token>, start: nat, grouped: bool): Option<(nat, nat)> {
    Scan(tokens, start, EMPTY, None, grouped)
  }

  lemma ScanStep(tokens: seq<Token>, p: nat, a: Acc, end: Option<nat>, grouped: bool)
    requires WordAt(tokens, p)
    ensures var v := Advance(a, tokens[p].word, grouped, CountsAfter(tokens, p + 1));
            Scan(tokens, p, a, end, grouped) ==
            if v.Bad? then None
            else if v.Halt? then Result(a, end)
            else if GapAt(tokens, p + 1) then Scan(tokens, p + 2, v.acc, Some(p + 1), grouped)
            else Result(v.acc, Some(p + 1))
  {
  }

  lemma ScanEnds(tokens: seq<Token>, p: nat, a: Acc, end: Option<nat>, grouped: bool)
    ensures !WordAt(tokens, p) ==> Scan(tokens, p, a, end, grouped) == Result(a, end)
  {
  }

  lemma ScanStarts(tokens: seq<Token>, start: nat, grouped: bool)
    ensures SpokenNumber(tokens, start, grouped) == Scan(tokens, start, EMPTY, None, grouped)
  {
  }

  /** The loop itself. */
  method SpokenNumberAt(tokens: seq<Token>, start: nat, grouped: bool) returns (r: Option<(nat, nat)>)
    ensures r == SpokenNumber(tokens, start, grouped)
  {
    hide Scan, SpokenNumber, CountsAfter, GapAt;
    var position: nat, end: nat := start, start;
    var total: nat, group: nat := 0, 0;
    var last := Start;
    var consumed, usedThousand, invalid := false, false, false;
    ghost var answer := SpokenNumber(tokens, start, grouped);
    ScanStarts(tokens, start, grouped);
    while WordAt(tokens, position)
      invariant !invalid
      invariant answer ==
                Scan(tokens, position, Acc(total, group, last, usedThousand), if consumed then Some(end) else None, grouped)
      decreases |tokens| - position
    {
      ScanStep(tokens, position, Acc(total, group, last, usedThousand), if consumed then Some(end) else None, grouped);
      var word := tokens[position].word;
      match word {
      case Small(n) =>
        if last == SmallLast || last == GroupedSmall {
          invalid := true;
          break;
        }
        group := group + n;
        last := if last == GroupedTens then GroupedSmall else SmallLast;
      case Tens(d) =>
        if grouped && last == SmallLast && !usedThousand && total == 0 && 1 <= group <= 99 {
          group := group * 100 + 10 * d;
          last := GroupedTens;
        } else if last == Start || last == HundredLast || last == ScaleLast || last == AndLast {
          group := group + 10 * d;
          last := TensLast;
        } else {
          invalid := true;
          break;
        }
      case Hundred =>
        if last != SmallLast || !(1 <= group <= 9) {
          invalid := true;
          break;
        }
        group := group * 100;
        last := HundredLast;
      case Thousand =>
        if !(1 <= group <= 999) || usedThousand {
          invalid := true;
          break;
        }
        total := total + group * 1000;
        group := 0;
        last := ScaleLast;
        usedThousand := true;
      case And =>
        if !(last == HundredLast || last == ScaleLast) || !CountsAfter(tokens, position + 1) {
          break;
        }
        last := AndLast;
      }
      consumed := true;
      end := position + 1;
      if !GapAt(tokens, end) {
        break;
      }
      position := end + 1;
    }
    ScanEnds(tokens, position, Acc(total, group, last, usedThousand), if consumed then Some(end) else None, grouped);
    r := if consumed && !invalid then Some((total + group, end)) else None;
  }

  // --------------------------------------------------------- how English says it

  /** Words in a row, with gaps (spaces or hyphens) between them. */
  function Speak(words: seq<NumberWord>, gaps: seq<string>): (r: seq<Token>)
    requires words != [] && |gaps| == |words| - 1
    ensures |r| == 2 * |words| - 1
  {
    if |words| == 1 then [Word(words[0])]
    else [Word(words[0]), Gap(gaps[0])] + Speak(words[1..], gaps[1..])
  }

  /** Where English allows "and": after "hundred" among the thousands, after "thousand", after "hundred". */
  datatype Style = Style(thousandsAnd: bool, middleAnd: bool, unitsAnd: bool)

  function UnderHundred(k: nat): seq<NumberWord>
    requires 0 < k < 100
  {
    if k < 20 then [Small(k)]
    else if k % 10 == 0 then [Tens(k / 10)]
    else [Tens(k / 10), Small(k % 10)]
  }

  function Join(conjunction: bool): seq<NumberWord> {
    if conjunction then [And] else []
  }

  function UnderThousand(k: nat, conjunction: bool): seq<NumberWord>
    requires 0 < k < 1000
  {
    if k < 100 then UnderHundred(k)
    else if k % 100 == 0 then [Small(k / 100), Hundred]
    else [Small(k / 100), Hundred] + Join(conjunction) + UnderHundred(k % 100)
  }

  function Cardinal(n: nat, s: Style): seq<NumberWord>
    requires n < 1_000_000
  {
    if n == 0 then [Small(0)]
    else if n < 1000 then UnderThousand(n, s.unitsAnd)
    else if n % 1000 == 0 then UnderThousand(n / 1000, s.thousandsAnd) + [Thousand]
    else UnderThousand(n / 1000, s.thousandsAnd) + [Thousand] + Join(s.middleAnd) + UnderThousand(n % 1000, s.unitsAnd)
  }

  // ------------------------------------------------------------ consuming words

  /** The accumulator after a row of words, if the loop takes them all; `joins` looks past the row. */
  function Consume(words: seq<NumberWord>, joins: bool, a: Acc, grouped: bool): Option<Acc> {
    if words == [] then Some(a)
    else
      match Advance(a, words[0], grouped, if |words| > 1 then Counts(words[1]) else joins)
      case Took(a') => Consume(words[1..], joins, a', grouped)
      case Halt => None
      case Bad => None
  }

  lemma {:induction false} ConsumeConcat(v: seq<NumberWord>, w: seq<NumberWord>, joins: bool, a: Acc, b: Acc, grouped: bool)
    requires w != [] && Consume(v, Counts(w[0]), a, grouped) == Some(b)
    ensures Consume(v + w, joins, a, grouped) == Consume(w, joins, b, grouped)
  {
    if v == [] {
      assert v + w == w;
    } else {
      assert (v + w)[1..] == v[1..] + w;
      assert |v| == 1 ==> (v + w)[1] == w[0];
      var next := Advance(a, v[0], grouped, if |v| > 1 then Counts(v[1]) else Counts(w[0])).acc;
      ConsumeConcat(v[1..], w, joins, next, b, grouped);
    }
  }

  /** A row of spoken words is scanned as it is consumed. */
  lemma {:induction false} SpeakScans(tokens: seq<Token>, p: nat, words: seq<NumberWord>, gaps: seq<string>,
                                      a: Acc, b: Acc, end: Option<nat>, grouped: bool)
    requires words != [] && |gaps| == |words| - 1
    requires p + 2 * |words| - 1 <= |tokens| && tokens[p..p + 2 * |words| - 1] == Speak(words, gaps)
    requires Consume(words, CountsAfter(tokens, p + 2 * |words| - 1), a, grouped) == Some(b)
    ensures var q := p + 2 * |words| - 1;
            Scan(tokens, p, a, end, grouped) ==
            if GapAt(tokens, q) then Scan(tokens, q + 1, b, Some(q), grouped) else Result(b, Some(q))
    decreases |words|
  {
    var spoken := Speak(words, gaps);
    assert tokens[p] == spoken[0];
    if |words| > 1 {
      assert tokens[p + 1] == spoken[1] && tokens[p + 2] == spoken[2];
      assert Speak(words[1..], gaps[1..])[0] == Word(words[1]);
      var next := Advance(a, words[0], grouped, Counts(words[1])).acc;
      assert tokens[p + 2..p + 2 * |words| - 1] == spoken[2..] == Speak(words[1..], gaps[1..]);
      SpeakScans(tokens, p + 2, words[1..], gaps[1..], next, b, Some(p + 1), grouped);
    } else {
      assert Consume(words[1..], true, b, grouped) == Some(b);
    }
  }

  /** What `last` is after the words of a group. */
  function LastOf(k: nat): Last {
    if k % 100 == 0 then HundredLast
    else if k % 100 < 20 || k % 10 != 0 then SmallLast
    else TensLast
  }

  lemma UnderHundredConsumed(k: nat, joins: bool, a: Acc, grouped: bool)
    requires 0 < k < 100
    requires a.last.Start? || a.last.ScaleLast? || a.last.AndLast? || a.last.HundredLast?
    ensures Consume(UnderHundred(k), joins, a, grouped) == Some(a.(group := a.group + k, last := LastOf(k)))
  {
    if k >= 20 && k % 10 != 0 {
      var b := a.(group := a.group + 10 * (k / 10), last := TensLast);
      assert Consume(UnderHundred(k)[1..], joins, b, grouped) == Some(a.(group := a.group + k, last := SmallLast));
    }
  }

  lemma UnderThousandConsumed(k: nat, conjunction: bool, joins: bool, a: Acc, grouped: bool)
    requires 0 < k < 1000 && a.group == 0
    requires a.last.Start? || a.last.ScaleLast? || a.last.AndLast?
    ensures Consume(UnderThousand(k, conjunction), joins, a, grouped) == Some(a.(group := k, last := LastOf(k)))
  {
    if k < 100 {
      UnderHundredConsumed(k, joins, a, grouped);
    } else {
      var h := a.(group := k / 100 * 100, last := HundredLast);
      HundredsConsumed(k / 100, a, true, grouped);
      HundredsConsumed(k / 100, a, false, grouped);
      HundredsConsumed(k / 100, a, joins, grouped);
      if k % 100 != 0 {
        var rest := UnderHundred(k % 100);
        if conjunction {
          var j := h.(last := AndLast);
          assert Consume([And], true, h, grouped) == Some(j);
          UnderHundredConsumed(k % 100, joins, j, grouped);
          ConsumeConcat([Small(k / 100), Hundred], [And], true, a, h, grouped);
          ConsumeConcat([Small(k / 100), Hundred] + [And], rest, joins, a, j, grouped);
        } else {
          UnderHundredConsumed(k % 100, joins, h, grouped);
          ConsumeConcat([Small(k / 100), Hundred], rest, joins, a, h, grouped);
          assert [Small(k / 100), Hundred] + [] == [Small(k / 100), Hundred];
        }
      }
    }
  }

  lemma HundredsConsumed(h: nat, a: Acc, joins: bool, grouped: bool)
    requires 1 <= h <= 9 && a.group == 0 && (a.last.Start? || a.last.ScaleLast? || a.last.AndLast?)
    ensures Consume([Small(h), Hundred], joins, a, grouped) == Some(a.(group := h * 100, last := HundredLast))
  {
    var b := a.(group := h, last := SmallLast);
    assert [Small(h), Hundred][1..] == [Hundred];
    assert Consume([Hundred], joins, b, grouped) == Some(a.(group := h * 100, last := HundredLast));
  }

  /** The part above a thousand. */
  lemma HighConsumed(k: nat, conjunction: bool, joins: bool, grouped: bool)
    requires 0 < k < 1000
    ensures Consume(UnderThousand(k, conjunction) + [Thousand], joins, EMPTY, grouped) == Some(Acc(k * 1000, 0, ScaleLast, true))
  {
    hide UnderThousand;
    var g := EMPTY.(group := k, last := LastOf(k));
    var a := Acc(k * 1000, 0, ScaleLast, true);
    UnderThousandConsumed(k, conjunction, false, EMPTY, grouped);
    assert Consume([Thousand][1..], joins, a, grouped) == Some(a);
    ConsumeConcat(UnderThousand(k, conjunction), [Thousand], joins, EMPTY, g, grouped);
  }

  /** Every cardinal, in every style, is consumed to its value. */
  lemma CardinalConsumed(n: nat, s: Style, joins: bool, grouped: bool) returns (b: Acc)
    requires n < 1_000_000
    ensures Consume(Cardinal(n, s), joins, EMPTY, grouped) == Some(b)
    ensures b.total + b.group == n
    ensures n % 100 != 0 || n == 0 ==> b.last.SmallLast? || b.last.TensLast?
  {
    hide Cardinal, Consume;
    if n == 0 {
      b := ZeroConsumed(s, joins, grouped);
    } else if n < 1000 {
      b := HundredsOnlyConsumed(n, s, joins, grouped);
    } else {
      b := ThousandsConsumed(n, s, joins, grouped);
    }
  }

  lemma LastOfRest(n: nat)
    ensures n % 100 != 0 ==> LastOf(n % 1000).SmallLast? || LastOf(n % 1000).TensLast?
  {
    assert n % 1000 % 100 == n % 100;
  }

  lemma ZeroConsumed(s: Style, joins: bool, grouped: bool) returns (b: Acc)
    ensures Consume(Cardinal(0, s), joins, EMPTY, grouped) == Some(b)
    ensures b.total + b.group == 0 && b.last.SmallLast?
  {
    hide Consume, Cardinal;
    b := EMPTY.(last := SmallLast);
    CardinalOfZero(s);
    FirstConsumed(Small(0), joins, EMPTY, grouped);
  }

  lemma CardinalOfZero(s: Style)
    ensures Cardinal(0, s) == [Small(0)]
  {
    hide UnderThousand;
  }

  lemma FirstConsumed(w: NumberWord, joins: bool, a: Acc, grouped: bool)
    requires w.Small? && a.last.Start?
    ensures Consume([w], joins, a, grouped) == Some(a.(group := a.group + w.value, last := SmallLast))
  {
    hide Consume, Advance;
    OneConsumed(w, joins, a, grouped);
    FirstAdvances(w, a, grouped, joins);
  }

  lemma FirstAdvances(w: NumberWord, a: Acc, grouped: bool, joins: bool)
    requires w.Small? && a.last.Start?
    ensures Advance(a, w, grouped, joins) == Took(a.(group := a.group + w.value, last := SmallLast))
  {
  }

  lemma OneConsumed(w: NumberWord, joins: bool, a: Acc, grouped: bool)
    ensures var v := Advance(a, w, grouped, joins);
            Consume([w], joins, a, grouped) == if v.Took? then Some(v.acc) else None
  {
    hide Advance;
    assert [w][1..] == [];
  }

  lemma HundredsOnlyConsumed(n: nat, s: Style, joins: bool, grouped: bool) returns (b: Acc)
    requires 0 < n < 1000
    ensures Consume(Cardinal(n, s), joins, EMPTY, grouped) == Some(b)
    ensures b.total + b.group == n
    ensures n % 100 != 0 ==> b.last.SmallLast? || b.last.TensLast?
  {
    hide UnderThousand, Consume;
    UnderThousandConsumed(n, s.unitsAnd, joins, EMPTY, grouped);
    b := EMPTY.(group := n, last := LastOf(n));
  }

  lemma ThousandsConsumed(n: nat, s: Style, joins: bool, grouped: bool) returns (b: Acc)
    requires 1000 <= n < 1_000_000
    ensures Consume(Cardinal(n, s), joins, EMPTY, grouped) == Some(b)
    ensures b.total + b.group == n
    ensures n % 100 != 0 ==> b.last.SmallLast? || b.last.TensLast?
  {
    hide UnderThousand, Consume, LastOf;
    var k, m := n / 1000, n % 1000;
    b := Acc(k * 1000, 0, ScaleLast, true);
    HighConsumed(k, s.thousandsAnd, joins, grouped);
    if m != 0 {
      HighConsumed(k, s.thousandsAnd, true, grouped);
      HighConsumed(k, s.thousandsAnd, false, grouped);
      b := LowConsumed(UnderThousand(k, s.thousandsAnd) + [Thousand], m, s, joins, b, grouped);
      LastOfRest(n);
    }
  }

  /** The part below a thousand, after the part above. */
  lemma LowConsumed(high: seq<NumberWord>, m: nat, s: Style, joins: bool, a: Acc, grouped: bool) returns (b: Acc)
    requires 0 < m < 1000 && a.group == 0 && a.last.ScaleLast?
    requires Consume(high, true, EMPTY, grouped) == Some(a) && Consume(high, false, EMPTY, grouped) == Some(a)
    ensures Consume(high + Join(s.middleAnd) + UnderThousand(m, s.unitsAnd), joins, EMPTY, grouped) == Some(b)
    ensures b == a.(group := m, last := LastOf(m))
  {
    hide UnderThousand;
    var low := UnderThousand(m, s.unitsAnd);
    b := a.(group := m, last := LastOf(m));
    if s.middleAnd {
      var j := a.(last := AndLast);
      assert Consume([And], true, a, grouped) == Some(j);
      ConsumeConcat(high, [And], true, EMPTY, a, grouped);
      UnderThousandConsumed(m, s.unitsAnd, joins, j, grouped);
      ConsumeConcat(high + [And], low, joins, EMPTY, j, grouped);
    } else {
      UnderThousandConsumed(m, s.unitsAnd, joins, a, grouped);
      ConsumeConcat(high, low, joins, EMPTY, a, grouped);
      assert high + [] == high;
    }
  }

  // --------------------------------------------------------------- main results

  /** What follows does not continue a number: no word after the next gap, or an "and" the number cannot take. */
  predicate EndsHere(after: seq<Token>, n: nat) {
    GapAt(after, 0) && WordAt(after, 1) ==> after[1].word == And && (n % 100 != 0 || n == 0)
  }

  /** The round trip: every English cardinal below a million, in every style, is read back exactly. */
  lemma CardinalRoundTrip(n: nat, s: Style, gaps: seq<string>, before: seq<Token>, after: seq<Token>, grouped: bool)
    requires n < 1_000_000 && |gaps| == |Cardinal(n, s)| - 1 && EndsHere(after, n)
    ensures var spoken := Speak(Cardinal(n, s), gaps);
            SpokenNumber(before + spoken + after, |before|, grouped) == Some((n, |before| + |spoken|))
  {
    hide Advance, Consume;
    var words := Cardinal(n, s);
    var spoken := Speak(words, gaps);
    var tokens := before + spoken + after;
    var p := |before|;
    var q := p + |spoken|;
    var b := CardinalConsumed(n, s, CountsAfter(tokens, q), grouped);
    assert tokens[p..q] == spoken;
    SpeakScans(tokens, p, words, gaps, EMPTY, b, None, grouped);
    assert tokens[q..] == after;
    if GapAt(tokens, q) {
      assert tokens[q] == after[0];
      assert WordAt(tokens, q + 1) ==> tokens[q + 1] == after[1];
      StopsAfter(tokens, q, b, grouped);
    }
  }

  lemma StopsAfter(tokens: seq<Token>, q: nat, b: Acc, grouped: bool)
    requires WordAt(tokens, q + 1) ==> tokens[q + 1].word == And && (b.last.SmallLast? || b.last.TensLast?)
    ensures Scan(tokens, q + 1, b, Some(q), grouped) == Result(b, Some(q))
  {
  }

  /** "and" after a round number is not a list separator: the next small number is absorbed. */
  lemma AndIsAbsorbed(n: nat, m: nat, s: Style, gaps: seq<string>, before: seq<Token>, after: seq<Token>, grouped: bool)
    requires 0 < n < 1_000_000 && n % 100 == 0 && 0 < m < 100
    requires |gaps| == |Cardinal(n, s) + [And] + UnderHundred(m)| - 1 && EndsHere(after, n + m)
    ensures var spoken := Speak(Cardinal(n, s) + [And] + UnderHundred(m), gaps);
            SpokenNumber(before + spoken + after, |before|, grouped) == Some((n + m, |before| + |spoken|))
  {
    hide Cardinal, SpokenNumber;
    var t := if n % 1000 == 0 then s.(middleAnd := true) else s.(unitsAnd := true);
    AndSpelled(n, m, s);
    CardinalRoundTrip(n + m, t, gaps, before, after, grouped);
  }

  lemma AndSpelled(n: nat, m: nat, s: Style)
    requires 0 < n < 1_000_000 && n % 100 == 0 && 0 < m < 100
    ensures Cardinal(n, s) + [And] + UnderHundred(m) ==
            Cardinal(n + m, if n % 1000 == 0 then s.(middleAnd := true) else s.(unitsAnd := true))
  {
    hide UnderHundred;
    var k, r := n / 1000, n % 1000;
    assert (n + m) / 1000 == k && (n + m) % 1000 == r + m;
    if r != 0 {
      HundredAndSpelled(r, m, s.unitsAnd);
    }
    UnderHundredIsUnderThousand(m);
  }

  lemma UnderHundredIsUnderThousand(m: nat)
    requires 0 < m < 100
    ensures forall c :: UnderThousand(m, c) == UnderHundred(m)
  {
  }

  lemma HundredAndSpelled(r: nat, m: nat, conjunction: bool)
    requires 0 < r < 1000 && r % 100 == 0 && 0 < m < 100
    ensures UnderThousand(r + m, true) == UnderThousand(r, conjunction) + [And] + UnderHundred(m)
  {
    assert (r + m) / 100 == r / 100 && (r + m) % 100 == m;
  }

  /** What the loop's variables can be, by the last word taken. */
  predicate InRange(a: Acc) {
    && a.total <= 999_000 && (!a.usedThousand ==> a.total == 0)
    && match a.last
       case Start => a.group == 0
       case ScaleLast => a.group == 0
       case HundredLast => a.group <= 900
       case AndLast => a.group <= 900
       case TensLast => a.group <= 990
       case SmallLast => a.group <= 1009
       case GroupedTens => a.group <= 9_990 && a.total == 0
       case GroupedSmall => a.group <= 10_009 && a.total == 0
  }

  lemma AdvanceKeepsRange(a: Acc, w: NumberWord, grouped: bool, joins: bool)
    requires InRange(a) && Advance(a, w, grouped, joins).Took?
    ensures InRange(Advance(a, w, grouped, joins).acc)
  {
  }

  lemma {:induction false} ScanInRange(tokens: seq<Token>, p: nat, a: Acc, end: Option<nat>, grouped: bool)
    requires InRange(a)
    ensures var r := Scan(tokens, p, a, end, grouped); r.Some? ==> r.value.0 <= 1_000_009
    decreases |tokens| - p
  {
    if WordAt(tokens, p) {
      var v := Advance(a, tokens[p].word, grouped, CountsAfter(tokens, p + 1));
      if v.Took? {
        AdvanceKeepsRange(a, tokens[p].word, grouped, CountsAfter(tokens, p + 1));
        if GapAt(tokens, p + 1) {
          ScanInRange(tokens, p + 2, v.acc, Some(p + 1), grouped);
        }
      }
    }
  }

  /** Every result is at most 1,000,009, in either mode. */
  lemma SpokenNumberInRange(tokens: seq<Token>, start: nat, grouped: bool)
    ensures var r := SpokenNumber(tokens, start, grouped); r.Some? ==> r.value.0 <= 1_000_009
  {
    ScanInRange(tokens, start, EMPTY, None, grouped);
  }

  /** The bound is attained: "nine hundred ninety nine thousand nine hundred ninety nineteen". */
  lemma RangeIsAttained(grouped: bool)
    ensures var words := [Small(9), Hundred, Tens(9), Small(9), Thousand, Small(9), Hundred, Tens(9), Small(19)];
            SpokenNumber(Speak(words, seq(8, i => " ")), 0, grouped) == Some((1_000_009, 17))
  {
    hide Scan, Consume, Advance, Speak;
    var words := UnderThousand(999, false) + [Thousand] + [Small(9), Hundred] + [Tens(9), Small(19)];
    var e := Acc(999_000, 1009, SmallLast, true);
    AttainingWordsConsumed(grouped);
    var gaps := seq(8, i => " ");
    var tokens := Speak(words, gaps);
    assert tokens[0..17] == tokens;
    SpeakScans(tokens, 0, words, gaps, EMPTY, e, None, grouped);
    assert words == [Small(9), Hundred, Tens(9), Small(9), Thousand, Small(9), Hundred, Tens(9), Small(19)];
  }

  lemma AttainingWordsConsumed(grouped: bool)
    ensures Consume(UnderThousand(999, false) + [Thousand] + [Small(9), Hundred] + [Tens(9), Small(19)], false, EMPTY, grouped)
            == Some(Acc(999_000, 1009, SmallLast, true))
  {
    hide UnderThousand;
    var high := UnderThousand(999, false) + [Thousand];
    var a := Acc(999_000, 0, ScaleLast, true);
    var h := Acc(999_000, 900, HundredLast, true);
    var t := Acc(999_000, 990, TensLast, true);
    HighConsumed(999, false, true, grouped);
    HundredsConsumed(9, a, true, grouped);
    ConsumeConcat(high, [Small(9), Hundred], true, EMPTY, a, grouped);
    assert [Tens(9), Small(19)][1..] == [Small(19)];
    assert Consume([Small(19)], false, t, grouped) == Some(Acc(999_000, 1009, SmallLast, true));
    ConsumeConcat(high + [Small(9), Hundred], [Tens(9), Small(19)], false, EMPTY, h, grouped);
  }

  // --------------------------------------------------------- digit-grouped mode

  /** Standard mode never leaves a grouped state behind, and what it takes grouped mode takes alike. */
  lemma {:induction false} GroupedScanExtends(tokens: seq<Token>, p: nat, a: Acc, end: Option<nat>)
    requires !a.last.GroupedTens? && !a.last.GroupedSmall?
    requires Scan(tokens, p, a, end, false).Some?
    ensures Scan(tokens, p, a, end, true) == Scan(tokens, p, a, end, false)
    decreases |tokens| - p
  {
    if WordAt(tokens, p) {
      var v := Advance(a, tokens[p].word, false, CountsAfter(tokens, p + 1));
      assert Advance(a, tokens[p].word, true, CountsAfter(tokens, p + 1)) == v;
      if v.Took? && GapAt(tokens, p + 1) {
        GroupedScanExtends(tokens, p + 2, v.acc, Some(p + 1));
      }
    }
  }

  /** Digit-grouped mode is a conservative extension. */
  lemma GroupedModeExtends(tokens: seq<Token>, start: nat)
    requires SpokenNumber(tokens, start, false).Some?
    ensures SpokenNumber(tokens, start, true) == SpokenNumber(tokens, start, false)
  {
    GroupedScanExtends(tokens, start, EMPTY, None);
  }

  /** "twelve thirty four" is 1234 when digits may be grouped, and nothing otherwise. */
  lemma GroupedPairs(ab: nat, cd: nat, gaps: seq<string>, before: seq<Token>, after: seq<Token>)
    requires 0 < ab < 100 && (ab < 20 || ab % 10 != 0) && 20 <= cd < 100
    requires |gaps| == |UnderHundred(ab) + UnderHundred(cd)| - 1
    requires GapAt(after, 0) ==> !WordAt(after, 1)
    ensures var spoken := Speak(UnderHundred(ab) + UnderHundred(cd), gaps);
            var tokens := before + spoken + after;
            && SpokenNumber(tokens, |before|, true) == Some((100 * ab + cd, |before| + |spoken|))
            && SpokenNumber(tokens, |before|, false) == None
  {
    hide Consume, Scan;
    var first, second := UnderHundred(ab), UnderHundred(cd);
    var words := first + second;
    var spoken := Speak(words, gaps);
    var tokens := before + spoken + after;
    var p, q := |before|, |before| + |spoken|;
    var joins := CountsAfter(tokens, q);
    var a := EMPTY.(group := ab, last := SmallLast);
    UnderHundredConsumed(ab, true, EMPTY, true);
    ConsumeConcat(first, second, joins, EMPTY, a, true);
    SecondPairConsumed(ab, cd, joins);
    assert tokens[p..q] == spoken;
    SpeakScans(tokens, p, words, gaps, EMPTY, GroupedAcc(ab, cd), None, true);
    assert tokens[q..] == after;
    if GapAt(tokens, q) {
      assert after[0] == tokens[q];
      assert |after| > 1 ==> after[1] == tokens[q + 1];
      StopsAfter(tokens, q, GroupedAcc(ab, cd), true);
    }
    SecondPairRefused(tokens, p, ab, cd, gaps);
  }

  function GroupedAcc(ab: nat, cd: nat): Acc {
    Acc(0, 100 * ab + cd, if cd % 10 == 0 then GroupedTens else GroupedSmall, false)
  }

  lemma SecondPairConsumed(ab: nat, cd: nat, joins: bool)
    requires 0 < ab < 100 && 20 <= cd < 100
    ensures Consume(UnderHundred(cd), joins, Acc(0, ab, SmallLast, false), true) == Some(GroupedAcc(ab, cd))
  {
    var t := Acc(0, 100 * ab + 10 * (cd / 10), GroupedTens, false);
    if cd % 10 != 0 {
      assert UnderHundred(cd)[1..] == [Small(cd % 10)];
      assert Consume([Small(cd % 10)], joins, t, true) == Some(GroupedAcc(ab, cd));
    }
  }

  lemma SecondPairRefused(tokens: seq<Token>, p: nat, ab: nat, cd: nat, gaps: seq<string>)
    requires 0 < ab < 100 && (ab < 20 || ab % 10 != 0) && 20 <= cd < 100
    requires |gaps| == |UnderHundred(ab) + UnderHundred(cd)| - 1
    requires var n := 2 * |UnderHundred(ab) + UnderHundred(cd)| - 1;
             p + n <= |tokens| && tokens[p..p + n] == Speak(UnderHundred(ab) + UnderHundred(cd), gaps)
    ensures SpokenNumber(tokens, p, false) == None
  {
    var words := UnderHundred(ab) + UnderHundred(cd);
    var spoken := Speak(words, gaps);
    assert forall i :: 0 <= i < |spoken| ==> tokens[p + i] == spoken[i];
    assert Speak(words[1..], gaps[1..])[0] == Word(words[1]);
    assert spoken[0] == Word(words[0]) && spoken[1].Gap? && spoken[2] == Word(words[1]);
    if ab < 20 {
      var a := Acc(0, ab, SmallLast, false);
      assert Scan(tokens, p, EMPTY, None, false) == Scan(tokens, p + 2, a, Some(p + 1), false);
      assert Advance(a, words[1], false, CountsAfter(tokens, p + 3)) == Bad;
    } else {
      assert Speak(words[1..][1..], gaps[1..][1..])[0] == Word(words[2]);
      assert spoken[3].Gap? && spoken[4] == Word(words[2]);
      var t := Acc(0, 10 * (ab / 10), TensLast, false);
      var a := Acc(0, ab, SmallLast, false);
      assert Scan(tokens, p, EMPTY, None, false) == Scan(tokens, p + 2, t, Some(p + 1), false);
      assert Scan(tokens, p + 2, t, Some(p + 1), false) == Scan(tokens, p + 4, a, Some(p + 3), false);
      assert Advance(a, words[2], false, CountsAfter(tokens, p + 5)) == Bad;
    }
  }
}
