/** The string operations the other modules need, on ASCII text: decimal numbers, case, trimming, `rsplit`. */
module AsciiText {
  import opened Prelude

  predicate IsDigit(c: char) { '0' <= c <= '9' }

  predicate IsUpper(c: char) { 'A' <= c <= 'Z' }

  predicate IsLower(c: char) { 'a' <= c <= 'z' }

  predicate IsAlnum(c: char) { IsDigit(c) || IsUpper(c) || IsLower(c) }

  /** What `str.strip` and `str.split` take for a blank. */
  predicate IsSpace(c: char) { c == ' ' || '\t' <= c <= '\r' || ('\U{1c}' <= c <= '\U{1f}') }

  predicate All(s: string, p: char -> bool) {
    forall i :: 0 <= i < |s| ==> p(s[i])
  }

  function LowerChar(c: char): char {
    if IsUpper(c) then c - 'A' + 'a' else c
  }

  function UpperChar(c: char): char {
    if IsLower(c) then c - 'a' + 'A' else c
  }

  function Lower(s: string): (r: string)
    ensures |r| == |s|
  {
    seq(|s|, i requires 0 <= i < |s| => LowerChar(s[i]))
  }

  function Upper(s: string): (r: string)
    ensures |r| == |s|
  {
    seq(|s|, i requires 0 <= i < |s| => UpperChar(s[i]))
  }

  lemma LowerConcat(s: string, t: string)
    ensures Lower(s + t) == Lower(s) + Lower(t)
  {
  }

  /** Text without lower-case letters is told apart even ignoring case. */
  lemma LowerTellsUpperApart(s: string, t: string)
    requires (forall i :: 0 <= i < |s| ==> !IsLower(s[i])) && (forall i :: 0 <= i < |t| ==> !IsLower(t[i]))
    requires Lower(s) == Lower(t)
    ensures s == t
  {
    forall i | 0 <= i < |s| ensures s[i] == t[i] {
      assert Lower(s)[i] == Lower(t)[i];
    }
  }

  // ----------------------------------------------------------- decimal numbers

  function DigitChar(d: nat): (c: char)
    requires d < 10
    ensures IsDigit(c)
  {
    '0' + d as char
  }

  function Digits(n: nat): (s: string)
    ensures |s| > 0 && All(s, IsDigit)
  {
    if n < 10 then [DigitChar(n)] else Digits(n / 10) + [DigitChar(n % 10)]
  }

  function Number(s: string): nat
    requires All(s, IsDigit)
  {
    if s == "" then 0 else Number(s[..|s| - 1]) * 10 + (s[|s| - 1] - '0') as nat
  }

  lemma {:induction false} NumberOfDigits(n: nat)
    ensures Number(Digits(n)) == n
  {
    if n >= 10 {
      NumberOfDigits(n / 10);
      assert Digits(n)[..|Digits(n)| - 1] == Digits(n / 10);
    }
  }

  lemma LowerDigits(n: nat)
    ensures Lower(Digits(n)) == Digits(n)
  {
  }

  // ------------------------------------------------------------- taking apart

  function LastIndex(s: string, c: char): (i: int)
    ensures -1 <= i < |s|
    ensures i >= 0 ==> s[i] == c
    ensures forall k :: i < k < |s| ==> s[k] != c
  {
    if s == "" then -1
    else if s[|s| - 1] == c then |s| - 1
    else LastIndex(s[..|s| - 1], c)
  }

  function FirstIndex(s: string, c: char): (i: nat)
    ensures i <= |s|
    ensures i < |s| ==> s[i] == c
    ensures forall k :: 0 <= k < i ==> s[k] != c
  {
    if s == "" || s[0] == c then 0 else 1 + FirstIndex(s[1..], c)
  }

  /** `s.rsplit(c, 1)` unpacked in two; without `c` the unpacking raises. */
  function RSplit(s: string, c: char): Result<(string, string)> {
    var i := LastIndex(s, c);
    if i < 0 then Raise else Ok((s[..i], s[i + 1..]))
  }

  lemma RSplitJoined(head: string, c: char, tail: string)
    requires c !in tail
    ensures RSplit(head + [c] + tail, c) == Ok((head, tail))
  {
    var s := head + [c] + tail;
    var i := LastIndex(s, c);
    assert s[|head|] == c;
    assert forall k :: |head| < k < |s| ==> s[k] == tail[k - |head| - 1];
    assert s[..|head|] == head && s[|head| + 1..] == tail;
  }

  function StripLeft(s: string): (r: string)
    ensures |r| <= |s| && (r != "" ==> !IsSpace(r[0]))
  {
    if s != "" && IsSpace(s[0]) then StripLeft(s[1..]) else s
  }

  function StripRight(s: string): string {
    if s != "" && IsSpace(s[|s| - 1]) then StripRight(s[..|s| - 1]) else s
  }

  function Strip(s: string): string {
    StripRight(StripLeft(s))
  }

  predicate IsTrimmed(s: string) {
    s == "" || (!IsSpace(s[0]) && !IsSpace(s[|s| - 1]))
  }

  lemma {:induction false} StripLeftSuffix(s: string)
    ensures |StripLeft(s)| <= |s| && StripLeft(s) == s[|s| - |StripLeft(s)|..]
    ensures StripLeft(s) != "" ==> !IsSpace(StripLeft(s)[0])
  {
    if s != "" && IsSpace(s[0]) {
      StripLeftSuffix(s[1..]);
    }
  }

  lemma {:induction false} StripRightPrefix(s: string)
    ensures |StripRight(s)| <= |s| && StripRight(s) == s[..|StripRight(s)|]
    ensures StripRight(s) != "" ==> !IsSpace(StripRight(s)[|StripRight(s)| - 1])
  {
    if s != "" && IsSpace(s[|s| - 1]) {
      StripRightPrefix(s[..|s| - 1]);
    }
  }

  /** Trimming gives trimmed text, and leaves exactly the trimmed text alone. */
  lemma StripTrims(s: string)
    ensures IsTrimmed(Strip(s)) && |Strip(s)| <= |s|
    ensures Strip(s) == s <==> IsTrimmed(s)
  {
    StripLeftSuffix(s);
    StripRightPrefix(StripLeft(s));
  }

  /** The length of the leading run without blanks. */
  function Word(s: string): (w: nat)
    ensures w <= |s| && (forall i :: 0 <= i < w ==> !IsSpace(s[i])) && (w < |s| ==> IsSpace(s[w]))
  {
    if s == "" || IsSpace(s[0]) then 0 else 1 + Word(s[1..])
  }

  /** `" ".join(s.split())`. */
  function Collapse(s: string): string
    decreases |s|
  {
    var t := StripLeft(s);
    if t == "" then ""
    else
      var w := Word(t);
      var rest := Collapse(t[w..]);
      if rest == "" then t[..w] else t[..w] + [' '] + rest
  }

  /** Words with one space between them, and nothing else. */
  predicate SingleSpaced(s: string) {
    && s != "" && !IsSpace(s[0])
    && forall i :: 0 <= i < |s| && IsSpace(s[i]) ==> s[i] == ' ' && i + 1 < |s| && !IsSpace(s[i + 1])
  }

  lemma {:induction false} CollapseSpaces(s: string)
    ensures Collapse(s) == "" || SingleSpaced(Collapse(s))
    ensures Collapse(s) == "" <==> StripLeft(s) == ""
    decreases |s|
  {
    var t := StripLeft(s);
    if t != "" {
      var w := Word(t);
      CollapseSpaces(t[w..]);
      var rest := Collapse(t[w..]);
      if rest != "" {
        var r := t[..w] + [' '] + rest;
        forall i | 0 <= i < |r| && IsSpace(r[i]) ensures r[i] == ' ' && i + 1 < |r| && !IsSpace(r[i + 1]) {
          if i > w {
            assert r[i] == rest[i - w - 1];
          }
        }
      }
    }
  }

  /** Exactly the single-spaced texts are left as they are. */
  lemma {:induction false} CollapseKeeps(s: string)
    ensures s != "" ==> (Collapse(s) == s <==> SingleSpaced(s))
    decreases |s|
  {
    CollapseSpaces(s);
    if SingleSpaced(s) {
      var w := Word(s);
      if w < |s| {
        var rest := s[w + 1..];
        assert StripLeft(s[w..]) == rest by {
          assert s[w..][1..] == rest;
        }
        assert SingleSpaced(rest) by {
          forall i | 0 <= i < |rest| && IsSpace(rest[i]) ensures rest[i] == ' ' && i + 1 < |rest| && !IsSpace(rest[i + 1]) {
            assert rest[i] == s[w + 1 + i] && IsSpace(s[w + 1 + i]);
          }
        }
        CollapseKeeps(rest);
        assert s == s[..w] + [' '] + rest;
      } else {
        assert s[w..] == "" && s[..w] == s;
      }
    }
  }

  lemma StripIsEmpty(s: string)
    ensures Strip(s) == "" <==> StripLeft(s) == ""
  {
    var t := StripLeft(s);
    if t != "" {
      StripRightKeepsFirst(t);
    }
  }

  lemma {:induction false} StripRightKeepsFirst(t: string)
    requires t != "" && !IsSpace(t[0])
    ensures StripRight(t) != ""
  {
    if IsSpace(t[|t| - 1]) {
      StripRightKeepsFirst(t[..|t| - 1]);
    }
  }
}
