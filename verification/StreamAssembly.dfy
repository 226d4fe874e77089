/**
 Assembly of a streamed LLM answer (llm_transport.py): the chunker that hands sentences to speech, and the event
 loop that collects content and tool calls. The consumer's answers and cancellation are arbitrary.
*/
module StreamAssembly {
  import opened Prelude
  import opened AsciiText

  // ---------------------------------------------------------------------- text

  /** A text without its blanks. */
  function NonBlank(s: string): string {
    if s == "" then "" else NonBlank(s[..|s| - 1]) + if IsSpace(s[|s| - 1]) then "" else [s[|s| - 1]]
  }

  function Join(parts: seq<string>): string {
    if parts == [] then "" else Join(parts[..|parts| - 1]) + parts[|parts| - 1]
  }

  lemma {:induction false} NonBlankConcat(s: string, t: string)
    ensures NonBlank(s + t) == NonBlank(s) + NonBlank(t)
  {
    if t == "" {
      assert s + t == s;
    } else {
      assert (s + t)[..|s + t| - 1] == s + t[..|t| - 1];
      NonBlankConcat(s, t[..|t| - 1]);
    }
  }

  lemma {:induction false} NonBlankOfBlanks(s: string)
    requires All(s, IsSpace)
    ensures NonBlank(s) == ""
  {
    if s != "" {
      NonBlankOfBlanks(s[..|s| - 1]);
    }
  }

  lemma {:induction false} NonBlankStripLeft(s: string)
    ensures NonBlank(StripLeft(s)) == NonBlank(s)
  {
    if s != "" && IsSpace(s[0]) {
      NonBlankStripLeft(s[1..]);
      assert s == [s[0]] + s[1..];
      NonBlankConcat([s[0]], s[1..]);
      NonBlankOfBlanks([s[0]]);
    }
  }

  lemma {:induction false} NonBlankStripRight(s: string)
    ensures NonBlank(StripRight(s)) == NonBlank(s)
  {
    if s != "" && IsSpace(s[|s| - 1]) {
      NonBlankStripRight(s[..|s| - 1]);
    }
  }

  lemma NonBlankStrip(s: string)
    ensures NonBlank(Strip(s)) == NonBlank(s)
  {
    NonBlankStripLeft(s);
    NonBlankStripRight(StripLeft(s));
  }

  // ----------------------------------------------------------------- sentences

  predicate IsStop(c: char) { c == '.' || c == '!' || c == '?' }

  predicate IsQuote(c: char) { c == '"' || c == '\'' }

  /** The end of a sentence whose stop is at k, if blanks follow it. */
  function EndAt(s: string, k: nat): (e: Option<nat>)
    ensures e.Some? ==> k < e.value < |s| && IsSpace(s[e.value])
  {
    if k >= |s| || !IsStop(s[k]) then None
    else if k + 2 < |s| && IsQuote(s[k + 1]) && IsSpace(s[k + 2]) then Some(k + 2)
    else if k + 1 < |s| && IsSpace(s[k + 1]) then Some(k + 1)
    else None
  }

  /** The `_SENTENCE` pattern: the shortest sentence of at least one character before its stop. */
  function Sentence(s: string, k: nat): (e: Option<nat>)
    ensures e.Some? ==> k < e.value < |s| && IsSpace(s[e.value])
    decreases |s| - k
  {
    if k >= |s| then None else if EndAt(s, k).Some? then EndAt(s, k) else Sentence(s, k + 1)
  }

  function SkipBlanks(s: string, p: nat): (q: nat)
    requires p <= |s|
    ensures p <= q <= |s| && All(s[p..q], IsSpace)
    decreases |s| - p
  {
    if p < |s| && IsSpace(s[p]) then SkipBlanks(s, p + 1) else p
  }

  lemma CutKeeps(s: string, e: nat, q: nat)
    requires e <= q <= |s| && All(s[e..q], IsSpace)
    ensures NonBlank(s) == NonBlank(Strip(s[..e])) + NonBlank(s[q..])
  {
    hide NonBlank, Strip, All;
    var head, blanks, tail := s[..e], s[e..q], s[q..];
    assert s == (head + blanks) + tail;
    NonBlankConcat(head + blanks, tail);
    NonBlankConcat(head, blanks);
    NonBlankOfBlanks(blanks);
    NonBlankStrip(head);
    assert NonBlank(head) + "" == NonBlank(head);
  }

  lemma JoinStep(emitted: seq<string>, text: string)
    ensures Join(emitted + [text]) == Join(emitted) + text
  {
    assert (emitted + [text])[..|emitted|] == emitted;
  }

  /** Text in three places, without blanks. */
  function Kept(emitted: seq<string>, held: string, buffer: string): string {
    NonBlank(Join(emitted)) + NonBlank(held) + NonBlank(buffer)
  }

  lemma EmitKeeps(emitted: seq<string>, text: string)
    ensures NonBlank(Join(emitted + [text])) == NonBlank(Join(emitted)) + NonBlank(text)
  {
    JoinStep(emitted, text);
    NonBlankConcat(Join(emitted), text);
  }

  /** `_TextChunker`; `active` is whether it still has its callback. */
  class Chunker {
    var active: bool
    const emitEarly: bool
    var buffer: string
    var held: string
    ghost var emitted: seq<string>   // every text the callback was given
    ghost var fed: string            // every text fed while active
    ghost var flushed: bool

    ghost predicate Valid()
      reads this
    {
      && (active ==> Kept(emitted, held, buffer) == NonBlank(fed))
      && (active && !emitEarly && !flushed ==> emitted == [] && held == "" && buffer == fed)
      && (!active ==> buffer == "" && held == "")
      && IsTrimmed(held) && forall c :: c in emitted ==> c != "" && IsTrimmed(c)
    }

    constructor (callback: bool, early: bool)
      ensures Valid() && active == callback && emitEarly == early && emitted == [] && fed == "" && !flushed
    {
      active := callback;
      emitEarly := early;
      buffer, held, emitted, fed, flushed := "", "", [], "", false;
    }

    /** `discard`. */
    method Discard()
      modifies this
      ensures old(Valid()) ==> Valid()
      ensures !active && buffer == "" && held == "" && emitted == old(emitted) && fed == old(fed) && flushed == old(flushed)
    {
      active, buffer, held := false, "", "";
    }

    /** `_emit`: the callback may refuse, which discards everything. */
    method Emit(text: string) returns (accepted: bool)
      requires active && text != "" && IsTrimmed(text)
      modifies this
      ensures emitted == old(emitted) + [text] && fed == old(fed) && flushed == old(flushed)
      ensures accepted ==> active && buffer == old(buffer) && held == old(held)
      ensures !accepted ==> !active && buffer == "" && held == ""
    {
      emitted := emitted + [text];
      accepted := *;
      if !accepted {
        Discard();
      }
    }

    /** `feed`. */
    method Feed(text: string) returns (ok: bool)
      requires Valid() && !flushed
      modifies this
      ensures Valid() && !flushed
      ensures !old(active) ==> ok && !active && emitted == old(emitted) && fed == old(fed)
      ensures old(active) ==> (ok <==> active) && fed == old(fed) + text
      ensures !emitEarly ==> emitted == old(emitted) && ok
    {
      hide NonBlank, Strip, Join, Sentence, SkipBlanks, All, IsTrimmed, Kept;
      NothingKept();
      if !active {
        return true;
      }
      FedMore(emitted, held, buffer, text);
      NonBlankConcat(fed, text);
      buffer := buffer + text;
      fed := fed + text;
      if !emitEarly {
        return true;
      }
      while Sentence(buffer, 1).Some?
        invariant active && !flushed && fed == old(fed) + text && Kept(emitted, held, buffer) == NonBlank(fed)
        invariant IsTrimmed(held) && forall c :: c in emitted ==> c != "" && IsTrimmed(c)
        decreases |buffer|
      {
        var e := Sentence(buffer, 1).value;
        var q := SkipBlanks(buffer, e);
        var chunk := Strip(buffer[..e]);
        StripTrims(buffer[..e]);
        CutSentence(emitted, held, buffer, e, q);
        buffer := buffer[q..];
        if chunk == "" {
          continue;
        }
        if held != "" {
          var accepted := Emit(held);
          if !accepted {
            return false;
          }
        }
        held := chunk;
      }
      if held != "" && buffer != "" {
        EmitHeld(emitted, held, buffer);
        var accepted := Emit(held);
        if !accepted {
          return false;
        }
        held := "";
      }
      return true;
    }

    /** `flush`. */
    method Flush() returns (ok: bool)
      requires Valid()
      modifies this
      ensures Valid() && buffer == "" && held == "" && fed == old(fed)
      ensures !old(active) ==> !ok && !active && emitted == old(emitted)
      ensures active ==> NonBlank(Join(emitted)) == NonBlank(fed)
      ensures old(active) ==> (ok <==> active)
    {
      hide NonBlank, Strip, Join;
      NothingKept();
      flushed := true;
      if !active {
        return false;
      }
      if held != "" {
        EmitKeeps(emitted, held);
        var accepted := Emit(held);
        if !accepted {
          return false;
        }
        held := "";
      }
      var chunk := Strip(buffer);
      NonBlankStrip(buffer);
      StripTrims(buffer);
      buffer := "";
      if chunk == "" {
        return true;
      }
      EmitKeeps(emitted, chunk);
      ok := Emit(chunk);
    }
  }

  lemma NothingKept()
    ensures NonBlank("") == "" && IsTrimmed("")
  {
  }

  /** A sentence moves from the buffer to the place where it is held; what was held has been emitted. */
  lemma CutSentence(emitted: seq<string>, held: string, buffer: string, e: nat, q: nat)
    requires e <= q <= |buffer| && All(buffer[e..q], IsSpace)
    ensures var chunk := Strip(buffer[..e]);
            && (chunk == "" ==> Kept(emitted, held, buffer[q..]) == Kept(emitted, held, buffer))
            && (held == "" ==> Kept(emitted, chunk, buffer[q..]) == Kept(emitted, held, buffer))
            && Kept(emitted + [held], chunk, buffer[q..]) == Kept(emitted, held, buffer)
  {
    hide NonBlank, Strip, Join, All;
    NothingKept();
    CutKeeps(buffer, e, q);
    EmitKeeps(emitted, held);
  }

  lemma EmitHeld(emitted: seq<string>, held: string, buffer: string)
    ensures Kept(emitted + [held], "", buffer) == Kept(emitted, held, buffer)
  {
    hide NonBlank, Join;
    NothingKept();
    EmitKeeps(emitted, held);
  }

  lemma NothingFed(emitted: seq<string>, held: string, buffer: string)
    ensures Kept(emitted, held, buffer) == NonBlank("") ==> NonBlank(Join(emitted)) == NonBlank("")
  {
  }

  lemma FedMore(emitted: seq<string>, held: string, buffer: string, text: string)
    ensures Kept(emitted, held, buffer + text) == Kept(emitted, held, buffer) + NonBlank(text)
  {
    hide NonBlank, Join;
    NonBlankConcat(buffer, text);
  }

  // ------------------------------------------------------------------ messages

  /** One tool-call fragment of a delta. */
  datatype ToolDelta = ToolDelta(index: int, id: Option<string>, kind: Option<string>, name: Option<string>,
                                 arguments: Option<string>)

  datatype ToolCall = ToolCall(id: string, kind: string, name: string, arguments: string)

  datatype Delta = Delta(tools: Option<seq<ToolDelta>>, content: Option<string>)

  /** A line of the response: not data, the end mark, malformed or an error, without a delta, or with one. */
  datatype Line = Skipped | DoneMark | Broken | NoDelta | Data(delta: Delta)

  datatype Message = Message(content: Option<string>, toolCalls: seq<ToolCall>)

  function Piece(s: Option<string>): string {
    if s.Some? then s.value else ""
  }

  const NEW_CALL := ToolCall("", "function", "", "")

  /** What the fragments of one index add up to. */
  function CallOf(tools: seq<ToolDelta>, index: int): ToolCall {
    if tools == [] then NEW_CALL
    else
      var call, t := CallOf(tools[..|tools| - 1], index), tools[|tools| - 1];
      if t.index != index then call
      else ToolCall(call.id + Piece(t.id), if t.kind.Some? then t.kind.value else call.kind,
                    call.name + Piece(t.name), call.arguments + Piece(t.arguments))
  }

  function Indices(tools: seq<ToolDelta>): set<int> {
    set t | t in tools :: t.index
  }

  /** The calls the fragments name, each assembled. */
  function CallsOf(tools: seq<ToolDelta>): map<int, ToolCall> {
    map i | i in Indices(tools) :: CallOf(tools, i)
  }

  function ToolsOf(deltas: seq<Delta>): seq<ToolDelta> {
    if deltas == [] then []
    else
      var last := deltas[|deltas| - 1].tools;
      ToolsOf(deltas[..|deltas| - 1]) + if last.Some? then last.value else []
  }

  function ContentOf(deltas: seq<Delta>): string {
    if deltas == [] then "" else ContentOf(deltas[..|deltas| - 1]) + Piece(deltas[|deltas| - 1].content)
  }

  /** The arguments of a call are its own index's fragments, in order, whatever came in between. */
  function Fragments(tools: seq<ToolDelta>, index: int): seq<string> {
    if tools == [] then []
    else
      var t := tools[|tools| - 1];
      Fragments(tools[..|tools| - 1], index) + if t.index == index && t.arguments.Some? then [t.arguments.value] else []
  }

  lemma {:induction false} ArgumentsAreOwnFragments(tools: seq<ToolDelta>, index: int)
    ensures CallOf(tools, index).arguments == Join(Fragments(tools, index))
  {
    if tools != [] {
      var front, t := tools[..|tools| - 1], tools[|tools| - 1];
      ArgumentsAreOwnFragments(front, index);
      if t.index == index && t.arguments.Some? {
        JoinStep(Fragments(front, index), t.arguments.value);
      } else {
        assert Fragments(tools, index) == Fragments(front, index);
        assert CallOf(front, index).arguments + "" == CallOf(front, index).arguments;
      }
    }
  }

  function OfIndex(tools: seq<ToolDelta>, index: int): seq<ToolDelta> {
    if tools == [] then []
    else OfIndex(tools[..|tools| - 1], index) + if tools[|tools| - 1].index == index then [tools[|tools| - 1]] else []
  }

  /** Interleaving does not matter: a call is what its own fragments alone would give. */
  lemma {:induction false} InterleavingDoesNotMatter(tools: seq<ToolDelta>, index: int)
    ensures CallOf(tools, index) == CallOf(OfIndex(tools, index), index)
  {
    if tools != [] {
      var front, t := tools[..|tools| - 1], tools[|tools| - 1];
      InterleavingDoesNotMatter(front, index);
      if t.index == index {
        var own := OfIndex(front, index);
        assert (own + [t])[..|own|] == own;
      } else {
        assert OfIndex(tools, index) == OfIndex(front, index);
      }
    }
  }

  lemma CallsStep(tools: seq<ToolDelta>, t: ToolDelta)
    ensures var call := if t.index in CallsOf(tools) then CallsOf(tools)[t.index] else NEW_CALL;
            CallsOf(tools + [t]) ==
            CallsOf(tools)[t.index := ToolCall(call.id + Piece(t.id), if t.kind.Some? then t.kind.value else call.kind,
                                               call.name + Piece(t.name), call.arguments + Piece(t.arguments))]
  {
    assert (tools + [t])[..|tools|] == tools;
    assert Indices(tools + [t]) == Indices(tools) + {t.index} by {
      assert forall x :: x in tools + [t] <==> x in tools || x == t;
    }
    if t.index !in Indices(tools) {
      UnseenCall(tools, t.index);
    }
  }

  lemma {:induction false} UnseenCall(tools: seq<ToolDelta>, index: int)
    requires index !in Indices(tools)
    ensures CallOf(tools, index) == NEW_CALL
  {
    if tools != [] {
      assert tools[|tools| - 1] in tools;
      assert forall x :: x in tools[..|tools| - 1] ==> x in tools;
      UnseenCall(tools[..|tools| - 1], index);
    }
  }

  /** The deltas before the end mark. */
  function DeltasOf(lines: seq<Line>): seq<Delta> {
    if lines == [] then []
    else
      var front := DeltasOf(lines[..|lines| - 1]);
      if DoneMark in lines[..|lines| - 1] || !lines[|lines| - 1].Data? then front
      else front + [lines[|lines| - 1].delta]
  }

  /** The tool-call loop of one delta. */
  method AddTools(before: map<int, ToolCall>, ghost sofar: seq<ToolDelta>, tools: seq<ToolDelta>)
    returns (calls: map<int, ToolCall>)
    requires before == CallsOf(sofar)
    ensures calls == CallsOf(sofar + tools)
  {
    hide CallsOf;
    calls := before;
    assert sofar + tools[..0] == sofar;
    for i := 0 to |tools|
      invariant calls == CallsOf(sofar + tools[..i])
    {
      var t := tools[i];
      CallsStep(sofar + tools[..i], t);
      assert sofar + tools[..i + 1] == sofar + tools[..i] + [t];
      var call := if t.index in calls then calls[t.index] else NEW_CALL;
      calls := calls[t.index := ToolCall(call.id + Piece(t.id), if t.kind.Some? then t.kind.value else call.kind,
                                         call.name + Piece(t.name), call.arguments + Piece(t.arguments))];
    }
    assert tools[..|tools|] == tools;
  }

  /** The calls in order of their indices. */
  ghost predicate InOrder(calls: map<int, ToolCall>, keys: seq<int>, listed: seq<ToolCall>) {
    && |keys| == |listed|
    && (forall k :: k in keys <==> k in calls)
    && (forall i, j :: 0 <= i < j < |keys| ==> keys[i] < keys[j])
    && (forall i :: 0 <= i < |keys| ==> keys[i] in calls && listed[i] == calls[keys[i]])
  }

  /** `[tool_calls[index] for index in sorted(tool_calls)]`. */
  method Listed(calls: map<int, ToolCall>) returns (listed: seq<ToolCall>, ghost keys: seq<int>)
    ensures InOrder(calls, keys, listed)
  {
    listed, keys := [], [];
    var left := calls.Keys;
    while exists k :: k in left
      invariant left <= calls.Keys && |keys| == |listed|
      invariant forall k :: k in keys <==> k in calls && k !in left
      invariant forall i, j :: 0 <= i < j < |keys| ==> keys[i] < keys[j]
      invariant forall i, k :: 0 <= i < |keys| && k in left ==> keys[i] < k
      invariant forall i :: 0 <= i < |keys| ==> keys[i] in calls && listed[i] == calls[keys[i]]
      decreases |left|
    {
      LeastExists(left);
      var k :| k in left && forall j :: j in left ==> k <= j;
      listed := listed + [calls[k]];
      keys := keys + [k];
      left := left - {k};
    }
  }

  /**
   `streamed_message`. `seen` are the deltas taken in: all before the end mark unless the request is cancelled or
   the consumer refuses, and the message is made of them alone.
  */
  method StreamedMessage(lines: seq<Line>, chunker: Chunker, contentFilter: Option<string -> string>)
    returns (r: Result<Message>, ghost seen: seq<Delta>, ghost keys: seq<int>, cancelled: bool)
    requires chunker.Valid() && !chunker.flushed && chunker.emitted == [] && chunker.fed == ""
    modifies chunker
    ensures seen <= DeltasOf(lines)
    ensures r.Ok? && !cancelled ==> seen == DeltasOf(lines)
    ensures r.Ok? ==>
              var raw := ContentOf(seen);
              var text := if raw != "" && ToolsOf(seen) == [] && contentFilter.Some? then contentFilter.value(raw) else raw;
              && r.value.content == (if text == "" then None else Some(text))
              && InOrder(CallsOf(ToolsOf(seen)), keys, r.value.toolCalls)
    ensures r.Ok? && ToolsOf(seen) != [] && !chunker.emitEarly ==> chunker.emitted == []
    ensures r.Ok? && ToolsOf(seen) == [] && chunker.active && !cancelled ==>
              NonBlank(Join(chunker.emitted)) == NonBlank(ContentOf(seen))
  {
    hide CallsOf, DeltasOf, ToolsOf, ContentOf, NonBlank, Join, Kept, IsTrimmed;
    r, seen, keys, cancelled := Raise, [], [], false;
    var content := "";
    var calls: map<int, ToolCall> := map[];
    var received := false;
    var done := false;
    StreamStarts(lines);
    for i := 0 to |lines|
      invariant chunker.Valid() && !chunker.flushed && !cancelled
      invariant seen == DeltasOf(lines[..i]) && done == (DoneMark in lines[..i])
      invariant content == ContentOf(seen) && calls == CallsOf(ToolsOf(seen))
      invariant chunker.active && ToolsOf(seen) == [] ==> chunker.fed == content
      invariant ToolsOf(seen) != [] ==> !chunker.active
      invariant !chunker.emitEarly ==> chunker.emitted == []
    {
      LineStep(lines, i);
      var stop := *;
      if stop {
        cancelled := true;
        break;
      }
      if done {
        continue;
      }
      match lines[i] {
        case Broken =>
          return Raise, seen, [], false;
        case DoneMark =>
          done := true;
        case Data(delta) =>
          received := true;
          ghost var before := seen;
          DeltaStep(before, delta);
          if delta.tools.Some? {
            calls := AddTools(calls, ToolsOf(before), delta.tools.value);
            chunker.Discard();
          }
          seen := seen + [delta];
          if delta.content.Some? {
            content := content + delta.content.value;
            NoCalls(ToolsOf(seen));
            if calls == map[] {
              var ok := chunker.Feed(delta.content.value);
              if !ok {
                cancelled := true;
                break;
              }
            }
          }
        case _ =>
      }
    }
    assert lines[..|lines|] == lines;
    if !received {
      return Raise, seen, [], cancelled;
    }
    NoCalls(ToolsOf(seen));
    var answer := content;
    if answer != "" && calls == map[] {
      if contentFilter.Some? {
        answer := contentFilter.value(answer);
      }
      if !cancelled {
        var _ := chunker.Flush();
      }
    } else if chunker.active && content == "" {
      NothingFed(chunker.emitted, chunker.held, chunker.buffer);
    }
    var listed;
    listed, keys := Listed(calls);
    r := Ok(Message(if answer == "" then None else Some(answer), listed));
  }

  lemma StreamStarts(lines: seq<Line>)
    ensures DeltasOf(lines[..0]) == [] && ContentOf([]) == "" && ToolsOf([]) == [] && CallsOf([]) == map[]
  {
  }

  lemma LineStep(lines: seq<Line>, i: nat)
    requires i < |lines|
    ensures DeltasOf(lines[..i + 1]) ==
            DeltasOf(lines[..i]) + if DoneMark in lines[..i] || !lines[i].Data? then [] else [lines[i].delta]
    ensures DoneMark in lines[..i + 1] <==> DoneMark in lines[..i] || lines[i] == DoneMark
    ensures DeltasOf(lines[..i]) <= DeltasOf(lines) && DeltasOf(lines[..i + 1]) <= DeltasOf(lines)
  {
    LineUnfolds(lines, i);
    hide DeltasOf;
    DeltasArePrefix(lines, i);
    DeltasArePrefix(lines, i + 1);
  }

  lemma LineUnfolds(lines: seq<Line>, i: nat)
    requires i < |lines|
    ensures DeltasOf(lines[..i + 1]) ==
            DeltasOf(lines[..i]) + if DoneMark in lines[..i] || !lines[i].Data? then [] else [lines[i].delta]
    ensures DoneMark in lines[..i + 1] <==> DoneMark in lines[..i] || lines[i] == DoneMark
  {
    var more := lines[..i + 1];
    assert more[..i] == lines[..i] && more[i] == lines[i];
    assert more == lines[..i] + [lines[i]];
  }

  lemma {:induction false} DeltasArePrefix(lines: seq<Line>, i: nat)
    requires i <= |lines|
    ensures DeltasOf(lines[..i]) <= DeltasOf(lines)
  {
    if i < |lines| {
      DeltasArePrefix(lines[..|lines| - 1], i);
      assert lines[..|lines| - 1][..i] == lines[..i];
    } else {
      assert lines[..i] == lines;
    }
  }

  lemma DeltaStep(seen: seq<Delta>, delta: Delta)
    ensures ContentOf(seen + [delta]) == ContentOf(seen) + Piece(delta.content)
    ensures ToolsOf(seen + [delta]) == if delta.tools.Some? then ToolsOf(seen) + delta.tools.value else ToolsOf(seen)
  {
    assert (seen + [delta])[..|seen|] == seen;
  }

  lemma NoCalls(tools: seq<ToolDelta>)
    ensures CallsOf(tools) == map[] <==> tools == []
  {
    if tools != [] {
      assert tools[0].index in Indices(tools);
      assert tools[0].index in CallsOf(tools);
    }
  }
}
