/** The frame loop of voice-activated capture (vad.py); the detector's verdict comes with each frame. */
module VadCapture {
  import opened Prelude

  const FRAME_MS := 80

  datatype Frame = Frame(samples: nat, speech: bool)

  /** The validated settings: all positive. */
  datatype Settings = Settings(endSilenceMs: real, maxSeconds: real, startSpeechFrames: nat) {
    predicate Valid() {
      endSilenceMs > 0.0 && maxSeconds > 0.0 && startSpeechFrames > 0
    }
  }

  datatype Outcome = Silence | MaximumDuration

  ghost predicate AllSpeech(frames: seq<Frame>, s: nat, e: nat)
    requires s <= e <= |frames|
  {
    forall i :: s <= i < e ==> frames[i].speech
  }

  /** A run of n speech frames begins at s. */
  ghost predicate RunAt(frames: seq<Frame>, n: nat, s: nat) {
    s + n <= |frames| && AllSpeech(frames, s, s + n)
  }

  ghost predicate FirstRun(frames: seq<Frame>, n: nat, s: nat) {
    RunAt(frames, n, s) && forall t: nat :: t < s ==> !RunAt(frames, n, t)
  }

  /** How many frames at the end are not speech. */
  function Trailing(frames: seq<Frame>): nat {
    if frames == [] || frames[|frames| - 1].speech then 0 else 1 + Trailing(frames[..|frames| - 1])
  }

  function Quiet(block: seq<Frame>): real {
    (Trailing(block) * FRAME_MS) as real
  }

  function Seconds(count: nat): real {
    (count * FRAME_MS) as real / 1000.0
  }

  predicate Ends(st: Settings, block: seq<Frame>) {
    Quiet(block) >= st.endSilenceMs || Seconds(|block|) >= st.maxSeconds
  }

  /** The recorded block: from the first run of speech to the first end after it. */
  ghost predicate IsBlock(st: Settings, frames: seq<Frame>, s: nat, e: nat) {
    && FirstRun(frames, st.startSpeechFrames, s)
    && s + st.startSpeechFrames <= e <= |frames|
    && Ends(st, frames[s..e])
    && forall d :: s + st.startSpeechFrames <= d < e ==> !Ends(st, frames[s..d])
  }

  /** Still waiting: the candidates are the speech frames since the last other frame. */
  ghost predicate Waiting(frames: seq<Frame>, n: nat, i: nat, candidates: seq<Frame>) {
    && |candidates| <= i <= |frames| && |candidates| < n
    && candidates == frames[i - |candidates|..i]
    && AllSpeech(frames, i - |candidates|, i)
    && (i > |candidates| ==> !frames[i - |candidates| - 1].speech)
    && (forall t: nat :: t + n <= i ==> !RunAt(frames, n, t))
  }

  /** Recording since `start`, and no earlier point was an end. */
  ghost predicate Recording(st: Settings, frames: seq<Frame>, start: nat, i: nat, written: seq<Frame>, silence: real) {
    && FirstRun(frames, st.startSpeechFrames, start) && start + st.startSpeechFrames <= i <= |frames|
    && written == frames[start..i] && silence == Quiet(written)
    && (forall d :: start + st.startSpeechFrames <= d < i ==> !Ends(st, frames[start..d]))
  }

  /**
   `capture_vad_audio` on the frames read before the stream ends or a stop is requested: what it writes is one
   block of the input, and an unfinished block is what follows the first run of speech.
  */
  method Capture(st: Settings, frames: seq<Frame>) returns (outcome: Result<Outcome>, written: seq<Frame>)
    requires st.Valid()
    ensures outcome.Ok? ==>
              exists s: nat, e: nat :: IsBlock(st, frames, s, e) && written == frames[s..e]
                                       && (outcome.value == Silence <==> Quiet(written) >= st.endSilenceMs)
    ensures outcome.Raise? ==>
              && (forall s: nat, e: nat :: !IsBlock(st, frames, s, e))
              && (written == [] || exists s: nat :: FirstRun(frames, st.startSpeechFrames, s) && written == frames[s..])
  {
    hide Waiting, Recording, IsBlock, FirstRun, Quiet;
    var n := st.startSpeechFrames;
    var hasSpeech := false;
    var candidates: seq<Frame> := [];
    var silence := 0.0;
    var captured := 0;
    ghost var start: nat := 0;
    written := [];
    WaitStarts(frames, n);
    for i := 0 to |frames|
      invariant captured == |written|
      invariant !hasSpeech ==> written == [] && Waiting(frames, n, i, candidates)
      invariant hasSpeech ==> Recording(st, frames, start, i, written, silence) && !Ends(st, written)
    {
      var frame := frames[i];
      if !hasSpeech {
        ghost var before := candidates;
        if frame.speech {
          candidates := candidates + [frame];
        } else {
          candidates := [];
        }
        WaitStep(st, frames, i, before);
        if |candidates| < n {
          continue;
        }
        start := i + 1 - n;
        hasSpeech := true;
        written := candidates;
        captured := captured + |candidates|;
        candidates := [];
        silence := 0.0;
      } else {
        RecordStep(st, frames, start, i, written, silence);
        written := written + [frame];
        captured := captured + 1;
        silence := if frame.speech then 0.0 else silence + FRAME_MS as real;
      }
      var duration := Seconds(captured);
      RecordEnds(st, frames, start, i + 1, written, silence);
      if silence >= st.endSilenceMs {
        return Ok(Silence), written;
      }
      if duration >= st.maxSeconds {
        return Ok(MaximumDuration), written;
      }
    }
    if hasSpeech {
      OneStart(st, frames, start, written, silence);
    } else {
      NoStart(st, frames, candidates);
    }
    return Raise, written;
  }

  lemma WaitStarts(frames: seq<Frame>, n: nat)
    requires n > 0
    ensures Waiting(frames, n, 0, [])
  {
  }

  lemma WaitStep(st: Settings, frames: seq<Frame>, i: nat, candidates: seq<Frame>)
    requires i < |frames| && Waiting(frames, st.startSpeechFrames, i, candidates)
    ensures var more := if frames[i].speech then candidates + [frames[i]] else [];
            if |more| < st.startSpeechFrames then Waiting(frames, st.startSpeechFrames, i + 1, more)
            else st.startSpeechFrames <= i + 1 && Recording(st, frames, i + 1 - st.startSpeechFrames, i + 1, more, 0.0) && |more| == st.startSpeechFrames
  {
    var n := st.startSpeechFrames;
    var more := if frames[i].speech then candidates + [frames[i]] else [];
    forall k | i + 1 - |more| <= k < i + 1 ensures frames[k].speech {
      assert k < i ==> i - |candidates| <= k;
    }
    assert more == frames[i + 1 - |more|..i + 1];
    if |more| < n {
      NoRunYet(frames, n, i, |more|);
    } else {
      FirstRunHere(frames, n, i);
      SpeechIsNotTrailing(more);
    }
  }

  lemma RecordStep(st: Settings, frames: seq<Frame>, start: nat, i: nat, written: seq<Frame>, silence: real)
    requires i < |frames| && Recording(st, frames, start, i, written, silence) && !Ends(st, written)
    ensures Recording(st, frames, start, i + 1, written + [frames[i]],
                      if frames[i].speech then 0.0 else silence + FRAME_MS as real)
  {
    TrailingStep(frames, start, i);
  }

  lemma RecordEnds(st: Settings, frames: seq<Frame>, start: nat, i: nat, written: seq<Frame>, silence: real)
    requires Recording(st, frames, start, i, written, silence)
    ensures start <= i <= |frames| && written == frames[start..i] && silence == Quiet(written)
    ensures Ends(st, written) ==> IsBlock(st, frames, start, i)
  {
  }

  lemma NoStart(st: Settings, frames: seq<Frame>, candidates: seq<Frame>)
    requires Waiting(frames, st.startSpeechFrames, |frames|, candidates)
    ensures forall s: nat, e: nat :: !IsBlock(st, frames, s, e)
  {
  }

  lemma NoRunYet(frames: seq<Frame>, n: nat, i: nat, k: nat)
    requires i < |frames| && k < n && k <= i + 1
    requires forall t: nat :: t + n <= i ==> !RunAt(frames, n, t)
    requires i + 1 > k ==> !frames[i - k].speech
    ensures forall t: nat :: t + n <= i + 1 ==> !RunAt(frames, n, t)
  {
    forall t: nat | t + n <= i + 1 ensures !RunAt(frames, n, t) {
      if t + n == i + 1 {
        assert t <= i - k < t + n;
      }
    }
  }

  lemma FirstRunHere(frames: seq<Frame>, n: nat, i: nat)
    requires i < |frames| && 0 < n <= i + 1 && AllSpeech(frames, i + 1 - n, i + 1)
    requires forall t: nat :: t + n <= i ==> !RunAt(frames, n, t)
    ensures FirstRun(frames, n, i + 1 - n)
  {
  }

  lemma SpeechIsNotTrailing(block: seq<Frame>)
    requires block != [] && block[|block| - 1].speech
    ensures Trailing(block) == 0
  {
  }

  lemma TrailingStep(frames: seq<Frame>, s: nat, i: nat)
    requires s <= i < |frames|
    ensures frames[s..i + 1] == frames[s..i] + [frames[i]]
    ensures Quiet(frames[s..i + 1]) == if frames[i].speech then 0.0 else Quiet(frames[s..i]) + FRAME_MS as real
  {
    assert frames[s..i + 1][..i - s] == frames[s..i];
  }

  lemma FirstRunIsOne(frames: seq<Frame>, n: nat, s: nat, t: nat)
    requires FirstRun(frames, n, s) && FirstRun(frames, n, t)
    ensures s == t
  {
    assert RunAt(frames, n, s) && RunAt(frames, n, t);
  }

  lemma OneStart(st: Settings, frames: seq<Frame>, start: nat, written: seq<Frame>, silence: real)
    requires Recording(st, frames, start, |frames|, written, silence) && !Ends(st, written)
    ensures (forall s: nat, e: nat :: !IsBlock(st, frames, s, e))
    ensures FirstRun(frames, st.startSpeechFrames, start) && written == frames[start..]
  {
    forall s: nat, e: nat ensures !IsBlock(st, frames, s, e) {
      if FirstRun(frames, st.startSpeechFrames, s) {
        FirstRunIsOne(frames, st.startSpeechFrames, s, start);
      }
    }
  }

  /** The smallest integer that is at least x. */
  function Ceiling(x: real): int {
    -((-x).Floor)
  }

  /** The block is the only one, and it is no longer than the settings allow. */
  lemma BlockIsBounded(st: Settings, frames: seq<Frame>, s: nat, e: nat, t: nat, f: nat)
    requires st.Valid() && IsBlock(st, frames, s, e)
    ensures e - s <= st.startSpeechFrames || e - s <= Ceiling(st.maxSeconds * 1000.0 / FRAME_MS as real)
    ensures IsBlock(st, frames, t, f) ==> t == s && f == e
  {
    if e - s > st.startSpeechFrames {
      assert !Ends(st, frames[s..e - 1]);
      assert Seconds(e - 1 - s) < st.maxSeconds;
    }
    if IsBlock(st, frames, t, f) {
      FirstRunIsOne(frames, st.startSpeechFrames, s, t);
    }
  }
}
