/**
  The voice-activity-detection state machine of the frameforge audio capture.

  Each delivered chunk is classified as speech or silence (the classification
  itself is an input here) and exactly one of three branches updates the four
  VAD fields: speech, silence after speech, or silence before speech.
  A run of at least `minSpeechSamples` speech samples raises `hasSpeech`;
  after that, a run of at least `silenceSamplesThreshold` silence samples
  raises `readyToProcess`.  Both flags stay up until an explicit reset.
 */
module Vad {

  /** The two sample-count thresholds fixed when the capture object is built. */
  datatype Thresholds = Thresholds(minSpeechSamples: nat, silenceSamplesThreshold: nat)

  /** The four VAD fields of the capture object. */
  datatype VadState = VadState(
    readyToProcess: bool,
    hasSpeech: bool,
    speechSampleCount: nat,
    silenceSampleCount: nat)

  /** One delivered chunk, as the VAD sees it: its classification and its sample count. */
  datatype Chunk = Chunk(speech: bool, samples: nat)

  /** The state after construction and after `reset_vad_state`. */
  const Initial: VadState := VadState(false, false, 0, 0)

  /**
    What the three branches keep true between chunks:
    ready implies speech was detected; silence is only counted once speech was
    detected; a detected utterance has reached the minimum speech length; and
    an undetected one is still below it (or nothing is pending at all).
   */
  predicate Inv(th: Thresholds, s: VadState)
  {
    && (s.readyToProcess ==> s.hasSpeech)
    && (!s.hasSpeech ==> s.silenceSampleCount == 0)
    && (s.hasSpeech ==> s.speechSampleCount >= th.minSpeechSamples)
    && (!s.hasSpeech ==> s.speechSampleCount == 0 || s.speechSampleCount < th.minSpeechSamples)
  }

  /** The VAD update for one chunk of `n` samples classified as `speech` or not. */
  function Step(th: Thresholds, s: VadState, speech: bool, n: nat): (t: VadState)
    // the flags only ever rise, and each rises exactly when its threshold is reached
    ensures t.hasSpeech <==> s.hasSpeech || (speech && t.speechSampleCount >= th.minSpeechSamples)
    ensures t.readyToProcess <==>
              s.readyToProcess || (!speech && s.hasSpeech && t.silenceSampleCount >= th.silenceSamplesThreshold)
    // speech: the speech run grows, any silence run is broken
    ensures speech ==> t.speechSampleCount == s.speechSampleCount + n && t.silenceSampleCount == 0
    // silence after speech: the silence run grows, the speech count is kept
    ensures !speech && s.hasSpeech ==>
              t.speechSampleCount == s.speechSampleCount && t.silenceSampleCount == s.silenceSampleCount + n
    // silence before speech: nothing accumulates
    ensures !speech && !s.hasSpeech ==> t.speechSampleCount == 0 && t.silenceSampleCount == 0
  {
    if speech then
      var count := s.speechSampleCount + n;
      s.(speechSampleCount := count,
         silenceSampleCount := 0,
         hasSpeech := s.hasSpeech || count >= th.minSpeechSamples)
    else if s.hasSpeech then
      var silence := s.silenceSampleCount + n;
      s.(silenceSampleCount := silence,
         readyToProcess := s.readyToProcess || silence >= th.silenceSamplesThreshold)
    else
      s.(speechSampleCount := 0, silenceSampleCount := 0)
  }

  /** The initial state satisfies the invariant. */
  lemma InitialInv(th: Thresholds)
    ensures Inv(th, Initial)
  {
  }

  /** One chunk keeps the invariant. */
  lemma StepPreservesInv(th: Thresholds, s: VadState, speech: bool, n: nat)
    requires Inv(th, s)
    ensures Inv(th, Step(th, s, speech, n))
  {
  }

  /** Within one chunk the two counters never both grow. */
  lemma StepAdvancesOneCounter(th: Thresholds, s: VadState, speech: bool, n: nat)
    ensures var t := Step(th, s, speech, n);
            !(t.speechSampleCount > s.speechSampleCount && t.silenceSampleCount > s.silenceSampleCount)
  {
  }

  /**
    With a positive minimum, the invariant makes `hasSpeech` exactly the
    statement that the speech count has reached the minimum.
   */
  lemma HasSpeechIffMinimumReached(th: Thresholds, s: VadState)
    requires Inv(th, s) && th.minSpeechSamples > 0
    ensures s.hasSpeech <==> s.speechSampleCount >= th.minSpeechSamples
  {
  }

  /** Feeding the chunks `cs` one after the other. */
  function Run(th: Thresholds, s: VadState, cs: seq<Chunk>): (t: VadState)
    ensures s.hasSpeech ==> t.hasSpeech
    ensures s.readyToProcess ==> t.readyToProcess
    ensures Inv(th, s) ==> Inv(th, t)
    decreases |cs|
  {
    if cs == [] then s
    else
      Run(th, Step(th, s, cs[0].speech, cs[0].samples), cs[1..])
  }

  /** The number of samples in a sequence of chunks. */
  function Total(cs: seq<Chunk>): nat
    decreases |cs|
  {
    if cs == [] then 0 else cs[0].samples + Total(cs[1..])
  }

  /** Every chunk of `cs` is classified as `speech` (speech when true, silence when false). */
  predicate Uniform(cs: seq<Chunk>, speech: bool)
  {
    forall i :: 0 <= i < |cs| ==> cs[i].speech == speech
  }

  predicate AllSpeech(cs: seq<Chunk>)
  {
    Uniform(cs, true)
  }

  predicate AllSilence(cs: seq<Chunk>)
  {
    Uniform(cs, false)
  }

  /** `k` copies of the chunk `c`. */
  function Repeat(c: Chunk, k: nat): (cs: seq<Chunk>)
    ensures |cs| == k
    ensures forall i :: 0 <= i < k ==> cs[i] == c
  {
    if k == 0 then [] else [c] + Repeat(c, k - 1)
  }

  lemma {:induction false} TotalRepeat(c: Chunk, k: nat)
    ensures Total(Repeat(c, k)) == k * c.samples
  {
    if k > 0 {
      assert Repeat(c, k)[1..] == Repeat(c, k - 1);
      TotalRepeat(c, k - 1);
    }
  }

  /** Feeding `a` then `b` is feeding `a + b`. */
  lemma {:induction false} RunAppend(th: Thresholds, s: VadState, a: seq<Chunk>, b: seq<Chunk>)
    ensures Run(th, s, a + b) == Run(th, Run(th, s, a), b)
    decreases |a|
  {
    if a == [] {
      assert a + b == b;
    } else {
      assert (a + b)[0] == a[0];
      assert (a + b)[1..] == a[1..] + b;
      RunAppend(th, Step(th, s, a[0].speech, a[0].samples), a[1..], b);
    }
  }

  /**
    Sustained speech: the speech count grows by the total, silence is reset,
    and `hasSpeech` is set exactly when the count reaches the minimum
    (fewer samples than the minimum never set it; the minimum itself does).
   */
  lemma {:induction false} SpeechRun(th: Thresholds, s: VadState, cs: seq<Chunk>)
    requires AllSpeech(cs)
    ensures var t := Run(th, s, cs);
            && t.speechSampleCount == s.speechSampleCount + Total(cs)
            && (cs != [] ==> t.silenceSampleCount == 0)
            && t.readyToProcess == s.readyToProcess
            && (t.hasSpeech <==> s.hasSpeech || (cs != [] && s.speechSampleCount + Total(cs) >= th.minSpeechSamples))
    decreases |cs|
  {
    if cs != [] {
      assert cs[0].speech;
      var s1 := Step(th, s, true, cs[0].samples);
      assert AllSpeech(cs[1..]) by {
        forall i | 0 <= i < |cs[1..]| ensures cs[1..][i].speech {
          assert cs[1..][i] == cs[i + 1];
        }
      }
      SpeechRun(th, s1, cs[1..]);
    }
  }

  /**
    Trailing silence after detected speech: the silence count grows by the
    total, the speech count and `hasSpeech` are kept, and `readyToProcess`
    is set exactly when the silence count reaches its threshold.
   */
  lemma {:induction false} SilenceRunAfterSpeech(th: Thresholds, s: VadState, cs: seq<Chunk>)
    requires s.hasSpeech && AllSilence(cs)
    ensures var t := Run(th, s, cs);
            && t.hasSpeech
            && t.speechSampleCount == s.speechSampleCount
            && t.silenceSampleCount == s.silenceSampleCount + Total(cs)
            && (t.readyToProcess <==>
                  s.readyToProcess || (cs != [] && s.silenceSampleCount + Total(cs) >= th.silenceSamplesThreshold))
    decreases |cs|
  {
    if cs != [] {
      assert !cs[0].speech;
      var s1 := Step(th, s, false, cs[0].samples);
      assert AllSilence(cs[1..]) by {
        forall i | 0 <= i < |cs[1..]| ensures !cs[1..][i].speech {
          assert cs[1..][i] == cs[i + 1];
        }
      }
      SilenceRunAfterSpeech(th, s1, cs[1..]);
    }
  }

  /** Leading silence before any speech accumulates nothing and raises no flag. */
  lemma {:induction false} SilenceRunBeforeSpeech(th: Thresholds, s: VadState, cs: seq<Chunk>)
    requires !s.hasSpeech && AllSilence(cs) && cs != []
    ensures Run(th, s, cs) == s.(speechSampleCount := 0, silenceSampleCount := 0)
    decreases |cs|
  {
    assert !cs[0].speech;
    var s1 := Step(th, s, false, cs[0].samples);
    if |cs| > 1 {
      assert AllSilence(cs[1..]) by {
        forall i | 0 <= i < |cs[1..]| ensures !cs[1..][i].speech {
          assert cs[1..][i] == cs[i + 1];
        }
      }
      SilenceRunBeforeSpeech(th, s1, cs[1..]);
    }
  }

  /**
    A pause shorter than the silence threshold in the middle of an utterance
    does not make it ready: the next speech chunk resets the silence count
    and keeps `hasSpeech`.
   */
  lemma MidUtterancePause(th: Thresholds, s: VadState, pause: seq<Chunk>, resume: Chunk)
    requires s.hasSpeech && !s.readyToProcess
    requires AllSilence(pause) && s.silenceSampleCount + Total(pause) < th.silenceSamplesThreshold
    requires resume.speech
    ensures var t := Run(th, s, pause + [resume]);
            && t.hasSpeech
            && !t.readyToProcess
            && t.silenceSampleCount == 0
            && t.speechSampleCount == s.speechSampleCount + resume.samples
  {
    RunAppend(th, s, pause, [resume]);
    SilenceRunAfterSpeech(th, s, pause);
  }

  lemma {:induction false} TotalAppend(a: seq<Chunk>, b: seq<Chunk>)
    ensures Total(a + b) == Total(a) + Total(b)
    decreases |a|
  {
    if a == [] {
      assert a + b == b;
    } else {
      assert (a + b)[1..] == a[1..] + b;
      TotalAppend(a[1..], b);
    }
  }

  /**
    Where the trailing block of chunks classified as `speech` begins: the
    chunks from there to the end all have that classification, and the
    chunk just before it (if any) does not.
   */
  function TrailingStart(cs: seq<Chunk>, speech: bool): (k: nat)
    ensures k <= |cs|
    ensures Uniform(cs[k..], speech)
    ensures cs != [] && cs[|cs| - 1].speech == speech ==> k < |cs|
    ensures cs != [] && cs[|cs| - 1].speech != speech ==> k == |cs|
    decreases |cs|
  {
    if cs == [] then 0
    else if cs[|cs| - 1].speech == speech then
      var k := TrailingStart(cs[..|cs| - 1], speech);
      assert cs[k..] == cs[..|cs| - 1][k..] + [cs[|cs| - 1]];
      k
    else |cs|
  }

  /**
    No contiguous non-empty block of chunks, all classified as `speech`,
    holds `bound` samples or more.
   */
  predicate NoLongBlock(cs: seq<Chunk>, speech: bool, bound: nat)
  {
    forall i, j :: 0 <= i < j <= |cs| && Uniform(cs[i..j], speech) ==> Total(cs[i..j]) < bound
  }

  lemma NoLongBlockPrefix(p: seq<Chunk>, c: Chunk, speech: bool, bound: nat)
    requires NoLongBlock(p + [c], speech, bound)
    ensures NoLongBlock(p, speech, bound)
  {
    forall i, j | 0 <= i < j <= |p| && Uniform(p[i..j], speech) ensures Total(p[i..j]) < bound {
      assert (p + [c])[i..j] == p[i..j];
    }
  }

  /** The trailing block of a sequence ending in a `speech` chunk is itself a block, so it is short. */
  lemma TrailingBlockShort(cs: seq<Chunk>, speech: bool, bound: nat)
    requires NoLongBlock(cs, speech, bound)
    requires cs != [] && cs[|cs| - 1].speech == speech
    ensures Total(cs[TrailingStart(cs, speech)..]) < bound
  {
    var k := TrailingStart(cs, speech);
    assert cs[k..|cs|] == cs[k..];
    assert Uniform(cs[k..|cs|], speech);
  }

  /** Extending a sequence by one `speech` chunk extends its trailing block by that chunk. */
  lemma TrailingExtend(p: seq<Chunk>, c: Chunk, speech: bool)
    requires c.speech == speech
    ensures TrailingStart(p + [c], speech) == TrailingStart(p, speech)
    ensures Total((p + [c])[TrailingStart(p, speech)..]) == Total(p[TrailingStart(p, speech)..]) + c.samples
  {
    var k := TrailingStart(p, speech);
    assert (p + [c])[..|p + [c]| - 1] == p;
    assert (p + [c])[k..] == p[k..] + [c];
    TotalAppend(p[k..], [c]);
    assert Total([c]) == c.samples;
  }

  /**
    No false detection: from the initial state, as long as no run of
    consecutive speech chunks reaches the minimum, speech is never
    detected, nothing is ready, and the speech count is exactly the length
    of the trailing speech run (every silence chunk resets it).
   */
  lemma {:induction false} NoSpeechWithoutLongSpeechRun(th: Thresholds, cs: seq<Chunk>)
    requires NoLongBlock(cs, true, th.minSpeechSamples)
    ensures Run(th, Initial, cs) == VadState(false, false, Total(cs[TrailingStart(cs, true)..]), 0)
    decreases |cs|
  {
    if cs != [] {
      var p, c := cs[..|cs| - 1], cs[|cs| - 1];
      assert cs == p + [c];
      NoLongBlockPrefix(p, c, true, th.minSpeechSamples);
      NoSpeechWithoutLongSpeechRun(th, p);
      RunAppend(th, Initial, p, [c]);
      if c.speech {
        TrailingExtend(p, c, true);
        TrailingBlockShort(cs, true, th.minSpeechSamples);
      }
    }
  }

  /**
    No false trigger: once speech is detected (and no silence is pending),
    as long as no run of consecutive silence chunks reaches the silence
    threshold, the utterance never becomes ready, speech stays detected,
    and the silence count is exactly the length of the trailing silence run
    (every speech chunk resets it).
   */
  lemma {:induction false} NotReadyWithoutLongSilenceRun(th: Thresholds, s: VadState, cs: seq<Chunk>)
    requires s.hasSpeech && !s.readyToProcess && s.silenceSampleCount == 0
    requires NoLongBlock(cs, false, th.silenceSamplesThreshold)
    ensures var t := Run(th, s, cs);
            && t.hasSpeech
            && !t.readyToProcess
            && t.silenceSampleCount == Total(cs[TrailingStart(cs, false)..])
    decreases |cs|
  {
    if cs != [] {
      var p, c := cs[..|cs| - 1], cs[|cs| - 1];
      assert cs == p + [c];
      NoLongBlockPrefix(p, c, false, th.silenceSamplesThreshold);
      NotReadyWithoutLongSilenceRun(th, s, p);
      RunAppend(th, s, p, [c]);
      if !c.speech {
        TrailingExtend(p, c, false);
        TrailingBlockShort(cs, false, th.silenceSamplesThreshold);
      }
    }
  }
}
