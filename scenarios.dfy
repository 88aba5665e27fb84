/**
  Concrete runs of the voice-activity detector with the default
  configuration: 16 kHz mono, so an utterance needs 8000 speech samples and
  is complete after 4000 silence samples.
 */
module Scenarios {
  import Vad
  import AudioConfig
  import Energy

  /**
    Delivered in the default 512-frame mono chunks: 15 speech chunks
    (7680 samples) are not enough, the 16th (8192) detects speech; after
    that 7 silence chunks (3584 samples) are not enough, the 8th (4096)
    makes the utterance ready to process.
   */
  lemma DefaultChunkedUtterance()
    ensures var c := AudioConfig.Default();
            var th := AudioConfig.ThresholdsOf(c);
            var size := c.framesPerBuffer * c.channels;
            var speech := Vad.Chunk(true, size);
            var silence := Vad.Chunk(false, size);
            var detected := Vad.Run(th, Vad.Initial, Vad.Repeat(speech, 16));
            && !Vad.Run(th, Vad.Initial, Vad.Repeat(speech, 15)).hasSpeech
            && detected.hasSpeech && !detected.readyToProcess
            && !Vad.Run(th, detected, Vad.Repeat(silence, 7)).readyToProcess
            && Vad.Run(th, detected, Vad.Repeat(silence, 8)).readyToProcess
  {
    AudioConfig.DefaultThresholds();
    var th := Vad.Thresholds(8000, 4000);
    var speech := Vad.Chunk(true, 512);
    var silence := Vad.Chunk(false, 512);
    Vad.TotalRepeat(speech, 15);
    Vad.SpeechRun(th, Vad.Initial, Vad.Repeat(speech, 15));
    Vad.TotalRepeat(speech, 16);
    Vad.SpeechRun(th, Vad.Initial, Vad.Repeat(speech, 16));
    var detected := Vad.Run(th, Vad.Initial, Vad.Repeat(speech, 16));
    Vad.TotalRepeat(silence, 7);
    Vad.SilenceRunAfterSpeech(th, detected, Vad.Repeat(silence, 7));
    Vad.TotalRepeat(silence, 8);
    Vad.SilenceRunAfterSpeech(th, detected, Vad.Repeat(silence, 8));
  }

  /**
    With the default configuration, a single chunk of 8000 samples of
    amplitude 0.5 is classified as speech and detects speech without being
    ready, and a following chunk of 4000 zero samples is classified as
    silence and makes the utterance ready; one sample fewer of either is
    not enough.
   */
  lemma DefaultSingleChunkUtterance()
    ensures var c := AudioConfig.Default();
            var th := AudioConfig.ThresholdsOf(c);
            var loud: seq<real> := seq(8000, _ => 0.5);
            var quiet: seq<real> := seq(4000, _ => 0.0);
            var detected := Vad.Step(th, Vad.Initial, Energy.IsSpeech(loud, c.vadThreshold), |loud|);
            && Energy.IsSpeech(loud, c.vadThreshold) && !Energy.IsSpeech(quiet, c.vadThreshold)
            && !Vad.Step(th, Vad.Initial, Energy.IsSpeech(loud[1..], c.vadThreshold), |loud[1..]|).hasSpeech
            && detected.hasSpeech && !detected.readyToProcess
            && !Vad.Step(th, detected, Energy.IsSpeech(quiet[1..], c.vadThreshold), |quiet[1..]|).readyToProcess
            && Vad.Step(th, detected, Energy.IsSpeech(quiet, c.vadThreshold), |quiet|).readyToProcess
  {
    AudioConfig.DefaultThresholds();
    var threshold := AudioConfig.Default().vadThreshold;
    var loud: seq<real> := seq(8000, _ => 0.5);
    var quiet: seq<real> := seq(4000, _ => 0.0);
    Energy.ConstantChunk(loud, 0.5, threshold);
    Energy.ConstantChunk(loud[1..], 0.5, threshold);
    Energy.SilentChunkIsSilence(quiet, threshold);
    Energy.SilentChunkIsSilence(quiet[1..], threshold);
  }
}
