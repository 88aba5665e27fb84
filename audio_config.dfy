/**
  The audio capture configuration and the two VAD sample-count thresholds the
  capture object derives from it once, at construction.
  Durations and the threshold are exact reals here.
 */
module AudioConfig {
  import Vad

  datatype Config = Config(
    sampleRate: int,
    channels: int,
    framesPerBuffer: int,
    vadThreshold: real,
    minSpeechDurationMs: real,
    silenceDurationMs: real)

  /** The default configuration: 16 kHz mono, 512-frame buffers. */
  function Default(): (c: Config)
    ensures c.sampleRate == 16000 && c.channels == 1 && c.framesPerBuffer == 512
    ensures c.vadThreshold == 0.01
    ensures c.minSpeechDurationMs == 500.0 && c.silenceDurationMs == 250.0
  {
    Config(16000, 1, 512, 0.01, 500.0, 250.0)
  }

  /** The configurations the threshold derivation is defined on. */
  predicate WellFormed(c: Config)
  {
    c.sampleRate >= 0 && c.minSpeechDurationMs >= 0.0 && c.silenceDurationMs >= 0.0
  }

  /**
    The number of samples in `durationMs` milliseconds at `sampleRate` Hz,
    truncated toward zero: the largest whole count not above the exact value.
   */
  function SamplesIn(durationMs: real, sampleRate: int): (n: nat)
    requires durationMs >= 0.0 && sampleRate >= 0
    ensures n as real <= durationMs / 1000.0 * sampleRate as real < n as real + 1.0
  {
    var exact := durationMs / 1000.0 * sampleRate as real;
    assert exact >= 0.0;
    exact.Floor
  }

  /** The thresholds a capture object built from `c` uses. */
  function ThresholdsOf(c: Config): (th: Vad.Thresholds)
    requires WellFormed(c)
    ensures th.minSpeechSamples == SamplesIn(c.minSpeechDurationMs, c.sampleRate)
    ensures th.silenceSamplesThreshold == SamplesIn(c.silenceDurationMs, c.sampleRate)
  {
    Vad.Thresholds(SamplesIn(c.minSpeechDurationMs, c.sampleRate),
                   SamplesIn(c.silenceDurationMs, c.sampleRate))
  }

  /** With the defaults: 8000 samples of speech, then 4000 samples of silence. */
  lemma DefaultThresholds()
    ensures WellFormed(Default())
    ensures ThresholdsOf(Default()) == Vad.Thresholds(8000, 4000)
  {
    var c := Default();
    assert c.minSpeechDurationMs / 1000.0 * c.sampleRate as real == 8000.0;
    assert c.silenceDurationMs / 1000.0 * c.sampleRate as real == 4000.0;
  }

  /**
    The derivation truncates, it does not round: 1.5 samples' worth of time
    gives a threshold of 1.
   */
  lemma ThresholdTruncates()
    ensures SamplesIn(0.09375, 16000) == 1
  {
    assert 0.09375 / 1000.0 * 16000 as real == 1.5;
  }
}
