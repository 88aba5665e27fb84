/**
  The energy classifier of the frameforge audio capture: a chunk is speech
  when its root-mean-square amplitude is strictly above the configured VAD
  threshold.  Samples are exact reals here, and since a square root is
  monotone the comparison `rms > threshold` is decided on squares:
  for a non-negative threshold T it is `mean(sample^2) > T^2`, and for a
  negative T it always holds (an RMS is never negative).
 */
module Energy {

  function Abs(x: real): real
  {
    if x < 0.0 then -x else x
  }

  /** The sum of the squares of the samples, accumulated front to back. */
  function SumSquares(s: seq<real>): (r: real)
    ensures r >= 0.0
    decreases |s|
  {
    if s == [] then 0.0 else SumSquares(s[..|s| - 1]) + s[|s| - 1] * s[|s| - 1]
  }

  /** The square of the RMS; an empty chunk has RMS 0. */
  function MeanSquare(s: seq<real>): (m: real)
    ensures m >= 0.0
    ensures s == [] ==> m == 0.0
  {
    if |s| == 0 then 0.0 else SumSquares(s) / |s| as real
  }

  /** `r` is the RMS of the chunk `s`. */
  ghost predicate IsRms(r: real, s: seq<real>)
  {
    r >= 0.0 && r * r == MeanSquare(s)
  }

  /** The classification, decided without a square root. */
  predicate IsSpeech(s: seq<real>, threshold: real)
  {
    threshold < 0.0 || MeanSquare(s) > threshold * threshold
  }

  /**
    `IsSpeech` is exactly the comparison the classifier makes: the RMS of the
    chunk strictly above the threshold (a chunk exactly at the threshold is silence).
   */
  lemma RmsComparison(s: seq<real>, rms: real, threshold: real)
    requires IsRms(rms, s)
    ensures rms > threshold <==> IsSpeech(s, threshold)
  {
    if threshold >= 0.0 {
      if rms > threshold {
        SquareStrictlyMonotone(threshold, rms);
      } else if rms < threshold {
        SquareStrictlyMonotone(rms, threshold);
      }
    }
  }

  lemma SquareStrictlyMonotone(x: real, y: real)
    requires 0.0 <= x < y
    ensures x * x < y * y
  {
    var d, e := y - x, y + x;
    assert d > 0.0 && e > 0.0;
    assert d * e > 0.0;
    assert y * y - x * x == d * e;
  }

  /**
    The accumulation loop of the RMS computation, up to the final square
    root: the mean of the squared samples, 0 for an empty chunk.
   */
  method CalculateMeanSquare(data: seq<real>) returns (m: real)
    ensures m == MeanSquare(data)
  {
    if |data| == 0 {
      return 0.0;
    }
    var sumSquares := 0.0;
    var i := 0;
    while i < |data|
      invariant 0 <= i <= |data|
      invariant sumSquares == SumSquares(data[..i])
    {
      assert data[..i + 1][..i] == data[..i];
      sumSquares := sumSquares + data[i] * data[i];
      i := i + 1;
    }
    assert data[..i] == data;
    m := sumSquares / |data| as real;
  }

  /** The classifier: speech exactly when the RMS is strictly above the threshold. */
  method ClassifyChunk(data: seq<real>, threshold: real) returns (speech: bool)
    ensures speech == IsSpeech(data, threshold)
    ensures forall rms :: IsRms(rms, data) ==> (speech <==> rms > threshold)
  {
    var meanSquare := CalculateMeanSquare(data);
    speech := threshold < 0.0 || meanSquare > threshold * threshold;
    forall rms | IsRms(rms, data) ensures speech <==> rms > threshold {
      RmsComparison(data, rms, threshold);
    }
  }

  /** A chunk of all-zero samples has no energy. */
  lemma {:induction false} SilentSumSquares(s: seq<real>)
    requires forall i :: 0 <= i < |s| ==> s[i] == 0.0
    ensures SumSquares(s) == 0.0
    decreases |s|
  {
    if s != [] {
      SilentSumSquares(s[..|s| - 1]);
    }
  }

  /** An all-zero chunk is silence for every non-negative threshold. */
  lemma SilentChunkIsSilence(s: seq<real>, threshold: real)
    requires forall i :: 0 <= i < |s| ==> s[i] == 0.0
    requires threshold >= 0.0
    ensures !IsSpeech(s, threshold)
  {
    SilentSumSquares(s);
  }

  /** The energy of a chunk of constant amplitude. */
  lemma {:induction false} ConstantSumSquares(s: seq<real>, amplitude: real)
    requires forall i :: 0 <= i < |s| ==> s[i] == amplitude
    ensures SumSquares(s) == |s| as real * (amplitude * amplitude)
    decreases |s|
  {
    if s != [] {
      ConstantSumSquares(s[..|s| - 1], amplitude);
    }
  }

  /**
    A non-empty chunk of constant amplitude A is speech exactly when |A| is
    strictly above the (non-negative) threshold.
   */
  lemma ConstantChunk(s: seq<real>, amplitude: real, threshold: real)
    requires |s| > 0
    requires forall i :: 0 <= i < |s| ==> s[i] == amplitude
    requires threshold >= 0.0
    ensures IsSpeech(s, threshold) <==> Abs(amplitude) > threshold
  {
    ConstantSumSquares(s, amplitude);
    var n := |s| as real;
    assert MeanSquare(s) == amplitude * amplitude by {
      assert SumSquares(s) / n == (n * (amplitude * amplitude)) / n;
    }
    assert IsRms(Abs(amplitude), s);
    RmsComparison(s, Abs(amplitude), threshold);
  }
}
