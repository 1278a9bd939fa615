/**
 * The analog sampler: `readStableADC` sums 32 consecutive readings of a
 * potentiometer in a `long` and returns the truncated mean. The readings
 * themselves (and the 10 microsecond pause between them) are hardware;
 * the model takes them as a sequence.
 */
module Sampler {
  import opened Arduino

  /** Samples averaged per reading. */
  const SAMPLES := 32
  /** Largest value of the 12-bit ADC. */
  const ADC_MAX := 4095

  /** The running total the sampling loop accumulates, left to right. */
  function Sum(s: seq<int>): int
  {
    if s == [] then 0 else Sum(s[..|s| - 1]) + s[|s| - 1]
  }

  /** A full block of raw ADC readings, each within the converter's range. */
  predicate AdcBlock(s: seq<int>)
  {
    |s| == SAMPLES && forall i :: 0 <= i < |s| ==> 0 <= s[i] <= ADC_MAX
  }

  /** The value `readStableADC` returns: `sum / 32` in C++ arithmetic. */
  function Mean(s: seq<int>): int
    requires |s| == SAMPLES
  {
    TruncDiv(Sum(s), SAMPLES)
  }

  /** `readStableADC`: accumulate the 32 readings, then divide. */
  method ReadStableAdc(samples: seq<int>) returns (avg: int)
    requires |samples| == SAMPLES
    ensures avg == Mean(samples)
  {
    var sum := 0;
    var i := 0;
    while i < SAMPLES
      invariant 0 <= i <= SAMPLES
      invariant sum == Sum(samples[..i])
    {
      assert samples[..i + 1][..i] == samples[..i];
      sum := sum + samples[i];
      i := i + 1;
    }
    assert samples[..SAMPLES] == samples;
    avg := TruncDiv(sum, SAMPLES);
  }

  /** The total of readings bounded by [lo, hi] is bounded by |s| copies of each. */
  lemma {:induction false} SumBounds(s: seq<int>, lo: int, hi: int)
    requires forall i :: 0 <= i < |s| ==> lo <= s[i] <= hi
    ensures |s| * lo <= Sum(s) <= |s| * hi
  {
    if s != [] {
      var init := s[..|s| - 1];
      assert forall i :: 0 <= i < |init| ==> init[i] == s[i];
      SumBounds(init, lo, hi);
      assert |s| * lo == |init| * lo + lo;
      assert |s| * hi == |init| * hi + hi;
    }
  }

  /** The total of |s| equal readings. */
  lemma {:induction false} SumConstant(s: seq<int>, v: int)
    requires forall i :: 0 <= i < |s| ==> s[i] == v
    ensures Sum(s) == |s| * v
  {
    if s != [] {
      var init := s[..|s| - 1];
      assert forall i :: 0 <= i < |init| ==> init[i] == s[i];
      SumConstant(init, v);
      assert |s| * v == |init| * v + v;
    }
  }

  /** Averaging never leaves the converter's range. */
  lemma MeanInRange(s: seq<int>)
    requires AdcBlock(s)
    ensures 0 <= Mean(s) <= ADC_MAX
  {
    SumBounds(s, 0, ADC_MAX);
    TruncDivNonNegative(Sum(s), SAMPLES);
  }

  /** A steady input comes back unchanged, whatever its sign. */
  lemma MeanOfConstant(s: seq<int>, v: int)
    requires |s| == SAMPLES
    requires forall i :: 0 <= i < |s| ==> s[i] == v
    ensures Mean(s) == v
  {
    SumConstant(s, v);
    assert Abs(SAMPLES * v) == SAMPLES * Abs(v);
  }
}
