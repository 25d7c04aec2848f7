/** R-peak detection (detect_r_peaks): the guards that yield no peaks, the
    adaptive height threshold and the minimum peak spacing handed to the
    library peak finder. */
module PeakDetector {

  import opened Config
  import opened External
  import opened Stats

  /** Dynamic range below which the signal counts as flat (1e-6). */
  const FlatRange: real := 0.000001

  /** The signal's range (max - min) is below 1e-6: equivalently, no two
      samples differ by 1e-6 or more. */
  predicate IsFlat(s: seq<real>)
    requires |s| > 0
    ensures IsFlat(s) <==> forall i, j :: 0 <= i < |s| && 0 <= j < |s| ==> s[i] - s[j] < FlatRange
  {
    Max(s) - Min(s) < FlatRange
  }

  /** Truncation toward zero, as Python's int() does on a float. */
  function Trunc(x: real): (n: int)
    ensures 0.0 <= x ==> n as real <= x < n as real + 1.0
    ensures x < 0.0 ==> n as real - 1.0 < x <= n as real
  {
    if x >= 0.0 then x.Floor else -((-x).Floor)
  }

  /** The spacing implied by the maximum heart rate, before clamping. */
  function RateSpacing(p: Params): int
    requires p.maxHrBpm != 0.0
  {
    Trunc(p.samplingRateHz * (60.0 / p.maxHrBpm))
  }

  /** Minimum peak distance in samples for a signal of length n: the rate
      spacing, raised to at least 1, then lowered to at most n - 1. */
  function MinDistanceSamples(p: Params, n: int): (d: int)
    requires p.maxHrBpm != 0.0
    ensures n >= 2 ==> 1 <= d <= n - 1
    ensures n <= 1 ==> d == n - 1
    ensures 1 <= RateSpacing(p) <= n - 1 ==> d == RateSpacing(p)
    ensures RateSpacing(p) < 1 && n >= 2 ==> d == 1
    ensures RateSpacing(p) > n - 1 ==> d == n - 1
  {
    var raised := if 1 > RateSpacing(p) then 1 else RateSpacing(p);
    if raised < n - 1 then raised else n - 1
  }

  /** The height threshold: median plus multiplier times standard deviation. */
  function Threshold(s: seq<real>, p: Params, lib: Library): (t: real)
    ensures p.thresholdMultiplier == 0.0 ==> t == lib.median(s)
  {
    lib.median(s) + p.thresholdMultiplier * lib.std(s)
  }

  /** Scaling a deviation by a multiplier keeps its sign. */
  lemma ScaledDeviation(m: real, sd: real)
    ensures m >= 0.0 && sd >= 0.0 ==> m * sd >= 0.0
    ensures m > 0.0 && sd > 0.0 ==> m * sd > 0.0
  {
  }

  /** With np.std's meaning, a non-negative multiplier puts the threshold at
      or above the median, strictly above it when the signal varies. */
  lemma ThresholdAboveMedian(s: seq<real>, p: Params, lib: Library)
    requires |s| > 0 && StdIsRootOfVariance(lib, s)
    ensures p.thresholdMultiplier >= 0.0 ==> Threshold(s, p, lib) >= lib.median(s)
    ensures p.thresholdMultiplier > 0.0 && !Constant(s) ==> Threshold(s, p, lib) > lib.median(s)
  {
    StdOfVaryingSignal(s, lib);
    ScaledDeviation(p.thresholdMultiplier, lib.std(s));
  }

  /** A non-constant signal has positive variance, so np.std of it is
      positive. */
  lemma StdOfVaryingSignal(s: seq<real>, lib: Library)
    ensures |s| > 0 && StdIsRootOfVariance(lib, s) && !Constant(s) ==> lib.std(s) > 0.0
  {
    if |s| > 0 && !Constant(s) {
      VarianceZeroIff(s);
    }
  }

  /** The signal passes the empty, flat and sampling-rate guards, so the
      spacing is computed. */
  predicate ReachesSpacing(s: seq<real>, p: Params)
  {
    |s| > 0 && !IsFlat(s) && p.samplingRateHz > 0.0
  }

  /** The detected peak indices. */
  function DetectRPeaks(s: seq<real>, p: Params, lib: Library): (peaks: seq<nat>)
    requires ReachesSpacing(s, p) ==> p.maxHrBpm != 0.0
    ensures |s| == 0 ==> peaks == []
    ensures |s| > 0 && IsFlat(s) ==> peaks == []
    ensures p.samplingRateHz <= 0.0 ==> peaks == []
    ensures |s| == 1 ==> peaks == []
    ensures ReachesSpacing(s, p) ==>
      && 1 <= MinDistanceSamples(p, |s|) <= |s| - 1
      && peaks == lib.findPeaks(s, Threshold(s, p, lib), MinDistanceSamples(p, |s|))
  {
    if |s| == 0 then []
    else if Max(s) - Min(s) < FlatRange then []
    else if p.samplingRateHz <= 0.0 then []
    else
      var distance := MinDistanceSamples(p, |s|);
      if distance <= 0 then []
      else lib.findPeaks(s, Threshold(s, p, lib), distance)
  }

  /** A signal that is not flat has at least two samples, so the guard on a
      non-positive spacing is never taken. */
  lemma NotFlatHasTwoSamples(s: seq<real>)
    requires |s| > 0 && !IsFlat(s)
    ensures |s| >= 2
  {
  }

  /** Under the peak finder's own promise, detected peaks lie in the signal
      and are at least the minimum distance apart. */
  lemma DetectedPeaksAreSpaced(s: seq<real>, p: Params, lib: Library)
    requires FindPeaksHonoursDistance(lib)
    requires ReachesSpacing(s, p) && p.maxHrBpm != 0.0
    ensures WellSpaced(DetectRPeaks(s, p, lib), |s|, MinDistanceSamples(p, |s|))
  {
  }

  /** At 250 Hz with a 220 bpm ceiling the spacing is 68 samples (68.18 truncated). */
  lemma DefaultMinDistance(n: int)
    requires n >= 69
    ensures MinDistanceSamples(Default, n) == 68
  {
  }

  /** A one-sample signal gets spacing 0 and no peaks. */
  lemma SingleSampleSpacing(p: Params, x: real, lib: Library)
    requires p.maxHrBpm != 0.0
    ensures MinDistanceSamples(p, 1) == 0
    ensures DetectRPeaks([x], p, lib) == []
  {
  }
}
