/** Time-domain heart-rate-variability statistics (calculate_hrv_metrics). */
module HrvMetrics {

  import opened Wrappers
  import opened Stats

  /** The five metrics; None is the undefined (not-a-number) value. SDNN and
      RMSSD are carried as their squares: SDNN_ms is the non-negative root of
      sdnnSquared and RMSSD_ms that of rmssdSquared. */
  datatype Metrics = Metrics(
    meanRrMs: Option<real>,
    sdnnSquared: Option<real>,
    rmssdSquared: Option<real>,
    pnn50Percent: Option<real>,
    meanHeartRateBpm: Option<real>)

  const AllUndefined: Metrics := Metrics(None, None, None, None, None)

  /** Successive differences larger than this (in ms) count towards NN50. */
  const NN50LimitMs: real := 50.0

  /** Number of successive differences whose magnitude exceeds 50 ms. */
  function NN50(d: seq<real>): (n: nat)
    ensures n <= |d|
  {
    if d == [] then 0
    else NN50(d[..|d| - 1]) + (if Abs(d[|d| - 1]) > NN50LimitMs then 1 else 0)
  }

  /** The positions of the differences that exceed 50 ms. */
  ghost function NN50Positions(d: seq<real>): set<int>
  {
    set i | 0 <= i < |d| && Abs(d[i]) > NN50LimitMs
  }

  /** The count is the number of positions whose difference exceeds 50 ms. */
  lemma {:induction false} NN50CountsPositions(d: seq<real>)
    ensures NN50(d) == |NN50Positions(d)|
  {
    if d != [] {
      var init := d[..|d| - 1];
      var last := |d| - 1;
      NN50CountsPositions(init);
      if Abs(d[last]) > NN50LimitMs {
        assert NN50Positions(d) == NN50Positions(init) + {last};
      } else {
        assert NN50Positions(d) == NN50Positions(init);
      }
    }
  }

  lemma {:induction false} NN50ZeroIff(d: seq<real>)
    ensures NN50(d) == 0 <==> forall i :: 0 <= i < |d| ==> Abs(d[i]) <= NN50LimitMs
  {
    if d != [] {
      var init := d[..|d| - 1];
      assert forall i :: 0 <= i < |init| ==> init[i] == d[i];
      NN50ZeroIff(init);
    }
  }

  lemma {:induction false} NN50AllIff(d: seq<real>)
    ensures NN50(d) == |d| <==> forall i :: 0 <= i < |d| ==> Abs(d[i]) > NN50LimitMs
  {
    if d != [] {
      var init := d[..|d| - 1];
      assert forall i :: 0 <= i < |init| ==> init[i] == d[i];
      NN50AllIff(init);
    }
  }

  /** Percentage of successive differences exceeding 50 ms. */
  function PNN50(d: seq<real>): (r: real)
    requires |d| > 0
    ensures 0.0 <= r <= 100.0
  {
    FractionBounds(NN50(d) as real, |d| as real);
    NN50(d) as real / |d| as real * 100.0
  }

  /** pNN50 is 0 exactly when no difference exceeds 50 ms, and 100 exactly
      when every one does. */
  lemma PNN50Extremes(d: seq<real>)
    requires |d| > 0
    ensures PNN50(d) == 0.0 <==> forall i :: 0 <= i < |d| ==> Abs(d[i]) <= NN50LimitMs
    ensures PNN50(d) == 100.0 <==> forall i :: 0 <= i < |d| ==> Abs(d[i]) > NN50LimitMs
  {
    FractionBounds(NN50(d) as real, |d| as real);
    NN50ZeroIff(d);
    NN50AllIff(d);
  }

  lemma FractionBounds(c: real, n: real)
    requires 0.0 <= c <= n && n > 0.0
    ensures 0.0 <= c / n * 100.0 <= 100.0
    ensures c / n * 100.0 == 0.0 <==> c == 0.0
    ensures c / n * 100.0 == 100.0 <==> c == n
  {
  }

  /** 60000 / mean RR, defined for a positive mean only. */
  function MeanHeartRate(meanRr: real): (hr: Option<real>)
    ensures hr.Some? <==> meanRr > 0.0
    ensures hr.Some? ==> hr.value > 0.0 && hr.value * meanRr == 60000.0
  {
    if meanRr > 0.0 then Some(60000.0 / meanRr) else None
  }

  /** The metrics of an RR series in milliseconds. */
  function CalculateHrvMetrics(rr: seq<real>): (m: Metrics)
    ensures m == AllUndefined <==> |rr| < 2
    ensures |rr| >= 2 ==>
      && m.meanRrMs == Some(Mean(rr))
      && m.sdnnSquared == Some(Variance(rr))
      && m.rmssdSquared == Some(MeanSquare(Diffs(rr)))
      && m.pnn50Percent == Some(PNN50(Diffs(rr)))
      && m.meanHeartRateBpm == MeanHeartRate(Mean(rr))
  {
    if |rr| < 2 then AllUndefined
    else
      var mean := Mean(rr);
      var diffs := Diffs(rr);
      Metrics(Some(mean), Some(Variance(rr)), Some(MeanSquare(diffs)), Some(PNN50(diffs)), MeanHeartRate(mean))
  }

  /** With at least two intervals every metric except the heart rate is
      defined; the spreads are non-negative, vanish exactly on constant
      intervals, and pNN50 is a percentage. */
  lemma MetricsWellFormed(rr: seq<real>)
    requires |rr| >= 2
    ensures var m := CalculateHrvMetrics(rr);
      && m.meanRrMs.Some? && m.sdnnSquared.Some? && m.rmssdSquared.Some? && m.pnn50Percent.Some?
      && m.sdnnSquared.value >= 0.0 && m.rmssdSquared.value >= 0.0
      && (m.sdnnSquared.value == 0.0 <==> Constant(rr))
      && (m.rmssdSquared.value == 0.0 <==> Constant(rr))
      && 0.0 <= m.pnn50Percent.value <= 100.0
      && (m.meanHeartRateBpm.Some? <==> m.meanRrMs.value > 0.0)
  {
    VarianceZeroIff(rr);
    MeanSquareDiffsZeroIff(rr);
  }

  /** Constant intervals of c ms: mean c, SDNN = RMSSD = pNN50 = 0, and the
      heart rate 60000 / c when c is positive. */
  lemma ConstantIntervalsMetrics(rr: seq<real>, c: real)
    requires |rr| >= 2
    requires forall i :: 0 <= i < |rr| ==> rr[i] == c
    ensures CalculateHrvMetrics(rr) ==
      Metrics(Some(c), Some(0.0), Some(0.0), Some(0.0), if c > 0.0 then Some(60000.0 / c) else None)
  {
    assert Constant(rr);
    MeanOfConstant(rr);
    VarianceZeroIff(rr);
    MeanSquareDiffsZeroIff(rr);
    var d := Diffs(rr);
    assert forall i :: 0 <= i < |d| ==> d[i] == 0.0;
    PNN50Extremes(d);
  }

  /** Intervals within [lo, hi] with lo > 0 give a heart rate within
      [60000 / hi, 60000 / lo]. */
  lemma HeartRateWithinIntervalBounds(rr: seq<real>, lo: real, hi: real)
    requires |rr| >= 2 && 0.0 < lo
    requires forall i :: 0 <= i < |rr| ==> lo <= rr[i] <= hi
    ensures CalculateHrvMetrics(rr).meanHeartRateBpm.Some?
    ensures 60000.0 / hi <= CalculateHrvMetrics(rr).meanHeartRateBpm.value <= 60000.0 / lo
  {
    MeanBetween(rr, lo, hi);
    var mean := Mean(rr);
    ReciprocalAntitone(lo, mean);
    ReciprocalAntitone(mean, hi);
  }

  lemma ReciprocalAntitone(a: real, b: real)
    requires 0.0 < a <= b
    ensures 60000.0 / b <= 60000.0 / a
  {
  }

  /** Intervals of 1000 ms: mean 1000 ms, no variability, 60 bpm. */
  lemma RegularRhythmExample()
    ensures CalculateHrvMetrics([1000.0, 1000.0, 1000.0]) ==
      Metrics(Some(1000.0), Some(0.0), Some(0.0), Some(0.0), Some(60.0))
  {
    ConstantIntervalsMetrics([1000.0, 1000.0, 1000.0], 1000.0);
  }

  /** No interval, or a single one, leaves every metric undefined. */
  lemma TooFewIntervalsExample(x: real)
    ensures CalculateHrvMetrics([]) == AllUndefined
    ensures CalculateHrvMetrics([x]) == AllUndefined
  {
  }
}
