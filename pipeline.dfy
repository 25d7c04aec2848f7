/** The orchestrator (process_ecg_data): the abort decisions and the
    four-part result of filtering, peak detection, intervals and metrics. */
module Pipeline {

  import opened Wrappers
  import opened Config
  import opened External
  import opened Stats
  import opened SignalFilter
  import opened PeakDetector
  import opened IntervalCalculator
  import opened HrvMetrics

  /** Either an abort, returned as (None, None, None, {}), or all four results. */
  datatype Outcome =
    | Aborted
    | Processed(filtered: seq<real>, peaks: seq<nat>, rr: seq<real>, metrics: Metrics)

  /** No samples, or fewer than two seconds of samples that are also too few
      for the filter's edge padding (order * 3). */
  predicate Aborts(raw: seq<real>, p: Params)
    ensures |raw| == 0 ==> Aborts(raw, p)
    ensures |raw| > 0 && |raw| as real >= p.samplingRateHz * 2.0 ==> !Aborts(raw, p)
    ensures |raw| > 0 && |raw| >= p.filterOrder * 3 ==> !Aborts(raw, p)
  {
    || |raw| == 0
    || (|raw| as real < p.samplingRateHz * 2.0 && |raw| < p.filterOrder * 3)
  }

  function ProcessEcgData(raw: seq<real>, p: Params, lib: Library): (o: Outcome)
    requires |raw| > 0 ==> p.samplingRateHz != 0.0
    requires !Aborts(raw, p) && ReachesSpacing(BandpassFilter(raw, p, lib), p) ==> p.maxHrBpm != 0.0
    ensures o.Aborted? <==> Aborts(raw, p)
    ensures o.Processed? ==>
      && o.filtered == BandpassFilter(raw, p, lib)
      && o.peaks == DetectRPeaks(o.filtered, p, lib)
      && o.rr == RrIntervals(o.peaks, p.samplingRateHz)
      && o.metrics == CalculateHrvMetrics(o.rr)
    ensures o.Processed? ==> |o.rr| == if |o.peaks| < 2 then 0 else |o.peaks| - 1
    ensures o.Processed? && |o.peaks| < 2 ==> o.rr == [] && o.metrics == AllUndefined
  {
    if |raw| == 0 then Aborted
    else if |raw| as real < p.samplingRateHz * 2.0 && |raw| < p.filterOrder * 3 then Aborted
    else
      var filtered := BandpassFilter(raw, p, lib);
      var peaks := DetectRPeaks(filtered, p, lib);
      if |peaks| < 2 then
        Processed(filtered, peaks, [], CalculateHrvMetrics([]))
      else
        var rr := RrIntervals(peaks, p.samplingRateHz);
        Processed(filtered, peaks, rr, CalculateHrvMetrics(rr))
  }

  /** The metrics are defined exactly when at least three peaks were found. */
  lemma MetricsDefinedIffThreePeaks(raw: seq<real>, p: Params, lib: Library)
    requires |raw| > 0 ==> p.samplingRateHz != 0.0
    requires !Aborts(raw, p) && ReachesSpacing(BandpassFilter(raw, p, lib), p) ==> p.maxHrBpm != 0.0
    ensures var o := ProcessEcgData(raw, p, lib);
      o.Processed? ==> (o.metrics != AllUndefined <==> |o.peaks| >= 3)
    ensures var o := ProcessEcgData(raw, p, lib);
      o.Processed? && |o.peaks| >= 3 ==>
        p.samplingRateHz > 0.0 && o.metrics.sdnnSquared.Some? && o.metrics.rmssdSquared.Some?
  {
  }

  /** When the peak finder keeps its distance promise, three or more peaks
      give a defined heart rate no higher than 60 * fs / spacing beats per
      minute. */
  lemma HeartRateBoundedBySpacing(raw: seq<real>, p: Params, lib: Library)
    requires |raw| > 0 ==> p.samplingRateHz != 0.0
    requires p.maxHrBpm != 0.0
    requires FindPeaksHonoursDistance(lib)
    ensures var o := ProcessEcgData(raw, p, lib);
      o.Processed? && |o.peaks| >= 3 ==>
        && o.metrics.meanHeartRateBpm.Some?
        && o.metrics.meanHeartRateBpm.value <= 60.0 * p.samplingRateHz / MinDistanceSamples(p, |o.filtered|) as real
  {
    var o := ProcessEcgData(raw, p, lib);
    if o.Processed? && |o.peaks| >= 3 {
      assert ReachesSpacing(o.filtered, p);
      DetectedPeaksAreSpaced(o.filtered, p, lib);
      SpacedPeaksBoundHeartRate(o.peaks, p.samplingRateHz, MinDistanceSamples(p, |o.filtered|));
    }
  }

  /** Peaks at least d >= 1 samples apart give a heart rate of at most
      60 * fs / d beats per minute. */
  lemma SpacedPeaksBoundHeartRate(peaks: seq<nat>, fs: real, d: int)
    requires |peaks| >= 3 && fs > 0.0 && d >= 1
    requires forall i :: 0 <= i < |peaks| - 1 ==> peaks[i] + d <= peaks[i + 1]
    ensures var m := CalculateHrvMetrics(RrIntervals(peaks, fs));
      m.meanHeartRateBpm.Some? && m.meanHeartRateBpm.value <= 60.0 * fs / d as real
  {
    var rr := RrIntervals(peaks, fs);
    SpacedPeaksBoundIntervals(peaks, fs, d);
    var lo := SpacingInMs(d, fs);
    HeartRateWithinIntervalBounds(rr, lo, Max(rr));
  }

  /** d samples at fs hertz, in milliseconds; 60000 over it is 60 * fs / d. */
  lemma SpacingInMs(d: int, fs: real) returns (lo: real)
    requires d >= 1 && fs > 0.0
    ensures lo == d as real / fs * 1000.0
    ensures lo > 0.0 && 60000.0 / lo == 60.0 * fs / d as real
  {
    lo := d as real / fs * 1000.0;
    var q := d as real / fs;
    assert q * fs == d as real;
    assert q > 0.0;
    assert 60000.0 / lo == 60.0 / q;
  }

  /** The padding check applies only to recordings under two seconds: a
      longer recording still too short for the filter is processed, with the
      samples passed through unfiltered. */
  lemma LongRecordingIsProcessedUnfiltered(raw: seq<real>, p: Params, lib: Library)
    requires |raw| > 0 && p.samplingRateHz != 0.0
    requires |raw| as real >= p.samplingRateHz * 2.0 && |raw| < p.filterOrder * 3
    requires ReachesSpacing(raw, p) ==> p.maxHrBpm != 0.0
    ensures ProcessEcgData(raw, p, lib).Processed?
    ensures ProcessEcgData(raw, p, lib).filtered == raw
  {
  }

  /** Five samples with a third-order filter abort before any stage runs. */
  lemma TooShortForFilterAborts(raw: seq<real>, lib: Library)
    requires |raw| == 5
    ensures ProcessEcgData(raw, Default, lib) == Aborted
  {
  }

  /** An empty recording aborts. */
  lemma EmptyAborts(p: Params, lib: Library)
    ensures ProcessEcgData([], p, lib) == Aborted
  {
  }

  /** With the configured constants, a recording aborts exactly when it has
      fewer than nine samples. */
  lemma DefaultAbortThreshold(raw: seq<real>)
    ensures Aborts(raw, Default) <==> |raw| < 9
  {
  }
}
