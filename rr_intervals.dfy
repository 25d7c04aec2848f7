/** Conversion of peak indices to inter-beat (RR) intervals in milliseconds
    (calculate_rr_intervals). */
module IntervalCalculator {

  import opened Stats

  /** The intervals between successive peaks, in milliseconds. */
  function RrIntervals(peaks: seq<nat>, fs: real): (rr: seq<real>)
    ensures |peaks| < 2 || fs <= 0.0 ==> rr == []
    ensures |peaks| >= 2 && fs > 0.0 ==> |rr| == |peaks| - 1
    ensures |peaks| >= 2 && fs > 0.0 ==>
      forall i :: 0 <= i < |rr| ==> rr[i] == (peaks[i + 1] as real - peaks[i] as real) / fs * 1000.0
  {
    if |peaks| < 2 then []
    else if fs <= 0.0 then []
    else seq(|peaks| - 1, i requires 0 <= i < |peaks| - 1 => (peaks[i + 1] as real - peaks[i] as real) / fs * 1000.0)
  }

  /** Adding one more interval extends the elapsed time to the next peak. */
  lemma ElapsedStep(p0: real, p1: real, p2: real, fs: real)
    requires fs > 0.0
    ensures (p1 - p0) / fs * 1000.0 + (p2 - p1) / fs * 1000.0 == (p2 - p0) / fs * 1000.0
  {
  }

  /** The intervals up to peak k add up to the time from the first peak to
      peak k: the peak positions are recovered from the first one and the
      intervals. */
  lemma {:induction false} IntervalsSumToElapsed(peaks: seq<nat>, fs: real, k: nat)
    requires |peaks| >= 2 && fs > 0.0 && k < |peaks|
    ensures Sum(RrIntervals(peaks, fs)[..k]) == (peaks[k] as real - peaks[0] as real) / fs * 1000.0
  {
    var rr := RrIntervals(peaks, fs);
    if k == 0 {
      assert rr[..0] == [];
    } else {
      IntervalsSumToElapsed(peaks, fs, k - 1);
      SumOfPrefix(rr, k);
      ElapsedStep(peaks[0] as real, peaks[k - 1] as real, peaks[k] as real, fs);
    }
  }

  /** Peaks at least d samples apart give intervals of at least d / fs seconds. */
  lemma SpacedPeaksBoundIntervals(peaks: seq<nat>, fs: real, d: int)
    requires |peaks| >= 2 && fs > 0.0
    requires forall i :: 0 <= i < |peaks| - 1 ==> peaks[i] + d <= peaks[i + 1]
    ensures forall i :: 0 <= i < |RrIntervals(peaks, fs)| ==>
      RrIntervals(peaks, fs)[i] >= d as real / fs * 1000.0
  {
  }

  /** Peaks 250 samples apart at 250 Hz are one second apart. */
  lemma RegularPeaksExample()
    ensures RrIntervals([100, 350, 600, 850], 250.0) == [1000.0, 1000.0, 1000.0]
  {
  }
}
