/** The numerical library routines the pipeline calls without defining them
    (Butterworth design with forward-backward filtering, median, standard
    deviation and peak finding). They are parameters of the model. */
module External {

  import opened Wrappers
  import opened Stats

  datatype Library = Library(
    /** butter(order, [low, high]) followed by filtfilt; None when it raises ValueError. */
    bandpass: (int, real, real, seq<real>) -> Option<seq<real>>,
    median: seq<real> -> real,
    std: seq<real> -> real,
    /** find_peaks(signal, height, distance), giving the peak indices. */
    findPeaks: (seq<real>, real, int) -> seq<nat>)

  /** Peak indices lie inside a signal of length n and successive ones are at least d apart. */
  predicate WellSpaced(peaks: seq<nat>, n: int, d: int)
  {
    && (forall i :: 0 <= i < |peaks| ==> peaks[i] < n)
    && (forall i :: 0 <= i < |peaks| - 1 ==> peaks[i] + d <= peaks[i + 1])
  }

  /** What the filtering library promises: the output has the input's length. */
  ghost predicate BandpassKeepsLength(lib: Library)
  {
    forall order, low, high, x :: lib.bandpass(order, low, high, x).Some? ==>
      |lib.bandpass(order, low, high, x).value| == |x|
  }

  /** What np.std computes on s: the non-negative square root of the
      population variance (Stats.Variance), the quantity whose square the
      metrics carry as SDNN squared. */
  predicate StdIsRootOfVariance(lib: Library, s: seq<real>)
    requires |s| > 0
  {
    lib.std(s) >= 0.0 && lib.std(s) * lib.std(s) == Variance(s)
  }

  /** What the peak-finding library promises about its distance argument. */
  ghost predicate FindPeaksHonoursDistance(lib: Library)
  {
    forall s, h, d :: WellSpaced(lib.findPeaks(s, h, d), |s|, d)
  }
}
