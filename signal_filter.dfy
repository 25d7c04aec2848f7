/** Zero-phase band-pass filtering of the raw samples (butter_bandpass_filter):
    the corner-frequency and length guards around the library filter. */
module SignalFilter {

  import opened Wrappers
  import opened Config
  import opened External

  function Nyquist(p: Params): real
  {
    0.5 * p.samplingRateHz
  }

  /** Low corner as a fraction of the Nyquist frequency. */
  function NormalizedLow(p: Params): real
    requires p.samplingRateHz != 0.0
  {
    p.lowCutHz / Nyquist(p)
  }

  /** High corner as a fraction of the Nyquist frequency. */
  function NormalizedHigh(p: Params): real
    requires p.samplingRateHz != 0.0
  {
    p.highCutHz / Nyquist(p)
  }

  /** Dividing by the Nyquist frequency scales each corner back to hertz. */
  lemma ScaleByNyquist(p: Params)
    requires p.samplingRateHz != 0.0
    ensures NormalizedLow(p) * Nyquist(p) == p.lowCutHz
    ensures NormalizedHigh(p) * Nyquist(p) == p.highCutHz
  {
  }

  /** The normalised corners satisfy 0 < low < high < 1. With a negative
      rate the Nyquist frequency is negative and the test accepts exactly the
      mirrored corners fs / 2 < high cut < low cut < 0. */
  predicate CornersValid(p: Params)
    requires p.samplingRateHz != 0.0
    ensures p.samplingRateHz < 0.0 ==>
      (CornersValid(p) <==> p.samplingRateHz / 2.0 < p.highCutHz < p.lowCutHz < 0.0)
  {
    ScaleByNyquist(p);
    var low, high := NormalizedLow(p), NormalizedHigh(p);
    !(low <= 0.0 || high >= 1.0 || low >= high)
  }

  /** For a positive sampling rate, the normalised condition is the
      condition on the corners in hertz: 0 < low cut < high cut < fs / 2. */
  lemma CornersValidInHertz(p: Params)
    requires p.samplingRateHz > 0.0
    ensures CornersValid(p) <==> 0.0 < p.lowCutHz < p.highCutHz < p.samplingRateHz / 2.0
  {
    ScaleByNyquist(p);
  }

  /** The filtered signal: the input itself when the corners are invalid, when
      the buffer is shorter than three times the order, or when the library
      rejects the call; otherwise the library's forward-backward output. */
  function BandpassFilter(data: seq<real>, p: Params, lib: Library): (y: seq<real>)
    requires p.samplingRateHz != 0.0
    ensures !CornersValid(p) ==> y == data
    ensures |data| < p.filterOrder * 3 ==> y == data
    ensures y == data || lib.bandpass(p.filterOrder, NormalizedLow(p), NormalizedHigh(p), data) == Some(y)
    ensures CornersValid(p) && |data| >= p.filterOrder * 3 ==>
      match lib.bandpass(p.filterOrder, NormalizedLow(p), NormalizedHigh(p), data)
      case Some(out) => y == out
      case None => y == data
    ensures BandpassKeepsLength(lib) ==> |y| == |data|
  {
    var low, high := NormalizedLow(p), NormalizedHigh(p);
    if low <= 0.0 || high >= 1.0 || low >= high then data
    else if |data| < p.filterOrder * 3 then data
    else
      match lib.bandpass(p.filterOrder, low, high, data)
      case Some(out) => out
      case None => data
  }

  /** The configured corners (0.5 Hz and 40 Hz at 250 Hz) are valid. */
  lemma DefaultCornersValid()
    ensures CornersValid(Default)
    ensures NormalizedLow(Default) == 0.004 && NormalizedHigh(Default) == 0.32
  {
  }

  /** Crossed corners (40 Hz low, 0.5 Hz high) pass the data through unchanged. */
  lemma CrossedCornersPassThrough(data: seq<real>, lib: Library)
    ensures BandpassFilter(data, Default.(lowCutHz := 40.0, highCutHz := 0.5), lib) == data
  {
  }
}
