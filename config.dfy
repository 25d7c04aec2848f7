/** The numeric processing constants, passed to every stage as one
    immutable record instead of being read from module globals. */
module Config {

  /** Sampling rate, band-pass corners, filter order, peak threshold
      multiplier and the heart rate that bounds the peak spacing. */
  datatype Params = Params(
    samplingRateHz: real,
    lowCutHz: real,
    highCutHz: real,
    filterOrder: int,
    thresholdMultiplier: real,
    maxHrBpm: real)

  /** The values configured in config.py. */
  const Default: Params := Params(250.0, 0.5, 40.0, 3, 0.7, 220.0)
}
