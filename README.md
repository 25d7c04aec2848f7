# ECG heart-rate-variability pipeline, modelled in Dafny

This project models the processing core of an ECG recorder (`ECG_IOT_PROJ/ecg_processing.py`):
one captured buffer of samples is band-pass filtered, R-peaks are located, the peak positions
become RR (inter-beat) intervals in milliseconds, and the intervals become five time-domain
HRV metrics (mean RR, SDNN, RMSSD, pNN50, mean heart rate). The source is pure (guard returns
plus vectorised numpy expressions), so every stage is a Dafny function with lemmas:

- `wrappers.dfy` — `Option`, standing for the not-a-number "undefined" metric value.
- `config.dfy` — `Params`, the numeric constants of `config.py` as one immutable record, and
  `Default` (250 Hz, 0.5–40 Hz, order 3, multiplier 0.7, 220 bpm).
- `external.dfy` — `Library`, the routines the core calls but does not define (`butter` +
  `filtfilt`, `np.median`, `np.std`, `find_peaks`), as function-valued parameters, plus the
  promises of those routines that some lemmas take as hypotheses.
- `stats.dfy` — the numpy reductions over exact reals: sum, mean, max, min, population
  variance, successive differences, mean of squares.
- `signal_filter.dfy`, `peak_detector.dfy`, `rr_intervals.dfy`, `hrv_metrics.dfy`,
  `pipeline.dfy` — the four stages and the orchestrator `process_ecg_data`.

Edge cases of the code that the model keeps exactly as written:

- The peak spacing is `int(fs * (60 / max_hr))`, truncated, not rounded.
- A non-positive sampling rate does not abort: peak detection and the RR computation return
  empty results, so the metrics end up undefined. A zero sampling rate raises a division by
  zero in the filter; the model turns that into a precondition.
- The "too short for the filter" abort (fewer than `order * 3` samples) is only checked for
  recordings shorter than two seconds (`LongRecordingIsProcessedUnfiltered`).
- The guard on a non-positive spacing can never fire: a signal that passes the flatness check
  has at least two samples, so the clamped spacing is at least 1 (`DetectRPeaks`,
  `NotFlatHasTwoSamples`). Likewise the `else` branches of the metrics (RMSSD and pNN50
  undefined, pNN50 = 0 for no differences) are dead once fewer than two intervals have been
  excluded; the model leaves them out and `CalculateHrvMetrics` shows both values are always
  defined in that branch.
- The tie-break between peaks of equal height inside the spacing window belongs to the peak
  finder library and is not modelled.

## Model

| member | source | states |
|---|---|---|
| `SignalFilter.CornersValidInHertz` | ECG_IOT_PROJ/ecg_processing.py:14-20 | for a positive rate, 0 < low/nyquist < high/nyquist < 1 holds exactly when 0 < low cut < high cut < fs/2 |
| `SignalFilter.CornersValid` | ECG_IOT_PROJ/ecg_processing.py:14-18 | the normalised-corner test; for a negative rate it accepts exactly fs/2 < high cut < low cut < 0 |
| `SignalFilter.BandpassFilter` | ECG_IOT_PROJ/ecg_processing.py:7-33 | invalid corners or fewer than order*3 samples return the input unchanged; otherwise the library output, or the input when the library raises; the output has the input's length whenever the library preserves length |
| `SignalFilter.DefaultCornersValid` | ECG_IOT_PROJ/config.py:13-16 | the configured corners normalise to 0.004 and 0.32 and are valid |
| `SignalFilter.CrossedCornersPassThrough` | ECG_IOT_PROJ/ecg_processing.py:18-20 | a 40 Hz low corner with a 0.5 Hz high corner passes any data through unchanged |
| `PeakDetector.IsFlat` | ECG_IOT_PROJ/ecg_processing.py:50 | the range is below 1e-6 exactly when no two samples differ by 1e-6 or more |
| `PeakDetector.Threshold` | ECG_IOT_PROJ/ecg_processing.py:44-47 | median + multiplier * std; a zero multiplier gives the median |
| `PeakDetector.ThresholdAboveMedian` | ECG_IOT_PROJ/ecg_processing.py:44-47 | when std is the root of the variance, a non-negative multiplier puts the threshold at or above the median, strictly above for a positive multiplier and a non-constant signal |
| `PeakDetector.StdOfVaryingSignal` | ECG_IOT_PROJ/ecg_processing.py:46 | when std is the root of the variance, a non-constant signal has positive std |
| `PeakDetector.Trunc` | ECG_IOT_PROJ/ecg_processing.py:60 | int() truncates toward zero: the result is within one of x, on the side of zero |
| `PeakDetector.MinDistanceSamples` | ECG_IOT_PROJ/ecg_processing.py:60-64 | spacing is the truncated rate spacing clamped to [1, n-1]; it lies in [1, n-1] for n >= 2 and is n-1 (0 for one sample) otherwise |
| `PeakDetector.DetectRPeaks` | ECG_IOT_PROJ/ecg_processing.py:35-70 | no peaks for an empty signal, a flat signal (range < 1e-6), a non-positive rate or a single sample; otherwise the spacing lies in [1, n-1] and the peaks are the library's, called with median + k*std and that spacing |
| `PeakDetector.NotFlatHasTwoSamples` | ECG_IOT_PROJ/ecg_processing.py:50-67 | a signal that is not flat has at least two samples, so the non-positive-spacing guard is unreachable |
| `PeakDetector.DetectedPeaksAreSpaced` | ECG_IOT_PROJ/ecg_processing.py:69 | under the peak finder's distance promise, detected peaks are in range and at least the spacing apart |
| `PeakDetector.DefaultMinDistance` | ECG_IOT_PROJ/ecg_processing.py:60-64 | at 250 Hz and 220 bpm the spacing is 68 samples for any signal of 69 samples or more |
| `PeakDetector.SingleSampleSpacing` | ECG_IOT_PROJ/ecg_processing.py:60-67 | a one-sample signal gets spacing 0 and no peaks |
| `Stats.Max` | ECG_IOT_PROJ/ecg_processing.py:50 | the maximum bounds every sample and is one of them |
| `Stats.Min` | ECG_IOT_PROJ/ecg_processing.py:50 | the minimum is below every sample and is one of them |
| `Stats.Mean` | ECG_IOT_PROJ/ecg_processing.py:94 | mean times length is the sum |
| `Stats.MeanBetween` | ECG_IOT_PROJ/ecg_processing.py:94 | the mean lies within any bounds that hold for all elements |
| `Stats.MeanOfConstant` | ECG_IOT_PROJ/ecg_processing.py:94 | the mean of a constant series is that constant |
| `Stats.Variance` | ECG_IOT_PROJ/ecg_processing.py:95 | the population variance (squared np.std) is non-negative |
| `Stats.VarianceZeroIff` | ECG_IOT_PROJ/ecg_processing.py:95 | the variance is zero exactly when the series is constant |
| `Stats.Diffs` | ECG_IOT_PROJ/ecg_processing.py:98 | np.diff: one element fewer, each the next element minus the current |
| `Stats.MeanSquareDiffsZeroIff` | ECG_IOT_PROJ/ecg_processing.py:98-99 | the mean squared successive difference is zero exactly when the series is constant |
| `Stats.MeanSquare` | ECG_IOT_PROJ/ecg_processing.py:99 | the mean of squares (RMSSD squared) is non-negative |
| `Stats.SumSquaresZeroIff` | ECG_IOT_PROJ/ecg_processing.py:95-99 | a sum of squares is zero exactly when every element is zero |
| `IntervalCalculator.RrIntervals` | ECG_IOT_PROJ/ecg_processing.py:72-81 | fewer than two peaks or a non-positive rate give no intervals; otherwise n-1 intervals, each the peak gap divided by fs times 1000 |
| `IntervalCalculator.IntervalsSumToElapsed` | ECG_IOT_PROJ/ecg_processing.py:76-80 | the first k intervals add up to the time from the first peak to peak k, so the intervals recover the peak positions |
| `IntervalCalculator.SpacedPeaksBoundIntervals` | ECG_IOT_PROJ/ecg_processing.py:76-80 | peaks at least d samples apart give intervals of at least d/fs*1000 ms |
| `IntervalCalculator.RegularPeaksExample` | ECG_IOT_PROJ/ecg_processing.py:80 | peaks 100, 350, 600, 850 at 250 Hz give 1000, 1000, 1000 ms |
| `HrvMetrics.NN50` | ECG_IOT_PROJ/ecg_processing.py:100 | the NN50 count never exceeds the number of differences |
| `HrvMetrics.NN50CountsPositions` | ECG_IOT_PROJ/ecg_processing.py:100 | the count equals the size of the set of positions whose difference exceeds 50 ms |
| `HrvMetrics.NN50ZeroIff` | ECG_IOT_PROJ/ecg_processing.py:100 | the count is zero exactly when no difference exceeds 50 ms |
| `HrvMetrics.NN50AllIff` | ECG_IOT_PROJ/ecg_processing.py:100 | the count is the number of differences exactly when every one exceeds 50 ms |
| `HrvMetrics.PNN50` | ECG_IOT_PROJ/ecg_processing.py:101 | pNN50 is a percentage in [0, 100] |
| `HrvMetrics.PNN50Extremes` | ECG_IOT_PROJ/ecg_processing.py:100-101 | pNN50 is 0 exactly when no difference exceeds 50 ms and 100 exactly when all do |
| `HrvMetrics.MeanHeartRate` | ECG_IOT_PROJ/ecg_processing.py:106-109 | defined exactly for a positive mean RR, and then positive with rate * mean RR = 60000 |
| `HrvMetrics.CalculateHrvMetrics` | ECG_IOT_PROJ/ecg_processing.py:83-111 | all five metrics are undefined exactly when there are fewer than two intervals; otherwise mean, population variance, mean squared successive difference, pNN50 and 60000/mean |
| `HrvMetrics.MetricsWellFormed` | ECG_IOT_PROJ/ecg_processing.py:94-109 | with two or more intervals, SDNN² and RMSSD² are defined, non-negative and zero exactly for constant intervals, pNN50 is in [0, 100], the heart rate is defined exactly for a positive mean |
| `HrvMetrics.ConstantIntervalsMetrics` | ECG_IOT_PROJ/ecg_processing.py:94-109 | constant intervals of c ms give mean c, SDNN = RMSSD = pNN50 = 0 and heart rate 60000/c when c > 0 |
| `HrvMetrics.HeartRateWithinIntervalBounds` | ECG_IOT_PROJ/ecg_processing.py:94-107 | intervals within [lo, hi], lo > 0, give a defined heart rate within [60000/hi, 60000/lo] |
| `HrvMetrics.RegularRhythmExample` | ECG_IOT_PROJ/ecg_processing.py:94-107 | 1000 ms intervals give mean 1000, SDNN = RMSSD = pNN50 = 0, 60 bpm |
| `HrvMetrics.TooFewIntervalsExample` | ECG_IOT_PROJ/ecg_processing.py:86-92 | zero or one interval leaves every metric undefined |
| `Pipeline.Aborts` | ECG_IOT_PROJ/ecg_processing.py:120-131 | an empty recording aborts; a non-empty one of at least 2*fs samples, or of at least order*3 samples, does not |
| `Pipeline.ProcessEcgData` | ECG_IOT_PROJ/ecg_processing.py:113-157 | aborts exactly on an empty recording or one shorter than 2*fs and order*3 samples; otherwise returns filter, peaks, intervals and metrics, with max(peaks-1, 0) intervals and all metrics undefined below two peaks |
| `Pipeline.MetricsDefinedIffThreePeaks` | ECG_IOT_PROJ/ecg_processing.py:142-153 | on the continue path the metrics are defined exactly when at least three peaks were found, and then the rate is positive |
| `Pipeline.HeartRateBoundedBySpacing` | ECG_IOT_PROJ/ecg_processing.py:60-69 | under the peak finder's distance promise, three or more peaks give a defined heart rate of at most 60*fs/spacing bpm |
| `Pipeline.SpacedPeaksBoundHeartRate` | ECG_IOT_PROJ/ecg_processing.py:76-107 | peaks at least d samples apart give a heart rate of at most 60*fs/d bpm |
| `Pipeline.LongRecordingIsProcessedUnfiltered` | ECG_IOT_PROJ/ecg_processing.py:127-136 | a recording of at least two seconds that is too short for the filter is processed, unfiltered |
| `Pipeline.TooShortForFilterAborts` | ECG_IOT_PROJ/ecg_processing.py:127-131 | five samples with the configured order 3 abort |
| `Pipeline.EmptyAborts` | ECG_IOT_PROJ/ecg_processing.py:120-122 | an empty recording aborts |
| `Pipeline.DefaultAbortThreshold` | ECG_IOT_PROJ/ecg_processing.py:127-131 | with the configured constants a recording aborts exactly when it has fewer than nine samples |

## Left out

- Butterworth design and forward-backward filtering (`butter`, `filtfilt`): a foreign library over floating point; the model takes them as a function of order, corners and data that may fail (the `ValueError` path).
- `find_peaks` internals (candidate search, spacing suppression, tie-break): a foreign library; the model records only the height and distance it is called with.
- `np.median` and `np.std` of the signal: library numerics; the threshold is median + multiplier * std over library-supplied values. Where a property needs the meaning of `np.std`, it is taken per signal as the hypothesis `StdIsRootOfVariance` (non-negative root of `Stats.Variance`).
- SDNN and RMSSD square roots: the metrics carry SDNN² (population variance) and RMSSD² (mean squared successive difference); the reported values are their non-negative roots.
- Floating point: all arithmetic is exact over reals, including `int(fs * (60 / max_hr))`.
- `None` inputs: a sequence in the model is never absent; the `is None` checks collapse into the empty case.
- Division by zero: a zero sampling rate (the filter's Nyquist division) and a zero maximum heart rate (the spacing division) raise in the source; they are preconditions here, stated only on the paths that reach the division.
- `print` diagnostics, and the arguments `source_identifier`, which is only printed, and `timestamps` and `duration_minutes`, which the function never uses.
- `data_aquisition.py` (serial-port reading with wall-clock timing), `main.py` (wiring) and the timestamped file names in `config.py`: I/O outside the processing core.
- BandpassFilter: length preservation is proved only under the library's own promise (`BandpassKeepsLength`), which the model cannot check.
- DetectRPeaks: the ascending order and spacing of the peaks come from the library's promise (`FindPeaksHonoursDistance`), taken as a hypothesis where used.
