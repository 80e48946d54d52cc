# Heart-rhythm analysis pipeline, modelled in Dafny

The system analyses a recorded heart sound. It normalises 16-bit PCM samples and
band-passes the signal to 20–200 Hz in the frequency domain. It then takes an
envelope (rectify and smooth) and picks peaks on it: they must reach 40 % of the
envelope's maximum (the native code demands strictly more, scipy's `find_peaks` at
least that much) and lie at least ⌊sr/4⌋ samples apart (a quarter second when 4
divides the sample rate). From the peaks it derives
RR intervals and the rate in beats per minute. Finally it flags bradycardia (< 60 BPM),
tachycardia (> 100 BPM) and irregular variability (SDNN below 20 ms or above 200 ms),
with an ordered list of alert texts.

The pipeline exists twice, and both versions are modelled:

- `native.dfy` (module `CardiacNative`) models the C++ extension
  `fft_project/cpp_module/cardiac_native.cpp`, imperatively. The in-place transforms and
  the mask loop work on an `array<Complex>`. The envelope is two nested loops. The
  peak scan pushes indices and tracks the last accepted one. The anomaly step mutates
  a `ResultadoAnalisis` object. Each method is proved equal to a specification
  function, and the properties are proved about those functions.
- `reference.dfy` (module `Reference`) models the Python class `AudioProcessor` in
  `fft_project/processing/audio_processor.py`. Its pure parts are functions and the
  loops are methods. `process_audio` is a method of the class `AudioProcessor`: it
  returns the native record when the native path is preferred, available and does
  not raise, and falls back to the reference pipeline otherwise.
- `rhythm.dfy` (module `Rhythm`) holds the rules both implementations share: band
  bins, peak spacing, RR intervals, the rate, and SDNN classification. `numeric.dfy`
  (module `Numeric`) holds sums, means, population variance, maxima and
  real-arithmetic steps.

Modelling choices:

- Arithmetic is on `real`. Sample rates are natural numbers, so `int(0.05·sr)` is
  `sr / 20` and `int(0.25·sr)` is `sr / 4`.
- SDNN is compared without a square root: `sqrt(v) < c` exactly when `v < c²`. The
  code compares the variance with `0.020²` and `0.200²`, and `SdnnThresholds` proves
  that this is the source's comparison of SDNN.
- The C++ radix-2 transform is a parameter `dft` that gives output `k` of the
  transform of a vector. `ifft` is built from it exactly as the source builds it:
  conjugate, transform, conjugate, divide by N.
- scipy's `rfft`, `irfft`, `savgol_filter` and `find_peaks` are the fields of a
  `Scipy` value. The model writes out their lengths and the conditions under which
  they raise:
  - `rfft` of nothing raises;
  - `irfft` of a single bin raises;
  - `savgol_filter` raises when the window does not exceed the order 3 or exceeds the
    signal.
- Python exceptions are a `Result`. Inside `process_audio` the reference pipeline runs
  in the `except` handler, so its own exceptions propagate.

Where the two implementations differ, each follows its own code:

- **Insufficient data.** Below two intervals, or at rate 0, the reference reports only
  "Datos Insuficientes" and raises no flag. The native code has no such branch, so a
  rate of 0 is flagged as bradycardia (`AnomaliesAgree`, `ZeroRateIsBradycardia`).
- **The alert list.** The reference list is never empty (`PyAlerts`). The native list
  can be empty (`NativeAlertsCanBeEmpty`).
- **Filter length.** For an odd length the reference filter returns one sample fewer
  than its input; the native filter keeps the length (`FilterLengthsDiverge`).
- **Smoothing window.** The native window is at least 3. The reference window is 1
  below 40 Hz, and `savgol_filter` rejects any window of 3 or less, so the reference
  pipeline raises below 80 Hz (`ReferenceAnalysisFacts`).
- **Mirrored bins.** The native mask judges every bin `i < N` by `sr·i/N`, including
  the bins above N/2. Above 400 Hz the mirror of an in-band bin is therefore zeroed
  (`MirrorBinZeroed`).

## Model

| member | source | states |
|---|---|---|
| Numeric.Rectified | fft_project/cpp_module/cardiac_native.cpp:106-108 | same length; each entry is the sample or its negation, and non-negative |
| Numeric.Max | fft_project/cpp_module/cardiac_native.cpp:146 | the result is an element of the sequence and no element exceeds it |
| Numeric.MeanBounds | fft_project/cpp_module/cardiac_native.cpp:118-134 | the mean of terms in [0, m] lies in [0, m] |
| Numeric.VarianceNonNegative | fft_project/cpp_module/cardiac_native.cpp:219-223 | the population variance is never negative, so its square root exists |
| Rhythm.BandBinBounds | fft_project/processing/audio_processor.py:100-104 | bin k of an n-point transform is in [20, 200] Hz exactly when 20·n ≤ k·sr ≤ 200·n, both bounds inclusive |
| Rhythm.BandIsContiguous | fft_project/processing/audio_processor.py:104 | the kept bins form one contiguous run |
| Rhythm.PeakDistance | fft_project/cpp_module/cardiac_native.cpp:148 | the minimum distance d is ⌊sr/4⌋: 4d ≤ sr < 4d + 4 |
| Rhythm.RRIntervals | fft_project/processing/audio_processor.py:148-156 | no intervals below two peaks, otherwise one per consecutive pair |
| Rhythm.RRTelescopes | fft_project/processing/audio_processor.py:152-156 | the intervals times the rate sum to the span from the first to the last peak |
| Rhythm.RRPositive | fft_project/processing/audio_processor.py:152-156 | strictly increasing peaks give strictly positive intervals |
| Rhythm.RRAtLeast | fft_project/cpp_module/cardiac_native.cpp:177-182 | peaks at least d samples apart give intervals of at least d/sr seconds |
| Rhythm.BpmFromSpan | fft_project/processing/audio_processor.py:158-161 | for increasing peaks the mean interval is positive and 60/mean equals 60·sr·(count − 1)/(last − first) > 0 |
| Rhythm.BpmAtMost | fft_project/cpp_module/cardiac_native.cpp:148-192 | peaks at least d > 0 apart give a mean interval ≥ d/sr and a rate ≤ 60·sr/d |
| Rhythm.SdnnThresholds | fft_project/processing/audio_processor.py:192-205 | comparing the variance with 0.020² and 0.200² flags exactly SDNN < 20 ms and SDNN > 200 ms |
| CardiacNative.Transformed | fft_project/cpp_module/cardiac_native.cpp:26-51 | the in-place transform preserves the vector's length |
| CardiacNative.InverseTransformed | fft_project/cpp_module/cardiac_native.cpp:54-61 | the inverse transform preserves the vector's length |
| CardiacNative.Fft | fft_project/cpp_module/cardiac_native.cpp:26-51 | the array is overwritten with the transform of its old contents |
| CardiacNative.Ifft | fft_project/cpp_module/cardiac_native.cpp:54-61 | the array becomes conj(fft(conj(x)))/N of its old contents |
| CardiacNative.Masked | fft_project/cpp_module/cardiac_native.cpp:79-85 | the masked spectrum has the spectrum's length |
| CardiacNative.MirrorBinZeroed | fft_project/cpp_module/cardiac_native.cpp:79-85 | above 400 Hz, the mirror bin N − k of an in-band bin k is zeroed |
| CardiacNative.MaskBand | fft_project/cpp_module/cardiac_native.cpp:79-85 | bins with sr·i/N outside [20, 200] are zeroed and all others are left as they were |
| CardiacNative.FilteredSignal | fft_project/cpp_module/cardiac_native.cpp:64-96 | the reconstruction has exactly N samples |
| CardiacNative.FiltrarFrecuencias | fft_project/cpp_module/cardiac_native.cpp:64-96 | returns N samples: the real parts of the inverse of the masked transform |
| CardiacNative.EnvelopeWindow | fft_project/cpp_module/cardiac_native.cpp:111-113 | the window is odd and at least 3, and is max(3, ⌊sr/20⌋) or one more |
| CardiacNative.WindowMeanBounds | fft_project/cpp_module/cardiac_native.cpp:119-133 | a clipped window mean of non-negative samples lies between 0 and their maximum |
| CardiacNative.Envelope | fft_project/cpp_module/cardiac_native.cpp:99-137 | the envelope has length N and each entry lies in [0, max \|x\|] |
| CardiacNative.WindowAverage | fft_project/cpp_module/cardiac_native.cpp:119-133 | the inner loop yields the mean of the in-range entries at offsets −half..half |
| CardiacNative.CalcularEnvolvente | fft_project/cpp_module/cardiac_native.cpp:99-137 | returns the windowed means of \|x\| clipped to [0, N): length N, each entry in [0, max \|x\|] |
| CardiacNative.Scan | fft_project/cpp_module/cardiac_native.cpp:150-162 | the definition of the left-to-right scan from index i with last accepted peak `last` (no contract of its own; see the lemmas below) |
| CardiacNative.ScanCandidates | fft_project/cpp_module/cardiac_native.cpp:152-162 | every index the scan accepts is an interior local maximum above the height, at or after the start |
| CardiacNative.ScanSpacing | fft_project/cpp_module/cardiac_native.cpp:150-162 | the first accepted index lies the distance after the initial last peak, and consecutive ones the distance apart |
| CardiacNative.ScanSound | fft_project/cpp_module/cardiac_native.cpp:150-162 | every accepted index is a candidate; the indices increase and lie at least the distance apart |
| CardiacNative.ScanComplete | fft_project/cpp_module/cardiac_native.cpp:150-162 | a skipped candidate lies closer than the distance to the previously accepted peak |
| CardiacNative.ScanWithoutCandidates | fft_project/cpp_module/cardiac_native.cpp:152-162 | with no candidate the scan accepts nothing |
| CardiacNative.GreedyPeaks | fft_project/cpp_module/cardiac_native.cpp:140-165 | peaks strictly increase, are ⌊sr/4⌋ apart, are all candidates, and every skipped candidate is within the distance after an accepted peak |
| CardiacNative.SilentEnvelopeHasNoPeaks | fft_project/cpp_module/cardiac_native.cpp:146-157 | an all-zero envelope yields no peaks |
| CardiacNative.DetectarPicos | fft_project/cpp_module/cardiac_native.cpp:140-165 | for a non-empty envelope, returns increasing indices in [1, N−2], ⌊sr/4⌋ apart, above 0.4·max and above both neighbours |
| CardiacNative.CalcularBpmRr | fft_project/cpp_module/cardiac_native.cpp:168-195 | (0, []) below two peaks; otherwise the RR intervals in seconds and 60 / their mean |
| CardiacNative.NativeFlags | fft_project/cpp_module/cardiac_native.cpp:198-237 | bradycardia ⇔ bpm < 60, tachycardia ⇔ bpm > 100, never both; irregularity ⇔ >1 interval and SDNN outside [20, 200] ms; the alert list is exactly the bradycardia text if flagged, then the tachycardia text if flagged, then the low- or high-variability text chosen by SDNN if irregular, so it is empty exactly when no flag is raised |
| CardiacNative.NativeAnomalies | fft_project/cpp_module/cardiac_native.cpp:198-237 | the definition of the flags and alert list `detectar_anomalias` produces from a rate and intervals (properties in NativeFlags) |
| CardiacNative.ZeroRateIsBradycardia | fft_project/cpp_module/cardiac_native.cpp:201-205 | a rate of 0 raises bradycardia as the first alert |
| CardiacNative.NativeAlertsCanBeEmpty | fft_project/cpp_module/cardiac_native.cpp:198-237 | the record built from peaks 0, 8, 17 at 10 Hz (intervals 0.8 s and 0.9 s, rate 1200/17 ≈ 70.6 BPM, SDNN 50 ms) carries no alert at all |
| CardiacNative.ResultadoAnalisis.constructor | fft_project/cpp_module/cardiac_native.cpp:244-248 | the record starts with rate 0, all flags false and empty lists |
| CardiacNative.DetectarAnomalias | fft_project/cpp_module/cardiac_native.cpp:198-237 | sets, never clears, the flags; appends the alerts; leaves the rate, count and intervals unchanged |
| CardiacNative.PopulationVariance | fft_project/cpp_module/cardiac_native.cpp:214-223 | the two accumulation loops compute the population variance |
| CardiacNative.NativeRate | fft_project/cpp_module/cardiac_native.cpp:168-195 | the definition of the rate `calcular_bpm_rr` returns for increasing peaks: 0 below two peaks, else 60 / mean interval |
| CardiacNative.AnalysisOfPeaks | fft_project/cpp_module/cardiac_native.cpp:257-266 | the definition of the record built from a peak list: count, rate, intervals and anomalies (properties in AnalysisOfPeaksFacts) |
| CardiacNative.NativeAnalysis | fft_project/cpp_module/cardiac_native.cpp:240-269 | the definition of the whole native pipeline: filter, envelope, greedy peaks, then the record of those peaks (properties in NativeAnalysisFacts) |
| CardiacNative.AnalysisOfPeaksFacts | fft_project/cpp_module/cardiac_native.cpp:257-263 | count = number of peaks; below two peaks rate 0, no intervals, bradycardia; otherwise n − 1 intervals, each positive and at least ⌊sr/4⌋/sr seconds (¼ s when 4 divides sr), rate positive and ≤ 60·sr/⌊sr/4⌋ once sr ≥ 4 |
| CardiacNative.NativeAnalysisFacts | fft_project/cpp_module/cardiac_native.cpp:240-269 | for every record the native pipeline returns: below two peaks rate 0, no intervals, bradycardia; otherwise one interval fewer than peaks, each positive and at least ⌊sr/4⌋/sr seconds, rate positive and ≤ 60·sr/⌊sr/4⌋ once sr ≥ 4 |
| CardiacNative.AnalizarPicos | fft_project/cpp_module/cardiac_native.cpp:257-266 | a fresh record, filled with the count, rate, intervals and anomalies of the peaks |
| CardiacNative.ProcesarAudioNative | fft_project/cpp_module/cardiac_native.cpp:240-269 | for a non-empty signal and sr > 0, returns the record of filter, envelope, peak scan, rate and anomalies |
| Reference.NormalizeAudio | fft_project/processing/audio_processor.py:59-60 | same length; each sample lands in [-1, 1) and times 32768 gives back the PCM value |
| Reference.NormalizeInjective | fft_project/processing/audio_processor.py:59-60 | distinct PCM signals normalise to distinct signals |
| Reference.BandMask | fft_project/processing/audio_processor.py:99-104 | n/2 + 1 entries; entry k is true exactly when 20·n ≤ k·sr ≤ 200·n |
| Reference.MasksAgree | fft_project/processing/audio_processor.py:104-107 | on bins 0..n/2 the reference mask keeps exactly the bins the native mask keeps |
| Reference.FilterFrequencies | fft_project/processing/audio_processor.py:94-110 | raises on an empty or one-sample signal or a zero rate; otherwise returns 2·⌊n/2⌋ samples |
| Reference.FilterLengthsDiverge | fft_project/processing/audio_processor.py:108 | for odd n ≥ 3 the reference filter returns n − 1 samples, the native one n |
| Reference.PyEnvelopeWindow | fft_project/processing/audio_processor.py:137-139 | the window is odd and is ⌊sr/20⌋ or one more |
| Reference.WindowsAgree | fft_project/processing/audio_processor.py:137-139 | the two window rules agree from 40 Hz on; below it they are 1 and 3 |
| Reference.CalculateEnvelope | fft_project/processing/audio_processor.py:131-144 | succeeds exactly when 3 < window ≤ length, then keeps the length; success needs sr ≥ 80 |
| Reference.DetectPeaks | fft_project/processing/audio_processor.py:113-129 | raises exactly when the envelope does; otherwise the distance is ≥ 20 and the envelope non-empty |
| Reference.PyRate | fft_project/processing/audio_processor.py:159-163 | never negative; positive exactly when there are intervals and their mean is positive |
| Reference.PyBpm | fft_project/processing/audio_processor.py:146-165 | the definition of the rate `_calculate_bpm` returns: 0 below two peaks, else the guarded 60 / mean interval (properties in PyRate and RatesAgree) |
| Reference.RatesAgree | fft_project/processing/audio_processor.py:146-165 | for increasing peaks the reference and native rates are equal, and positive from two peaks on |
| Reference.CalculateBpm | fft_project/processing/audio_processor.py:146-165 | (0, []) below two peaks; otherwise the RR intervals and the guarded rate |
| Reference.PyAnomalies | fft_project/processing/audio_processor.py:167-211 | the definition of the dict `_detect_anomalies` returns (properties in InsufficientData, PyFlags and PyAlerts) |
| Reference.DetectAnomalies | fft_project/processing/audio_processor.py:167-211 | the flags and alerts built step by step equal the reference classification |
| Reference.InsufficientData | fft_project/processing/audio_processor.py:176-179 | rate 0 or fewer than two intervals gives exactly ["Datos Insuficientes"] and no flag |
| Reference.PyFlags | fft_project/processing/audio_processor.py:181-205 | bradycardia ⇔ bpm < 60, tachycardia ⇔ bpm > 100, never both; irregularity ⇔ SDNN < 20 ms or > 200 ms |
| Reference.PyAlerts | fft_project/processing/audio_processor.py:167-211 | alerts are never empty; each flag's text is present exactly when that flag is raised, the low or high variability text exactly when SDNN is below 20 ms or above 200 ms; past the insufficient-data case a flagged record lists exactly brady, tachy, then the variability text; the normal alert only alone and exactly when nothing is flagged |
| Reference.AnomaliesAgree | fft_project/processing/audio_processor.py:176-189 | with enough data both implementations raise the same flags; at rate 0 only the native one flags bradycardia |
| Reference.ReferenceAnalysis | fft_project/processing/audio_processor.py:74-91 | the definition of what `_process_python` returns or raises (properties in ReferenceAnalysisFacts) |
| Reference.ProcessPython | fft_project/processing/audio_processor.py:74-91 | returns the record of filter, peaks, rate and anomalies, or the exception raised on the way |
| Reference.ReferenceAnalysisFacts | fft_project/processing/audio_processor.py:74-110 | the conditions under which the pipeline raises (empty or one-sample signal, zero rate, rate below 80 Hz); every record has an alert, one interval fewer than peaks, and the insufficient-data verdict below two peaks |
| Reference.AudioProcessor.constructor | fft_project/processing/audio_processor.py:14-17 | no signal or rate yet; the native path is preferred exactly when it is available |
| Reference.AudioProcessor.ProcessAudio | fft_project/processing/audio_processor.py:62-71 | native record when preferred, available and not raising (for a non-empty signal and sr > 0, see Left out); the reference outcome otherwise |
| Reference.FallbackWithoutExtension | fft_project/processing/audio_processor.py:7-17 | without the extension the reference pipeline runs, and reports insufficient data, never bradycardia, below two peaks |

## Left out

- The C++ radix-2 FFT numerics (`std::polar`, the recursion, its restriction to power-of-two N) are not modelled: the transform is the parameter `dft`.
- scipy `rfft`, `irfft`, `rfftfreq`, `savgol_filter` and `find_peaks` internals are not modelled; only their output lengths and raising conditions are. Nothing is assumed about the order or spacing of `find_peaks`' output.
- Floating-point rounding, NaN and infinity: arithmetic is on exact reals.
- CardiacNative.ProcesarAudioNative: requires a non-empty signal, because an empty envelope makes `max_element` dereference the end iterator (cardiac_native.cpp:146).
- CardiacNative.ProcesarAudioNative: requires sr > 0, so the native result at sr = 0 is not modelled. In the source, sr = 0 gives every bin the frequency 0, so every bin is zeroed (cardiac_native.cpp:81-84). The reconstruction and envelope are then zero, no peak passes `env[i] > height`, and the record is rate 0 with bradycardia. The model's transform is an arbitrary parameter, not a linear map, so it cannot conclude that a zero spectrum gives a zero signal. The intervals are also sample differences divided by sr.
- Reference.AudioProcessor.ProcessAudio: inherits the same non-empty-signal and sr > 0 requirement, and only on the native path.
- CardiacNative.CalcularBpmRr: requires the first and last peak to differ when there are two or more. The source would divide 60 by a zero mean and get infinity. Peaks from the scan always differ.
- Reference.CalculateBpm: requires sr > 0 when there are two or more peaks. numpy would divide by zero with a warning instead of raising. The pipeline only reaches it with sr > 0.
- The unreachable `rr.empty()` test in `calcular_bpm_rr` (cardiac_native.cpp:184) is not modelled: two or more peaks always give at least one interval.
- Non-integer sample rates are not modelled; rates are natural numbers, so the `int(...)` truncations are exact divisions.
- Integer widths (`int num_picos`, `size_t` indices) are not modelled; they are unbounded.
- `load_wav_file` and `process_file` are not modelled, because they are file I/O. The broad `except` of `load_wav_file` builds a ValueError without raising it. The fields `sampleRate` and `audioData` are therefore only ever set by the constructor here.
- The pybind11 binding block and `setup.py` are build glue.
- cpp_bridge.py's import probing and `sys.path` edits are not modelled. Its `fecha` timestamp on native results is left out (clock). Its raise when the extension is missing cannot be reached through `process_audio`, which checks availability first. Any exception out of the native call is the `nativeRaises` parameter.
- The Django views, forms and URLs, and all browser JavaScript, are not part of this model.
