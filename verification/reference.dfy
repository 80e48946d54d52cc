/** The reference pipeline of audio_processor.py (class `AudioProcessor`): PCM
    normalisation, a 20-200 Hz mask over the real-input spectrum, a smoothed envelope,
    peak picking, RR intervals and rate, anomaly classification with an ordered alert
    list, and the selector that prefers the native pipeline and falls back to this one.

    The scipy routines are not modelled; they are the fields of a `Scipy` value:
    `rfft` and `irfft` entry by entry, `savgol_filter` sample by sample and
    `find_peaks` as a whole. Only the lengths and the raising conditions that the code
    around them relies on are written out. A Python exception is a `Raised` result. */
module Reference {
  import opened Numeric
  import opened Rhythm
  import CardiacNative

  // ================================================================ results

  datatype Option<T> = None | Some(value: T)

  /** The exceptions the pipeline can raise out of `process_audio`. */
  datatype PyError = ValueError | ZeroDivisionError

  datatype Result<T> = Ok(value: T) | Raised(error: PyError)

  // ================================================================ normalisation

  /** A 16-bit PCM sample. */
  type Int16 = x: int | -32768 <= x <= 32767

  /** `_normalize_audio`: every sample divided by 32768, so each lands in [-1, 1) and
      multiplying back by 32768 restores it exactly. */
  function NormalizeAudio(pcm: seq<Int16>): (r: seq<real>)
    ensures |r| == |pcm|
    ensures forall i :: 0 <= i < |pcm| ==> -1.0 <= r[i] < 1.0 && r[i] * 32768.0 == pcm[i] as real
  {
    seq(|pcm|, i requires 0 <= i < |pcm| => pcm[i] as real / 32768.0)
  }

  /** Normalisation loses nothing: distinct PCM signals stay distinct. */
  lemma NormalizeInjective(p: seq<Int16>, q: seq<Int16>)
    requires NormalizeAudio(p) == NormalizeAudio(q)
    ensures p == q
  {
    assert |p| == |q|;
    forall i | 0 <= i < |p|
      ensures p[i] == q[i]
    {
      assert NormalizeAudio(p)[i] == NormalizeAudio(q)[i];
    }
  }

  // ================================================================ scipy stand-ins

  /** The library routines the reference pipeline calls:
      `rfftBin(x, k)` is bin k of `rfft(x)`, `irfftSample(X, i)` is sample i of `irfft(X)`,
      `savgolSample(x, w, i)` is sample i of `savgol_filter(x, w, 3)` and
      `findPeaks(x, h, d)` the indices `find_peaks(x, height=h, distance=d)` returns. */
  datatype Scipy = Scipy(
    rfftBin: (seq<real>, nat) -> Complex,
    irfftSample: (seq<Complex>, nat) -> real,
    savgolSample: (seq<real>, nat, nat) -> real,
    findPeaks: (seq<real>, real, nat) -> seq<int>)

  /** The polynomial order passed to `savgol_filter`. */
  const SavgolOrder: nat := 3

  // ================================================================ band filter

  /** The boolean mask over the n/2 + 1 bins of `rfftfreq(n, 1/sr)`: bin k is kept
      exactly when 20·n <= k·sr <= 200·n, i.e. its frequency lies in [20, 200] Hz. */
  function BandMask(n: nat, sr: nat): (mask: seq<bool>)
    requires n > 0
    ensures |mask| == n / 2 + 1
    ensures forall k :: 0 <= k < |mask| ==> (mask[k] <==> 20 * n <= k * sr <= 200 * n)
  {
    BandBinBoundsAll(n, sr);
    seq(n / 2 + 1, k requires 0 <= k < n / 2 + 1 => InBand(BinFrequency(k, n, sr)))
  }

  lemma BandBinBoundsAll(n: nat, sr: nat)
    requires n > 0
    ensures forall k: nat :: InBand(BinFrequency(k, n, sr)) <==> 20 * n <= k * sr <= 200 * n
  {
    forall k: nat
      ensures InBand(BinFrequency(k, n, sr)) <==> 20 * n <= k * sr <= 200 * n
    {
      BandBinBounds(k, n, sr);
    }
  }

  /** On the bins both implementations compute (0 .. n/2) the reference mask keeps a
      bin exactly when the native mask loop leaves it alone. */
  lemma MasksAgree(x: seq<Complex>, sr: nat, k: nat)
    requires 0 < |x| && k <= |x| / 2
    ensures CardiacNative.Masked(x, sr)[k] == if BandMask(|x|, sr)[k] then x[k] else Zero
  {
  }

  /** `_filter_frequencies`: `rfft` raises on an empty signal, `1/sample_rate` on a zero
      rate and `irfft` on a one-sample signal (n/2 + 1 = 1 bin gives 0 output points);
      otherwise the result has 2·(n/2) samples, so an odd-length signal loses one. */
  function FilterFrequencies(audio: seq<real>, sr: nat, lib: Scipy): (r: Result<seq<real>>)
    ensures r.Ok? <==> |audio| >= 2 && sr > 0
    ensures |audio| == 0 ==> r == Raised(ValueError)
    ensures |audio| > 0 && sr == 0 ==> r == Raised(ZeroDivisionError)
    ensures |audio| == 1 && sr > 0 ==> r == Raised(ValueError)
    ensures r.Ok? ==> |r.value| == 2 * (|audio| / 2)
  {
    if |audio| == 0 then Raised(ValueError)
    else if sr == 0 then Raised(ZeroDivisionError)
    else
      var n := |audio|;
      var mask := BandMask(n, sr);
      var filtered := seq(n / 2 + 1, k requires 0 <= k < n / 2 + 1 =>
        if mask[k] then lib.rfftBin(audio, k) else Zero);
      var points := 2 * (|filtered| - 1);
      if points == 0 then Raised(ValueError)
      else Ok(seq(points, i requires 0 <= i < points => lib.irfftSample(filtered, i)))
  }

  /** For an odd number of samples (at least 3) the reference filter returns one sample
      fewer than the input, while the native filter returns exactly as many. */
  lemma FilterLengthsDiverge(audio: seq<real>, sr: nat, lib: Scipy, dft: CardiacNative.Transform)
    requires |audio| >= 3 && |audio| % 2 == 1 && sr > 0
    ensures |FilterFrequencies(audio, sr, lib).value| == |audio| - 1
    ensures |CardiacNative.FilteredSignal(audio, sr, dft)| == |audio|
  {
  }

  // ================================================================ envelope and peaks

  /** `int(0.05 * sample_rate)`, raised to the next odd number when even: odd, but
      unlike the native window it has no floor of 3 and is 1 below 40 Hz. */
  function PyEnvelopeWindow(sr: nat): (w: nat)
    ensures w % 2 == 1
    ensures w == sr / 20 || w == sr / 20 + 1
  {
    var w := sr / 20;
    if w % 2 == 0 then w + 1 else w
  }

  /** The two window rules agree from 40 Hz on; below it the reference window is 1
      and the native one 3. */
  lemma WindowsAgree(sr: nat)
    ensures sr >= 40 ==> PyEnvelopeWindow(sr) == CardiacNative.EnvelopeWindow(sr)
    ensures sr < 40 ==> PyEnvelopeWindow(sr) == 1 && CardiacNative.EnvelopeWindow(sr) == 3
  {
  }

  /** `_calculate_envelope`: `savgol_filter` of |x| with the window above and order 3.
      It raises when the window does not exceed the order (below 80 Hz) or is longer
      than the signal; otherwise the envelope has the signal's length. */
  function CalculateEnvelope(x: seq<real>, sr: nat, lib: Scipy): (r: Result<seq<real>>)
    ensures r.Ok? <==> SavgolOrder < PyEnvelopeWindow(sr) <= |x|
    ensures r.Ok? ==> |r.value| == |x| && sr >= 80
  {
    var w := PyEnvelopeWindow(sr);
    if w <= SavgolOrder || w > |x| then Raised(ValueError)
    else
      var a := Rectified(x);
      Ok(seq(|x|, i requires 0 <= i < |x| => lib.savgolSample(a, w, i)))
  }

  /** `_detect_peaks`: `find_peaks` over the envelope with height 40 % of its maximum
      and distance ⌊sr/4⌋; it raises exactly when the envelope does. The envelope is
      then non-empty, so `np.max` succeeds, and the distance is at least 20, so
      `find_peaks`' own demand of a distance of at least 1 is always met. */
  function DetectPeaks(x: seq<real>, sr: nat, lib: Scipy): (r: Result<seq<int>>)
    ensures r.Ok? <==> CalculateEnvelope(x, sr, lib).Ok?
    ensures r.Ok? ==> PeakDistance(sr) >= 20
    ensures r.Ok? ==> var env := CalculateEnvelope(x, sr, lib).value;
      |env| > 0 && r.value == lib.findPeaks(env, Max(env) * HeightFactor, PeakDistance(sr))
  {
    var env := CalculateEnvelope(x, sr, lib);
    if env.Raised? then Raised(env.error)
    else Ok(lib.findPeaks(env.value, Max(env.value) * HeightFactor, PeakDistance(sr)))
  }

  // ================================================================ rate

  /** `60 / mean(rr)` when the mean is positive, 0 otherwise. */
  function PyRate(rr: seq<real>): (bpm: real)
    ensures bpm >= 0.0
    ensures bpm > 0.0 <==> |rr| > 0 && Mean(rr) > 0.0
  {
    if |rr| > 0 && Mean(rr) > 0.0 then
      var b := RatePerMinute(rr);
      MulMonotone(0.0, b, Mean(rr));
      b
    else 0.0
  }

  /** The rate `_calculate_bpm` reports for a list of peak indices. */
  function PyBpm(peaks: seq<int>, sr: nat): real
    requires sr > 0
  {
    if |peaks| < 2 then 0.0 else PyRate(RRIntervals(peaks, sr))
  }

  /** For peaks in increasing order both implementations report the same rate, which
      is positive from two peaks on. */
  lemma RatesAgree(peaks: seq<int>, sr: nat)
    requires sr > 0 && StrictlyIncreasing(peaks)
    ensures PyBpm(peaks, sr) == CardiacNative.NativeRate(peaks, sr)
    ensures |peaks| >= 2 ==> PyBpm(peaks, sr) > 0.0
  {
    if |peaks| >= 2 {
      BpmFromSpan(peaks, sr);
    }
  }

  /** `_calculate_bpm`: no intervals and rate 0 below two peaks; otherwise one interval
      per consecutive pair, in seconds, and the guarded rate. */
  method CalculateBpm(peaks: seq<int>, sr: nat) returns (bpm: real, rr: seq<real>)
    requires |peaks| < 2 || sr > 0
    ensures |peaks| < 2 ==> bpm == 0.0 && rr == []
    ensures |peaks| >= 2 ==> sr > 0 && rr == RRIntervals(peaks, sr) && bpm == PyBpm(peaks, sr)
  {
    if |peaks| < 2 {
      return 0.0, [];
    }
    rr := [];
    for i := 0 to |peaks| - 1
      invariant |rr| == i
      invariant forall k :: 0 <= k < i ==> rr[k] == Interval(peaks, k, sr)
    {
      var intervalSamples := peaks[i + 1] - peaks[i];
      var intervalSeconds := intervalSamples as real / sr as real;
      rr := rr + [intervalSeconds];
    }
    assert rr == RRIntervals(peaks, sr);
    if |rr| > 0 {
      var avgRR := Mean(rr);
      bpm := if avgRR > 0.0 then 60.0 / avgRR else 0.0;
    } else {
      bpm := 0.0;
    }
  }

  // ================================================================ anomalies

  const AlertInsufficient: string := "Datos Insuficientes"
  const AlertLowVariability: string := "Variabilidad muy baja (SDNN < 20ms) - Rigidez cardíaca"
  const AlertHighVariability: string := "Variabilidad muy alta (SDNN > 200ms) - Posible arritmia"
  const AlertNormal: string := "Ritmo cardíaco dentro de parámetros normales"

  /** What `_detect_anomalies` returns. */
  function PyAnomalies(bpm: real, rr: seq<real>): Anomalies {
    if bpm == 0.0 || |rr| < 2 then Anomalies(false, false, false, [AlertInsufficient])
    else
      var brady := bpm < BradyBpm;
      var tachy := bpm > TachyBpm;
      var variability :=
        if |rr| > 1 then
          match Classify(rr)
          case VeryLow => [AlertLowVariability]
          case VeryHigh => [AlertHighVariability]
          case Moderate => []
        else [];
      var alerts := (if brady then [AlertBradycardia] else [])
        + (if tachy then [AlertTachycardia] else []) + variability;
      Anomalies(brady, tachy, variability != [], if alerts == [] then [AlertNormal] else alerts)
  }

  /** `_detect_anomalies`: starts from a record with every flag false and no alert,
      sets flags and appends alerts step by step. */
  method DetectAnomalies(bpm: real, rr: seq<real>) returns (anomalies: Anomalies)
    ensures anomalies == PyAnomalies(bpm, rr)
  {
    anomalies := Anomalies(false, false, false, []);
    if bpm == 0.0 || |rr| < 2 {
      anomalies := anomalies.(alertas := anomalies.alertas + [AlertInsufficient]);
      return;
    }
    if bpm < BradyBpm {
      anomalies := anomalies.(bradicardia := true, alertas := anomalies.alertas + [AlertBradycardia]);
    }
    if bpm > TachyBpm {
      anomalies := anomalies.(taquicardia := true, alertas := anomalies.alertas + [AlertTachycardia]);
    }
    if |rr| > 1 {
      // `np.std` is the square root of the population variance; it is compared with
      // 0.020 and 0.200, the variance here with their squares (see SdnnThresholds).
      var variance := Variance(rr);
      if variance < SdnnLow * SdnnLow {
        anomalies := anomalies.(irregularidad := true, alertas := anomalies.alertas + [AlertLowVariability]);
      } else if variance > SdnnHigh * SdnnHigh {
        anomalies := anomalies.(irregularidad := true, alertas := anomalies.alertas + [AlertHighVariability]);
      }
    }
    if anomalies.alertas == [] {
      anomalies := anomalies.(alertas := anomalies.alertas + [AlertNormal]);
    }
  }

  /** A zero rate or fewer than two intervals gives exactly the insufficient-data alert
      and no flag. */
  lemma InsufficientData(bpm: real, rr: seq<real>)
    requires bpm == 0.0 || |rr| < 2
    ensures PyAnomalies(bpm, rr) == Anomalies(false, false, false, [AlertInsufficient])
  {
  }

  /** Past the insufficient-data case: bradycardia exactly below 60, tachycardia exactly
      above 100 (never both), irregularity exactly when SDNN is below 20 ms or above
      200 ms. */
  lemma PyFlags(bpm: real, rr: seq<real>, sdnn: real)
    requires bpm != 0.0 && |rr| >= 2
    requires sdnn >= 0.0 && sdnn * sdnn == Variance(rr)
    ensures var a := PyAnomalies(bpm, rr);
      && (a.bradicardia <==> bpm < BradyBpm)
      && (a.taquicardia <==> bpm > TachyBpm)
      && !(a.bradicardia && a.taquicardia)
      && (a.irregularidad <==> sdnn < SdnnLow || sdnn > SdnnHigh)
  {
    SdnnThresholds(rr, sdnn);
  }

  /** Position of each alert text in the order the source appends them. */
  function AlertRank(alert: string): nat {
    if alert == AlertBradycardia then 0
    else if alert == AlertTachycardia then 1
    else if alert == AlertLowVariability then 2
    else if alert == AlertHighVariability then 3
    else 4
  }

  /** The alert list is never empty; its alerts appear in the order bradycardia,
      tachycardia, variability, without repetition; at most one variability alert is
      present; the normal-rhythm alert appears only alone, exactly when the data
      suffice and no flag is raised; there is one alert per raised flag otherwise. Each
      flag's text is present exactly when the flag is raised, the variability text chosen
      by SDNN, and past the insufficient-data case a flagged record lists exactly those
      texts in that order. */
  lemma PyAlerts(bpm: real, rr: seq<real>)
    ensures var a := PyAnomalies(bpm, rr);
      && a.alertas != []
      && (forall i, j :: 0 <= i < j < |a.alertas| ==> AlertRank(a.alertas[i]) < AlertRank(a.alertas[j]))
      && !(AlertLowVariability in a.alertas && AlertHighVariability in a.alertas)
      && (AlertNormal in a.alertas ==> a.alertas == [AlertNormal])
      && (AlertNormal in a.alertas <==>
            bpm != 0.0 && |rr| >= 2 && !a.bradicardia && !a.taquicardia && !a.irregularidad)
      && (a.bradicardia || a.taquicardia || a.irregularidad ==>
            |a.alertas| == (if a.bradicardia then 1 else 0) + (if a.taquicardia then 1 else 0)
              + (if a.irregularidad then 1 else 0))
    ensures var a := PyAnomalies(bpm, rr);
      && (AlertBradycardia in a.alertas <==> a.bradicardia)
      && (AlertTachycardia in a.alertas <==> a.taquicardia)
      && (AlertLowVariability in a.alertas <==> a.irregularidad && Classify(rr) == VeryLow)
      && (AlertHighVariability in a.alertas <==> a.irregularidad && Classify(rr) == VeryHigh)
    ensures var a := PyAnomalies(bpm, rr);
      bpm != 0.0 && |rr| >= 2 && (a.bradicardia || a.taquicardia || a.irregularidad) ==>
        a.alertas == (if a.bradicardia then [AlertBradycardia] else [])
          + (if a.taquicardia then [AlertTachycardia] else [])
          + (if a.irregularidad then
               [if Classify(rr) == VeryLow then AlertLowVariability else AlertHighVariability]
             else [])
  {
  }

  /** Where the data suffice, both implementations raise the same flags; below two
      intervals or at rate 0 the reference reports insufficient data and no flag, while
      the native code flags bradycardia for a zero rate. */
  lemma AnomaliesAgree(bpm: real, rr: seq<real>)
    ensures bpm != 0.0 && |rr| >= 2 ==>
      var p, n := PyAnomalies(bpm, rr), CardiacNative.NativeAnomalies(bpm, rr);
      p.bradicardia == n.bradicardia && p.taquicardia == n.taquicardia
      && p.irregularidad == n.irregularidad
    ensures bpm == 0.0 ==>
      !PyAnomalies(bpm, rr).bradicardia && CardiacNative.NativeAnomalies(bpm, rr).bradicardia
  {
  }

  // ================================================================ whole pipeline

  /** What `_process_python` returns, or the exception it raises. */
  function ReferenceAnalysis(audio: seq<real>, sr: nat, lib: Scipy): Result<Analysis> {
    var filtered := FilterFrequencies(audio, sr, lib);
    if filtered.Raised? then Raised(filtered.error)
    else
      var peaks := DetectPeaks(filtered.value, sr, lib);
      if peaks.Raised? then Raised(peaks.error)
      else
        var bpm := PyBpm(peaks.value, sr);
        var rr := RRIntervals(peaks.value, sr);
        var a := PyAnomalies(bpm, rr);
        Ok(Analysis(bpm, |peaks.value|, a.bradicardia, a.taquicardia, a.irregularidad, rr, a.alertas))
  }

  /** `_process_python`: filter, peaks, rate and anomalies, assembled into the record. */
  method ProcessPython(audio: seq<real>, sr: nat, lib: Scipy) returns (r: Result<Analysis>)
    ensures r == ReferenceAnalysis(audio, sr, lib)
  {
    var filtered := FilterFrequencies(audio, sr, lib);
    if filtered.Raised? {
      return Raised(filtered.error);
    }
    var peaks := DetectPeaks(filtered.value, sr, lib);
    if peaks.Raised? {
      return Raised(peaks.error);
    }
    var bpm, rr := CalculateBpm(peaks.value, sr);
    var anomalies := DetectAnomalies(bpm, rr);
    r := Ok(Analysis(bpm, |peaks.value|, anomalies.bradicardia, anomalies.taquicardia,
      anomalies.irregularidad, rr, anomalies.alertas));
  }

  /** When the reference pipeline raises and when its record says what: an empty
      signal or a one-sample signal raises ValueError, a zero rate ZeroDivisionError,
      a rate below 80 Hz raises in the smoothing; a record always carries an alert,
      one interval fewer than peaks, and the insufficient-data verdict below two peaks. */
  lemma ReferenceAnalysisFacts(audio: seq<real>, sr: nat, lib: Scipy)
    ensures |audio| == 0 ==> ReferenceAnalysis(audio, sr, lib) == Raised(ValueError)
    ensures |audio| > 0 && sr == 0 ==> ReferenceAnalysis(audio, sr, lib) == Raised(ZeroDivisionError)
    ensures |audio| == 1 ==> ReferenceAnalysis(audio, sr, lib).Raised?
    ensures sr < 80 ==> ReferenceAnalysis(audio, sr, lib).Raised?
    ensures var r := ReferenceAnalysis(audio, sr, lib);
      r.Ok? ==>
        && r.value.alertas != []
        && (r.value.numPicos < 2 ==>
              r.value.bpm == 0.0 && r.value.intervalosRR == [] && r.value.alertas == [AlertInsufficient]
              && !r.value.bradicardia && !r.value.taquicardia && !r.value.irregularidad)
        && (r.value.numPicos >= 2 ==> |r.value.intervalosRR| == r.value.numPicos - 1)
  {
    var r := ReferenceAnalysis(audio, sr, lib);
    if r.Ok? {
      var filtered := FilterFrequencies(audio, sr, lib);
      var peaks := DetectPeaks(filtered.value, sr, lib).value;
      PyAlerts(PyBpm(peaks, sr), RRIntervals(peaks, sr));
    }
  }

  // ================================================================ selector

  /** The processor: the last loaded signal and rate (set only by the WAV loader, which
      is not part of this model) and whether the native pipeline is preferred, which
      starts out as the availability of the native extension. */
  class AudioProcessor {
    var sampleRate: Option<nat>
    var audioData: Option<seq<real>>
    var useCpp: bool
    /** Whether the native extension could be imported. */
    const cppAvailable: bool

    constructor (cppAvailable: bool)
      ensures sampleRate == None && audioData == None
      ensures useCpp == cppAvailable && this.cppAvailable == cppAvailable
    {
      sampleRate := None;
      audioData := None;
      useCpp := cppAvailable;
      this.cppAvailable := cppAvailable;
    }

    /** `process_audio`: when the native pipeline is preferred and available and the
        extension call does not raise (`nativeRaises` stands for any exception out of
        it), its record is returned unchanged; in every other case, the exception
        included, the reference pipeline's outcome is returned, its own exceptions
        propagating. The processor's fields are left as they are. */
    method ProcessAudio(audio: seq<real>, sr: nat, lib: Scipy, dft: CardiacNative.Transform,
                        nativeRaises: bool) returns (r: Result<Analysis>)
      requires useCpp && cppAvailable && !nativeRaises ==> |audio| > 0 && sr > 0
      ensures useCpp && cppAvailable && !nativeRaises ==>
        r == Ok(CardiacNative.NativeAnalysis(audio, sr, dft))
      ensures !(useCpp && cppAvailable && !nativeRaises) ==> r == ReferenceAnalysis(audio, sr, lib)
    {
      if useCpp && cppAvailable && !nativeRaises {
        var native := CardiacNative.ProcesarAudioNative(audio, sr, dft);
        return Ok(native);
      }
      r := ProcessPython(audio, sr, lib);
    }
  }

  /** A processor constructed without the native extension always runs the reference
      pipeline, so it reports insufficient data (never bradycardia) when fewer than
      two peaks are found. */
  method FallbackWithoutExtension(audio: seq<real>, sr: nat, lib: Scipy, dft: CardiacNative.Transform)
    returns (r: Result<Analysis>)
    ensures r == ReferenceAnalysis(audio, sr, lib)
    ensures r.Ok? && r.value.numPicos < 2 ==> !r.value.bradicardia && r.value.alertas == [AlertInsufficient]
  {
    var processor := new AudioProcessor(false);
    r := processor.ProcessAudio(audio, sr, lib, dft, false);
    ReferenceAnalysisFacts(audio, sr, lib);
  }
}
