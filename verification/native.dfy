/** The native pipeline of cardiac_native.cpp: a frequency mask between a forward
    and an inverse transform, a moving-average envelope, a greedy left-to-right peak
    scan, RR intervals and rate, and anomaly flags written into a result record.

    The radix-2 FFT itself is not modelled: it is the parameter `dft`, which gives
    output k of the forward transform of a vector. The inverse is built from it
    exactly as the source builds `ifft` from `fft`. */
module CardiacNative {
  import opened Numeric
  import opened Rhythm

  // ================================================================ transforms

  /** `dft(x, k)` is entry k of the vector after the in-place `fft(x)`. */
  type Transform = (seq<Complex>, nat) -> Complex

  /** The vector after an in-place forward transform: same length as before. */
  function Transformed(dft: Transform, x: seq<Complex>): (y: seq<Complex>)
    ensures |y| == |x|
  {
    seq(|x|, k requires 0 <= k < |x| => dft(x, k))
  }

  function ConjAll(x: seq<Complex>): (y: seq<Complex>)
    ensures |y| == |x|
  {
    seq(|x|, k requires 0 <= k < |x| => Conj(x[k]))
  }

  /** The vector after `ifft`: conjugate, forward transform, conjugate and divide by N. */
  function InverseTransformed(dft: Transform, x: seq<Complex>): (y: seq<Complex>)
    ensures |y| == |x|
  {
    var t := Transformed(dft, ConjAll(x));
    seq(|x|, k requires 0 <= k < |x| => Scale(Conj(t[k]), |x|))
  }

  /** `fft`: overwrites the vector with its transform. */
  method Fft(x: array<Complex>, dft: Transform)
    modifies x
    ensures x[..] == Transformed(dft, old(x[..]))
  {
    var input := x[..];
    forall k | 0 <= k < x.Length {
      x[k] := dft(input, k);
    }
  }

  /** `ifft`: conjugate in place, transform, then conjugate and divide by the size. */
  method Ifft(x: array<Complex>, dft: Transform)
    modifies x
    ensures x[..] == InverseTransformed(dft, old(x[..]))
  {
    ghost var input := x[..];
    for k := 0 to x.Length
      invariant forall j :: 0 <= j < k ==> x[j] == Conj(input[j])
      invariant forall j :: k <= j < x.Length ==> x[j] == input[j]
    {
      x[k] := Conj(x[k]);
    }
    assert x[..] == ConjAll(input);
    Fft(x, dft);
    ghost var t := x[..];
    for k := 0 to x.Length
      invariant forall j :: 0 <= j < k ==> x[j] == Scale(Conj(t[j]), x.Length)
      invariant forall j :: k <= j < x.Length ==> x[j] == t[j]
    {
      x[k] := Scale(Conj(x[k]), x.Length);
    }
  }

  // ================================================================ band filter

  /** The spectrum after the mask loop: bin i is kept when sr·i/N lies in [20, 200]
      and zeroed otherwise. All N bins are judged by sr·i/N, including those above N/2. */
  function Masked(x: seq<Complex>, sr: nat): (y: seq<Complex>)
    ensures |y| == |x|
  {
    seq(|x|, i requires 0 <= i < |x| => if InBand(BinFrequency(i, |x|, sr)) then x[i] else Zero)
  }

  /** Above 400 Hz sampling, the mirror bin N - k of an in-band bin k is judged by
      the frequency sr - sr·k/N > 200 Hz and is zeroed. */
  lemma MirrorBinZeroed(x: seq<Complex>, sr: nat, k: nat)
    requires sr > 400 && 0 < k < |x|
    requires InBand(BinFrequency(k, |x|, sr))
    ensures Masked(x, sr)[|x| - k] == Zero
  {
    var n := |x|;
    var d := sr - 400;
    BandBinBounds(k, n, sr);
    BandBinBounds(n - k, n, sr);
    assert k * sr <= 200 * n;
    assert (n - k) * sr == n * sr - k * sr;
    assert n * sr == 400 * n + n * d;
    assert n * d > 0;
    assert (n - k) * sr > 200 * n;
    assert !InBand(BinFrequency(n - k, n, sr));
  }

  /** What `filtrar_frecuencias` returns: the real parts of the inverse transform
      of the masked transform of the signal; exactly N samples. */
  function FilteredSignal(audio: seq<real>, sr: nat, dft: Transform): (r: seq<real>)
    ensures |r| == |audio|
  {
    var spectrum := Transformed(dft, seq(|audio|, i requires 0 <= i < |audio| => Complex(audio[i], 0.0)));
    var back := InverseTransformed(dft, Masked(spectrum, sr));
    seq(|audio|, i requires 0 <= i < |audio| => back[i].re)
  }

  /** The mask loop of `filtrar_frecuencias`: zero every bin whose frequency sr·i/N
      lies below 20 Hz or above 200 Hz, leave the others as they are. */
  method MaskBand(spectrum: array<Complex>, sr: nat)
    modifies spectrum
    ensures spectrum[..] == Masked(old(spectrum[..]), sr)
  {
    var n := spectrum.Length;
    ghost var full := spectrum[..];
    for i := 0 to n
      invariant forall j :: 0 <= j < i ==> spectrum[j] == Masked(full, sr)[j]
      invariant forall j :: i <= j < n ==> spectrum[j] == full[j]
    {
      var freq := (sr * i) as real / n as real;
      assert freq == BinFrequency(i, n, sr) by {
        assert sr * i == i * sr;
      }
      if freq < LowHz || freq > HighHz {
        spectrum[i] := Zero;
      }
    }
  }

  /** `filtrar_frecuencias`: returns N samples, the band-masked reconstruction. */
  method FiltrarFrecuencias(audio: seq<real>, sr: nat, dft: Transform) returns (filtered: seq<real>)
    ensures |filtered| == |audio|
    ensures filtered == FilteredSignal(audio, sr, dft)
  {
    var n := |audio|;
    var spectrum := new Complex[n];
    for i := 0 to n
      invariant forall j :: 0 <= j < i ==> spectrum[j] == Complex(audio[j], 0.0)
    {
      spectrum[i] := Complex(audio[i], 0.0);
    }
    assert spectrum[..] == seq(n, i requires 0 <= i < n => Complex(audio[i], 0.0));
    Fft(spectrum, dft);
    MaskBand(spectrum, sr);
    Ifft(spectrum, dft);
    ghost var back := spectrum[..];
    var out := new real[n];
    for i := 0 to n
      invariant spectrum[..] == back
      invariant forall j :: 0 <= j < i ==> out[j] == back[j].re
    {
      out[i] := spectrum[i].re;
    }
    filtered := out[..];
  }

  // ================================================================ envelope

  /** `max(3, int(0.05 * sr))`, raised to the next odd number when even. */
  function EnvelopeWindow(sr: nat): (w: nat)
    ensures w % 2 == 1 && w >= 3
    ensures w - 1 <= (if sr / 20 > 3 then sr / 20 else 3) <= w
  {
    var w := if sr / 20 > 3 then sr / 20 else 3;
    if w % 2 == 0 then w + 1 else w
  }

  /** First index of the window of half-width `half` around i, clipped at 0. */
  function WindowStart(i: nat, half: nat): nat {
    if i < half then 0 else i - half
  }

  /** One past the last index of the window around i, clipped at n. */
  function WindowEnd(i: nat, half: nat, n: nat): nat {
    if i + half + 1 > n then n else i + half + 1
  }

  /** Mean of a[i - half .. i + half] restricted to the indices that exist. */
  function WindowMean(a: seq<real>, i: nat, half: nat): real
    requires i < |a|
  {
    Mean(a[WindowStart(i, half)..WindowEnd(i, half, |a|)])
  }

  /** A window mean of non-negative samples lies between 0 and their maximum. */
  lemma WindowMeanBounds(a: seq<real>, i: nat, half: nat)
    requires i < |a|
    requires forall k :: 0 <= k < |a| ==> a[k] >= 0.0
    ensures 0.0 <= WindowMean(a, i, half) <= Max(a)
  {
    var w := a[WindowStart(i, half)..WindowEnd(i, half, |a|)];
    MeanBounds(w, Max(a));
  }

  /** The envelope `calcular_envolvente` returns: at each index, the mean of |x| over
      the window of odd size EnvelopeWindow(sr) centred there, clipped to [0, N). */
  function Envelope(x: seq<real>, sr: nat): (env: seq<real>)
    ensures |env| == |x|
    ensures forall i :: 0 <= i < |x| ==> 0.0 <= env[i] <= Max(Rectified(x))
  {
    var half := EnvelopeWindow(sr) / 2;
    var a := Rectified(x);
    WindowMeansBounded(a, half);
    seq(|x|, i requires 0 <= i < |x| => WindowMean(a, i, half))
  }

  lemma WindowMeansBounded(a: seq<real>, half: nat)
    requires forall k :: 0 <= k < |a| ==> a[k] >= 0.0
    ensures forall i :: 0 <= i < |a| ==> 0.0 <= WindowMean(a, i, half) <= Max(a)
  {
    forall i | 0 <= i < |a| {
      WindowMeanBounds(a, i, half);
    }
  }

  /** Clamp x into [lo, n]: the end of the part of the window already summed. */
  function Clamp(x: int, lo: nat, n: nat): nat
    requires lo <= n
  {
    if x < lo then lo else if x > n then n else x
  }

  /** `calcular_envolvente`: rectify, then a simple moving average with a window of odd
      size at least 3; every entry is non-negative and at most max |x|. */
  method CalcularEnvolvente(audio: seq<real>, sr: nat) returns (envelope: seq<real>)
    ensures envelope == Envelope(audio, sr)
    ensures |envelope| == |audio|
    ensures forall i :: 0 <= i < |audio| ==> 0.0 <= envelope[i] <= Max(Rectified(audio))
  {
    var n := |audio|;
    var absSignal := new real[n];
    for i := 0 to n
      invariant forall j :: 0 <= j < i ==> absSignal[j] == Abs(audio[j])
    {
      absSignal[i] := Abs(audio[i]);
    }
    ghost var a := absSignal[..];
    assert a == Rectified(audio);

    var windowSize := if sr / 20 > 3 then sr / 20 else 3;
    if windowSize % 2 == 0 {
      windowSize := windowSize + 1;
    }
    assert windowSize == EnvelopeWindow(sr);

    var env := new real[n];
    var half := windowSize / 2;
    for i := 0 to n
      invariant absSignal[..] == a
      invariant forall k :: 0 <= k < i ==> env[k] == WindowMean(a, k, half)
    {
      env[i] := WindowAverage(absSignal, i, half);
    }
    envelope := env[..];
    assert envelope == Envelope(audio, sr);
  }

  /** One step of the moving average: the mean of the entries at offsets -half .. half
      from i that lie inside the array. */
  method WindowAverage(absSignal: array<real>, i: nat, half: nat) returns (avg: real)
    requires i < absSignal.Length
    ensures avg == WindowMean(absSignal[..], i, half)
  {
    var n := absSignal.Length;
    ghost var a := absSignal[..];
    var sum := 0.0;
    var count := 0;
    ghost var lo := WindowStart(i, half);
    var j: int := -(half as int);
    while j <= half
      invariant -(half as int) <= j <= half + 1
      invariant sum == Sum(a[lo..Clamp(i + j, lo, n)])
      invariant count == Clamp(i + j, lo, n) - lo
    {
      var idx: int := i + j;
      if idx >= 0 && idx < n {
        SumSnoc(a, lo, idx);
        sum := sum + absSignal[idx];
        count := count + 1;
      }
      j := j + 1;
    }
    avg := sum / count as real;
  }

  // ================================================================ peaks

  /** Peaks must rise above 40 % of the envelope's maximum. */
  function PeakHeight(env: seq<real>): real
    requires |env| > 0
  {
    Max(env) * HeightFactor
  }

  /** Index i is an interior strict local maximum above the height. */
  predicate IsPeakCandidate(env: seq<real>, height: real, i: int) {
    1 <= i < |env| - 1 && env[i] > height && env[i] > env[i - 1] && env[i] > env[i + 1]
  }

  /** The scan from index i on, with `last` the last accepted peak: a candidate is
      accepted when it lies at least `dist` after the last accepted one. */
  function Scan(env: seq<real>, height: real, dist: nat, i: nat, last: int): seq<int>
    decreases |env| - i
  {
    if i + 1 >= |env| then []
    else if IsPeakCandidate(env, height, i) && i - last >= dist then [i] + Scan(env, height, dist, i + 1, i)
    else Scan(env, height, dist, i + 1, last)
  }

  /** Every index in r is a candidate at or after i. */
  predicate CandidatesFrom(env: seq<real>, height: real, i: int, r: seq<int>) {
    forall k :: 0 <= k < |r| ==> i <= r[k] && IsPeakCandidate(env, height, r[k])
  }

  /** Every peak the scan returns is a candidate at or after i. */
  lemma {:induction false} ScanCandidates(env: seq<real>, height: real, dist: nat, i: nat, last: int)
    ensures CandidatesFrom(env, height, i, Scan(env, height, dist, i, last))
    decreases |env| - i
  {
    if i + 1 < |env| {
      if IsPeakCandidate(env, height, i) && i - last >= dist {
        ScanCandidates(env, height, dist, i + 1, i);
        var rest := Scan(env, height, dist, i + 1, i);
        var r := [i] + rest;
        assert Scan(env, height, dist, i, last) == r;
        assert forall k :: 1 <= k < |r| ==> r[k] == rest[k - 1];
      } else {
        ScanCandidates(env, height, dist, i + 1, last);
      }
    }
  }

  /** The first peak the scan returns lies `dist` after `last`, and consecutive ones
      lie `dist` apart. */
  lemma {:induction false} ScanSpacing(env: seq<real>, height: real, dist: nat, i: nat, last: int)
    ensures var r := Scan(env, height, dist, i, last);
      && (|r| > 0 ==> r[0] - last >= dist)
      && (forall k :: 0 <= k < |r| - 1 ==> r[k + 1] - r[k] >= dist)
    decreases |env| - i
  {
    if i + 1 < |env| {
      if IsPeakCandidate(env, height, i) && i - last >= dist {
        ScanSpacing(env, height, dist, i + 1, i);
        var rest := Scan(env, height, dist, i + 1, i);
        assert forall k :: 1 <= k < |[i] + rest| ==> ([i] + rest)[k] == rest[k - 1];
      } else {
        ScanSpacing(env, height, dist, i + 1, last);
      }
    }
  }

  /** Every peak the scan returns is a candidate at or after i, the peaks increase,
      the first lies `dist` after `last` and consecutive ones lie `dist` apart. */
  lemma {:induction false} ScanSound(env: seq<real>, height: real, dist: nat, i: nat, last: int)
    ensures var r := Scan(env, height, dist, i, last);
      && (forall k :: 0 <= k < |r| ==> i <= r[k] && IsPeakCandidate(env, height, r[k]))
      && StrictlyIncreasing(r)
      && (|r| > 0 ==> r[0] - last >= dist)
      && (forall k :: 0 <= k < |r| - 1 ==> r[k + 1] - r[k] >= dist)
    decreases |env| - i
  {
    ScanCandidates(env, height, dist, i, last);
    ScanSpacing(env, height, dist, i, last);
    if i + 1 < |env| {
      if IsPeakCandidate(env, height, i) && i - last >= dist {
        ScanSound(env, height, dist, i + 1, i);
        ScanCandidates(env, height, dist, i + 1, i);
        PrependIncreasing(i, Scan(env, height, dist, i + 1, i));
      } else {
        ScanSound(env, height, dist, i + 1, last);
      }
    }
  }

  /** A candidate j at or after i that the scan skips lies less than `dist` after
      `last` or after some accepted peak. */
  lemma {:induction false} ScanComplete(env: seq<real>, height: real, dist: nat, i: nat, last: int, j: int)
    requires i <= j && IsPeakCandidate(env, height, j)
    ensures var r := Scan(env, height, dist, i, last);
      j in r || j - last < dist || exists k :: 0 <= k < |r| && r[k] < j < r[k] + dist
    decreases |env| - i
  {
    if i + 1 < |env| {
      if IsPeakCandidate(env, height, i) && i - last >= dist {
        if j > i {
          ScanComplete(env, height, dist, i + 1, i, j);
          var rest := Scan(env, height, dist, i + 1, i);
          var r := [i] + rest;
          assert r[0] == i;
          if j !in rest && j - i >= dist {
            var k :| 0 <= k < |rest| && rest[k] < j < rest[k] + dist;
            assert r[k + 1] == rest[k];
          }
        }
      } else if j > i {
        ScanComplete(env, height, dist, i + 1, last, j);
      }
    }
  }

  /** The peaks `detectar_picos` returns: a left-to-right scan over 1 .. N-2 starting
      with `last_peak = -min_distance`. */
  function GreedyPeaks(env: seq<real>, sr: nat): (peaks: seq<int>)
    requires |env| > 0
    ensures StrictlyIncreasing(peaks)
    ensures forall k :: 0 <= k < |peaks| - 1 ==> peaks[k + 1] - peaks[k] >= PeakDistance(sr)
    ensures forall k :: 0 <= k < |peaks| ==> IsPeakCandidate(env, PeakHeight(env), peaks[k])
    ensures forall j :: IsPeakCandidate(env, PeakHeight(env), j) && j !in peaks ==>
      exists k :: 0 <= k < |peaks| && peaks[k] < j < peaks[k] + PeakDistance(sr)
  {
    var dist := PeakDistance(sr);
    var height := PeakHeight(env);
    ScanSound(env, height, dist, 1, -(dist as int));
    ScanCompleteAll(env, height, dist);
    Scan(env, height, dist, 1, -(dist as int))
  }

  lemma ScanCompleteAll(env: seq<real>, height: real, dist: nat)
    ensures var r := Scan(env, height, dist, 1, -(dist as int));
      forall j :: IsPeakCandidate(env, height, j) && j !in r ==>
        exists k :: 0 <= k < |r| && r[k] < j < r[k] + dist
  {
    forall j | IsPeakCandidate(env, height, j)
      ensures var r := Scan(env, height, dist, 1, -(dist as int));
        j in r || exists k :: 0 <= k < |r| && r[k] < j < r[k] + dist
    {
      ScanComplete(env, height, dist, 1, -(dist as int), j);
    }
  }

  /** An envelope that is zero everywhere has no candidate, hence no peaks. */
  lemma SilentEnvelopeHasNoPeaks(env: seq<real>, sr: nat)
    requires |env| > 0 && forall i :: 0 <= i < |env| ==> env[i] == 0.0
    ensures GreedyPeaks(env, sr) == []
  {
    assert PeakHeight(env) == 0.0;
    ScanWithoutCandidates(env, 0.0, PeakDistance(sr), 1, -(PeakDistance(sr) as int));
  }

  /** With no candidate at or after i, the scan accepts nothing. */
  lemma {:induction false} ScanWithoutCandidates(env: seq<real>, height: real, dist: nat, i: nat, last: int)
    requires forall j :: i <= j < |env| ==> !IsPeakCandidate(env, height, j)
    ensures Scan(env, height, dist, i, last) == []
    decreases |env| - i
  {
    if i + 1 < |env| {
      ScanWithoutCandidates(env, height, dist, i + 1, last);
    }
  }

  /** One accepting step of the scan moves index i from the scan to the peaks found so far. */
  lemma ScanAccepts(env: seq<real>, height: real, dist: nat, i: nat, last: int, found: seq<int>)
    requires i + 1 < |env| && IsPeakCandidate(env, height, i) && i - last >= dist
    ensures found + Scan(env, height, dist, i, last) == (found + [i]) + Scan(env, height, dist, i + 1, i)
  {
    assert Scan(env, height, dist, i, last) == [i] + Scan(env, height, dist, i + 1, i);
  }

  /** `detectar_picos`: requires a non-empty envelope (the source dereferences
      `max_element` of it); returns increasing interior local maxima above 40 % of the
      maximum, at least ⌊sr/4⌋ samples apart, skipping only candidates too close to an
      earlier accepted peak. */
  method DetectarPicos(env: seq<real>, sr: nat) returns (peaks: seq<int>)
    requires |env| > 0
    ensures peaks == GreedyPeaks(env, sr)
    ensures StrictlyIncreasing(peaks)
    ensures forall k :: 0 <= k < |peaks| - 1 ==> peaks[k + 1] - peaks[k] >= PeakDistance(sr)
    ensures forall k :: 0 <= k < |peaks| ==> (
      1 <= peaks[k] <= |env| - 2 && env[peaks[k]] > HeightFactor * Max(env)
       && env[peaks[k]] > env[peaks[k] - 1] && env[peaks[k]] > env[peaks[k] + 1])
  {
    var maxEnv := Max(env);
    var height := maxEnv * HeightFactor;
    var minDistance := PeakDistance(sr);
    var lastPeak: int := -(minDistance as int);
    peaks := [];
    var i := 1;
    while i < |env| - 1
      invariant 1 <= i
      invariant peaks + Scan(env, height, minDistance, i, lastPeak) == GreedyPeaks(env, sr)
      decreases |env| - i
    {
      if env[i] > height && env[i] > env[i - 1] && env[i] > env[i + 1] && i - lastPeak >= minDistance {
        ScanAccepts(env, height, minDistance, i, lastPeak, peaks);
        peaks := peaks + [i];
        lastPeak := i;
      }
      i := i + 1;
    }
  }

  // ================================================================ rate

  /** `calcular_bpm_rr`: no intervals and rate 0 for fewer than two peaks; otherwise
      one interval per consecutive pair in seconds and the rate 60 / mean interval.
      The source divides by the mean unguarded, so a span of zero is excluded. */
  method CalcularBpmRr(peaks: seq<int>, sr: nat) returns (bpm: real, rr: seq<real>)
    requires |peaks| < 2 || (sr > 0 && peaks[0] != peaks[|peaks| - 1])
    ensures |peaks| < 2 ==> bpm == 0.0 && rr == []
    ensures |peaks| >= 2 ==> (
      sr > 0 && rr == RRIntervals(peaks, sr) && Mean(rr) != 0.0 && bpm == RatePerMinute(rr))
  {
    rr := [];
    if |peaks| < 2 {
      return 0.0, rr;
    }
    for i := 0 to |peaks| - 1
      invariant |rr| == i
      invariant forall k :: 0 <= k < i ==> rr[k] == Interval(peaks, k, sr)
    {
      var interval := (peaks[i + 1] - peaks[i]) as real / sr as real;
      rr := rr + [interval];
    }
    assert rr == RRIntervals(peaks, sr);
    var meanRR := 0.0;
    for k := 0 to |rr|
      invariant meanRR == Sum(rr[..k])
    {
      SumPrefixSnoc(rr, k);
      meanRR := meanRR + rr[k];
    }
    assert rr[..|rr|] == rr;
    meanRR := meanRR / |rr| as real;
    RRTelescopes(peaks, sr);
    bpm := 60.0 / meanRR;
  }

  // ================================================================ anomalies

  const AlertLowVariability: string := "Variabilidad muy baja (SDNN < 20 ms)"
  const AlertHighVariability: string := "Variabilidad muy alta (SDNN > 200 ms)"

  /** The flags `detectar_anomalias` raises and the alerts it appends, for a record
      whose flags start false: no insufficient-data case and no "normal" alert. */
  function NativeAnomalies(bpm: real, rr: seq<real>): Anomalies {
    var brady := bpm < BradyBpm;
    var tachy := bpm > TachyBpm;
    var variability :=
      if |rr| > 1 then
        match Classify(rr)
        case VeryLow => [AlertLowVariability]
        case VeryHigh => [AlertHighVariability]
        case Moderate => []
      else [];
    Anomalies(brady, tachy, variability != [],
      (if brady then [AlertBradycardia] else []) + (if tachy then [AlertTachycardia] else []) + variability)
  }

  /** The native flags: bradycardia exactly below 60, tachycardia exactly above 100
      (so never both), irregularity exactly when there are at least two intervals and
      their SDNN is below 20 ms or above 200 ms; one alert per flag, in the order
      bradycardia, tachycardia, variability, so the list is empty exactly when no
      flag is raised. */
  lemma NativeFlags(bpm: real, rr: seq<real>, sdnn: real)
    requires |rr| > 0 ==> sdnn >= 0.0 && sdnn * sdnn == Variance(rr)
    ensures var a := NativeAnomalies(bpm, rr);
      && (a.bradicardia <==> bpm < BradyBpm)
      && (a.taquicardia <==> bpm > TachyBpm)
      && !(a.bradicardia && a.taquicardia)
      && (a.irregularidad <==> |rr| > 1 && (sdnn < SdnnLow || sdnn > SdnnHigh))
      && a.alertas == (if a.bradicardia then [AlertBradycardia] else [])
           + (if a.taquicardia then [AlertTachycardia] else [])
           + (if a.irregularidad then [if sdnn < SdnnLow then AlertLowVariability else AlertHighVariability] else [])
      && (a.alertas == [] <==> !a.bradicardia && !a.taquicardia && !a.irregularidad)
  {
    if |rr| > 1 {
      SdnnThresholds(rr, sdnn);
    }
  }

  /** Without an insufficient-data branch, a rate of 0 (fewer than two peaks) is
      reported as bradycardia. */
  lemma ZeroRateIsBradycardia(rr: seq<real>)
    ensures NativeAnomalies(0.0, rr).bradicardia
    ensures NativeAnomalies(0.0, rr).alertas[0] == AlertBradycardia
  {
  }

  /** The record `detectar_anomalias` fills in and `procesar_audio_native` returns. */
  class ResultadoAnalisis {
    var bpm: real
    var bradicardia: bool
    var taquicardia: bool
    var irregularidad: bool
    var numPicos: nat
    var rrIntervals: seq<real>
    var alertas: seq<string>

    /** `ResultadoAnalisis R{}` followed by the explicit resets: zero rate, flags false, lists empty. */
    constructor ()
      ensures bpm == 0.0 && !bradicardia && !taquicardia && !irregularidad
      ensures numPicos == 0 && rrIntervals == [] && alertas == []
    {
      bpm := 0.0;
      bradicardia := false;
      taquicardia := false;
      irregularidad := false;
      numPicos := 0;
      rrIntervals := [];
      alertas := [];
    }

    /** The record as a value. */
    function Snapshot(): Analysis
      reads this
    {
      Analysis(bpm, numPicos, bradicardia, taquicardia, irregularidad, rrIntervals, alertas)
    }
  }

  /** `detectar_anomalias`: sets (never clears) the flags and appends the alerts of
      NativeAnomalies; the rate, count and intervals are left as they were. */
  method DetectarAnomalias(R: ResultadoAnalisis)
    modifies R
    ensures R.bpm == old(R.bpm) && R.numPicos == old(R.numPicos) && R.rrIntervals == old(R.rrIntervals)
    ensures R.bradicardia == (old(R.bradicardia) || NativeAnomalies(R.bpm, R.rrIntervals).bradicardia)
    ensures R.taquicardia == (old(R.taquicardia) || NativeAnomalies(R.bpm, R.rrIntervals).taquicardia)
    ensures R.irregularidad == (old(R.irregularidad) || NativeAnomalies(R.bpm, R.rrIntervals).irregularidad)
    ensures R.alertas == old(R.alertas) + NativeAnomalies(R.bpm, R.rrIntervals).alertas
  {
    if R.bpm < BradyBpm {
      R.bradicardia := true;
      R.alertas := R.alertas + [AlertBradycardia];
    }
    if R.bpm > TachyBpm {
      R.taquicardia := true;
      R.alertas := R.alertas + [AlertTachycardia];
    }
    var rr := R.rrIntervals;
    if |rr| > 1 {
      // The source takes sdnn = sqrt(variance) and compares it with 0.020 and 0.200;
      // the variance is compared with the squared bounds instead (see SdnnThresholds).
      var variance := PopulationVariance(rr);
      if variance < SdnnLow * SdnnLow {
        R.irregularidad := true;
        R.alertas := R.alertas + [AlertLowVariability];
      } else if variance > SdnnHigh * SdnnHigh {
        R.irregularidad := true;
        R.alertas := R.alertas + [AlertHighVariability];
      }
    }
  }

  /** The two accumulation loops of `detectar_anomalias`: the mean, then the sum of
      squared deviations from it, divided by the count. */
  method PopulationVariance(rr: seq<real>) returns (variance: real)
    requires |rr| > 0
    ensures variance == Variance(rr)
  {
    var mean := 0.0;
    for k := 0 to |rr|
      invariant mean == Sum(rr[..k])
    {
      SumPrefixSnoc(rr, k);
      mean := mean + rr[k];
    }
    assert rr[..|rr|] == rr;
    mean := mean / |rr| as real;
    ghost var dev := SquaredDeviations(rr, mean);
    var sdnn := 0.0;
    for k := 0 to |rr|
      invariant sdnn == Sum(dev[..k])
    {
      SumPrefixSnoc(dev, k);
      sdnn := sdnn + (rr[k] - mean) * (rr[k] - mean);
    }
    assert dev[..|rr|] == dev;
    variance := sdnn / |rr| as real;
  }

  // ================================================================ whole pipeline

  /** The rate `calcular_bpm_rr` gives for the peaks of the scan: 0 below two peaks. */
  function NativeRate(peaks: seq<int>, sr: nat): real
    requires sr > 0 && StrictlyIncreasing(peaks)
  {
    if |peaks| < 2 then 0.0
    else
      BpmFromSpan(peaks, sr);
      RatePerMinute(RRIntervals(peaks, sr))
  }

  /** The record built from the detected peaks: count, rate, intervals and anomalies. */
  function AnalysisOfPeaks(peaks: seq<int>, sr: nat): Analysis
    requires sr > 0 && StrictlyIncreasing(peaks)
  {
    var bpm := NativeRate(peaks, sr);
    var rr := RRIntervals(peaks, sr);
    var a := NativeAnomalies(bpm, rr);
    Analysis(bpm, |peaks|, a.bradicardia, a.taquicardia, a.irregularidad, rr, a.alertas)
  }

  /** What `procesar_audio_native` returns for a non-empty signal. */
  function NativeAnalysis(audio: seq<real>, sr: nat, dft: Transform): Analysis
    requires |audio| > 0 && sr > 0
  {
    AnalysisOfPeaks(GreedyPeaks(Envelope(FilteredSignal(audio, sr, dft), sr), sr), sr)
  }

  /** Peaks 0.8 s and 0.9 s apart at 10 Hz give a rate of 1200/17 ≈ 70.6 BPM and an
      SDNN of 50 ms: the native record then carries no alert at all. */
  lemma NativeAlertsCanBeEmpty()
    ensures StrictlyIncreasing([0, 8, 17])
    ensures AnalysisOfPeaks([0, 8, 17], 10).alertas == []
  {
    var peaks := [0, 8, 17];
    var rr := [0.8, 0.9];
    assert RRIntervals(peaks, 10)[0] == Interval(peaks, 0, 10) == 0.8;
    assert RRIntervals(peaks, 10)[1] == Interval(peaks, 1, 10) == 0.9;
    assert RRIntervals(peaks, 10) == rr;
    assert Mean(rr) == 0.85 by {
      assert rr[..1] == [0.8];
      assert [0.8][..0] == [];
    }
    var dev := SquaredDeviations(rr, 0.85);
    assert dev == [0.0025, 0.0025];
    assert Sum(dev) == 0.005 by {
      assert dev[..1] == [0.0025];
      assert [0.0025][..0] == [];
    }
    assert Classify(rr) == Moderate;
    var bpm := NativeRate(peaks, 10);
    BpmFromSpan(peaks, 10);
    assert bpm == 1200.0 / 17.0;
  }

  /** What the native record says about peaks as the scan returns them (increasing,
      at least ⌊sr/4⌋ apart): the count is the number of peaks and there is one interval
      fewer; below two peaks the rate is 0, there are no intervals and bradycardia is
      flagged; otherwise every interval is at least ⌊sr/4⌋ samples, i.e. ⌊sr/4⌋/sr
      seconds (a quarter second when 4 divides sr), and positive, and
      the rate is positive and at most 60·sr/⌊sr/4⌋ once sr >= 4. */
  lemma AnalysisOfPeaksFacts(peaks: seq<int>, sr: nat)
    requires sr > 0 && StrictlyIncreasing(peaks)
    requires forall k :: 0 <= k < |peaks| - 1 ==> peaks[k + 1] - peaks[k] >= PeakDistance(sr)
    ensures var r := AnalysisOfPeaks(peaks, sr);
      && r.numPicos == |peaks|
      && (r.numPicos < 2 ==> r.bpm == 0.0 && r.intervalosRR == [] && r.bradicardia)
      && (r.numPicos >= 2 ==>
            |r.intervalosRR| == r.numPicos - 1
            && (forall k :: 0 <= k < |r.intervalosRR| ==>
                  r.intervalosRR[k] >= PeakDistance(sr) as real / sr as real && r.intervalosRR[k] > 0.0)
            && r.bpm > 0.0
            && (sr >= 4 ==> r.bpm <= 60.0 * sr as real / PeakDistance(sr) as real))
  {
    if |peaks| >= 2 {
      RRAtLeast(peaks, sr, PeakDistance(sr));
      RRPositive(peaks, sr);
      BpmFromSpan(peaks, sr);
      if sr >= 4 {
        BpmAtMost(peaks, sr, PeakDistance(sr));
      }
    }
  }

  /** The facts above hold for every record `procesar_audio_native` returns. */
  lemma NativeAnalysisFacts(audio: seq<real>, sr: nat, dft: Transform)
    requires |audio| > 0 && sr > 0
    ensures var r := NativeAnalysis(audio, sr, dft);
      && (r.numPicos < 2 ==> r.bpm == 0.0 && r.intervalosRR == [] && r.bradicardia)
      && (r.numPicos >= 2 ==>
            |r.intervalosRR| == r.numPicos - 1
            && (forall k :: 0 <= k < |r.intervalosRR| ==>
                  r.intervalosRR[k] >= PeakDistance(sr) as real / sr as real && r.intervalosRR[k] > 0.0)
            && r.bpm > 0.0
            && (sr >= 4 ==> r.bpm <= 60.0 * sr as real / PeakDistance(sr) as real))
  {
    var peaks := GreedyPeaks(Envelope(FilteredSignal(audio, sr, dft), sr), sr);
    AnalysisOfPeaksFacts(peaks, sr);
  }

  /** Steps 4 and 5 of `procesar_audio_native`: a fresh record whose flags start false
      receives the peak count, the rate and the intervals, then the anomalies. */
  method AnalizarPicos(peaks: seq<int>, sr: nat) returns (result: Analysis)
    requires sr > 0 && StrictlyIncreasing(peaks)
    ensures result == AnalysisOfPeaks(peaks, sr)
  {
    var R := new ResultadoAnalisis();
    R.numPicos := |peaks|;
    var bpm, rr := CalcularBpmRr(peaks, sr);
    R.bpm := bpm;
    R.rrIntervals := rr;
    DetectarAnomalias(R);
    result := R.Snapshot();
  }

  /** `procesar_audio_native`: filter, envelope, peaks, then rate and anomalies. */
  method ProcesarAudioNative(audio: seq<real>, sr: nat, dft: Transform) returns (result: Analysis)
    requires |audio| > 0 && sr > 0
    ensures result == NativeAnalysis(audio, sr, dft)
  {
    var filtrado := FiltrarFrecuencias(audio, sr, dft);
    var env := CalcularEnvolvente(filtrado, sr);
    var peaks := DetectarPicos(env, sr);
    result := AnalizarPicos(peaks, sr);
  }
}
