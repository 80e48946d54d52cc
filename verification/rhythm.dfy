/** Rules and records that the reference pipeline (audio_processor.py) and the
    native pipeline (cardiac_native.cpp) share: the 20-200 Hz band, the peak
    spacing, RR intervals, the rate and variability thresholds, and the
    result record handed back to the web layer. */
module Rhythm {
  import opened Numeric

  // ---------------------------------------------------------------- constants

  const LowHz: real := 20.0
  const HighHz: real := 200.0
  /** Below this rate: bradycardia. */
  const BradyBpm: real := 60.0
  /** Above this rate: tachycardia. */
  const TachyBpm: real := 100.0
  /** SDNN bounds in seconds (20 ms and 200 ms). */
  const SdnnLow: real := 0.020
  const SdnnHigh: real := 0.200
  /** A peak must exceed this fraction of the envelope's maximum. */
  const HeightFactor: real := 0.4

  // ---------------------------------------------------------------- band mask

  /** Frequency in Hz of bin k of an n-point transform at sr samples per second. */
  function BinFrequency(k: nat, n: nat, sr: nat): real
    requires n > 0
  {
    (k * sr) as real / n as real
  }

  predicate InBand(f: real) {
    LowHz <= f <= HighHz
  }

  /** Bin k is in the band exactly when 20·n <= k·sr <= 200·n: both bounds inclusive. */
  lemma BandBinBounds(k: nat, n: nat, sr: nat)
    requires n > 0
    ensures InBand(BinFrequency(k, n, sr)) <==> 20 * n <= k * sr <= 200 * n
  {
    var f := BinFrequency(k, n, sr);
    var ks := k * sr;
    ScaledBound(f, n as real, ks as real, LowHz);
    ScaledBound(f, n as real, ks as real, HighHz);
    assert 20 * n <= ks <==> (20 * n) as real <= ks as real;
    assert ks <= 200 * n <==> ks as real <= (200 * n) as real;
  }

  /** The bins whose frequency lies in the band form one contiguous run. */
  lemma BandIsContiguous(k1: nat, k: nat, k2: nat, n: nat, sr: nat)
    requires n > 0 && k1 <= k <= k2
    requires InBand(BinFrequency(k1, n, sr)) && InBand(BinFrequency(k2, n, sr))
    ensures InBand(BinFrequency(k, n, sr))
  {
    BandBinBounds(k1, n, sr);
    BandBinBounds(k, n, sr);
    BandBinBounds(k2, n, sr);
    assert k1 * sr <= k * sr <= k2 * sr;
  }

  // ---------------------------------------------------------------- peak spacing

  /** Minimum distance between peaks, `int(0.25 * sample_rate)`: ⌊sr/4⌋ samples (a quarter
      second when 4 divides sr). */
  function PeakDistance(sr: nat): (d: nat)
    ensures 4 * d <= sr < 4 * d + 4
  {
    sr / 4
  }

  // ---------------------------------------------------------------- RR intervals

  /** Seconds between peak k and peak k + 1. */
  function Interval(peaks: seq<int>, k: nat, sr: nat): real
    requires k + 1 < |peaks| && sr > 0
  {
    (peaks[k + 1] - peaks[k]) as real / sr as real
  }

  /** One interval per consecutive pair of peaks; none for fewer than two peaks. */
  function RRIntervals(peaks: seq<int>, sr: nat): (rr: seq<real>)
    requires sr > 0
    ensures |rr| == if |peaks| < 2 then 0 else |peaks| - 1
  {
    if |peaks| < 2 then []
    else seq(|peaks| - 1, k requires 0 <= k < |peaks| - 1 => Interval(peaks, k, sr))
  }

  /** The intervals telescope: together they span the first to the last peak. */
  lemma {:induction false} RRTelescopes(peaks: seq<int>, sr: nat)
    requires sr > 0 && |peaks| >= 2
    ensures Sum(RRIntervals(peaks, sr)) * sr as real == (peaks[|peaks| - 1] - peaks[0]) as real
  {
    var n := |peaks|;
    var rr := RRIntervals(peaks, sr);
    var last := Interval(peaks, n - 2, sr);
    assert last * sr as real == (peaks[n - 1] - peaks[n - 2]) as real;
    if n == 2 {
      assert rr[..0] == [];
    } else {
      var front := peaks[..n - 1];
      RRTelescopes(front, sr);
      assert rr[..n - 2] == RRIntervals(front, sr);
      calc {
        Sum(rr) * sr as real;
        (Sum(rr[..n - 2]) + last) * sr as real;
        Sum(RRIntervals(front, sr)) * sr as real + last * sr as real;
        (peaks[n - 2] - peaks[0]) as real + (peaks[n - 1] - peaks[n - 2]) as real;
      }
    }
  }

  /** Strictly increasing peaks give strictly positive intervals. */
  lemma RRPositive(peaks: seq<int>, sr: nat)
    requires sr > 0 && StrictlyIncreasing(peaks)
    ensures forall k :: 0 <= k < |RRIntervals(peaks, sr)| ==> RRIntervals(peaks, sr)[k] > 0.0
  {
    forall k | 0 <= k < |peaks| - 1
      ensures Interval(peaks, k, sr) > 0.0
    {
      assert peaks[k] < peaks[k + 1];
    }
  }

  /** Peaks at least d samples apart give intervals of at least d / sr seconds. */
  lemma RRAtLeast(peaks: seq<int>, sr: nat, d: nat)
    requires sr > 0
    requires forall k :: 0 <= k < |peaks| - 1 ==> peaks[k + 1] - peaks[k] >= d
    ensures forall k :: 0 <= k < |RRIntervals(peaks, sr)| ==>
      RRIntervals(peaks, sr)[k] >= d as real / sr as real
  {
    forall k | 0 <= k < |peaks| - 1
      ensures Interval(peaks, k, sr) >= d as real / sr as real
    {
      assert (peaks[k + 1] - peaks[k]) as real >= d as real;
      DivideMonotone((peaks[k + 1] - peaks[k]) as real, d as real, sr as real);
    }
  }

  lemma DivideMonotone(a: real, b: real, c: real)
    requires a >= b && c > 0.0
    ensures a / c >= b / c
  {
    assert a / c - b / c == (a - b) / c;
  }

  // ---------------------------------------------------------------- rate

  /** `60 / mean(rr)`: beats per minute from the mean RR interval. */
  function RatePerMinute(rr: seq<real>): real
    requires |rr| > 0 && Mean(rr) != 0.0
  {
    60.0 / Mean(rr)
  }

  /** With strictly increasing peaks the mean interval is positive, so `60 / mean` is a
      positive rate, and it equals 60·sr·(peaks − 1) / (last − first). */
  lemma BpmFromSpan(peaks: seq<int>, sr: nat)
    requires sr > 0 && |peaks| >= 2 && StrictlyIncreasing(peaks)
    ensures Mean(RRIntervals(peaks, sr)) > 0.0
    ensures RatePerMinute(RRIntervals(peaks, sr))
         == 60.0 * sr as real * (|peaks| - 1) as real / (peaks[|peaks| - 1] - peaks[0]) as real
    ensures RatePerMinute(RRIntervals(peaks, sr)) > 0.0
  {
    var rr := RRIntervals(peaks, sr);
    var span := (peaks[|peaks| - 1] - peaks[0]) as real;
    var n := (|peaks| - 1) as real;
    var srr := sr as real;
    RRTelescopes(peaks, sr);
    assert peaks[0] < peaks[|peaks| - 1];
    var m := Mean(rr);
    assert m * n == Sum(rr);
    assert m * (n * srr) == span;
    MulMonotone(0.0, m, n * srr);
    var b := 60.0 / m;
    assert b * m == 60.0;
    assert b * span == 60.0 * (n * srr);
    DivUnique(60.0 * srr * n, span, b);
    MulMonotone(0.0, b, m);
  }

  /** Peaks at least d > 0 samples apart cap the rate at 60·sr/d beats per minute. */
  lemma BpmAtMost(peaks: seq<int>, sr: nat, d: nat)
    requires sr > 0 && d > 0 && |peaks| >= 2
    requires forall k :: 0 <= k < |peaks| - 1 ==> peaks[k + 1] - peaks[k] >= d
    ensures Mean(RRIntervals(peaks, sr)) >= d as real / sr as real > 0.0
    ensures RatePerMinute(RRIntervals(peaks, sr)) <= 60.0 * sr as real / d as real
  {
    var rr := RRIntervals(peaks, sr);
    var lo := d as real / sr as real;
    RRAtLeast(peaks, sr, d);
    SumLowerBound(rr, lo);
    MeanAtLeast(rr, lo);
    assert lo * sr as real == d as real;
    MulMonotone(0.0, lo, sr as real);
    RateCap(Mean(rr), d as real, sr as real);
  }

  /** A mean is at least any lower bound on the sum divided by the count. */
  lemma MeanAtLeast(s: seq<real>, lo: real)
    requires |s| > 0 && |s| as real * lo <= Sum(s)
    ensures Mean(s) >= lo
  {
    var m := Mean(s);
    assert m * |s| as real == Sum(s);
    MulMonotone(lo, m, |s| as real);
  }

  /** A mean interval of at least d / sr seconds is a rate of at most 60·sr/d. */
  lemma RateCap(m: real, d: real, sr: real)
    requires d > 0.0 && sr > 0.0 && m >= d / sr
    ensures 60.0 / m <= 60.0 * sr / d
  {
    var lo := d / sr;
    assert lo * sr == d;
    MulMonotone(0.0, lo, sr);
    DivAntitone(60.0, lo, m);
    var q := 60.0 / lo;
    assert q * lo == 60.0;
    assert q * d == q * lo * sr;
    DivUnique(60.0 * sr, d, q);
  }

  // ---------------------------------------------------------------- variability

  /** Where the spread of the RR intervals falls against the 20 ms and 200 ms SDNN bounds. */
  datatype Variability = VeryLow | VeryHigh | Moderate

  /** The classification compares the population variance with the squared bounds;
      SdnnThresholds shows that this is the comparison of SDNN itself. */
  function Classify(rr: seq<real>): Variability
    requires |rr| > 0
  {
    var v := Variance(rr);
    if v < SdnnLow * SdnnLow then VeryLow
    else if v > SdnnHigh * SdnnHigh then VeryHigh
    else Moderate
  }

  /** For the SDNN `sdnn = sqrt(variance)`: VeryLow exactly when SDNN < 20 ms and
      VeryHigh exactly when SDNN > 200 ms. */
  lemma SdnnThresholds(rr: seq<real>, sdnn: real)
    requires |rr| > 0 && sdnn >= 0.0 && sdnn * sdnn == Variance(rr)
    ensures Classify(rr) == VeryLow <==> sdnn < SdnnLow
    ensures Classify(rr) == VeryHigh <==> sdnn > SdnnHigh
  {
    SquareMonotone(sdnn, SdnnLow);
    SquareMonotone(sdnn, SdnnHigh);
  }

  /** For non-negative x and c: x < c exactly when x² < c², and x > c exactly when x² > c². */
  lemma SquareMonotone(x: real, c: real)
    requires x >= 0.0 && c >= 0.0
    ensures x < c <==> x * x < c * c
    ensures x > c <==> x * x > c * c
  {
    if x < c {
      SquareStrict(x, c);
    } else if x > c {
      SquareStrict(c, x);
    }
  }

  // ---------------------------------------------------------------- records

  /** Alert texts that both implementations emit verbatim. */
  const AlertBradycardia: string := "Bradicardia detectada (BPM < 60)"
  const AlertTachycardia: string := "Taquicardia detectada (BPM > 100)"

  /** The flags and alert texts produced by an anomaly classifier. */
  datatype Anomalies = Anomalies(
    bradicardia: bool,
    taquicardia: bool,
    irregularidad: bool,
    alertas: seq<string>)

  /** The result record: keys `bpm`, `num_picos`, `bradicardia`, `taquicardia`,
      `irregularidad`, `intervalos_rr`, `alertas`. */
  datatype Analysis = Analysis(
    bpm: real,
    numPicos: nat,
    bradicardia: bool,
    taquicardia: bool,
    irregularidad: bool,
    intervalosRR: seq<real>,
    alertas: seq<string>)
}
