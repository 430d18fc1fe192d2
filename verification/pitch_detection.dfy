/**
 * `PitchDetector.detectFrequency`: autocorrelation pitch estimation over one
 * audio frame at the detector's current sample rate. Samples and the rate are
 * real numbers; the audio buffer itself is the sequence of channel-0 samples.
 */
module PitchDetection {
  import opened Wrappers

  const MinFrameLength := 1024
  const MinFrequency: real := 60.0
  const MaxFrequency: real := 1000.0
  /** Upper end of the reported range (wider than the lag window's 1000 Hz). */
  const MaxReported: real := 1300.0
  const ConfidenceThreshold: real := 0.01

  datatype Detector = Detector(sampleRate: real)

  /** `updateSampleRate`: the rate is the detector's only state. */
  function UpdateSampleRate(d: Detector, rate: real): (r: Detector)
    ensures r.sampleRate == rate
  {
    d.(sampleRate := rate)
  }

  /** The shortest lag searched: the period of 1000 Hz in samples, at least 1. */
  function MinLag(sampleRate: real): (r: int)
    ensures r >= 1
    ensures sampleRate >= MaxFrequency ==> r as real <= sampleRate / MaxFrequency < r as real + 1.0
    ensures sampleRate < 2.0 * MaxFrequency ==> r == 1
  {
    Max(1, Trunc(sampleRate / MaxFrequency))
  }

  /** The longest lag searched: the period of 60 Hz in samples, capped by the frame. */
  function MaxLag(sampleRate: real, frameLength: nat): (r: int)
    ensures r <= frameLength - 1
    ensures sampleRate >= 0.0 ==> r as real <= sampleRate / MinFrequency
    ensures sampleRate >= 0.0 ==> r == frameLength - 1 || sampleRate / MinFrequency < r as real + 1.0
    ensures sampleRate >= 0.0 && frameLength >= 1 ==> r >= 0
  {
    Min(Trunc(sampleRate / MinFrequency), frameLength - 1)
  }

  /** Σ_{i < n} x[i] · x[i + lag]. */
  function PartialSum(x: seq<real>, lag: nat, n: nat): real
    requires n + lag <= |x|
  {
    if n == 0 then 0.0 else PartialSum(x, lag, n - 1) + x[n - 1] * x[n - 1 + lag]
  }

  /** The raw autocorrelation at `lag`, summed over every valid index. */
  function Autocorrelation(x: seq<real>, lag: nat): real
    requires lag <= |x|
  {
    PartialSum(x, lag, |x| - lag)
  }

  /**
   * `lag` is the first lag of [lo, hi] whose autocorrelation is maximal, and
   * that maximum is positive.
   */
  ghost predicate IsBestLag(x: seq<real>, lo: int, hi: int, lag: int)
    requires 0 <= lo && hi < |x|
  {
    && lo <= lag <= hi
    && Autocorrelation(x, lag) > 0.0
    && (forall l :: lo <= l <= hi ==> Autocorrelation(x, l) <= Autocorrelation(x, lag))
    && (forall l :: lo <= l < lag ==> Autocorrelation(x, l) < Autocorrelation(x, lag))
  }

  /**
   * The search loop's state (bestLag, maxAutocorr) after visiting lags
   * lo .. k-1, starting from (0, 0): only a strictly larger sum replaces
   * the current best.
   */
  function Scan(x: seq<real>, lo: nat, k: nat): (r: (nat, real))
    requires lo <= k <= |x|
    ensures r.1 >= 0.0
    ensures r.1 == 0.0 ==> r.0 == 0 && forall l :: lo <= l < k ==> Autocorrelation(x, l) <= 0.0
    ensures r.1 > 0.0 ==>
      && lo <= r.0 < k
      && r.1 == Autocorrelation(x, r.0)
      && (forall l :: lo <= l < k ==> Autocorrelation(x, l) <= r.1)
      && (forall l :: lo <= l < r.0 ==> Autocorrelation(x, l) < r.1)
    decreases k
  {
    if k == lo then (0, 0.0)
    else
      var prev := Scan(x, lo, k - 1);
      var sum := Autocorrelation(x, k - 1);
      if sum > prev.1 then (k - 1, sum) else prev
  }

  /**
   * The detector's answer for frame `x` at `sampleRate`: no pitch for a short
   * frame, a degenerate lag window, a weak best correlation, or a frequency
   * outside [60, 1300] Hz.
   */
  function Detect(x: seq<real>, sampleRate: real): (r: Option<real>)
    ensures |x| < MinFrameLength ==> r.None?
    ensures MinLag(sampleRate) >= MaxLag(sampleRate, |x|) ==> r.None?
    ensures r.Some? ==> MinFrequency <= r.value <= MaxReported
    ensures r.Some? ==> exists lag ::
      && IsBestLag(x, MinLag(sampleRate), MaxLag(sampleRate, |x|), lag)
      && Autocorrelation(x, lag) > ConfidenceThreshold
      && r.value == sampleRate / lag as real
  {
    if |x| < MinFrameLength then None
    else
      var lo := MinLag(sampleRate);
      var hi := MaxLag(sampleRate, |x|);
      if lo >= hi then None
      else
        var best := Scan(x, lo, hi + 1);
        if best.1 <= ConfidenceThreshold then None
        else
          var frequency := sampleRate / best.0 as real;
          if frequency < MinFrequency || frequency > MaxReported then None
          else
            assert IsBestLag(x, lo, hi, best.0);
            Some(frequency)
  }

  /** Two lags that are both the first maximum of the same window coincide. */
  lemma BestLagUnique(x: seq<real>, lo: int, hi: int, a: int, b: int)
    requires 0 <= lo && hi < |x|
    requires IsBestLag(x, lo, hi, a) && IsBestLag(x, lo, hi, b)
    ensures a == b
  {
  }

  /**
   * Conversely, whenever the window is valid and its best lag is confident
   * and maps into range, that frequency is what the detector reports.
   */
  lemma DetectComplete(x: seq<real>, sampleRate: real, lag: int)
    requires |x| >= MinFrameLength
    requires MinLag(sampleRate) < MaxLag(sampleRate, |x|)
    requires IsBestLag(x, MinLag(sampleRate), MaxLag(sampleRate, |x|), lag)
    requires Autocorrelation(x, lag) > ConfidenceThreshold
    requires MinFrequency <= sampleRate / lag as real <= MaxReported
    ensures Detect(x, sampleRate) == Some(sampleRate / lag as real)
  {
    var lo, hi := MinLag(sampleRate), MaxLag(sampleRate, |x|);
    var best := Scan(x, lo, hi + 1);
    assert best.1 > 0.0;
    assert IsBestLag(x, lo, hi, best.0);
    BestLagUnique(x, lo, hi, lag, best.0);
  }

  /** When no lag of the window correlates above 0.01 there is no pitch. */
  lemma WeakSignalHasNoPitch(x: seq<real>, sampleRate: real)
    requires forall l :: MinLag(sampleRate) <= l <= MaxLag(sampleRate, |x|) ==> Autocorrelation(x, l) <= ConfidenceThreshold
    ensures Detect(x, sampleRate).None?
  {
  }

  lemma {:induction false} PartialSumOfSilence(x: seq<real>, lag: nat, n: nat)
    requires n + lag <= |x|
    requires forall i :: 0 <= i < |x| ==> x[i] == 0.0
    ensures PartialSum(x, lag, n) == 0.0
    decreases n
  {
    if n > 0 {
      PartialSumOfSilence(x, lag, n - 1);
    }
  }

  /** An all-zero frame has every autocorrelation 0, so it yields no pitch. */
  lemma SilenceHasNoPitch(x: seq<real>, sampleRate: real)
    requires forall i :: 0 <= i < |x| ==> x[i] == 0.0
    ensures Detect(x, sampleRate).None?
  {
    forall l | MinLag(sampleRate) <= l <= MaxLag(sampleRate, |x|)
      ensures Autocorrelation(x, l) <= ConfidenceThreshold
    {
      PartialSumOfSilence(x, l, |x| - l);
    }
    WeakSignalHasNoPitch(x, sampleRate);
  }

  /** The inner loop: the products x[i] · x[i + lag] summed in index order. */
  method SumProducts(samples: seq<real>, lag: nat) returns (sum: real)
    requires lag <= |samples|
    ensures sum == Autocorrelation(samples, lag)
  {
    sum := 0.0;
    var i := 0;
    while i < |samples| - lag
      invariant 0 <= i <= |samples| - lag
      invariant sum == PartialSum(samples, lag, i)
    {
      sum := sum + samples[i] * samples[i + lag];
      i := i + 1;
    }
  }

  /** The lag loop: keeps the first lag whose sum strictly beats the best so far. */
  method SearchBestLag(samples: seq<real>, minLag: nat, maxLag: nat) returns (bestLag: nat, maxAutocorr: real)
    requires minLag <= maxLag < |samples|
    ensures bestLag == Scan(samples, minLag, maxLag + 1).0
    ensures maxAutocorr == Scan(samples, minLag, maxLag + 1).1
  {
    maxAutocorr := 0.0;
    bestLag := 0;
    var lag := minLag;
    while lag <= maxLag
      invariant minLag <= lag <= maxLag + 1
      invariant bestLag == Scan(samples, minLag, lag).0
      invariant maxAutocorr == Scan(samples, minLag, lag).1
    {
      var sum := SumProducts(samples, lag);
      if sum > maxAutocorr {
        maxAutocorr := sum;
        bestLag := lag;
      }
      lag := lag + 1;
    }
  }

  /**
   * The detector as the source writes it: the frame-length guard, the lag
   * window, the lag search, then the confidence and range gates.
   */
  method DetectFrequency(d: Detector, samples: seq<real>) returns (r: Option<real>)
    ensures r == Detect(samples, d.sampleRate)
    ensures r.Some? ==> MinFrequency <= r.value <= MaxReported
  {
    var frameLength := |samples|;
    if frameLength < MinFrameLength {
      return None;
    }
    var minLag := MinLag(d.sampleRate);
    var maxLag := MaxLag(d.sampleRate, frameLength);
    if minLag >= maxLag {
      return None;
    }
    var bestLag, maxAutocorr := SearchBestLag(samples, minLag, maxLag);
    if maxAutocorr <= ConfidenceThreshold {
      return None;
    }
    var frequency := d.sampleRate / bestLag as real;
    if frequency < MinFrequency || frequency > MaxReported {
      return None;
    }
    return Some(frequency);
  }
}
