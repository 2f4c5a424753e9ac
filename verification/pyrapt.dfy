/** The first half of the RAPT pitch tracker (pyrapt/pyrapt.py): the
    downsampling-rate formula, keyword-argument parameter setup, the framing
    values of an NCCF pass and the first-pass normalized cross-correlation
    table over the downsampled signal.

    A signal is its sample rate and a sequence of sample values; values and
    correlations are exact reals. */
module Pyrapt {
  import opened PyNumeric
  import opened RaptParameters
  import opened NccfParameters

  datatype RaptError = ValueError(message: string)

  datatype Result<T> = Ok(value: T) | Err(error: RaptError)

  // ---------------------------------------------------------------------------
  // Downsampling rate (pyrapt/pyrapt.py:102-121)

  /** The rate the signal is downsampled to for the first pass:
      r / round(r / (4 * F0_max)) with Python 2 integer division inside, float
      division outside and int() truncation of the quotient. A zero divisor,
      inner or outer, is reported as a ValueError. */
  function DownsamplingRate(initialSamplingRate: int, maximumF0: int): (rate: Result<int>)
    ensures rate.Ok? ==> maximumF0 != 0
  {
    if maximumF0 == 0 then
      Err(ValueError("Ratio of sampling rate and max F0 leads to division by zero."))
    else
      var ratio := FloorDiv(initialSamplingRate, 4 * maximumF0);
      if ratio == 0 then
        Err(ValueError("Ratio of sampling rate and max F0 leads to division by zero."))
      else
        Ok(TruncDiv(initialSamplingRate, ratio))
  }

  // ---------------------------------------------------------------------------
  // Parameter setup (pyrapt/pyrapt.py:44-58)

  /** The keyword arguments the setup recognises; every other key is ignored. */
  const OverridableKeys: set<string> :=
    {"maximum_allowed_freq", "minimum_allowed_freq", "frame_step_size", "correlation_window_size"}

  /** The value a field ends up with: the keyword argument named key if there
      is one, else the field's default. */
  function Override(kwargs: map<string, real>, key: string, fallback: real): (v: real)
  {
    if key in kwargs then kwargs[key] else fallback
  }

  /** Builds a default parameter record and overwrites the four recognised
      fields from the keyword arguments, visiting the keys in no particular
      order (a Python dict has none). */
  method SetupRaptParams(kwargs: map<string, real>) returns (params: Raptparams)
    ensures fresh(params)
    ensures params.maximumAllowedFreq == Override(kwargs, "maximum_allowed_freq", DefaultMaximumAllowedFreq)
    ensures params.minimumAllowedFreq == Override(kwargs, "minimum_allowed_freq", DefaultMinimumAllowedFreq)
    ensures params.frameStepSize == Override(kwargs, "frame_step_size", DefaultFrameStepSize)
    ensures params.correlationWindowSize == Override(kwargs, "correlation_window_size", DefaultCorrelationWindowSize)
    ensures params.maxHypothesesPerFrame == DefaultMaxHypothesesPerFrame
    ensures params.minAcceptablePeakVal == DefaultMinAcceptablePeakVal
    ensures params.additiveConstant == DefaultAdditiveConstant
  {
    params := new Raptparams();
    var remaining := kwargs.Keys;
    while remaining != {}
      invariant remaining <= kwargs.Keys
      invariant params.maximumAllowedFreq == Override(kwargs - remaining, "maximum_allowed_freq", DefaultMaximumAllowedFreq)
      invariant params.minimumAllowedFreq == Override(kwargs - remaining, "minimum_allowed_freq", DefaultMinimumAllowedFreq)
      invariant params.frameStepSize == Override(kwargs - remaining, "frame_step_size", DefaultFrameStepSize)
      invariant params.correlationWindowSize == Override(kwargs - remaining, "correlation_window_size", DefaultCorrelationWindowSize)
      invariant params.maxHypothesesPerFrame == DefaultMaxHypothesesPerFrame
      invariant params.minAcceptablePeakVal == DefaultMinAcceptablePeakVal
      invariant params.additiveConstant == DefaultAdditiveConstant
      decreases remaining
    {
      var key :| key in remaining;
      var value := kwargs[key];
      if key == "maximum_allowed_freq" {
        params.maximumAllowedFreq := value;
      }
      if key == "minimum_allowed_freq" {
        params.minimumAllowedFreq := value;
      }
      if key == "frame_step_size" {
        params.frameStepSize := value;
      }
      if key == "correlation_window_size" {
        params.correlationWindowSize := value;
      }
      remaining := remaining - {key};
    }
    assert kwargs - {} == kwargs;
  }

  // ---------------------------------------------------------------------------
  // Framing values of an NCCF pass (pyrapt/pyrapt.py:174-198)

  /** The divisions of the framing formulas are defined: F0_max on the first
      pass, F0_min always, and z = int(t * rate) as the frame-count divisor. */
  predicate NccfParamsDefined(rate: int, params: Raptparams, isFirstPass: bool)
    reads params
  {
    && (isFirstPass ==> params.maximumAllowedFreq != 0.0)
    && params.minimumAllowedFreq != 0.0
    && Trunc(params.frameStepSize * rate as real) != 0
  }

  /** n = int(w * rate), k = int(rate / F0_max) on the first pass and 0
      otherwise, K = int(rate / F0_min), z = int(t * rate) and
      M - 1 = int(length / z) - 1. */
  function GetNccfParams(rate: int, length: nat, params: Raptparams, isFirstPass: bool): (np: Nccfparams)
    reads params
    requires NccfParamsDefined(rate, params, isFirstPass)
    // M - 1 is one less than the number of whole frames: M frames of z samples
    // fit in the signal and M + 1 do not
    ensures np.samplesPerFrame > 0 ==>
              (np.maxFrameCount + 1) * np.samplesPerFrame <= length < (np.maxFrameCount + 2) * np.samplesPerFrame
  {
    var z := Trunc(params.frameStepSize * rate as real);
    var np := Nccfparams(
      Trunc(params.correlationWindowSize * rate as real),
      if isFirstPass then Trunc(rate as real / params.maximumAllowedFreq) else 0,
      Trunc(rate as real / params.minimumAllowedFreq),
      z,
      TruncDiv(length, z) - 1);
    if z > 0 then
      DivisionsAgreeOnNaturals(length, z);
      QuotientBounds(length, z);
      np
    else
      np
  }

  // ---------------------------------------------------------------------------
  // The NCCF terms, as sums (pyrapt/pyrapt.py:201-265)

  /** x[lo] + ... + x[hi - 1], added from left to right; 0 when hi <= lo. */
  function WindowSum(x: seq<real>, lo: int, hi: int): (sum: real)
    requires 0 <= lo && hi <= |x|
    decreases hi - lo
  {
    if hi <= lo then 0.0 else WindowSum(x, lo, hi - 1) + x[hi - 1]
  }

  /** The frame window [m, m + n) is non-empty and inside the signal. */
  predicate FrameWindow(x: seq<real>, m: int, n: int)
  {
    0 <= m && 0 < n && m + n <= |x|
  }

  /** u_i: the mean of the n samples that start the frame at m. */
  function WindowMean(x: seq<real>, m: int, n: int): (mean: real)
    requires FrameWindow(x, m, n)
  {
    (1.0 / n as real) * WindowSum(x, m, m + n)
  }

  /** d(idx) = x[m + idx] - u_i: the mean subtracted is the frame window's,
      whatever the index. */
  function Demeaned(x: seq<real>, m: int, n: int, idx: int): (d: real)
    requires FrameWindow(x, m, n) && 0 <= m + idx < |x|
  {
    x[m + idx] - WindowMean(x, m, n)
  }

  /** The numerator: d(0) * d(lag) + ... + d(count - 1) * d(count - 1 + lag). */
  function CrossSum(x: seq<real>, m: int, n: int, lag: nat, count: nat): (sum: real)
    requires FrameWindow(x, m, n) && m + lag + count <= |x|
  {
    if count == 0 then 0.0
    else CrossSum(x, m, n, lag, count - 1)
         + Demeaned(x, m, n, count - 1) * Demeaned(x, m, n, count - 1 + lag)
  }

  /** e_start: d(start)^2 + ... + d(start + count - 1)^2. */
  function Energy(x: seq<real>, m: int, n: int, start: nat, count: nat): (e: real)
    requires FrameWindow(x, m, n) && m + start + count <= |x|
  {
    if count == 0 then 0.0
    else Energy(x, m, n, start, count - 1)
         + Demeaned(x, m, n, start + count - 1) * Demeaned(x, m, n, start + count - 1)
  }

  /** The correlation of the frame at m with itself lag samples later: the
      numerator over e_0 * e_lag, with no square root. */
  function NccfValue(x: seq<real>, m: int, n: int, lag: nat): (c: real)
    requires FrameWindow(x, m, n) && m + lag + n <= |x|
    requires Energy(x, m, n, 0, n) != 0.0 && Energy(x, m, n, lag, n) != 0.0
  {
    Normalised(CrossSum(x, m, n, lag, n), Energy(x, m, n, 0, n), Energy(x, m, n, lag, n))
  }

  /** The numerator divided by the product of the two energies. */
  function Normalised(numerator: real, e0: real, eLag: real): (q: real)
    requires e0 != 0.0 && eLag != 0.0
  {
    numerator / (e0 * eLag)
  }

  lemma {:induction false} EnergyNonNegative(x: seq<real>, m: int, n: int, start: nat, count: nat)
    requires FrameWindow(x, m, n) && m + start + count <= |x|
    ensures Energy(x, m, n, start, count) >= 0.0
  {
    if count > 0 {
      EnergyNonNegative(x, m, n, start, count - 1);
      var d := Demeaned(x, m, n, start + count - 1);
      assert d * d >= 0.0;
    }
  }

  // ---------------------------------------------------------------------------
  // The first-pass table (pyrapt/pyrapt.py:135-171)

  /** Framing the first pass can run with: lags are not negative, frames have
      a positive size and both table dimensions are non-negative. */
  predicate FirstPassFraming(np: Nccfparams)
  {
    && np.shortestLagPerFrame >= 0
    && np.samplesPerFrame > 0
    && np.maxFrameCount >= 0
    && np.LagRange() >= 0
  }

  /** The skip test of cell (i, col): the last sample the lag window reads,
      lag + n - 1 + i * z, is at or past the end of the signal. */
  predicate Skips(np: Nccfparams, length: int, i: int, col: int)
  {
    (col + np.shortestLagPerFrame) + (np.samplesCorrelatedPerLag - 1)
      + i * np.samplesPerFrame >= length
  }

  /** A cell that is not skipped has a non-zero denominator e_0 * e_lag (the
      source divides by it unguarded). */
  predicate DenominatorNonZero(x: seq<real>, np: Nccfparams, i: nat, col: nat)
    requires FirstPassFraming(np) && !Skips(np, |x|, i, col)
  {
    var m, n, lag := i * np.samplesPerFrame, np.samplesCorrelatedPerLag, col + np.shortestLagPerFrame;
    n > 0 && Energy(x, m, n, 0, n) != 0.0 && Energy(x, m, n, lag, n) != 0.0
  }

  predicate NonZeroDenominators(x: seq<real>, np: Nccfparams)
    requires FirstPassFraming(np)
  {
    forall i: nat, col: nat | i < np.maxFrameCount && col < np.LagRange() && !Skips(np, |x|, i, col) ::
      DenominatorNonZero(x, np, i, col)
  }

  /** The value of cell (i, col) of the first-pass table: 0 when skipped,
      otherwise the correlation of frame i at lag col + k. */
  function Cell(x: seq<real>, np: Nccfparams, i: nat, col: nat): (c: real)
    requires FirstPassFraming(np)
    requires !Skips(np, |x|, i, col) ==> DenominatorNonZero(x, np, i, col)
  {
    if Skips(np, |x|, i, col) then 0.0
    else NccfValue(x, i * np.samplesPerFrame, np.samplesCorrelatedPerLag, col + np.shortestLagPerFrame)
  }

  /** x_{m+index} - u_i for the frame starting at m = frame * z. */
  method GetSample(x: seq<real>, frame: int, correlationIndex: int, np: Nccfparams) returns (d: real)
    requires FrameWindow(x, frame * np.samplesPerFrame, np.samplesCorrelatedPerLag)
    requires 0 <= frame * np.samplesPerFrame + correlationIndex < |x|
    ensures d == Demeaned(x, frame * np.samplesPerFrame, np.samplesCorrelatedPerLag, correlationIndex)
  {
    var frameStart := frame * np.samplesPerFrame;
    var currentSampleIndex := frameStart + correlationIndex;
    var currentSample := x[currentSampleIndex];
    var lastSampleInFrame := frameStart + np.samplesCorrelatedPerLag;
    var frameSampleSum := 0.0;
    for j := frameStart to lastSampleInFrame
      invariant frameSampleSum == WindowSum(x, frameStart, j)
    {
      frameSampleSum := frameSampleSum + x[j];
    }
    var meanForWindow := (1.0 / np.samplesCorrelatedPerLag as real) * frameSampleSum;
    d := currentSample - meanForWindow;
  }

  /** e_start for the frame starting at m = frame * z. */
  method GetNccfDenominatorVal(x: seq<real>, frame: int, startingVal: nat, np: Nccfparams)
    returns (totalSum: real)
    requires FrameWindow(x, frame * np.samplesPerFrame, np.samplesCorrelatedPerLag)
    requires frame * np.samplesPerFrame + startingVal + np.samplesCorrelatedPerLag <= |x|
    ensures totalSum == Energy(x, frame * np.samplesPerFrame, np.samplesCorrelatedPerLag,
                               startingVal, np.samplesCorrelatedPerLag)
    ensures totalSum >= 0.0
  {
    ghost var m, n := frame * np.samplesPerFrame, np.samplesCorrelatedPerLag;
    totalSum := 0.0;
    for l := startingVal to startingVal + np.samplesCorrelatedPerLag
      invariant totalSum == Energy(x, m, n, startingVal, l - startingVal)
    {
      var sample := GetSample(x, frame, l, np);
      totalSum := totalSum + sample * sample;
    }
    EnergyNonNegative(x, m, n, startingVal, n);
  }

  /** The numerator loop of the correlation (kept apart from the division so
      that each proof stays small): d(0) * d(lag) + ... + d(n - 1) * d(n - 1 + lag)
      for the frame starting at m = frame * z. */
  method CorrelationNumerator(x: seq<real>, frame: int, lag: nat, np: Nccfparams) returns (samples: real)
    requires FrameWindow(x, frame * np.samplesPerFrame, np.samplesCorrelatedPerLag)
    requires frame * np.samplesPerFrame + lag + np.samplesCorrelatedPerLag <= |x|
    ensures samples == CrossSum(x, frame * np.samplesPerFrame, np.samplesCorrelatedPerLag,
                                lag, np.samplesCorrelatedPerLag)
  {
    ghost var m, n := frame * np.samplesPerFrame, np.samplesCorrelatedPerLag;
    samples := 0.0;
    for j := 0 to np.samplesCorrelatedPerLag
      invariant samples == CrossSum(x, m, n, lag, j)
    {
      var correlatedSamples := GetSample(x, frame, j, np);
      var samplesForLag := GetSample(x, frame, j + lag, np);
      samples := samples + correlatedSamples * samplesForLag;
      assert samples == CrossSum(x, m, n, lag, j) + Demeaned(x, m, n, j) * Demeaned(x, m, n, j + lag);
    }
  }

  /** The correlation of frame `frame` at lag `lag`: the numerator over the
      product of the energies at 0 and at lag. */
  method GetCorrelation(x: seq<real>, frame: int, lag: nat, np: Nccfparams) returns (c: real)
    requires FrameWindow(x, frame * np.samplesPerFrame, np.samplesCorrelatedPerLag)
    requires frame * np.samplesPerFrame + lag + np.samplesCorrelatedPerLag <= |x|
    requires Energy(x, frame * np.samplesPerFrame, np.samplesCorrelatedPerLag, 0, np.samplesCorrelatedPerLag) != 0.0
    requires Energy(x, frame * np.samplesPerFrame, np.samplesCorrelatedPerLag, lag, np.samplesCorrelatedPerLag) != 0.0
    ensures c == NccfValue(x, frame * np.samplesPerFrame, np.samplesCorrelatedPerLag, lag)
  {
    var samples := CorrelationNumerator(x, frame, lag, np);
    var denominator := GetNccfDenominatorVal(x, frame, 0, np);
    var laggedEnergy := GetNccfDenominatorVal(x, frame, lag, np);
    c := Normalised(samples, denominator, laggedEnergy);
  }

  /** The first pass over a signal sampled at `rate`: a table with one row per
      frame 0 .. M - 2 and one column per lag k .. K - 2, each cell the
      correlation of its frame at its lag or 0 when the lag window would run
      past the end, and the largest cell value seen (0 when none is positive). */
  method FirstPassNccf(rate: int, x: seq<real>, params: Raptparams)
    returns (candidates: array2<real>, maxCorrelationVal: real)
    requires NccfParamsDefined(rate, params, true)
    requires FirstPassFraming(GetNccfParams(rate, |x|, params, true))
    requires NonZeroDenominators(x, GetNccfParams(rate, |x|, params, true))
    ensures fresh(candidates)
    ensures var np := GetNccfParams(rate, |x|, params, true);
      && candidates.Length0 == np.maxFrameCount
      && candidates.Length1 == np.LagRange()
      && forall i, col :: 0 <= i < candidates.Length0 && 0 <= col < candidates.Length1 ==>
           candidates[i, col] == Cell(x, np, i, col)
    ensures 0.0 <= maxCorrelationVal
    ensures forall i, col :: 0 <= i < candidates.Length0 && 0 <= col < candidates.Length1 ==>
              candidates[i, col] <= maxCorrelationVal
    ensures maxCorrelationVal == 0.0 ||
            exists i, col :: 0 <= i < candidates.Length0 && 0 <= col < candidates.Length1 &&
              candidates[i, col] == maxCorrelationVal
  {
    var np := GetNccfParams(rate, |x|, params, true);
    var lagRange := np.LagRange();
    maxCorrelationVal := 0.0;
    candidates := new real[np.maxFrameCount, lagRange]((_, _) => 0.0);
    ghost var best := (0, 0);
    for i := 0 to np.maxFrameCount
      invariant forall i', col' :: 0 <= i' < i && 0 <= col' < lagRange ==>
                  candidates[i', col'] == Cell(x, np, i', col')
      invariant 0.0 <= maxCorrelationVal
      invariant forall i', col' :: 0 <= i' < i && 0 <= col' < lagRange ==>
                  candidates[i', col'] <= maxCorrelationVal
      invariant maxCorrelationVal == 0.0 ||
                (0 <= best.0 < i && 0 <= best.1 < lagRange && candidates[best.0, best.1] == maxCorrelationVal)
    {
      for col := 0 to lagRange
        invariant forall i', col' ::
                    (0 <= i' < np.maxFrameCount && 0 <= col' < lagRange && (i' < i || (i' == i && col' < col))) ==>
                    candidates[i', col'] == Cell(x, np, i', col')
        invariant 0.0 <= maxCorrelationVal
        invariant forall i', col' ::
                    (0 <= i' < np.maxFrameCount && 0 <= col' < lagRange && (i' < i || (i' == i && col' < col))) ==>
                    candidates[i', col'] <= maxCorrelationVal
        invariant maxCorrelationVal == 0.0 ||
                  (0 <= best.1 < lagRange && (0 <= best.0 < i || (best.0 == i && best.1 < col)) &&
                   candidates[best.0, best.1] == maxCorrelationVal)
      {
        var currentLag := col + np.shortestLagPerFrame;
        if currentLag + (np.samplesCorrelatedPerLag - 1) + i * np.samplesPerFrame >= |x| {
          candidates[i, col] := 0.0;
          continue;
        }
        assert DenominatorNonZero(x, np, i, col);
        var correlation := GetCorrelation(x, i, currentLag, np);
        candidates[i, col] := correlation;
        if candidates[i, col] > maxCorrelationVal {
          maxCorrelationVal := candidates[i, col];
          best := (i, col);
        }
      }
    }
  }
}
