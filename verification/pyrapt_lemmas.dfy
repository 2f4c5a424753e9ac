/** Properties of the first-pass model: the downsampling rate, the framing
    values, the skip test, and how the cell value responds to the signal. */
module PyraptLemmas {
  import opened PyNumeric
  import opened RaptParameters
  import opened NccfParameters
  import opened Pyrapt

  // ---------------------------------------------------------------------------
  // Downsampling rate

  lemma DownsamplingRateExamples()
    ensures DownsamplingRate(48000, 500) == Ok(2000)
    ensures DownsamplingRate(500, 500).Err?
  {
  }

  /** The rate is refused exactly when F0_max is zero or the signal is sampled
      below 4 * F0_max (so that the inner quotient floors to zero). */
  lemma {:induction false} DownsamplingRateFailsIff(r: int, f0: int)
    requires 0 <= r && 0 <= f0
    ensures DownsamplingRate(r, f0).Err? <==> (f0 == 0 || r < 4 * f0)
  {
    if f0 != 0 {
      var d := 4 * f0;
      assert FloorDiv(r, d) == r / d;
      ZeroQuotientIff(r, d);
      assert DownsamplingRate(r, f0).Err? <==> r / d == 0;
    }
  }

  lemma ZeroQuotientIff(r: nat, d: nat)
    requires 0 < d
    ensures r / d == 0 <==> r < d
  {
    QuotientBounds(r, d);
    if r < d {
      MulCancelStrict(r / d, 1, d);
    } else {
      MulCancelStrict(1, r / d + 1, d);
    }
  }

  lemma MulGrows(a: nat, q: int)
    requires 1 <= q
    ensures a <= a * q
  {
    assert a * q == a + a * (q - 1);
  }

  lemma MulCancelStrict(a: int, b: int, q: int)
    requires 0 < q && a * q < b * q
    ensures a < b
  {
  }

  /** With r >= 4 * F0_max > 0 the downsampled rate keeps at least four samples
      per period of F0_max and never exceeds the original rate. */
  lemma {:induction false} DownsamplingRateBounds(r: int, f0: int)
    requires 0 < f0 && 4 * f0 <= r
    ensures DownsamplingRate(r, f0).Ok?
    ensures 0 < 4 * f0 <= DownsamplingRate(r, f0).value <= r
  {
    var d := 4 * f0;
    var q := r / d;
    DivisionsAgreeOnNaturals(r, d);
    QuotientBounds(r, d);
    assert q * d <= r < (q + 1) * d;
    MulCancelStrict(0, q + 1, d);
    assert 1 <= q;
    DivisionsAgreeOnNaturals(r, q);
    var v := r / q;
    QuotientBounds(r, q);
    assert d * q <= r < (v + 1) * q;
    MulCancelStrict(d, v + 1, q);
    MulGrows(v, q);
  }

  // ---------------------------------------------------------------------------
  // Parameter setup

  /** A keyword argument outside the four recognised names (doubling_cost,
      transition_cost, ...) changes none of the values the setup produces. */
  lemma OverridesIgnoreOtherKeys(kwargs: map<string, real>, key: string, v: real)
    requires key !in OverridableKeys
    ensures forall k, fallback :: k in OverridableKeys ==>
              Override(kwargs[key := v], k, fallback) == Override(kwargs, k, fallback)
  {
  }

  // ---------------------------------------------------------------------------
  // Framing values

  /** For a positive rate and a search band 0 < F0_min <= F0_max, the first
      pass's lags start at or above 0 and no later than the ceiling K; the
      other pass starts at lag 0. */
  lemma {:induction false} LagsOrdered(rate: int, length: nat, params: Raptparams)
    requires 0 < rate && 0.0 < params.minimumAllowedFreq <= params.maximumAllowedFreq
    requires NccfParamsDefined(rate, params, true)
    ensures var np := GetNccfParams(rate, length, params, true);
      0 <= np.shortestLagPerFrame <= np.longestLagPerFrame
    ensures GetNccfParams(rate, length, params, false).shortestLagPerFrame == 0
  {
    var r := rate as real;
    var lo, hi := params.minimumAllowedFreq, params.maximumAllowedFreq;
    assert r / hi <= r / lo by {
      assert (r / hi) * hi == r;
      assert (r / lo) * lo == r;
      assert (r / hi) * lo <= (r / hi) * hi;
    }
  }

  /** At 2000 Hz with the default parameters: n = 15, k = 4, K = 40, z = 20. */
  lemma FramingAtDefaults(length: nat, params: Raptparams)
    requires params.HasDefaults()
    ensures NccfParamsDefined(2000, params, true)
    ensures GetNccfParams(2000, length, params, true) == Nccfparams(15, 4, 40, 20, length / 20 - 1)
    ensures GetNccfParams(2000, length, params, true).LagRange() == 35
  {
    DivisionsAgreeOnNaturals(length, 20);
  }

  /** The first-pass table for 1000 samples at 1000 Hz has 99 rows and 17
      columns; for 3600 samples at 2000 Hz, 179 rows and 35 columns. */
  lemma FirstPassShapeAtDefaults(params: Raptparams)
    requires params.HasDefaults()
    ensures NccfParamsDefined(1000, params, true)
    ensures GetNccfParams(1000, 1000, params, true).maxFrameCount == 99
    ensures GetNccfParams(1000, 1000, params, true).LagRange() == 17
    ensures NccfParamsDefined(2000, params, true)
    ensures GetNccfParams(2000, 3600, params, true).maxFrameCount == 179
    ensures GetNccfParams(2000, 3600, params, true).LagRange() == 35
  {
    FramingAtDefaults(3600, params);
  }

  // ---------------------------------------------------------------------------
  // The skip test

  /** The sample indices one cell reads: the numerator's first factor, the
      window mean and e_0 read [m, m + n); the numerator's second factor and
      e_lag read [m + lag, m + lag + n). */
  predicate CellReads(np: Nccfparams, i: int, col: int, idx: int)
  {
    var m, n, lag := i * np.samplesPerFrame, np.samplesCorrelatedPerLag, col + np.shortestLagPerFrame;
    (m <= idx < m + n) || (m + lag <= idx < m + lag + n)
  }

  /** A cell is skipped exactly when one of the samples its correlation would
      read lies past the end of the signal; every cell that is computed reads
      only samples inside it. */
  lemma SkipTestIsBoundsTest(np: Nccfparams, length: int, i: nat, col: nat)
    requires FirstPassFraming(np) && np.samplesCorrelatedPerLag > 0
    ensures !Skips(np, length, i, col) <==>
            (forall idx :: CellReads(np, i, col, idx) ==>
               0 <= idx < length)
  {
    var m, n, lag := i * np.samplesPerFrame, np.samplesCorrelatedPerLag, col + np.shortestLagPerFrame;
    assert CellReads(np, i, col, m + lag + (n - 1));
    assert 0 <= m;
  }

  // ---------------------------------------------------------------------------
  // How the cell value responds to the signal

  /** y is x with the constant c added to every sample. */
  ghost predicate IsShifted(y: seq<real>, x: seq<real>, c: real)
  {
    |y| == |x| && forall i :: 0 <= i < |x| ==> y[i] == x[i] + c
  }

  lemma {:induction false} WindowSumShifted(y: seq<real>, x: seq<real>, c: real, lo: int, hi: int)
    requires IsShifted(y, x, c) && 0 <= lo <= hi <= |x|
    ensures WindowSum(y, lo, hi) == WindowSum(x, lo, hi) + (hi - lo) as real * c
    decreases hi - lo
  {
    if hi > lo {
      WindowSumShifted(y, x, c, lo, hi - 1);
    }
  }

  lemma DemeanedShifted(y: seq<real>, x: seq<real>, c: real, m: int, n: int, idx: int)
    requires IsShifted(y, x, c) && FrameWindow(x, m, n) && 0 <= m + idx < |x|
    ensures FrameWindow(y, m, n)
    ensures Demeaned(y, m, n, idx) == Demeaned(x, m, n, idx)
  {
    WindowSumShifted(y, x, c, m, m + n);
    var s := WindowSum(x, m, m + n);
    var k := 1.0 / n as real;
    assert k * (n as real) == 1.0;
    assert k * (s + n as real * c) == k * s + c;
  }

  lemma {:induction false} CrossSumShifted(y: seq<real>, x: seq<real>, c: real, m: int, n: int, lag: nat, count: nat)
    requires IsShifted(y, x, c) && FrameWindow(x, m, n) && m + lag + count <= |x|
    ensures FrameWindow(y, m, n)
    ensures CrossSum(y, m, n, lag, count) == CrossSum(x, m, n, lag, count)
  {
    if count > 0 {
      CrossSumShifted(y, x, c, m, n, lag, count - 1);
      DemeanedShifted(y, x, c, m, n, count - 1);
      DemeanedShifted(y, x, c, m, n, count - 1 + lag);
    }
  }

  lemma {:induction false} EnergyShifted(y: seq<real>, x: seq<real>, c: real, m: int, n: int, start: nat, count: nat)
    requires IsShifted(y, x, c) && FrameWindow(x, m, n) && m + start + count <= |x|
    ensures FrameWindow(y, m, n)
    ensures Energy(y, m, n, start, count) == Energy(x, m, n, start, count)
  {
    if count > 0 {
      EnergyShifted(y, x, c, m, n, start, count - 1);
      DemeanedShifted(y, x, c, m, n, start + count - 1);
    }
  }

  /** Because of the mean subtraction, adding a constant to every sample
      leaves every correlation value unchanged. */
  lemma NccfIgnoresOffset(y: seq<real>, x: seq<real>, c: real, m: int, n: int, lag: nat)
    requires IsShifted(y, x, c)
    requires FrameWindow(x, m, n) && m + lag + n <= |x|
    requires Energy(x, m, n, 0, n) != 0.0 && Energy(x, m, n, lag, n) != 0.0
    ensures FrameWindow(y, m, n)
    ensures Energy(y, m, n, 0, n) != 0.0 && Energy(y, m, n, lag, n) != 0.0
    ensures NccfValue(y, m, n, lag) == NccfValue(x, m, n, lag)
  {
    CrossSumShifted(y, x, c, m, n, lag, n);
    EnergyShifted(y, x, c, m, n, 0, n);
    EnergyShifted(y, x, c, m, n, lag, n);
  }

  lemma {:induction false} CrossSumAtLagZero(x: seq<real>, m: int, n: int, count: nat)
    requires FrameWindow(x, m, n) && m + count <= |x|
    ensures CrossSum(x, m, n, 0, count) == Energy(x, m, n, 0, count)
  {
    if count > 0 {
      CrossSumAtLagZero(x, m, n, count - 1);
    }
  }

  /** At lag 0 the numerator equals e_0, so the cell value is 1 / e_0 rather
      than 1: the value is not normalised to the range [-1, 1]. */
  lemma NccfAtLagZero(x: seq<real>, m: int, n: int)
    requires FrameWindow(x, m, n)
    requires Energy(x, m, n, 0, n) != 0.0
    ensures NccfValue(x, m, n, 0) == 1.0 / Energy(x, m, n, 0, n)
  {
    CrossSumAtLagZero(x, m, n, n);
    var e := Energy(x, m, n, 0, n);
    assert e / (e * e) == 1.0 / e;
  }
}
