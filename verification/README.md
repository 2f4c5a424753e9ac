# pyrapt first pass, in Dafny

pyrapt is a pitch tracker built on David Talkin's Robust Algorithm for Pitch
Tracking (RAPT). The code implements the first half of the algorithm. It
picks a lower sample rate for the first pass (`_calculate_downsampling_rate`).
It builds the parameter record from defaults and keyword arguments
(`Raptparams`, `_setup_rapt_params`). It derives the framing values of an NCCF
(normalised cross-correlation function) pass, which are stored in
`Nccfparams` (`_get_nccf_params`). Finally it fills the first-pass table: one
row per frame, one column per candidate lag (`_first_pass_nccf`). Each cell
is computed by three accumulator loops (`_get_correlation`, `_get_sample`,
`_get_nccf_denominator_val`).

The model is split into five modules:

- `PyNumeric` (python_numeric.dfy): the Python 2 integer arithmetic the code
  relies on. `/` on two ints floors, and `int()` truncates toward zero.
- `RaptParameters` (raptparams.dfy): `Raptparams` as a class with seven
  mutable fields and a constructor that sets the defaults.
- `NccfParameters` (nccfparams.dfy): `Nccfparams` as a datatype holding n, k,
  K, z and M - 1.
- `Pyrapt` (pyrapt.dfy): the operations.
  - The downsampling rate and the framing values are functions.
  - The keyword-argument setup is a method that mutates a fresh `Raptparams`.
  - The three accumulator loops are methods. Each is proved equal to a
    recursive sum: `WindowSum`, `Demeaned`, `CrossSum`, `Energy`, `NccfValue`.
    The numerator loop of `_get_correlation` is its own method,
    `CorrelationNumerator`, which `GetCorrelation` calls.
  - The first pass is a method. Its nested loops fill an `array2<real>` and
    keep a running maximum.
- `PyraptLemmas` (pyrapt_lemmas.dfy): properties relating these operations.

Sample values and correlations are exact reals. A signal is a
`seq<real>` of samples together with its rate.

A few facts follow from the code as written:

- The cell value divides by e_0 * e_lag, with no square root. At lag 0 it is
  therefore 1 / e_0 rather than 1 (`NccfAtLagZero`).
- Every index uses the mean of the frame's first n samples, including the
  lagged window.
- Nothing guards against a zero denominator. A table whose computed cells
  have zero energy would raise `ZeroDivisionError`. The model makes non-zero
  energies a precondition of `FirstPassNccf` and `GetCorrelation`.
- The skip test at pyrapt/pyrapt.py:160-161 is exactly the condition under
  which every sample a cell reads lies inside the signal
  (`SkipTestIsBoundsTest`).

## Model

| member | source | states |
|---|---|---|
| PyNumeric.FloorDiv | pyrapt/pyrapt.py:115-116 | Python 2 `a / b` on ints is the floor of the quotient: q*b <= a < q*b + b for b > 0, and mirrored for b < 0 |
| PyNumeric.Trunc | pyrapt/pyrapt.py:180-193 | `int(x)` on a float rounds toward zero: below x by less than 1 for x >= 0, above x by less than 1 for x < 0 |
| PyNumeric.TruncDiv | pyrapt/pyrapt.py:195-196 | `int(float(a) / float(b))` on exact reals: the result equals Trunc(a / b), the exact real quotient truncated toward zero; its magnitude is abs(a) div abs(b) |
| PyNumeric.DivisionsAgreeOnNaturals | pyrapt/pyrapt.py:195-196 | for a non-negative dividend and a positive divisor, floor division and truncated division agree |
| Pyrapt.DownsamplingRate | pyrapt/pyrapt.py:114-121 | a rate is only returned when F0_max is non-zero; otherwise the result is a ValueError |
| PyraptLemmas.DownsamplingRateExamples | tests/test_utility_methods.py:11-16 | (48000, 500) yields 2000; (500, 500) yields a ValueError |
| PyraptLemmas.DownsamplingRateFailsIff | pyrapt/pyrapt.py:114-120 | for non-negative inputs, the ValueError is raised exactly when F0_max is 0 or r < 4 * F0_max |
| PyraptLemmas.DownsamplingRateBounds | pyrapt/pyrapt.py:115-121 | when 0 < 4 * F0_max <= r, a rate is returned and 4 * F0_max <= rate <= r |
| RaptParameters.Raptparams.constructor | pyrapt/raptparams.py:11-31 | a fresh record holds the seven defaults (500, 50, 0.01, 0.0075, 20, 0.3, 10000); with them F0_min < F0_max and the correlation window is shorter than the frame step |
| Pyrapt.SetupRaptParams | pyrapt/pyrapt.py:44-58 | each of the four recognised fields takes the keyword argument of its name if present, else its default; the other three fields keep their defaults, whatever order the keys are visited in |
| PyraptLemmas.OverridesIgnoreOtherKeys | pyrapt/pyrapt.py:47-56 | adding a keyword argument outside the four recognised names, such as `doubling_cost`, changes none of the overridden values |
| Pyrapt.GetNccfParams | pyrapt/pyrapt.py:174-198 | for a positive frame step z, `max_frame_count` is M - 1: M whole frames of z samples fit in the signal and M + 1 do not |
| PyraptLemmas.LagsOrdered | pyrapt/pyrapt.py:183-190 | for 0 < F0_min <= F0_max and a positive rate, the first pass starts at a lag 0 <= k <= K; any other pass starts at lag 0 |
| PyraptLemmas.FramingAtDefaults | pyrapt/pyrapt.py:179-196 | at 2000 Hz with the defaults: n = 15, k = 4, K = 40, z = 20, M - 1 = len div 20 - 1, and 35 lags per frame |
| PyraptLemmas.FirstPassShapeAtDefaults | pyrapt/pyrapt.py:143-153 | with the defaults, the first-pass table of 1000 samples at 1000 Hz is 99 x 17, and that of 3600 samples at 2000 Hz is 179 x 35 |
| PyraptLemmas.SkipTestIsBoundsTest | pyrapt/pyrapt.py:160-166 | a cell is computed exactly when every sample index its numerator, mean and energies read is inside the signal |
| Pyrapt.GetSample | pyrapt/pyrapt.py:230-253 | returns x[m + index] minus the mean of the frame window x[m .. m + n - 1], where m = frame * z |
| Pyrapt.GetNccfDenominatorVal | pyrapt/pyrapt.py:256-265 | returns e_start, the sum of the squared demeaned samples start .. start + n - 1, which is non-negative |
| Pyrapt.EnergyNonNegative | pyrapt/pyrapt.py:259-265 | every energy sum is at least 0 |
| Pyrapt.CorrelationNumerator | pyrapt/pyrapt.py:202-208 | the numerator loop returns the sum over j < n of d(j) * d(j + lag), where d is the demeaned sample of the frame |
| Pyrapt.GetCorrelation | pyrapt/pyrapt.py:201-214 | returns the sum over j < n of d(j) * d(j + lag), divided by e_0 * e_lag |
| Pyrapt.FirstPassNccf | pyrapt/pyrapt.py:135-171 | the table has M - 1 rows and (K - 1) - k columns; each cell is 0 when its lag window runs past the end of the signal, and otherwise the correlation of its frame at lag col + k; the returned maximum is the largest of 0 and all cells |
| PyraptLemmas.NccfIgnoresOffset | pyrapt/pyrapt.py:241-251 | since the frame mean is subtracted, adding a constant to every sample leaves both energies non-zero and every correlation value unchanged |
| PyraptLemmas.CrossSumAtLagZero | pyrapt/pyrapt.py:205-212 | at lag 0 the numerator sum equals the energy e_0 |
| PyraptLemmas.NccfAtLagZero | pyrapt/pyrapt.py:210-214 | at lag 0 the cell value is 1 / e_0: with no square root in the denominator, the value is not normalised to [-1, 1] |

## Left out

- `_get_audio_data` and the file handling of `rapt` are not modelled. They read a WAV file and average stereo channels, which is I/O.
- `_downsample_audio` is not modelled. It wraps `scipy.signal.resample`, a foreign FFT routine. The first pass takes the downsampled samples as its input.
- `_get_downsampled_audio`, `_run_nccf` and `rapt` are not modelled. They only call other functions, each either modelled or listed above.
- The second NCCF pass, candidate selection and dynamic programming are not modelled. The code does not implement them.
- Floating-point rounding is not modelled: samples, sums and quotients are exact reals. For example, `int(0.0075 * rate)` is taken on the exact product.
- Python's dynamic typing is not modelled. Frequencies and step sizes are reals, and keyword arguments are a `map<string, real>`. The `isinstance(kwargs, dict)` test is therefore always true.
- DownsamplingRate: takes an integer F0_max, as in the default and the tests. A float F0_max (possible after an override) would make the inner division a float division followed by `round`. That case is not modelled.
- GetNccfParams: computes k and K as the truncated real quotient. With integer operands, as at the defaults, Python 2 floors instead. The two agree for a non-negative rate and positive frequencies. It also requires F0_min != 0, F0_max != 0 on the first pass, and z = int(t * rate) != 0. With a zero divisor the code raises an uncaught ZeroDivisionError at pyrapt/pyrapt.py:184-185, 189-190 or 195-196, and that error path is not modelled. F0_min = 0 is reachable through a `minimum_allowed_freq=0` keyword argument, because the downsampling step checks only F0_max. The same requirements carry over to FirstPassNccf and to the framing lemmas.
- The `Nccfparams` record is built in one step. The interval in which its fields are still `None` is not represented.
- FirstPassNccf: requires z > 0, a non-negative lag k, M - 1 >= 0 and (K - 1) - k >= 0. Outside these, the code divides by zero, indexes from the end with negative indices, or asks numpy for an array with a negative dimension.
- FirstPassNccf, GetCorrelation: require non-zero energies for every computed cell. The code raises ZeroDivisionError there (an all-zero signal, for example), and that error path is not modelled.
- GetSample, GetNccfDenominatorVal, GetCorrelation: require n > 0 and in-range non-negative indices. A negative n or index would be accepted by Python, with wrap-around indexing.
- The unit tests in tests/test_nccf_methods.py call functions with argument lists that no longer match the code. Only their expected shape (99, 17) is used, and it is stated in FirstPassShapeAtDefaults.
