# Signal generator and delay-estimation sweep, in Dafny

This project models the core of a small radio-signal laboratory program.
The program builds a reference signal from random bits using amplitude (AM),
frequency (FM) or phase (PM) keying. It hides a delayed copy of that signal
inside a longer research signal, then recovers the delay from the maximum of
their cross-correlation. On top of this it runs a sweep over noise levels
that counts how often the recovered delay falls inside a confidence window.

The model covers two source files:

- `src/signals_generator.py`, the `SignalGenerator` class. Its fields become
  a Dafny `class` with the same fields. Its operations become methods,
  proved against specification functions:
  - the operations that change the generator's fields: the constructor,
    `recalc_parameters`, and `calc_modulated_signal`, which updates the
    stored bits and the running FM phase;
  - the operations that leave the fields alone but work with loops:
    `calc_research_signal`, `get_bits_to_plot`, `concat_complex_part`,
    `_calc_signal_energy` and `_generate_bits`.

  The expression-only parts are functions with their properties proved as
  lemmas: `get_complex_part`, `get_correlation`, `find_correlation_max` and
  the parameter derivation.
- `src/research_logic.py`, `calc_research`. This is a method with the
  source's nested loops, proved against the function `Sweep`. It also states
  the value it leaves in the generator's `snr` field. It may also change the
  stored bits and the FM phase, which the trials redraw and advance.

Modules:

- `Values`: complex numbers, the `[x, y]` signal pairs, and the Python
  behaviours the code relies on. These are `None`, exceptions, `int()`,
  negative indexing, clamped slices and `range`.
- `Enums`: the signal role, the keying and the complex part.
- `Synthesis`: the timing parameters and the sample loop of
  `calc_modulated_signal`, as functions.
- `Splicing`: `calc_research_signal` as functions.
- `BitPlot`: `get_bits_to_plot` as functions.
- `ComplexParts`: `get_complex_part`, `concat_complex_part` and the signal
  energy.
- `Correlation`: numpy's `'valid'` correlation, the normalisation and the
  first-argmax delay.
- `SignalsGenerator`: the `SignalGenerator` class.
- `ResearchLogic`: the sweep.

How Python and numpy behaviour is represented:

- A Python result is an `Outcome`: a value, a bare `return` (None), or an
  exception.
- An argument that may be `None` is an `Option`.
- `cos`, `sin` and the complex magnitude are function parameters. The
  magnitude is assumed never negative.
- The `random.randint(0, 1)` draws are given as a sequence `draws`.
- Arithmetic is exact over the reals.

The model follows the code as written in these places, where a cleaner
design would have raised an error instead:

- An unrecognised keying returns `(None, None)`, not an error. It does so
  only when the sample loop runs at least once, because the `else` branch
  sits inside the loop.
- Only a zero bit rate, a zero sampling rate or a zero bit count fails, with
  ZeroDivisionError. A negative value is not rejected.
- A negative bit count gives no bits rather than an error.
- A delay that does not fit makes `calc_research_signal` return None.
- A correlation whose magnitudes are all zero makes numpy produce NaN
  values, not an exception. The model stops there with `NotANumber`.
- numpy's `'valid'` correlation has `|len(a) - len(v)| + 1` entries. When
  the reference is the longer signal, numpy swaps the operands and reverses
  the result.

One unit mix-up is also modelled as written; it is listed under
"## Findings".

## Model

| member | source | states |
|---|---|---|
| Values.Trunc | src/signals_generator.py:111 | `int()` of a float truncates toward zero: for `x >= 0` the result is the largest integer not above `x`, for `x < 0` the smallest not below it |
| Values.PyAt | src/signals_generator.py:114 | indexing with a possibly negative index returns an element of the list |
| Values.TakePy | src/signals_generator.py:154 | `s[:k]` has `min(k, len(s))` elements, the first ones of `s` |
| Values.DropPy | src/signals_generator.py:154 | `s[k:]` has `len(s) - k` elements (none once `k` is past the end), those of `s` from `k` on |
| Values.PyRangeDescending | src/research_logic.py:17 | a negative-step `range` yields `start + i * step`, every value in `(stop, start]`, and the next value would reach `stop` |
| Values.PyRangeAscending | src/research_logic.py:17 | a positive-step `range` yields `start + i * step`, every value in `[start, stop)`, and the next value would reach `stop` |
| Synthesis.SignalParameters | src/signals_generator.py:72-86 | a zero bit rate, a zero sampling rate or a zero bit count (and only these) raise ZeroDivisionError; otherwise bit time times bit rate is 1, time step times sampling rate is 1, the duration is `count` bit times, `w = 2 pi f` |
| Synthesis.FirstUnreadable | src/signals_generator.py:109-114 | the first sample whose `bits[int(t / bit_time)]` would raise: every earlier sample's bit can be read, and that one's cannot |
| Synthesis.SynthesisStopsAt | src/signals_generator.py:109-114 | when sample `i` is the first whose bit cannot be read, the loop raises IndexError, and the FM phase is the one left by sample `i - 1` |
| Synthesis.SynthesisCompletes | src/signals_generator.py:109-130 | when every bit can be read, the loop returns one time stamp and one sample per `arange` value, and FM leaves the phase of the last sample |
| Synthesis.SynthesisSucceeds | src/signals_generator.py:72-130 | in exact arithmetic, with positive rates, a positive bit count and one bit per slot, the loop never raises; it yields `ceil(rate * count / bps)` samples on a time axis starting at 0 with steps of one sampling period |
| Synthesis.BitIndexInRange | src/signals_generator.py:108-111 | for every sample of the signal, `int(t / bit_time)` is a bit slot in `[0, count)` |
| SignalsGenerator.SignalGenerator.constructor | src/signals_generator.py:12-46 | stores the configuration, starts with phase 0 and no bits; FM frequencies `2 pi f` and `4 pi f` (the high one twice the low one); the research carrier equals the reference one; three times as many research bits |
| SignalsGenerator.SignalGenerator.RecalcParameters | src/signals_generator.py:60-70 | restores the same relations between derived fields and configuration, and changes only the four derived fields |
| SignalsGenerator.SignalGenerator.GenerateBits | src/signals_generator.py:48-58 | one draw per bit, in order: `max(count, 0)` bits equal to the first draws; 0/1 draws give 0/1 bits |
| SignalsGenerator.SignalGenerator.AmAmplitudes | src/signals_generator.py:113-115 | an AM sample is the carrier scaled by 1 for a 0 bit and by 10 otherwise, with zero imaginary part |
| SignalsGenerator.SignalGenerator.CalcModulatedSignal | src/signals_generator.py:88-130 | a GENERAL signal stores its fresh bits, a RESEARCH one leaves the stored bits alone; the bit count and carrier come from the role; a zero divisor raises; otherwise the result and the new FM phase are those of `Synthesize` |
| SignalsGenerator.SignalGenerator.SampleSignal | src/signals_generator.py:107-130 | the sample loop returns exactly what `Synthesize` describes: `(None, None)`, IndexError at the first unreadable bit, or the full signal; it leaves the FM phase `Synthesize` gives |
| SignalsGenerator.SignalGenerator.NextSample | src/signals_generator.py:109-122 | one pass of the loop yields `SampleValue` for that sample; FM moves the stored phase to this sample's `freq * t`, AM and PM leave it alone |
| SignalsGenerator.SignalGenerator.CalcResearchSignal | src/signals_generator.py:132-156 | a missing signal gives None; otherwise the result is `Splice` of the two signals at `time_delay / 1000` seconds |
| SignalsGenerator.SignalGenerator.GetBitsToPlot | src/signals_generator.py:257-277 | no stored bits gives None; `bits_count` past the stored bits raises IndexError; otherwise the step-plot corners of the first `bits_count` bits |
| Splicing.SpliceIndex | src/signals_generator.py:146-151 | the first index whose time stamp is at or after the delay, or 0 when none is |
| Splicing.Splice | src/signals_generator.py:136-156 | an empty time axis raises IndexError; a delay past the last research time minus the last reference time gives None (both directions); a result keeps the research time axis |
| Splicing.SpliceChangesOnlyWindow | src/signals_generator.py:153-156 | the samples before the index and after the window are the research ones and the window holds the reference; the length is unchanged when the reference fits after the splice index, and otherwise the signal grows to end with the reference |
| Splicing.AcceptedDelayFits | src/signals_generator.py:142-156 | for signals on one time grid, a non-negative delay that passes the fit check always leaves room for the whole reference, so the length is preserved |
| BitPlot.StepPointsLength | src/signals_generator.py:264-277 | x and y have equal length `bits_count + 1 + (number of i < bits_count - 1 with bits[i] != bits[i + 1])` |
| BitPlot.StepPlotShape | src/signals_generator.py:264-277 | the plot starts at `(0, bits[0])` and ends at `(bits_count, bits[bits_count - 1])`; x never decreases and stays in `[0, bits_count]`; consecutive points are one-bit horizontal steps or vertical jumps; every point lies on a bit's level |
| BitPlot.StepPointsEnds | src/signals_generator.py:264-277 | after each iteration the first point is `(0, bits[0])` and the last is at the current bit's level, at its end when a jump follows |
| BitPlot.StepPointsSorted | src/signals_generator.py:264-277 | after `k` iterations the x values are sorted and lie in `[0, k]` |
| BitPlot.StepPointsSteps | src/signals_generator.py:264-277 | after each iteration consecutive points are a horizontal step or a vertical jump |
| BitPlot.StepPointsOnStaircase | src/signals_generator.py:264-277 | after each iteration every point is the start or end of some bit's level |
| ComplexParts.GetComplexPart | src/signals_generator.py:179-190 | the part keeps the time axis and has one value per sample |
| ComplexParts.ConcatComplexPart | src/signals_generator.py:192-201 | an imaginary list shorter than the real one raises IndexError; otherwise the real part's time axis with one complex sample per real value |
| ComplexParts.SplitThenJoin | src/signals_generator.py:179-201 | joining the real and imaginary parts of a signal gives back its time axis and samples |
| ComplexParts.JoinThenSplit | src/signals_generator.py:179-201 | splitting a join of two equally long parts gives back both parts |
| ComplexParts.SignalEnergy | src/signals_generator.py:158-166 | the loop computes the sum of the squared values |
| ComplexParts.EnergyNonNegative | src/signals_generator.py:158-166 | the energy is never negative |
| ComplexParts.SilentHasNoEnergy | src/signals_generator.py:158-166 | a signal of zeros has zero energy |
| Correlation.NumpyCorrelate | src/signals_generator.py:289 | an empty operand (and only that) raises ValueError; otherwise `|len(a) - len(v)| + 1` entries |
| Correlation.ArgMax | src/signals_generator.py:302 | `np.argmax` returns an index of a maximum that no earlier value reaches |
| Correlation.FirstMaxUnique | src/signals_generator.py:302 | that index is unique |
| Correlation.Normalise | src/signals_generator.py:289-290 | all-zero magnitudes (and only those) give NaN; otherwise every value is in `[0, 1]` and exactly the maxima become 1 |
| Correlation.GetCorrelation | src/signals_generator.py:279-292 | a missing signal (and only that) gives None; an empty sample list gives ValueError; for two non-empty lists, NaN exactly when every correlation magnitude is zero, and otherwise `y` is each magnitude divided by the largest; a result has the valid-correlation length, the research time axis prefix of that length, values in `[0, 1]`, and some value equal to 1 |
| Correlation.FindCorrelationMax | src/signals_generator.py:294-303 | a missing curve (and only that) gives None; an empty `y` gives ValueError; otherwise a value exactly when the argmax indexes into `x`, IndexError when it does not, so always a value when `0 < len(y) <= len(x)`; a value is 1000 times the time stamp at the first maximum |
| Correlation.ScalingKeepsFirstMax | src/signals_generator.py:290-302 | dividing by a positive maximum keeps the first maximum where it was |
| Correlation.EstimatedDelay | src/signals_generator.py:279-303 | when the research signal is at least as long as the reference and some correlation magnitude is non-zero, the pipeline's delay is 1000 times the research time stamp at the first maximum of the correlation magnitudes |
| ResearchLogic.Window | src/research_logic.py:9-12 | the window `[min_t, max_t]` is centred on `time_delay` and, in milliseconds, a thousandth of a bit time wide |
| ResearchLogic.IntendedWindow | src/research_logic.py:9-12 | the corrected window holds exactly the estimates within half a bit time, in milliseconds, of `time_delay` |
| ResearchLogic.WindowMixesUnits | src/research_logic.py:9-12 | at 100 bits per second and a 5 ms delay, 5.1 ms is within half a bit time, yet the window as written rejects it and the corrected one accepts it |
| ResearchLogic.Hits | src/research_logic.py:26-63 | the hit count never exceeds the number of trials |
| ResearchLogic.AllHits | src/research_logic.py:56-63 | every trial's estimate lies in `[min_t, max_t]` exactly when the count equals the number of trials |
| ResearchLogic.NoHits | src/research_logic.py:56-63 | no trial's estimate lies in the window exactly when the count is zero |
| ResearchLogic.RateIsFraction | src/research_logic.py:66-74 | `good_count / average_count` lies in `[0, 1]` |
| ResearchLogic.CurveIsShaped | src/research_logic.py:65-75 | one keying's lists have one entry per level, x is the level sequence, y in `[0, 1]`, every error `0.5 * bit_time` |
| ResearchLogic.Sweep | src/research_logic.py:6-77 | a zero default bit rate, a zero step, or a zero trial count over a non-empty sweep (and only these) raise, with ValueError exactly for the step; otherwise all nine lists have one entry per level of `range(from, to, step)`, each x list is that range, y in `[0, 1]`, errors `0.5 * bit_time` |
| ResearchLogic.CountHits | src/research_logic.py:26-63 | the inner loop counts each keying's hits as `Hits` does |
| ResearchLogic.CalcResearch | src/research_logic.py:6-77 | returns `Sweep`; leaves `snr` at the last level, at the first level when a zero trial count stops the sweep there, and unchanged when the sweep fails first or is empty; it may change the stored bits and the FM phase and keeps every other field |
| ResearchLogic.DefaultSweep | src/research_logic.py:6-17 | the default `range(10, -11, -1)` is the 21 levels from 10 down to -10 |
| ResearchLogic.ExactEstimatesAlwaysHit | src/research_logic.py:9-74 | with a positive default bit rate and at least one trial, an estimator that always reports the configured delay gets every y equal to 1 |

## Findings

| source | as written | input that shows it | evidently intended | confidence | as-written member | corrected member |
|---|---|---|---|---|---|---|
| src/research_logic.py:9-12 | `min_t`/`max_t` add half a bit time in seconds to `time_delay` in milliseconds, and the estimates from `find_correlation_max` (src/signals_generator.py:303) are in milliseconds too | default bit rate 100, `time_delay` 5 ms, estimate 5.1 ms: it is counted as a miss, though half a bit time is 5 ms | half a bit time in milliseconds on either side of the delay | not executed; high | ResearchLogic.WindowMixesUnits | ResearchLogic.IntendedWindow |

The sweep (`Sweep`, `CalcResearch`) keeps the window as written, so that
it describes the rates the program reports. `IntendedWindow` is the
corrected window, with its meaning proved.

## Left out

- `generate_noise`, `_get_random_value` and `get_noise_parts` are not modelled. They need `random.uniform`, square roots and real powers.
- `add_doppler` is not modelled. It is trigonometry only and nothing in the core calls it.
- Floating point is not modelled: arithmetic is exact. The length of `np.arange` is `ceil(duration / step)` in exact arithmetic, and `int(t / bit_time)` truncates the exact quotient.
- SynthesisSucceeds: holds only in exact arithmetic. In doubles, `np.arange` can produce one more sample than `ceil(rate * count / bps)`. At 10000 Hz and 100 bit/s, 17 bits give `0.17 / 9.999999999999999e-05 = 1700.0000000000002`, so 1701 samples. With 35 bits the extra sample is at `t = 0.35`, and `int(0.35 / 0.01) = 35` reads past the bits, so the program raises IndexError where the lemma says it cannot. The same happens for every research signal when `bits_count` is 23 (69 bits), and at 100 Hz and 10 bit/s with 17 bits. These values were worked by hand, not executed.
- `np.cos`, `np.sin` and the complex `np.abs` are function parameters. Their values are not modelled.
- `random.randint` draws are a parameter. The model does not capture their distribution.
- The constants of the `defaults` module are not part of this model. They enter as constructor arguments and, for the sweep, as `defaultBps`.
- The signal buffers (`general_signal`, `modulated_signal`, `research_signal`, `correlation_signal`) are set only by the window code, which is not modelled.
- The window, plotting and progress messages are not modelled: the `print` call in `calc_research` and everything in `main.py`, `main_logic.py` and `mpl_widget.py`.
- Normalise: after numpy's NaN result for an all-zero correlation, the model stops with `NotANumber` and does not carry NaN values further.
- CalcModulatedSignal: the `(None, None)` pair for an unrecognised keying is represented as `ReturnsNone`. Passing that pair on, which is a truthy tuple in Python and fails later with a TypeError, is not modelled.
- CalcResearch: the trials' delay estimates are a parameter `estimate(snr, trial)`. The trials' own calls on the generator, which redraw the stored bits and advance the FM phase, are not modelled. The method may change `bits` and `signalPhase`, and the model says nothing about their new values. A trial whose estimate is None, a TypeError in the comparison, is not modelled.
- SignalEnergy: covers real-valued curves only. The energy of complex samples (`z ** 2` of a complex value) is not modelled.
- EnergyNonNegative: the converse of SilentHasNoEnergy (zero energy only for a signal of zeros) is not proved. It needs strict positivity of squares inside sums, which the solver does not establish here.
- GetComplexPart: a part other than REAL or IMAGE gives an empty list in the source. The model's `ComplexPart` has only those two values, so this case cannot occur.
