/** The sample loop of `SignalGenerator.calc_modulated_signal`, stated as
    functions: the derived timing parameters, which bit is active at each
    sample, and the sample value under each keying. The trigonometric
    functions are parameters; the arithmetic is exact. */
module Synthesis {
  import opened Values
  import opened Enums

  /** What `_get_signal_parameters` returns: signal duration, time step,
      duration of one bit, angular carrier frequency. */
  datatype Params = Params(duration: real, timestep: real, bitTime: real, w: real)

  /** A parameter set the sample loop can use: both divisors it needs are
      nonzero. */
  predicate Usable(p: Params) {
    p.timestep != 0.0 && p.bitTime != 0.0
  }

  /** `_get_signal_parameters(sf, bits_count)`: a zero rate, a zero sampling
      rate or a zero bit count is a float division by zero. Otherwise the
      step is one sampling period and the duration is `bits_count` bit
      times. */
  function SignalParameters(samplingRate: real, bitsPerSecond: real, sf: real, count: int): (r: Outcome<Params>)
    ensures r.Raises? <==> bitsPerSecond == 0.0 || samplingRate == 0.0 || count == 0
    ensures r.Raises? ==> r.error == ZeroDivisionError
    ensures !r.ReturnsNone?
    ensures r.Returns? ==>
      && Usable(r.value)
      && r.value.bitTime * bitsPerSecond == 1.0
      && r.value.timestep * samplingRate == 1.0
      && r.value.duration == r.value.bitTime * count as real
      && r.value.w == 2.0 * Pi * sf
  {
    if bitsPerSecond == 0.0 then Raises(ZeroDivisionError)
    else
      var bitTime := 1.0 / bitsPerSecond;
      var duration := bitTime * count as real;
      var n := samplingRate * duration;
      if n == 0.0 then Raises(ZeroDivisionError)
      else
        assert duration / n * samplingRate == 1.0 by {
          assert duration != 0.0;
          calc {
            duration / n * samplingRate;
            duration * samplingRate / (samplingRate * duration);
            1.0;
          }
        }
        Returns(Params(duration, duration / n, bitTime, 2.0 * Pi * sf))
  }

  /** The length of `np.arange(0, duration, timestep)`. */
  function SampleCount(p: Params): nat
    requires Usable(p)
  {
    var c := Ceil(p.duration / p.timestep);
    if c > 0 then c else 0
  }

  /** The `i`-th value of that `arange`. */
  function TimeAt(p: Params, i: nat): real {
    i as real * p.timestep
  }

  /** `int(t / bit_time)`: the bit that sample `i` reads. */
  function BitIndexAt(p: Params, i: nat): int
    requires Usable(p)
  {
    Trunc(TimeAt(p, i) / p.bitTime)
  }

  /** `bits[bit_index]` does not raise at sample `i`. */
  predicate BitReadable(bits: seq<int>, p: Params, i: nat)
    requires Usable(p)
  {
    PyIndexable(bits, BitIndexAt(p, i))
  }

  function BitAt(bits: seq<int>, p: Params, i: nat): int
    requires Usable(p) && BitReadable(bits, p, i)
  {
    PyAt(bits, BitIndexAt(p, i))
  }

  /** The index of the first sample in `[from, n)` whose bit cannot be read,
      or `n` when every one can. */
  function FirstUnreadable(bits: seq<int>, p: Params, from: nat, n: nat): (r: nat)
    requires Usable(p) && from <= n
    ensures from <= r <= n
    ensures forall k :: from <= k < r ==> BitReadable(bits, p, k)
    ensures r < n ==> !BitReadable(bits, p, r)
    decreases n - from
  {
    if from == n then n
    else if !BitReadable(bits, p, from) then from
    else FirstUnreadable(bits, p, from + 1, n)
  }

  /** The generator's fields and functions a sample depends on: the
      parameters, the FM angular frequencies, the AM amplitudes and the
      trigonometric functions. */
  datatype Carrier = Carrier(p: Params, lowFreq: real, highFreq: real,
                             lowAmpl: real, highAmpl: real,
                             cos: real -> real, sin: real -> real)

  /** AM: the low amplitude for a 0 bit, the high one otherwise. */
  function Amplitude(c: Carrier, bit: int): real {
    if bit == 0 then c.lowAmpl else c.highAmpl
  }

  /** FM: the low angular frequency for a 0 bit, the high one otherwise. */
  function FmFreq(c: Carrier, bit: int): real {
    if bit == 0 then c.lowFreq else c.highFreq
  }

  /** PM: phase 0 for a 0 bit, pi otherwise. */
  function PmPhase(bit: int): real {
    if bit == 0 then 0.0 else Pi
  }

  /** The FM running phase when sample `i` is produced: the caller's value
      for the first sample, then the previous sample's `freq * t`. */
  function PhaseBefore(c: Carrier, bits: seq<int>, phase0: real, i: nat): real
    requires Usable(c.p)
    requires i > 0 ==> BitReadable(bits, c.p, i - 1)
  {
    if i == 0 then phase0
    else Angle(FmFreq(c, BitAt(bits, c.p, i - 1)), TimeAt(c.p, i - 1))
  }

  /** The carrier angle `freq * t`. Kept as a function of its own so that
      equal frequencies and times give equal angles without the solver having
      to multiply. */
  function Angle(freq: real, t: real): real {
    freq * t
  }

  /** The unit phasor `cos(angle) + i sin(angle)`. */
  function Phasor(angle: real, cos: real -> real, sin: real -> real): Complex {
    Complex(cos(angle), sin(angle))
  }

  /** An AM sample: the amplitude times the carrier, with no imaginary
      part. */
  function AmSample(ampl: real, w: real, t: real, cos: real -> real): Complex {
    Complex(ampl * cos(Angle(w, t)), 0.0)
  }

  /** The complex value of sample `i` under the given keying: AM scales the
      carrier by the bit's amplitude; FM turns at the bit's frequency from the
      running phase; PM shifts the carrier by the bit's phase. */
  function SampleValue(kind: ModulationType, c: Carrier, bits: seq<int>, phase0: real, i: nat): Complex
    requires Usable(c.p)
    requires BitReadable(bits, c.p, i)
    requires i > 0 ==> BitReadable(bits, c.p, i - 1)
  {
    var t := TimeAt(c.p, i);
    var bit := BitAt(bits, c.p, i);
    match kind
    case AM => AmSample(Amplitude(c, bit), c.p.w, t, c.cos)
    case FM => Phasor(Angle(FmFreq(c, bit), t) + PhaseBefore(c, bits, phase0, i), c.cos, c.sin)
    case PM => Phasor(Angle(c.p.w, t) + PmPhase(bit), c.cos, c.sin)
  }

  /** What a synthesis produces, and the generator's FM phase afterwards. */
  datatype Synthesized = Synthesized(out: Outcome<Signal>, phase: real)

  /** The whole sample loop. No samples: two empty lists. An unrecognised
      modulation with at least one sample: `(None, None)`. A bit index past
      the bits: `IndexError`, with the FM phase left where the samples before
      it put it. Otherwise one time stamp and one sample per `arange` value. */
  function Synthesize(kind: ModulationArg, c: Carrier, bits: seq<int>, phase0: real): (r: Synthesized)
    requires Usable(c.p)
  {
    var n := SampleCount(c.p);
    if n == 0 then Synthesized(Returns(Signal([], [])), phase0)
    else if kind.Unrecognised? then Synthesized(ReturnsNone, phase0)
    else
      var k := FirstUnreadable(bits, c.p, 0, n);
      var phase := if kind.kind == FM then PhaseBefore(c, bits, phase0, k) else phase0;
      if k < n then Synthesized(Raises(IndexError), phase)
      else
        Synthesized(Returns(Signal(Times(c.p, n), Samples(kind.kind, c, bits, phase0, n))), phase)
  }

  /** The synthesis of a recognised keying stops at the first sample whose
      bit cannot be read, with the FM phase the samples before it left. */
  lemma SynthesisStopsAt(kind: ModulationType, c: Carrier, bits: seq<int>, phase0: real, i: nat)
    requires Usable(c.p) && i < SampleCount(c.p)
    requires forall j :: 0 <= j < i ==> BitReadable(bits, c.p, j)
    requires !BitReadable(bits, c.p, i)
    ensures Synthesize(Kind(kind), c, bits, phase0)
      == Synthesized(Raises(IndexError), if kind == FM then PhaseBefore(c, bits, phase0, i) else phase0)
  {
    assert FirstUnreadable(bits, c.p, 0, SampleCount(c.p)) == i;
  }

  /** When every bit can be read, the synthesis of a recognised keying
      yields every sample, and the FM phase is the one after the last. */
  lemma SynthesisCompletes(kind: ModulationType, c: Carrier, bits: seq<int>, phase0: real)
    requires Usable(c.p)
    requires forall j :: 0 <= j < SampleCount(c.p) ==> BitReadable(bits, c.p, j)
    ensures var n := SampleCount(c.p);
      Synthesize(Kind(kind), c, bits, phase0)
        == Synthesized(Returns(Signal(Times(c.p, n), Samples(kind, c, bits, phase0, n))),
                       if kind == FM then PhaseBefore(c, bits, phase0, n) else phase0)
  {
    var n := SampleCount(c.p);
    assert FirstUnreadable(bits, c.p, 0, n) == n;
    if n == 0 {
      assert Times(c.p, n) == [] && Samples(kind, c, bits, phase0, n) == [];
    }
  }

  /** The first `n` values of the `arange`. */
  function Times(p: Params, n: nat): seq<real> {
    seq(n, i requires 0 <= i < n => TimeAt(p, i))
  }

  /** The first `n` samples, when each of their bits can be read. */
  function Samples(kind: ModulationType, c: Carrier, bits: seq<int>, phase0: real, n: nat): seq<Complex>
    requires Usable(c.p)
    requires forall k :: 0 <= k < n ==> BitReadable(bits, c.p, k)
  {
    seq(n, i requires 0 <= i < n => SampleValue(kind, c, bits, phase0, i))
  }

  /** With positive rates, a positive bit count and one bit per bit slot,
      every sample's bit index lies in `[0, count)`: the loop never raises,
      it yields `ceil(samplingRate * count / bitsPerSecond)` samples, and the
      time axis starts at 0 and increases strictly by one sampling period. */
  lemma {:induction false} SynthesisSucceeds(samplingRate: real, bitsPerSecond: real, sf: real, count: int,
                                             kind: ModulationType, c: Carrier, bits: seq<int>, phase0: real)
    requires samplingRate > 0.0 && bitsPerSecond > 0.0 && count > 0 && |bits| == count
    requires SignalParameters(samplingRate, bitsPerSecond, sf, count) == Returns(c.p)
    ensures var r := Synthesize(Kind(kind), c, bits, phase0).out;
      && r.Returns?
      && WellFormed(r.value)
      && |r.value.t| == Ceil(samplingRate * count as real / bitsPerSecond)
      && (|r.value.t| > 0 ==> r.value.t[0] == 0.0)
      && (forall i :: 0 <= i < |r.value.t| - 1 ==> r.value.t[i + 1] == r.value.t[i] + 1.0 / samplingRate)
  {
    var p := c.p;
    var n := SampleCount(p);
    assert p.duration / p.timestep == samplingRate * count as real / bitsPerSecond by {
      assert p.bitTime == 1.0 / bitsPerSecond;
      assert p.timestep == 1.0 / samplingRate;
    }
    assert n == Ceil(samplingRate * count as real / bitsPerSecond);
    forall i: nat | i < n ensures BitReadable(bits, p, i) {
      BitIndexInRange(samplingRate, bitsPerSecond, count, p, i);
    }
    var k := FirstUnreadable(bits, p, 0, n);
    assert k == n;
    forall i | 0 <= i < n - 1 ensures TimeAt(p, i + 1) == TimeAt(p, i) + 1.0 / samplingRate {
      assert p.timestep == 1.0 / samplingRate;
    }
  }

  /** The bit index of a sample inside the signal is one of its bit slots. */
  lemma BitIndexInRange(samplingRate: real, bitsPerSecond: real, count: int, p: Params, i: nat)
    requires samplingRate > 0.0 && bitsPerSecond > 0.0 && count > 0
    requires p.bitTime * bitsPerSecond == 1.0 && p.timestep * samplingRate == 1.0
    requires p.duration == p.bitTime * count as real
    requires i < SampleCount(p)
    ensures 0 <= BitIndexAt(p, i) < count
  {
    var x := p.duration / p.timestep;
    assert p.timestep > 0.0 && p.bitTime > 0.0;
    assert (i as real) < x;
    var t := TimeAt(p, i);
    assert t < p.duration by {
      assert t == i as real * p.timestep;
      assert i as real * p.timestep < x * p.timestep;
    }
    assert 0.0 <= t / p.bitTime < count as real by {
      assert p.duration / p.bitTime == count as real;
    }
  }
}
