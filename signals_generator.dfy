/** The `SignalGenerator` object: its configuration fields, the fields it
    derives from them, the bits and FM phase it keeps between calls, and the
    operations that update or read them. The pure parts of each operation are
    stated in `Synthesis`, `Splicing`, `BitPlot`, `ComplexParts` and
    `Correlation`; the methods here do the source's loops and field updates
    and are proved against those functions. */
module SignalsGenerator {
  import opened Values
  import opened Enums
  import opened Synthesis
  import opened Splicing
  import opened BitPlot

  class SignalGenerator {
    // Configuration, as set by the constructor or the window.
    var samplingRate: real
    var signalFreq: real
    var bitsCount: int
    var bitsPerSecond: real
    var timeDelay: real
    var snr: real
    var dopplerEffect: real

    // State kept between calls.
    var signalPhase: real
    var bits: seq<int>

    // AM amplitudes, never reassigned.
    const lowAmpl: real := 1.0
    const highAmpl: real := 10.0

    // Derived from the configuration.
    var lowFreq: real
    var highFreq: real
    var rschSignalFreq: real
    var rschBitsCount: int

    /** The derived fields agree with the configuration: the FM angular
        frequencies are `2 pi f` and `4 pi f`, and the research signal has the
        same carrier and three times as many bits. */
    ghost predicate Derived()
      reads this
    {
      && lowFreq == 2.0 * Pi * signalFreq
      && highFreq == 4.0 * Pi * signalFreq
      && rschSignalFreq == signalFreq
      && rschBitsCount == bitsCount * 3
    }

    /** `__init__`: stores the configuration, starts with phase 0 and no bits,
        and computes the derived fields. */
    constructor (sr: real, sFreq: real, bCount: int, bps: real, tDelay: real, snr0: real, eDoppler: real)
      ensures samplingRate == sr && signalFreq == sFreq && bitsCount == bCount
      ensures bitsPerSecond == bps && timeDelay == tDelay && snr == snr0 && dopplerEffect == eDoppler
      ensures signalPhase == 0.0 && bits == []
      ensures Derived() && highFreq == 2.0 * lowFreq
    {
      samplingRate := sr;
      signalFreq := sFreq;
      bitsCount := bCount;
      bitsPerSecond := bps;
      timeDelay := tDelay;
      snr := snr0;
      signalPhase := 0.0;
      dopplerEffect := eDoppler;
      bits := [];
      lowFreq := 2.0 * Pi * sFreq;
      highFreq := 4.0 * Pi * sFreq;
      rschSignalFreq := sFreq;
      rschBitsCount := bCount * 3;
    }

    /** `recalc_parameters`: after the window has changed the configuration,
        the derived fields agree with it again; nothing else changes. */
    method RecalcParameters()
      modifies this`lowFreq, this`highFreq, this`rschSignalFreq, this`rschBitsCount
      ensures Derived() && highFreq == 2.0 * lowFreq
    {
      lowFreq := 2.0 * Pi * signalFreq;
      highFreq := 4.0 * Pi * signalFreq;
      rschSignalFreq := signalFreq;
      rschBitsCount := bitsCount * 3;
    }

    /** `_generate_bits(bits_count)`: one `randint(0, 1)` draw per bit, in
        order. The draws are given as `draws`. */
    static method GenerateBits(count: int, draws: seq<int>) returns (bits: seq<int>)
      requires count <= |draws|
      ensures |bits| == if count > 0 then count else 0
      ensures bits == draws[..|bits|]
      ensures (forall k :: 0 <= k < |draws| ==> draws[k] == 0 || draws[k] == 1) ==>
        forall k :: 0 <= k < |bits| ==> bits[k] == 0 || bits[k] == 1
    {
      bits := [];
      var i := 0;
      while i < count
        invariant 0 <= i <= (if count > 0 then count else 0)
        invariant bits == draws[..i]
      {
        bits := bits + [draws[i]];
        i := i + 1;
      }
    }

    /** The bit count a signal of the given role uses. */
    function CountFor(signalType: SignalType): int
      reads this
    {
      if signalType == RESEARCH then rschBitsCount else bitsCount
    }

    /** The carrier frequency a signal of the given role uses. */
    function FreqFor(signalType: SignalType): real
      reads this
    {
      if signalType == RESEARCH then rschSignalFreq else signalFreq
    }

    /** The fields the sample loop reads, with the trigonometric functions. */
    function CarrierFor(p: Params, cos: real -> real, sin: real -> real): Carrier
      reads this`lowFreq, this`highFreq
    {
      Carrier(p, lowFreq, highFreq, lowAmpl, highAmpl, cos, sin)
    }

    /** Under AM every sample is the carrier scaled by 1 for a 0 bit and by
        10 for any other bit, with no imaginary part. */
    lemma AmAmplitudes(p: Params, drawn: seq<int>, cos: real -> real, sin: real -> real, phase0: real, i: nat)
      requires Usable(p) && BitReadable(drawn, p, i)
      requires i > 0 ==> BitReadable(drawn, p, i - 1)
      ensures SampleValue(AM, CarrierFor(p, cos, sin), drawn, phase0, i)
        == AmSample(if BitAt(drawn, p, i) == 0 then 1.0 else 10.0, p.w, TimeAt(p, i), cos)
      ensures SampleValue(AM, CarrierFor(p, cos, sin), drawn, phase0, i).im == 0.0
    {
    }

    /** `calc_modulated_signal(signal_type, modulation_type)`. Fresh bits are
        drawn for the role's bit count; a `GENERAL` signal stores them in
        `bits` before anything can fail, a `RESEARCH` signal leaves `bits`
        alone. A zero rate, sampling rate or bit count raises
        ZeroDivisionError. Otherwise the result and the new FM phase are
        those of `Synthesize` on the drawn bits. */
    method CalcModulatedSignal(signalType: SignalType, modulation: ModulationArg,
                               draws: seq<int>, cos: real -> real, sin: real -> real)
      returns (r: Outcome<Signal>)
      requires CountFor(signalType) <= |draws|
      modifies this`bits, this`signalPhase
      ensures var count := CountFor(signalType);
        var drawn := draws[..if count > 0 then count else 0];
        && bits == (if signalType == GENERAL then drawn else old(bits))
        && match SignalParameters(samplingRate, bitsPerSecond, FreqFor(signalType), count)
           case Returns(p) =>
             var syn := Synthesize(modulation, CarrierFor(p, cos, sin), drawn, old(signalPhase));
             r == syn.out && signalPhase == syn.phase
           case _ => r == Raises(ZeroDivisionError) && signalPhase == old(signalPhase)
    {
      var count := CountFor(signalType);
      var sf := FreqFor(signalType);
      var drawn := GenerateBits(count, draws);
      if signalType == GENERAL {
        bits := drawn;
      }
      var params := SignalParameters(samplingRate, bitsPerSecond, sf, count);
      if !params.Returns? {
        return Raises(ZeroDivisionError);
      }
      r := SampleSignal(modulation, params.value, drawn, cos, sin);
    }

    /** The sample loop of `calc_modulated_signal` over
        `np.arange(0, duration, timestep)`: what it returns and the FM phase it
        leaves are those of `Synthesize`. */
    method SampleSignal(modulation: ModulationArg, p: Params, drawn: seq<int>, cos: real -> real, sin: real -> real)
      returns (r: Outcome<Signal>)
      requires Usable(p)
      modifies this`signalPhase
      ensures var syn := Synthesize(modulation, CarrierFor(p, cos, sin), drawn, old(signalPhase));
        r == syn.out && signalPhase == syn.phase
    {
      ghost var c := CarrierFor(p, cos, sin);
      ghost var phase0 := signalPhase;
      var n := SampleCount(p);
      var x: seq<real> := [];
      var y: seq<Complex> := [];
      assert modulation.Unrecognised? && n > 0 ==> Synthesize(modulation, c, drawn, phase0) == Synthesized(ReturnsNone, phase0);
      var i := 0;
      while i < n
        invariant 0 <= i <= n
        invariant |x| == i && forall j :: 0 <= j < i ==> x[j] == TimeAt(p, j)
        invariant forall j :: 0 <= j < i ==> BitReadable(drawn, p, j)
        invariant modulation.Unrecognised? ==> i == 0 && y == []
        invariant modulation.Kind? ==> |y| == i && forall j :: 0 <= j < i ==> y[j] == SampleValue(modulation.kind, c, drawn, phase0, j)
        invariant modulation == Kind(FM) ==> signalPhase == PhaseBefore(c, drawn, phase0, i)
        invariant modulation != Kind(FM) ==> signalPhase == phase0
      {
        var t := TimeAt(p, i);
        var bitIndex := BitIndexAt(p, i);
        if modulation.Unrecognised? {
          return ReturnsNone;
        }
        if !PyIndexable(drawn, bitIndex) {
          SynthesisStopsAt(modulation.kind, c, drawn, phase0, i);
          return Raises(IndexError);
        }
        var value := NextSample(modulation.kind, p, drawn, cos, sin, i, phase0);
        x := x + [t];
        y := y + [value];
        i := i + 1;
      }
      assert x == Times(p, n);
      if modulation.Kind? {
        assert y == Samples(modulation.kind, c, drawn, phase0, n);
        SynthesisCompletes(modulation.kind, c, drawn, phase0);
      } else {
        assert x == [] && y == [];
      }
      assert CarrierFor(p, cos, sin) == c;
      return Returns(Signal(x, y));
    }

    /** One pass of the sample loop for a recognised keying whose bit can be
        read: the sample `SampleValue` describes; FM also moves the running
        phase to this sample's `freq * t`. */
    method NextSample(kind: ModulationType, p: Params, drawn: seq<int>, cos: real -> real, sin: real -> real,
                      i: nat, ghost phase0: real)
      returns (value: Complex)
      requires Usable(p)
      requires forall j :: 0 <= j <= i ==> BitReadable(drawn, p, j)
      requires kind == FM ==> signalPhase == PhaseBefore(CarrierFor(p, cos, sin), drawn, phase0, i)
      modifies this`signalPhase
      ensures value == SampleValue(kind, CarrierFor(p, cos, sin), drawn, phase0, i)
      ensures kind == FM ==> signalPhase == PhaseBefore(CarrierFor(p, cos, sin), drawn, phase0, i + 1)
      ensures kind != FM ==> signalPhase == old(signalPhase)
    {
      var t := TimeAt(p, i);
      assert BitReadable(drawn, p, i);
      var bit := PyAt(drawn, BitIndexAt(p, i));
      match kind {
        case AM =>
          var ampl := if bit == 0 then lowAmpl else highAmpl;
          value := AmSample(ampl, p.w, t, cos);
        case FM =>
          var freq := if bit == 0 then lowFreq else highFreq;
          value := Phasor(Angle(freq, t) + signalPhase, cos, sin);
          signalPhase := Angle(freq, t);
        case PM =>
          var ph := if bit == 0 then 0.0 else Pi;
          value := Phasor(Angle(p.w, t) + ph, cos, sin);
      }
    }

    /** `calc_research_signal(modulated, researched)`: nothing when either
        signal is missing; otherwise the splice of the reference into the
        research signal at `time_delay` milliseconds, found by scanning the
        research time axis. */
    method CalcResearchSignal(modulated: Option<Signal>, researched: Option<Signal>) returns (r: Outcome<Signal>)
      ensures modulated.None? || researched.None? ==> r == ReturnsNone
      ensures modulated.Some? && researched.Some? ==>
        r == Splice(modulated.value, researched.value, DelaySeconds(timeDelay))
    {
      if modulated.None? || researched.None? {
        return ReturnsNone;
      }
      var m, rs := modulated.value, researched.value;
      if |rs.t| == 0 || |m.t| == 0 {
        return Raises(IndexError);
      }
      var td := timeDelay / 1000.0;
      if td > rs.t[|rs.t| - 1] - m.t[|m.t| - 1] {
        return ReturnsNone;
      }
      var idx := 0;
      var i := 0;
      while i < |rs.t|
        invariant 0 <= i <= |rs.t|
        invariant idx == 0
        invariant forall j :: 0 <= j < i ==> rs.t[j] < td
      {
        if rs.t[i] >= td {
          idx := i;
          break;
        }
        i := i + 1;
      }
      var signalLen := |m.t|;
      var newSignal := TakePy(rs.s, idx) + m.s + DropPy(rs.s, idx + signalLen);
      return Returns(Signal(rs.t, newSignal));
    }

    /** `get_bits_to_plot()`: nothing when no bits are stored; an IndexError
        when `bits_count` exceeds the stored bits; otherwise the corners of
        the step plot of the first `bits_count` bits. */
    method GetBitsToPlot() returns (r: Outcome<(seq<int>, seq<int>)>)
      ensures bits == [] ==> r == ReturnsNone
      ensures bits != [] && bitsCount > |bits| ==> r == Raises(IndexError)
      ensures bits != [] && bitsCount <= |bits| ==>
        var n := if bitsCount > 0 then bitsCount else 0;
        r == Returns(StepPoints(bits, n, n))
    {
      if bits == [] {
        return ReturnsNone;
      }
      var x: seq<int> := [];
      var y: seq<int> := [];
      var i := 0;
      while i < bitsCount
        invariant 0 <= i
        invariant bitsCount < 0 ==> x == [] && y == []
        invariant 0 <= bitsCount <= |bits| ==> i <= bitsCount && (x, y) == StepPoints(bits, bitsCount, i)
        invariant bitsCount > |bits| ==> i < |bits|
      {
        ghost var x0, y0 := x, y;
        if i >= |bits| {
          return Raises(IndexError);
        }
        x := x + [i];
        y := y + [bits[i]];
        if i < bitsCount - 1 {
          if i + 1 >= |bits| {
            return Raises(IndexError);
          }
          if bits[i] != bits[i + 1] {
            x := x + [i + 1];
            y := y + [bits[i]];
          }
        } else {
          x := x + [i + 1];
          y := y + [bits[i]];
        }
        if 0 <= bitsCount <= |bits| {
          ghost var e := Emitted(bits, bitsCount, i);
          assert x == x0 + e.0 && y == y0 + e.1;
        }
        i := i + 1;
      }
      return Returns((x, y));
    }
  }
}
