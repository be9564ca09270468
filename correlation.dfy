/** `SignalGenerator.get_correlation` and `find_correlation_max`: numpy's
    'valid' cross-correlation, its normalised magnitude and the delay read
    off its first maximum. The complex magnitude (`np.abs`, a square root)
    is a parameter. */
module Correlation {
  import opened Values

  function Mul(a: Complex, b: Complex): Complex {
    Complex(a.re * b.re - a.im * b.im, a.re * b.im + a.im * b.re)
  }

  function Add(a: Complex, b: Complex): Complex {
    Complex(a.re + b.re, a.im + b.im)
  }

  function Conj(z: Complex): Complex {
    Complex(z.re, -z.im)
  }

  function Conjugate(v: seq<Complex>): (r: seq<Complex>)
    ensures |r| == |v|
  {
    seq(|v|, i requires 0 <= i < |v| => Conj(v[i]))
  }

  /** `sum(a[n] * b[n])` over two equally long sequences. */
  function Dot(a: seq<Complex>, b: seq<Complex>): Complex
    requires |a| == |b|
  {
    if |a| == 0 then Complex(0.0, 0.0)
    else Add(Dot(a[..|a| - 1], b[..|b| - 1]), Mul(a[|a| - 1], b[|b| - 1]))
  }

  /** The sliding products of numpy's correlation kernel: entry `k` is
      `sum(long[n + k] * short[n])`. */
  function Slide(long: seq<Complex>, short: seq<Complex>): (r: seq<Complex>)
    requires |short| <= |long|
    ensures |r| == |long| - |short| + 1
  {
    seq(|long| - |short| + 1, k requires 0 <= k <= |long| - |short| => Dot(long[k..k + |short|], short))
  }

  function Reverse<T>(s: seq<T>): (r: seq<T>)
    ensures |r| == |s|
    ensures forall i :: 0 <= i < |s| ==> r[i] == s[|s| - 1 - i]
  {
    seq(|s|, i requires 0 <= i < |s| => s[|s| - 1 - i])
  }

  /** The length of a 'valid' correlation of sequences of lengths `a` and
      `v`: the number of full overlaps. */
  function ValidLength(a: nat, v: nat): nat {
    if a >= v then a - v + 1 else v - a + 1
  }

  /** `np.correlate(a, v, 'valid')`: entry `k` is `sum(a[n + k] * conj(v[n]))`.
      numpy refuses an empty operand, and when `v` is the longer one it
      swaps the operands and reverses the result. */
  function NumpyCorrelate(a: seq<Complex>, v: seq<Complex>): (r: Outcome<seq<Complex>>)
    ensures r.Raises? <==> |a| == 0 || |v| == 0
    ensures r.Raises? ==> r.error == ValueError
    ensures r.Returns? ==> |r.value| == ValidLength(|a|, |v|)
    ensures !r.ReturnsNone?
  {
    if |a| == 0 || |v| == 0 then Raises(ValueError)
    else if |a| >= |v| then Returns(Slide(a, Conjugate(v)))
    else Returns(Reverse(Slide(Conjugate(v), a)))
  }

  /** `IsFirstMax(s, i)`: `s[i]` is a largest value and no earlier value
      reaches it, which is the index `np.argmax` reports. */
  predicate IsFirstMax(s: seq<real>, i: int) {
    && 0 <= i < |s|
    && (forall j :: 0 <= j < |s| ==> s[j] <= s[i])
    && (forall j :: 0 <= j < i ==> s[j] < s[i])
  }

  /** `np.argmax` of a non-empty sequence: the first index of its maximum. */
  function ArgMax(s: seq<real>): (r: nat)
    requires |s| > 0
    ensures IsFirstMax(s, r)
  {
    if |s| == 1 then 0
    else
      var k := ArgMax(s[..|s| - 1]);
      if s[|s| - 1] > s[k] then |s| - 1 else k
  }

  /** The first maximum of a sequence is unique. */
  lemma FirstMaxUnique(s: seq<real>, i: int, j: int)
    requires IsFirstMax(s, i) && IsFirstMax(s, j)
    ensures i == j
  {
    assert s[i] <= s[j] && s[j] <= s[i];
  }

  function Magnitudes(c: seq<Complex>, abs: Complex -> real): (r: seq<real>)
    ensures |r| == |c| && forall i :: 0 <= i < |c| ==> r[i] == abs(c[i])
  {
    seq(|c|, i requires 0 <= i < |c| => abs(c[i]))
  }

  /** `y / np.max(y)` for non-negative magnitudes: NaN when they are all
      zero; otherwise every value lands in `[0, 1]` and the maxima become 1. */
  function Normalise(mags: seq<real>): (r: Outcome<seq<real>>)
    requires |mags| > 0
    requires forall i :: 0 <= i < |mags| ==> mags[i] >= 0.0
    ensures r.Raises? <==> forall i :: 0 <= i < |mags| ==> mags[i] == 0.0
    ensures r.Raises? ==> r.error == NotANumber
    ensures !r.ReturnsNone?
    ensures r.Returns? ==>
      && |r.value| == |mags|
      && (forall i :: 0 <= i < |mags| ==> 0.0 <= r.value[i] <= 1.0)
      && (forall i :: 0 <= i < |mags| ==> (r.value[i] == 1.0 <==> mags[i] == mags[ArgMax(mags)]))
  {
    var k := ArgMax(mags);
    var top := mags[k];
    if top == 0.0 then Raises(NotANumber)
    else
      ScaledByMax(mags, top);
      Returns(Scaled(mags, top))
  }

  lemma ScaledByMax(mags: seq<real>, top: real)
    requires top > 0.0
    requires forall i :: 0 <= i < |mags| ==> 0.0 <= mags[i] <= top
    ensures forall i :: 0 <= i < |mags| ==>
      0.0 <= Scaled(mags, top)[i] <= 1.0 && (Scaled(mags, top)[i] == 1.0 <==> mags[i] == top)
  {
    forall i | 0 <= i < |mags|
      ensures 0.0 <= mags[i] / top <= 1.0 && (mags[i] / top == 1.0 <==> mags[i] == top)
    {
      UnitRatio(mags[i], top);
    }
  }

  lemma UnitRatio(a: real, top: real)
    requires top > 0.0 && 0.0 <= a <= top
    ensures 0.0 <= a / top <= 1.0
    ensures a / top == 1.0 <==> a == top
  {
    assert a / top * top == a;
  }

  function Scaled(s: seq<real>, top: real): (r: seq<real>)
    requires top != 0.0
    ensures |r| == |s| && forall i :: 0 <= i < |s| ==> r[i] == s[i] / top
  {
    seq(|s|, i requires 0 <= i < |s| => s[i] / top)
  }

  /** Every value is zero. */
  predicate AllZero(s: seq<real>) {
    forall i :: 0 <= i < |s| ==> s[i] == 0.0
  }

  /** `np.abs(np.correlate(research, modulate, 'valid'))` for two non-empty
      sample lists. */
  function CorrelationMagnitudes(modulated: Signal, researched: Signal, abs: Complex -> real): (r: seq<real>)
    requires |modulated.s| > 0 && |researched.s| > 0
    ensures |r| == ValidLength(|researched.s|, |modulated.s|)
  {
    Magnitudes(NumpyCorrelate(researched.s, modulated.s).value, abs)
  }

  /** `get_correlation(modulated, researched)`. A missing signal: nothing.
      An empty sample list: numpy's ValueError. Magnitudes all zero: the
      division by the maximum yields NaN. Otherwise the magnitudes divided
      by their maximum, over the first time stamps of the research signal. */
  function GetCorrelation(modulated: Option<Signal>, researched: Option<Signal>, abs: Complex -> real): (r: Outcome<Curve>)
    requires forall z :: abs(z) >= 0.0
    ensures modulated.None? || researched.None? ==> r.ReturnsNone?
    ensures r.ReturnsNone? ==> modulated.None? || researched.None?
    ensures modulated.Some? && researched.Some? && (|researched.value.s| == 0 || |modulated.value.s| == 0) ==>
      r == Raises(ValueError)
    ensures modulated.Some? && researched.Some? && |researched.value.s| > 0 && |modulated.value.s| > 0 ==>
      var mags := CorrelationMagnitudes(modulated.value, researched.value, abs);
      && (r.Raises? <==> AllZero(mags))
      && (r.Raises? ==> r.error == NotANumber)
      && (r.Returns? ==> |r.value.y| == |mags| && forall i :: 0 <= i < |mags| ==> r.value.y[i] == mags[i] / mags[ArgMax(mags)])
    ensures r.Returns? ==>
      && |r.value.y| == ValidLength(|researched.value.s|, |modulated.value.s|)
      && r.value.x == TakePy(researched.value.t, |r.value.y|)
      && (forall i :: 0 <= i < |r.value.y| ==> 0.0 <= r.value.y[i] <= 1.0)
      && (exists i :: 0 <= i < |r.value.y| && r.value.y[i] == 1.0)
  {
    if modulated.None? || researched.None? then ReturnsNone
    else
      var c := NumpyCorrelate(researched.value.s, modulated.value.s);
      if c.Raises? then Raises(c.error)
      else
        var y := Normalise(Magnitudes(c.value, abs));
        if y.Raises? then Raises(y.error)
        else
          assert y.value[ArgMax(Magnitudes(c.value, abs))] == 1.0;
          Returns(Curve(TakePy(researched.value.t, |y.value|), y.value))
  }

  /** `find_correlation_max(correlation)`: nothing for a missing curve,
      numpy's ValueError for an empty one, an IndexError when the time axis
      is shorter than the argmax, and otherwise the time stamp of the first
      maximum in milliseconds. */
  function FindCorrelationMax(correlation: Option<Curve>): (r: Outcome<real>)
    ensures correlation.None? <==> r.ReturnsNone?
    ensures correlation.Some? && |correlation.value.y| == 0 ==> r == Raises(ValueError)
    ensures correlation.Some? && |correlation.value.y| > 0 ==>
      && (r.Returns? <==> ArgMax(correlation.value.y) < |correlation.value.x|)
      && (r.Raises? ==> r.error == IndexError)
    ensures correlation.Some? && 0 < |correlation.value.y| <= |correlation.value.x| ==> r.Returns?
    ensures r.Returns? ==> exists i :: IsFirstMax(correlation.value.y, i) && i < |correlation.value.x|
                                      && r.value == 1000.0 * correlation.value.x[i]
  {
    if correlation.None? then ReturnsNone
    else if |correlation.value.y| == 0 then Raises(ValueError)
    else
      var idx := ArgMax(correlation.value.y);
      if idx >= |correlation.value.x| then Raises(IndexError)
      else Returns(1000.0 * correlation.value.x[idx])
  }

  /** Dividing by a positive maximum keeps the position of the first
      maximum. */
  lemma {:induction false} ScalingKeepsFirstMax(s: seq<real>, top: real, i: int)
    requires top > 0.0
    requires IsFirstMax(s, i)
    ensures IsFirstMax(Scaled(s, top), i)
  {
    var y := Scaled(s, top);
    forall j | 0 <= j < |s| ensures y[j] <= y[i] && (j < i ==> y[j] < y[i]) {
      DivMonotone(s[j], s[i], top);
    }
  }

  lemma DivMonotone(a: real, b: real, top: real)
    requires top > 0.0
    ensures a <= b ==> a / top <= b / top
    ensures a < b ==> a / top < b / top
  {
  }

  /** The delay estimate of the pipeline: when the research signal is at
      least as long as the reference and the correlation is not all zero,
      `find_correlation_max(get_correlation(m, r))` is 1000 times the
      research time stamp at the first index where the correlation
      magnitude is largest. */
  lemma {:induction false} EstimatedDelay(modulated: Signal, researched: Signal, abs: Complex -> real)
    requires forall z :: abs(z) >= 0.0
    requires WellFormed(researched)
    requires 0 < |modulated.s| <= |researched.s|
    requires !AllZero(CorrelationMagnitudes(modulated, researched, abs))
    ensures var mags := CorrelationMagnitudes(modulated, researched, abs);
      exists i :: IsFirstMax(mags, i) && i < |researched.t| &&
        FindCorrelationMax(Some(GetCorrelation(Some(modulated), Some(researched), abs).value))
          == Returns(1000.0 * researched.t[i])
  {
    var mags := CorrelationMagnitudes(modulated, researched, abs);
    var k := ArgMax(mags);
    var top := mags[k];
    var curve := GetCorrelation(Some(modulated), Some(researched), abs).value;
    assert curve.y == Scaled(mags, top);
    ScalingKeepsFirstMax(mags, top, k);
    FirstMaxUnique(curve.y, ArgMax(curve.y), k);
    assert |mags| <= |researched.t|;
    assert curve.x[k] == researched.t[k];
  }
}
