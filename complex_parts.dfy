/** The static helpers of `SignalGenerator` that take complex signals
    apart and put them together: `get_complex_part`,
    `concat_complex_part` and `_calc_signal_energy`. */
module ComplexParts {
  import opened Values
  import opened Enums

  function Part(z: Complex, part: ComplexPart): real {
    match part
    case REAL => z.re
    case IMAGE => z.im
  }

  /** `get_complex_part(signal, part)`: the same time axis, and one real
      value per complex sample. */
  function GetComplexPart(sig: Signal, part: ComplexPart): (r: Curve)
    ensures r.x == sig.t
    ensures |r.y| == |sig.s|
  {
    Curve(sig.t, seq(|sig.s|, i requires 0 <= i < |sig.s| => Part(sig.s[i], part)))
  }

  /** The complex samples built from the first `|re|` values of both
      lists. */
  function Join(re: seq<real>, im: seq<real>): (r: seq<Complex>)
    requires |re| <= |im|
    ensures |r| == |re|
  {
    seq(|re|, i requires 0 <= i < |re| => Complex(re[i], im[i]))
  }

  /** `concat_complex_part(real_part, image_part)`: the real part's time
      axis, and one complex sample per real value; an imaginary list shorter
      than the real one raises IndexError. */
  method ConcatComplexPart(realPart: Curve, imagePart: Curve) returns (r: Outcome<Signal>)
    ensures |imagePart.y| < |realPart.y| ==> r == Raises(IndexError)
    ensures |realPart.y| <= |imagePart.y| ==> r == Returns(Signal(realPart.x, Join(realPart.y, imagePart.y)))
  {
    var y: seq<Complex> := [];
    var i := 0;
    while i < |realPart.y|
      invariant 0 <= i <= |realPart.y|
      invariant i <= |imagePart.y|
      invariant |y| == i
      invariant forall k :: 0 <= k < i ==> y[k] == Complex(realPart.y[k], imagePart.y[k])
    {
      if i >= |imagePart.y| {
        return Raises(IndexError);
      }
      y := y + [Complex(realPart.y[i], imagePart.y[i])];
      i := i + 1;
    }
    assert y == Join(realPart.y, imagePart.y);
    return Returns(Signal(realPart.x, y));
  }

  /** Splitting a signal into its parts and joining them gives the signal
      back, time axis and samples. */
  lemma SplitThenJoin(sig: Signal)
    ensures var re := GetComplexPart(sig, REAL);
      var im := GetComplexPart(sig, IMAGE);
      |re.y| <= |im.y| && Signal(re.x, Join(re.y, im.y)) == sig
  {
    var re := GetComplexPart(sig, REAL);
    var im := GetComplexPart(sig, IMAGE);
    assert Join(re.y, im.y) == sig.s;
  }

  /** Joining two equally long parts and splitting the result gives the two
      parts back. */
  lemma JoinThenSplit(x: seq<real>, re: seq<real>, im: seq<real>)
    requires |re| == |im|
    ensures GetComplexPart(Signal(x, Join(re, im)), REAL) == Curve(x, re)
    ensures GetComplexPart(Signal(x, Join(re, im)), IMAGE) == Curve(x, im)
  {
    var sig := Signal(x, Join(re, im));
    assert GetComplexPart(sig, REAL).y == re;
    assert GetComplexPart(sig, IMAGE).y == im;
  }

  /** The sum of the squares of the first `n` values. */
  function SumSquares(s: seq<real>, n: nat): real
    requires n <= |s|
  {
    if n == 0 then 0.0 else SumSquares(s, n - 1) + s[n - 1] * s[n - 1]
  }

  /** `_calc_signal_energy(signal)`: the sum of the squared values. */
  method SignalEnergy(sig: Curve) returns (energy: real)
    ensures energy == SumSquares(sig.y, |sig.y|)
  {
    energy := 0.0;
    var i := 0;
    while i < |sig.y|
      invariant 0 <= i <= |sig.y|
      invariant energy == SumSquares(sig.y, i)
    {
      energy := energy + sig.y[i] * sig.y[i];
      i := i + 1;
    }
  }

  /** The energy is never negative. */
  lemma {:induction false} EnergyNonNegative(s: seq<real>, n: nat)
    requires n <= |s|
    ensures SumSquares(s, n) >= 0.0
  {
    if n > 0 {
      EnergyNonNegative(s, n - 1);
    }
  }

  /** A silent signal (every value zero) has zero energy, which is the case
      the noise calibration would divide by. */
  lemma {:induction false} SilentHasNoEnergy(s: seq<real>, n: nat)
    requires n <= |s|
    requires forall i :: 0 <= i < n ==> s[i] == 0.0
    ensures SumSquares(s, n) == 0.0
  {
    if n > 0 {
      SilentHasNoEnergy(s, n - 1);
      assert s[n - 1] == 0.0;
    }
  }
}
