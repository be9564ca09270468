/** Values shared by the whole model: complex samples, the `[x, y]` signal
    pairs the generator passes around, and the handful of Python and numpy
    behaviours (None, exceptions, `int()`, slicing, `range`) the generator
    relies on. */
module Values {

  /** A Python argument that may be `None` (or an empty, hence falsy, list). */
  datatype Option<+T> = None | Some(value: T)

  /** The exceptions the modelled code can raise. `NotANumber` stands for the
      one numpy case that does not raise but yields NaN values (a division of
      an all-zero array by its maximum); the model stops there. */
  datatype PyError = IndexError | ValueError | ZeroDivisionError | NotANumber

  /** What a call of the source produces: a value, a bare `return` (None),
      or an exception. */
  datatype Outcome<+T> = Returns(value: T) | ReturnsNone | Raises(error: PyError)

  /** A Python `complex`. */
  datatype Complex = Complex(re: real, im: real)

  /** A complex signal `[x, y]`: time stamps in seconds and complex samples.
      The two lists are not forced to have equal length: the source never
      checks it. */
  datatype Signal = Signal(t: seq<real>, s: seq<Complex>)

  /** A real-valued `[x, y]` pair: one part of a complex signal, or a
      normalised correlation curve. */
  datatype Curve = Curve(x: seq<real>, y: seq<real>)

  /** The value of `np.pi` (a double) written as a decimal. */
  const Pi: real := 3.141592653589793

  predicate WellFormed(sig: Signal) {
    |sig.t| == |sig.s|
  }

  /** Python's `int()` of a float: truncation toward zero. */
  function Trunc(x: real): (r: int)
    ensures 0.0 <= x ==> 0 <= r && r as real <= x < r as real + 1.0
    ensures x < 0.0 ==> r <= 0 && r as real - 1.0 < x <= r as real
  {
    if x >= 0.0 then x.Floor else -((-x).Floor)
  }

  /** The smallest integer not below `x` (numpy's length of an `arange`). */
  function Ceil(x: real): (r: int)
    ensures x <= r as real < x + 1.0
  {
    -((-x).Floor)
  }

  /** `s[i]` succeeds in Python: negative indices count from the end. */
  predicate PyIndexable<T>(s: seq<T>, i: int) {
    -|s| <= i < |s|
  }

  function PyAt<T>(s: seq<T>, i: int): (r: T)
    requires PyIndexable(s, i)
    ensures r in s
  {
    if i >= 0 then s[i] else s[|s| + i]
  }

  /** Python's `s[:k]` for `k >= 0`: a slice past the end is clamped. */
  function TakePy<T>(s: seq<T>, k: nat): (r: seq<T>)
    ensures |r| == if k <= |s| then k else |s|
    ensures forall i :: 0 <= i < |r| ==> r[i] == s[i]
  {
    if k <= |s| then s[..k] else s
  }

  /** Python's `s[k:]` for `k >= 0`: empty once `k` is past the end. */
  function DropPy<T>(s: seq<T>, k: nat): (r: seq<T>)
    ensures |r| == if k <= |s| then |s| - k else 0
    ensures forall i :: 0 <= i < |r| ==> r[i] == s[k + i]
  {
    if k <= |s| then s[k..] else []
  }

  /** The number of values `range(start, stop, step)` yields. */
  function RangeLength(start: int, stop: int, step: int): nat
    requires step != 0
  {
    if step > 0 then
      (if start < stop then (stop - start + step - 1) / step else 0)
    else
      (if start > stop then (start - stop - step - 1) / (-step) else 0)
  }

  /** Python's `range(start, stop, step)` as a sequence. */
  function PyRange(start: int, stop: int, step: int): seq<int>
    requires step != 0
  {
    seq(RangeLength(start, stop, step), i => start + i * step)
  }

  /** The values of a positive-step range are exactly the arithmetic
      progression from `start` that stays below `stop`: every value is in
      bounds, and the next one would not be. */
  lemma {:induction false} PyRangeAscending(start: int, stop: int, step: int)
    requires step > 0
    ensures var r := PyRange(start, stop, step);
      && (forall i :: 0 <= i < |r| ==> r[i] == start + i * step && start <= r[i] < stop)
      && stop <= start + |r| * step
  {
    var n := RangeLength(start, stop, step);
    if start < stop {
      var d := stop - start + step - 1;
      assert n * step <= d < n * step + step;
      forall i | 0 <= i < n ensures start + i * step < stop {
        MulMonotone(i, n - 1, step);
      }
    }
  }

  /** The mirror image for a negative step: every value stays above `stop`,
      and the next one would not. */
  lemma {:induction false} PyRangeDescending(start: int, stop: int, step: int)
    requires step < 0
    ensures var r := PyRange(start, stop, step);
      && (forall i :: 0 <= i < |r| ==> r[i] == start + i * step && stop < r[i] <= start)
      && start + |r| * step <= stop
  {
    var n := RangeLength(start, stop, step);
    if start > stop {
      var d := start - stop - step - 1;
      assert n * (-step) <= d < n * (-step) + (-step);
      forall i | 0 <= i < n ensures stop < start + i * step {
        MulMonotone(i, n - 1, -step);
      }
    }
  }

  lemma MulMonotone(a: int, b: int, c: nat)
    requires a <= b
    ensures a * c <= b * c
  {
  }
}
