/** `SignalGenerator.get_bits_to_plot`, stated as functions: the corner
    points of the step plot of the first `bits_count` bits. */
module BitPlot {

  /** The points the loop appends for bit `i`: `(i, bits[i])`, then
      `(i + 1, bits[i])` when the next bit differs or `i` is the last bit. */
  function Emitted(bits: seq<int>, n: nat, i: nat): (seq<int>, seq<int>)
    requires i < n <= |bits|
  {
    if i < n - 1 then
      if bits[i] != bits[i + 1] then ([i, i + 1], [bits[i], bits[i]]) else ([i], [bits[i]])
    else ([i, i + 1], [bits[i], bits[i]])
  }

  /** The `x` and `y` lists after the first `k` of the `n` iterations. */
  function StepPoints(bits: seq<int>, n: nat, k: nat): (seq<int>, seq<int>)
    requires k <= n <= |bits|
  {
    if k == 0 then ([], [])
    else
      var p := StepPoints(bits, n, k - 1);
      var e := Emitted(bits, n, k - 1);
      (p.0 + e.0, p.1 + e.1)
  }

  /** The number of `i < m` with `bits[i] != bits[i + 1]`. */
  function Transitions(bits: seq<int>, m: nat): nat
    requires m < |bits|
  {
    if m == 0 then 0
    else Transitions(bits, m - 1) + (if bits[m - 1] != bits[m] then 1 else 0)
  }

  /** A point lies on the staircase of the first `n` bits: it is the start
      of bit `x`'s level or the end of bit `x - 1`'s level. */
  predicate OnStaircase(bits: seq<int>, n: nat, x: int, y: int)
    requires n <= |bits|
  {
    (0 <= x < n && y == bits[x]) || (0 < x <= n && y == bits[x - 1])
  }

  /** Two consecutive corners of a step plot: a horizontal step of one bit
      at the same level, or a vertical jump between two different levels. */
  predicate StepBetween(x0: int, y0: int, x1: int, y1: int) {
    (x1 == x0 + 1 && y1 == y0) || (x1 == x0 && y1 != y0)
  }

  /** The plot has one point per bit, one more for the end of the last bit,
      and one more for every change of level. */
  lemma {:induction false} StepPointsLength(bits: seq<int>, n: nat, k: nat)
    requires k <= n <= |bits| && 0 < n
    ensures var p := StepPoints(bits, n, k);
      |p.0| == |p.1| == if k < n then k + Transitions(bits, k) else n + 1 + Transitions(bits, n - 1)
  {
    if k > 0 {
      StepPointsLength(bits, n, k - 1);
      var e := Emitted(bits, n, k - 1);
      if k < n {
        assert |e.0| == |e.1| == 1 + (if bits[k - 1] != bits[k] then 1 else 0);
        assert Transitions(bits, k) == Transitions(bits, k - 1) + (if bits[k - 1] != bits[k] then 1 else 0);
      } else {
        assert |e.0| == |e.1| == 2;
      }
    }
  }

  /** The plot is a staircase: it starts at `(0, bits[0])`, ends at
      `(n, bits[n - 1])`, its `x` values never decrease and stay in
      `[0, n]`, consecutive points are a horizontal step or a vertical jump,
      and every point lies on the level of a bit. */
  lemma StepPlotShape(bits: seq<int>, n: nat)
    requires 0 < n <= |bits|
    ensures var p := StepPoints(bits, n, n);
      && |p.0| == |p.1| > 0
      && p.0[0] == 0 && p.1[0] == bits[0]
      && p.0[|p.0| - 1] == n && p.1[|p.1| - 1] == bits[n - 1]
      && (forall i, j :: 0 <= i <= j < |p.0| ==> p.0[i] <= p.0[j])
      && (forall j :: 0 <= j < |p.0| ==> 0 <= p.0[j] <= n)
      && (forall j :: 0 <= j < |p.0| - 1 ==> StepBetween(p.0[j], p.1[j], p.0[j + 1], p.1[j + 1]))
      && (forall j :: 0 <= j < |p.0| ==> OnStaircase(bits, n, p.0[j], p.1[j]))
  {
    StepPointsEnds(bits, n, n);
    StepPointsSorted(bits, n, n);
    StepPointsSteps(bits, n, n);
    StepPointsOnStaircase(bits, n, n);
  }

  /** After `k` iterations the first point is `(0, bits[0])` and the last is
      the end of bit `k - 1` when bit `k` differs (or `k == n`), and its
      start otherwise. */
  lemma {:induction false} StepPointsEnds(bits: seq<int>, n: nat, k: nat)
    requires 0 < k <= n <= |bits|
    ensures var p := StepPoints(bits, n, k);
      && |p.0| == |p.1| > 0
      && p.0[0] == 0 && p.1[0] == bits[0]
      && p.1[|p.1| - 1] == bits[k - 1]
      && p.0[|p.0| - 1] == (if k == n || bits[k - 1] != bits[k] then k else k - 1)
  {
    var e := Emitted(bits, n, k - 1);
    var q := StepPoints(bits, n, k - 1);
    var p := StepPoints(bits, n, k);
    assert p.0 == q.0 + e.0 && p.1 == q.1 + e.1;
    if k == 1 {
      assert q.0 == [] && q.1 == [];
    } else {
      StepPointsEnds(bits, n, k - 1);
    }
  }

  /** After `k` iterations the `x` values are sorted and lie in `[0, k]`. */
  lemma {:induction false} StepPointsSorted(bits: seq<int>, n: nat, k: nat)
    requires k <= n <= |bits|
    ensures forall i, j :: 0 <= i <= j < |StepPoints(bits, n, k).0| ==>
      StepPoints(bits, n, k).0[i] <= StepPoints(bits, n, k).0[j]
    ensures forall j :: 0 <= j < |StepPoints(bits, n, k).0| ==> 0 <= StepPoints(bits, n, k).0[j] <= k
  {
    if k > 0 {
      StepPointsSorted(bits, n, k - 1);
      var xq := StepPoints(bits, n, k - 1).0;
      var xe := Emitted(bits, n, k - 1).0;
      var xs := StepPoints(bits, n, k).0;
      assert xs == xq + xe;
      assert forall j :: 0 <= j < |xq| ==> 0 <= xq[j] <= k - 1;
      assert forall j :: 0 <= j < |xe| ==> k - 1 <= xe[j] <= k;
      assert forall i, j :: 0 <= i <= j < |xe| ==> xe[i] <= xe[j];
      forall j | 0 <= j < |xs| ensures 0 <= xs[j] <= k {
        if j < |xq| { assert xs[j] == xq[j]; } else { assert xs[j] == xe[j - |xq|]; }
      }
      forall i, j | 0 <= i <= j < |xs| ensures xs[i] <= xs[j] {
        if j < |xq| {
          assert xs[i] == xq[i] && xs[j] == xq[j];
        } else if i < |xq| {
          assert xs[i] == xq[i] <= k - 1 && xs[j] == xe[j - |xq|];
        } else {
          assert xs[i] == xe[i - |xq|] && xs[j] == xe[j - |xq|];
        }
      }
    }
  }

  /** After `k` iterations consecutive points are horizontal steps or
      vertical jumps. */
  lemma {:induction false} StepPointsSteps(bits: seq<int>, n: nat, k: nat)
    requires k <= n <= |bits|
    ensures var p := StepPoints(bits, n, k);
      |p.0| == |p.1| &&
      forall j :: 0 <= j < |p.0| - 1 ==> StepBetween(p.0[j], p.1[j], p.0[j + 1], p.1[j + 1])
  {
    if k > 0 {
      StepPointsSteps(bits, n, k - 1);
      var q := StepPoints(bits, n, k - 1);
      var e := Emitted(bits, n, k - 1);
      var p := StepPoints(bits, n, k);
      var xq, yq, xe, ye := q.0, q.1, e.0, e.1;
      assert p.0 == xq + xe && p.1 == yq + ye;
      var m := |xq|;
      if m > 0 {
        StepPointsEnds(bits, n, k - 1);
        assert StepBetween(xq[m - 1], yq[m - 1], xe[0], ye[0]);
      }
      forall j | 0 <= j < |p.0| - 1
        ensures StepBetween(p.0[j], p.1[j], p.0[j + 1], p.1[j + 1])
      {
        if j < m - 1 {
          assert p.0[j] == xq[j] && p.0[j + 1] == xq[j + 1];
          assert p.1[j] == yq[j] && p.1[j + 1] == yq[j + 1];
        } else if j == m - 1 {
          assert p.0[j] == xq[m - 1] && p.0[j + 1] == xe[0];
          assert p.1[j] == yq[m - 1] && p.1[j + 1] == ye[0];
        } else {
          assert p.0[j] == xe[j - m] && p.0[j + 1] == xe[j + 1 - m];
          assert p.1[j] == ye[j - m] && p.1[j + 1] == ye[j + 1 - m];
        }
      }
    }
  }

  /** After `k` iterations every point lies on the level of a bit. */
  lemma {:induction false} StepPointsOnStaircase(bits: seq<int>, n: nat, k: nat)
    requires k <= n <= |bits|
    ensures var p := StepPoints(bits, n, k);
      |p.0| == |p.1| &&
      forall j :: 0 <= j < |p.0| ==> OnStaircase(bits, n, p.0[j], p.1[j])
  {
    if k > 0 {
      StepPointsOnStaircase(bits, n, k - 1);
      var q := StepPoints(bits, n, k - 1);
      var e := Emitted(bits, n, k - 1);
      var p := StepPoints(bits, n, k);
      var xq, yq, xe, ye := q.0, q.1, e.0, e.1;
      assert p.0 == xq + xe && p.1 == yq + ye;
      assert forall j :: 0 <= j < |xe| ==> OnStaircase(bits, n, xe[j], ye[j]);
      forall j | 0 <= j < |p.0| ensures OnStaircase(bits, n, p.0[j], p.1[j]) {
        if j < |xq| {
          assert p.0[j] == xq[j] && p.1[j] == yq[j];
        } else {
          assert p.0[j] == xe[j - |xq|] && p.1[j] == ye[j - |xq|];
        }
      }
    }
  }
}
