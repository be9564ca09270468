/** `calc_research`: the sweep over noise levels that runs a number of
    trials at each level and records, for each keying, the share of trials
    whose delay estimate fell inside the confidence window around the
    configured delay. A trial's estimates (which in the program come from
    generating, splicing, noising and correlating signals) are a parameter
    `estimate(snr, trial)`. */
module ResearchLogic {
  import opened Values
  import opened Enums
  import opened SignalsGenerator

  /** The delay estimates of one trial, in milliseconds, for AM, FM and PM. */
  datatype Estimates = Estimates(am: real, fm: real, pm: real)

  /** The `x`, `y` and `errors` lists of one keying. */
  datatype Curves = Curves(x: seq<int>, y: seq<real>, errors: seq<real>)

  /** The nine lists the sweep returns, grouped by keying. */
  datatype Research = Research(am: Curves, fm: Curves, pm: Curves)

  function Pick(e: Estimates, m: ModulationType): real {
    match m
    case AM => e.am
    case FM => e.fm
    case PM => e.pm
  }

  /** A trial is a hit when its estimate lies in `[lo, hi]`. */
  predicate InWindow(lo: real, hi: real, estimate: real) {
    lo <= estimate <= hi
  }

  /** The confidence window `[min_t, max_t]` as the program computes it:
      `time_delay` and the estimates are in milliseconds, but the half bit
      time on either side is in seconds, so in the delay's unit the window
      is a thousandth of a bit time wide. */
  function Window(timeDelay: real, defaultBps: real): (w: (real, real))
    requires defaultBps != 0.0
    ensures w.0 + w.1 == 2.0 * timeDelay
    ensures w.1 - w.0 == BitTimeMs(defaultBps) / 1000.0
  {
    var bitTime := 1.0 / defaultBps;
    (timeDelay - 0.5 * bitTime, timeDelay + 0.5 * bitTime)
  }

  /** One bit time in milliseconds. */
  function BitTimeMs(defaultBps: real): real
    requires defaultBps != 0.0
  {
    1000.0 / defaultBps
  }

  function Distance(a: real, b: real): real {
    if a >= b then a - b else b - a
  }

  /** The window the program evidently intends: half a bit time, in
      milliseconds like the delay, on either side of `time_delay`. An
      estimate is a hit exactly when it is within half a bit time of the
      configured delay. */
  function IntendedWindow(timeDelay: real, defaultBps: real): (w: (real, real))
    requires defaultBps > 0.0
    ensures forall e :: InWindow(w.0, w.1, e) <==> Distance(e, timeDelay) <= 0.5 * BitTimeMs(defaultBps)
  {
    var half := 0.5 * BitTimeMs(defaultBps);
    (timeDelay - half, timeDelay + half)
  }

  /** At 100 bits per second and a delay of 5 ms, half a bit time is 5 ms,
      yet the window as written rejects an estimate of 5.1 ms, which the
      intended window accepts. */
  lemma WindowMixesUnits()
    ensures Distance(5.1, 5.0) <= 0.5 * BitTimeMs(100.0)
    ensures !InWindow(Window(5.0, 100.0).0, Window(5.0, 100.0).1, 5.1)
    ensures InWindow(IntendedWindow(5.0, 100.0).0, IntendedWindow(5.0, 100.0).1, 5.1)
  {
  }

  /** The number of trials `range(average_count)` runs. */
  function Trials(averageCount: int): nat {
    if averageCount > 0 then averageCount else 0
  }

  /** The number of hits for keying `m` among trials `0 .. count - 1` at
      noise level `snr`. */
  function Hits(estimate: (int, nat) -> Estimates, snr: int, m: ModulationType, count: nat, lo: real, hi: real): (r: nat)
    ensures r <= count
  {
    if count == 0 then 0
    else Hits(estimate, snr, m, count - 1, lo, hi) + (if InWindow(lo, hi, Pick(estimate(snr, count - 1), m)) then 1 else 0)
  }

  /** Every trial is a hit exactly when the count reaches the number of
      trials. */
  lemma {:induction false} AllHits(estimate: (int, nat) -> Estimates, snr: int, m: ModulationType, count: nat, lo: real, hi: real)
    ensures Hits(estimate, snr, m, count, lo, hi) == count
      <==> forall k :: 0 <= k < count ==> InWindow(lo, hi, Pick(estimate(snr, k), m))
  {
    if count > 0 {
      AllHits(estimate, snr, m, count - 1, lo, hi);
    }
  }

  /** No trial is a hit exactly when the count is zero. */
  lemma {:induction false} NoHits(estimate: (int, nat) -> Estimates, snr: int, m: ModulationType, count: nat, lo: real, hi: real)
    ensures Hits(estimate, snr, m, count, lo, hi) == 0
      <==> forall k :: 0 <= k < count ==> !InWindow(lo, hi, Pick(estimate(snr, k), m))
  {
    if count > 0 {
      NoHits(estimate, snr, m, count - 1, lo, hi);
    }
  }

  /** `good_count / average_count`, a true division. */
  function Rate(hits: nat, averageCount: int): real
    requires averageCount != 0
  {
    hits as real / averageCount as real
  }

  /** A rate is a fraction: with at most `Trials(averageCount)` hits it lies
      in `[0, 1]` (a negative count runs no trial and gives 0). */
  lemma RateIsFraction(hits: nat, averageCount: int)
    requires averageCount != 0 && hits <= Trials(averageCount)
    ensures 0.0 <= Rate(hits, averageCount) <= 1.0
  {
    if averageCount < 0 {
      assert hits == 0;
    } else {
      var a := averageCount as real;
      assert hits as real / a <= a / a by {
        assert hits as real <= a;
      }
    }
  }

  /** The lists of keying `m` after the first `k` noise levels. */
  function CurveUpTo(snrs: seq<int>, k: nat, estimate: (int, nat) -> Estimates, m: ModulationType,
                     averageCount: int, lo: real, hi: real, half: real): Curves
    requires k <= |snrs|
    requires k > 0 ==> averageCount != 0
  {
    Curves(snrs[..k],
           seq(k, j requires 0 <= j < k => Rate(Hits(estimate, snrs[j], m, Trials(averageCount), lo, hi), averageCount)),
           seq(k, j requires 0 <= j < k => half))
  }

  /** The lists of one keying over the noise levels `snrs`: one entry per
      level, the level itself as `x`, a rate in `[0, 1]` as `y` and `half` as
      the error bar. */
  predicate Shaped(c: Curves, snrs: seq<int>, half: real) {
    && c.x == snrs
    && |c.y| == |snrs| && |c.errors| == |snrs|
    && (forall j :: 0 <= j < |snrs| ==> 0.0 <= c.y[j] <= 1.0)
    && (forall j :: 0 <= j < |snrs| ==> c.errors[j] == half)
  }

  /** What `calc_research` returns. A zero default bit rate is a float
      division by zero; a zero step is `range`'s ValueError; a zero trial
      count over a non-empty sweep divides by zero at the first level.
      Otherwise each keying gets the shaped lists of the sweep
      `range(from_noise, to_noise, step_noise)`, counting hits in `Window`
      and recording `0.5 * bit_time` as the error bar. */
  function Sweep(averageCount: int, timeDelay: real, estimate: (int, nat) -> Estimates, defaultBps: real,
                 fromNoise: int, toNoise: int, stepNoise: int): (r: Outcome<Research>)
    ensures !r.ReturnsNone?
    ensures r.Raises? <==>
      defaultBps == 0.0 || stepNoise == 0 || (averageCount == 0 && RangeLength(fromNoise, toNoise, stepNoise) > 0)
    ensures r.Raises? ==> (r.error == ValueError <==> defaultBps != 0.0 && stepNoise == 0)
    ensures r.Raises? ==> r.error == ValueError || r.error == ZeroDivisionError
    ensures r.Returns? ==>
      var snrs := PyRange(fromNoise, toNoise, stepNoise);
      var half := 0.5 * (1.0 / defaultBps);
      Shaped(r.value.am, snrs, half) && Shaped(r.value.fm, snrs, half) && Shaped(r.value.pm, snrs, half)
  {
    if defaultBps == 0.0 then Raises(ZeroDivisionError)
    else if stepNoise == 0 then Raises(ValueError)
    else
      var snrs := PyRange(fromNoise, toNoise, stepNoise);
      if |snrs| > 0 && averageCount == 0 then Raises(ZeroDivisionError)
      else
        var half := 0.5 * (1.0 / defaultBps);
        var (lo, hi) := Window(timeDelay, defaultBps);
        var am := CurveUpTo(snrs, |snrs|, estimate, AM, averageCount, lo, hi, half);
        var fm := CurveUpTo(snrs, |snrs|, estimate, FM, averageCount, lo, hi, half);
        var pm := CurveUpTo(snrs, |snrs|, estimate, PM, averageCount, lo, hi, half);
        CurveIsShaped(snrs, estimate, AM, averageCount, lo, hi, half);
        CurveIsShaped(snrs, estimate, FM, averageCount, lo, hi, half);
        CurveIsShaped(snrs, estimate, PM, averageCount, lo, hi, half);
        Returns(Research(am, fm, pm))
  }

  /** The complete lists of one keying are shaped. */
  lemma CurveIsShaped(snrs: seq<int>, estimate: (int, nat) -> Estimates, m: ModulationType,
                      averageCount: int, lo: real, hi: real, half: real)
    requires |snrs| > 0 ==> averageCount != 0
    ensures Shaped(CurveUpTo(snrs, |snrs|, estimate, m, averageCount, lo, hi, half), snrs, half)
  {
    var c := CurveUpTo(snrs, |snrs|, estimate, m, averageCount, lo, hi, half);
    forall j | 0 <= j < |snrs| ensures 0.0 <= c.y[j] <= 1.0 {
      RateIsFraction(Hits(estimate, snrs[j], m, Trials(averageCount), lo, hi), averageCount);
    }
  }

  /** The value `signal_generator.snr` holds after `calc_research`: unchanged
      when the sweep fails before its first level or has no level; the first
      level when the zero trial count stops it there; the last level
      otherwise. */
  function SnrAfter(averageCount: int, defaultBps: real, fromNoise: int, toNoise: int, stepNoise: int, before: real): real {
    if defaultBps == 0.0 || stepNoise == 0 then before
    else
      var snrs := PyRange(fromNoise, toNoise, stepNoise);
      if |snrs| == 0 then before
      else if averageCount == 0 then snrs[0] as real
      else snrs[|snrs| - 1] as real
  }

  /** The inner loop of `calc_research` at one noise level: the hits of
      each keying over `range(average_count)` trials. */
  method CountHits(estimate: (int, nat) -> Estimates, snr: int, averageCount: int, minT: real, maxT: real)
    returns (goodAm: nat, goodFm: nat, goodPm: nat)
    ensures goodAm == Hits(estimate, snr, AM, Trials(averageCount), minT, maxT)
    ensures goodFm == Hits(estimate, snr, FM, Trials(averageCount), minT, maxT)
    ensures goodPm == Hits(estimate, snr, PM, Trials(averageCount), minT, maxT)
  {
    goodAm, goodFm, goodPm := 0, 0, 0;
    var avg := 0;
    while avg < averageCount
      invariant 0 <= avg <= Trials(averageCount)
      invariant goodAm == Hits(estimate, snr, AM, avg, minT, maxT)
      invariant goodFm == Hits(estimate, snr, FM, avg, minT, maxT)
      invariant goodPm == Hits(estimate, snr, PM, avg, minT, maxT)
    {
      var e := estimate(snr, avg);
      if minT <= e.am <= maxT {
        goodAm := goodAm + 1;
      }
      if minT <= e.fm <= maxT {
        goodFm := goodFm + 1;
      }
      if minT <= e.pm <= maxT {
        goodPm := goodPm + 1;
      }
      avg := avg + 1;
    }
  }

  /** `calc_research(average_count, signal_generator, from_noise, to_noise,
      step_noise)`: returns `Sweep`, and leaves `signal_generator.snr` at
      `SnrAfter`. The default bit rate is `defaultBps`. The trials redraw
      the stored bits and advance the FM phase; their new values are left
      open. */
  method CalcResearch(averageCount: int, gen: SignalGenerator, estimate: (int, nat) -> Estimates, defaultBps: real,
                      fromNoise: int, toNoise: int, stepNoise: int)
    returns (r: Outcome<Research>)
    modifies gen`snr, gen`bits, gen`signalPhase
    ensures r == Sweep(averageCount, gen.timeDelay, estimate, defaultBps, fromNoise, toNoise, stepNoise)
    ensures gen.snr == SnrAfter(averageCount, defaultBps, fromNoise, toNoise, stepNoise, old(gen.snr))
  {
    if defaultBps == 0.0 {
      return Raises(ZeroDivisionError);
    }
    var bitTime := 1.0 / defaultBps;
    var minT := gen.timeDelay - 0.5 * bitTime;
    var maxT := gen.timeDelay + 0.5 * bitTime;
    var xAm: seq<int>, yAm: seq<real>, errorsAm: seq<real> := [], [], [];
    var xFm: seq<int>, yFm: seq<real>, errorsFm: seq<real> := [], [], [];
    var xPm: seq<int>, yPm: seq<real>, errorsPm: seq<real> := [], [], [];
    if stepNoise == 0 {
      return Raises(ValueError);
    }
    var snrs := PyRange(fromNoise, toNoise, stepNoise);
    ghost var half := 0.5 * bitTime;
    var i := 0;
    while i < |snrs|
      invariant 0 <= i <= |snrs|
      invariant i > 0 ==> averageCount != 0
      invariant gen.snr == if i == 0 then old(gen.snr) else snrs[i - 1] as real
      invariant Curves(xAm, yAm, errorsAm) == CurveUpTo(snrs, i, estimate, AM, averageCount, minT, maxT, half)
      invariant Curves(xFm, yFm, errorsFm) == CurveUpTo(snrs, i, estimate, FM, averageCount, minT, maxT, half)
      invariant Curves(xPm, yPm, errorsPm) == CurveUpTo(snrs, i, estimate, PM, averageCount, minT, maxT, half)
    {
      var snr := snrs[i];
      gen.snr := snr as real;
      var goodAm, goodFm, goodPm := CountHits(estimate, snr, averageCount, minT, maxT);
      if averageCount == 0 {
        return Raises(ZeroDivisionError);
      }
      xAm, yAm, errorsAm := xAm + [snr], yAm + [goodAm as real / averageCount as real], errorsAm + [0.5 * bitTime];
      xFm, yFm, errorsFm := xFm + [snr], yFm + [goodFm as real / averageCount as real], errorsFm + [0.5 * bitTime];
      xPm, yPm, errorsPm := xPm + [snr], yPm + [goodPm as real / averageCount as real], errorsPm + [0.5 * bitTime];
      assert snrs[..i + 1] == snrs[..i] + [snr];
      i := i + 1;
    }
    assert snrs[..|snrs|] == snrs;
    return Returns(Research(Curves(xAm, yAm, errorsAm), Curves(xFm, yFm, errorsFm), Curves(xPm, yPm, errorsPm)));
  }

  /** The default sweep `range(10, -11, -1)` visits the 21 levels from 10
      down to -10. */
  lemma DefaultSweep()
    ensures PyRange(10, -11, -1) == seq(21, i => 10 - i)
  {
  }

  /** An estimator that always reports the configured delay scores every
      trial as a hit: with a positive default bit rate and at least one
      trial, every rate of a successful sweep is 1. */
  lemma {:induction false} ExactEstimatesAlwaysHit(averageCount: int, timeDelay: real, estimate: (int, nat) -> Estimates,
                                                   defaultBps: real, fromNoise: int, toNoise: int, stepNoise: int)
    requires defaultBps > 0.0 && averageCount > 0 && stepNoise != 0
    requires forall snr: int, k: nat :: estimate(snr, k) == Estimates(timeDelay, timeDelay, timeDelay)
    ensures var r := Sweep(averageCount, timeDelay, estimate, defaultBps, fromNoise, toNoise, stepNoise);
      && r.Returns?
      && (forall j :: 0 <= j < |r.value.am.y| ==> r.value.am.y[j] == 1.0)
      && (forall j :: 0 <= j < |r.value.fm.y| ==> r.value.fm.y[j] == 1.0)
      && (forall j :: 0 <= j < |r.value.pm.y| ==> r.value.pm.y[j] == 1.0)
  {
    var snrs := PyRange(fromNoise, toNoise, stepNoise);
    var (lo, hi) := Window(timeDelay, defaultBps);
    assert lo <= timeDelay <= hi;
    var r := Sweep(averageCount, timeDelay, estimate, defaultBps, fromNoise, toNoise, stepNoise);
    forall m: ModulationType, j | 0 <= j < |snrs|
      ensures Rate(Hits(estimate, snrs[j], m, Trials(averageCount), lo, hi), averageCount) == 1.0
    {
      AllHits(estimate, snrs[j], m, Trials(averageCount), lo, hi);
    }
  }
}
