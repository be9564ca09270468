/** `SignalGenerator.calc_research_signal`, stated as functions: where the
    reference is inserted and what the research signal becomes. */
module Splicing {
  import opened Values

  /** `time_delay` is given in milliseconds; the time axes are in seconds. */
  function DelaySeconds(timeDelayMs: real): real {
    timeDelayMs / 1000.0
  }

  /** The splice index: the first position whose time stamp is at or after
      `td`, or 0 when no time stamp reaches it. */
  function SpliceIndex(times: seq<real>, td: real): (idx: nat)
    ensures (exists i :: 0 <= i < |times| && times[i] >= td) ==>
      idx < |times| && times[idx] >= td && forall j :: 0 <= j < idx ==> times[j] < td
    ensures (forall i :: 0 <= i < |times| ==> times[i] < td) ==> idx == 0
  {
    FirstAtOrAfter(times, td, 0)
  }

  /** The first position in `[from, |times|)` at or after `td`, or 0. */
  function FirstAtOrAfter(times: seq<real>, td: real, from: nat): (idx: nat)
    requires from <= |times|
    requires forall j :: 0 <= j < from ==> times[j] < td
    ensures (exists i :: from <= i < |times| && times[i] >= td) ==>
      from <= idx < |times| && times[idx] >= td && forall j :: 0 <= j < idx ==> times[j] < td
    ensures (forall i :: from <= i < |times| ==> times[i] < td) ==> idx == 0
    decreases |times| - from
  {
    if from == |times| then 0
    else if times[from] >= td then from
    else FirstAtOrAfter(times, td, from + 1)
  }

  /** The research signal with the reference's samples written over it from
      the splice index on; the time axis is the research one. The window
      that is dropped is as long as the reference's time axis. */
  function Spliced(modulated: Signal, researched: Signal, idx: nat): Signal {
    Signal(researched.t,
           TakePy(researched.s, idx) + modulated.s + DropPy(researched.s, idx + |modulated.t|))
  }

  /** `calc_research_signal` on two present signals: reading the last time
      stamp of an empty axis raises; a delay past the last research time
      minus the last reference time gives nothing back. */
  function Splice(modulated: Signal, researched: Signal, td: real): (r: Outcome<Signal>)
    ensures r.Raises? <==> |researched.t| == 0 || |modulated.t| == 0
    ensures r.Raises? ==> r.error == IndexError
    ensures r.ReturnsNone? <==>
      && |researched.t| > 0 && |modulated.t| > 0
      && td > researched.t[|researched.t| - 1] - modulated.t[|modulated.t| - 1]
    ensures r.Returns? ==> r.value.t == researched.t
  {
    if |researched.t| == 0 || |modulated.t| == 0 then Raises(IndexError)
    else if td > researched.t[|researched.t| - 1] - modulated.t[|modulated.t| - 1] then ReturnsNone
    else Returns(Spliced(modulated, researched, SpliceIndex(researched.t, td)))
  }

  /** The splice changes exactly the window `[idx, idx + len)`: the samples
      before it and after it are the research ones, the window holds the
      reference, and the time axis is the research one. When the reference
      fits after the splice index the length is the research signal's;
      when it does not, the signal grows to end with the reference. */
  lemma SpliceChangesOnlyWindow(modulated: Signal, researched: Signal, td: real)
    requires WellFormed(modulated) && WellFormed(researched)
    requires Splice(modulated, researched, td).Returns?
    ensures var out := Splice(modulated, researched, td).value;
      var idx := SpliceIndex(researched.t, td);
      && out.t == researched.t
      && |out.s| == (if idx + |modulated.s| <= |researched.s| then |researched.s| else idx + |modulated.s|)
      && (forall k :: 0 <= k < idx ==> out.s[k] == researched.s[k])
      && (forall k :: 0 <= k < |modulated.s| ==> out.s[idx + k] == modulated.s[k])
      && (forall k :: idx + |modulated.s| <= k < |out.s| ==> out.s[k] == researched.s[k])
  {
    var idx := SpliceIndex(researched.t, td);
    var out := Splice(modulated, researched, td).value;
    if idx + |modulated.s| <= |researched.s| {
      assert out.s == researched.s[..idx] + modulated.s + researched.s[idx + |modulated.s|..];
    } else {
      assert out.s == researched.s[..idx] + modulated.s;
    }
  }

  /** Signals produced by the synthesis share one time grid `i * step`.
      For two such signals a delay that passes the fit check always leaves
      room for the whole reference after the splice index, so the splice
      keeps the research signal's length. (The delay is never negative: the
      window only accepts digits for it.) */
  lemma {:induction false} AcceptedDelayFits(modulated: Signal, researched: Signal, td: real, step: real)
    requires step > 0.0 && td >= 0.0
    requires WellFormed(modulated) && WellFormed(researched)
    requires forall i :: 0 <= i < |modulated.t| ==> modulated.t[i] == i as real * step
    requires forall i :: 0 <= i < |researched.t| ==> researched.t[i] == i as real * step
    requires Splice(modulated, researched, td).Returns?
    ensures SpliceIndex(researched.t, td) + |modulated.s| <= |researched.s|
    ensures |Splice(modulated, researched, td).value.s| == |researched.s|
  {
    var m, n := |modulated.t|, |researched.t|;
    var j := n - m;
    assert researched.t[n - 1] == (n - 1) as real * step;
    assert modulated.t[m - 1] == (m - 1) as real * step;
    GridDifference(n - 1, m - 1, step);
    assert td <= j as real * step;
    GridSign(j, step);
    assert researched.t[j] == j as real * step;
    var idx := SpliceIndex(researched.t, td);
    assert idx <= j;
  }

  lemma GridDifference(a: int, b: int, step: real)
    ensures a as real * step - b as real * step == (a - b) as real * step
  {
  }

  lemma GridSign(j: int, step: real)
    requires step > 0.0
    ensures j < 0 ==> j as real * step < 0.0
  {
  }
}
