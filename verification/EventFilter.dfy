/**
 The event decision of `OutstationManager::updateAnalog` and `updateBinary`
 for one point, as a state machine over that point's samples, and what it
 guarantees over whole runs.
 */
module EventFilter {
  import opened Measurements

  /** `PointState<T>`: the last value an event was generated for. */
  datatype PointState<T> = PointState(lastEvented: T, seen: bool)

  /** `PointState<double>{}` and `PointState<bool>{}`. */
  const FRESH_ANALOG: PointState<Double> := PointState(Finite(0.0), false)
  const FRESH_BINARY: PointState<bool> := PointState(false, false)

  function Abs(x: real): real {
    if x < 0.0 then -x else x
  }

  /** `x > d` for a finite x: false when d is NaN, as IEEE 754 section 5.11 has it. */
  predicate Exceeds(x: real, d: Double) {
    match d
    case Finite(r) => x > r
    case NegInf => true
    case PosInf => false
    case NaN => false
  }

  predicate IsAnalogEvent(d: Double, s: PointState<Double>, v: Double) {
    || !s.seen
    || !v.Finite?
    || !s.lastEvented.Finite?
    || Exceeds(Abs(v.value - s.lastEvented.value), d)
  }

  predicate IsBinaryEvent(s: PointState<bool>, v: bool) {
    !s.seen || v != s.lastEvented
  }

  function ModeOf(event: bool): EventMode {
    if event then Force else Suppress
  }

  function Observe<T>(s: PointState<T>, v: T, event: bool): PointState<T> {
    PointState(if event then v else s.lastEvented, true)
  }

  function NextAnalog(d: Double, s: PointState<Double>, v: Double): PointState<Double> {
    Observe(s, v, IsAnalogEvent(d, s, v))
  }

  function NextBinary(s: PointState<bool>, v: bool): PointState<bool> {
    Observe(s, v, IsBinaryEvent(s, v))
  }

  // -------------------------------------------------------------------------
  // Runs of one analog point
  // -------------------------------------------------------------------------

  /** The state after a run. */
  function AnalogAfter(d: Double, s: PointState<Double>, vs: seq<Double>): PointState<Double>
    decreases vs
  {
    if vs == [] then s else AnalogAfter(d, NextAnalog(d, s, vs[0]), vs[1..])
  }

  /** The decision taken for each sample of a run. */
  function AnalogModes(d: Double, s: PointState<Double>, vs: seq<Double>): (ms: seq<EventMode>)
    ensures |ms| == |vs|
    decreases vs
  {
    if vs == [] then []
    else [ModeOf(IsAnalogEvent(d, s, vs[0]))] + AnalogModes(d, NextAnalog(d, s, vs[0]), vs[1..])
  }

  /** The values that were forced, given the decisions. */
  function Forced<T>(vs: seq<T>, ms: seq<EventMode>): seq<T>
    requires |vs| == |ms|
  {
    if vs == [] then []
    else (if ms[0] == Force then [vs[0]] else []) + Forced(vs[1..], ms[1..])
  }

  function AnalogEvents(d: Double, s: PointState<Double>, vs: seq<Double>): seq<Double> {
    Forced(vs, AnalogModes(d, s, vs))
  }

  lemma {:induction false} AnalogAfterSplit(d: Double, s: PointState<Double>, xs: seq<Double>, ys: seq<Double>)
    ensures AnalogAfter(d, s, xs + ys) == AnalogAfter(d, AnalogAfter(d, s, xs), ys)
    ensures AnalogModes(d, s, xs + ys) == AnalogModes(d, s, xs) + AnalogModes(d, AnalogAfter(d, s, xs), ys)
    decreases xs
  {
    if xs == [] {
      assert xs + ys == ys;
    } else {
      assert (xs + ys)[1..] == xs[1..] + ys;
      AnalogAfterSplit(d, NextAnalog(d, s, xs[0]), xs[1..], ys);
    }
  }

  lemma AnalogEventsStep(d: Double, s: PointState<Double>, vs: seq<Double>)
    requires vs != []
    ensures AnalogEvents(d, s, vs)
         == (if IsAnalogEvent(d, s, vs[0]) then [vs[0]] else []) + AnalogEvents(d, NextAnalog(d, s, vs[0]), vs[1..])
  {
  }

  /** `lastEvented` is what its name says: the last Force value of the run. */
  lemma {:induction false} LastEventedIsLastForced(d: Double, s: PointState<Double>, vs: seq<Double>)
    ensures var es := AnalogEvents(d, s, vs);
            AnalogAfter(d, s, vs).lastEvented == if es == [] then s.lastEvented else es[|es| - 1]
    ensures vs != [] && !s.seen ==> AnalogModes(d, s, vs)[0] == Force
    decreases vs
  {
    if vs != [] {
      AnalogEventsStep(d, s, vs);
      LastEventedIsLastForced(d, NextAnalog(d, s, vs[0]), vs[1..]);
    }
  }

  /** The value e an event was last raised for still stands for the current value v. */
  predicate Tracks(d: Double, e: Double, v: Double) {
    e == v || (v.Finite? && e.Finite? && !Exceeds(Abs(v.value - e.value), d))
  }

  /**
   Tracking error: after every sample of every run that starts on a fresh
   point, the last Force value stands for the current value. For a finite
   deadband that bounds the distance; a non-finite sample is its own event.
   */
  lemma TrackingInvariant(d: Double, vs: seq<Double>, n: nat)
    requires 0 < n <= |vs|
    ensures var es := AnalogEvents(d, FRESH_ANALOG, vs[..n]);
            es != [] && Tracks(d, es[|es| - 1], vs[n - 1])
    ensures var e := AnalogEvents(d, FRESH_ANALOG, vs[..n]);
            d.Finite? && vs[n - 1].Finite? ==>
              && e[|e| - 1].Finite?
              && vs[n - 1].value - e[|e| - 1].value <= (if d.value < 0.0 then 0.0 else d.value)
              && e[|e| - 1].value - vs[n - 1].value <= (if d.value < 0.0 then 0.0 else d.value)
  {
    LastEventedIsLastForced(d, FRESH_ANALOG, vs[..n]);
    AnalogEventsStep(d, FRESH_ANALOG, vs[..n]);
    var s := AnalogAfter(d, FRESH_ANALOG, vs[..n - 1]);
    assert vs[..n] == vs[..n - 1] + [vs[n - 1]];
    AnalogAfterSplit(d, FRESH_ANALOG, vs[..n - 1], [vs[n - 1]]);
    assert AnalogAfter(d, s, [vs[n - 1]]) == NextAnalog(d, s, vs[n - 1]);
  }

  /** Restart at events: after an evented sample x the run decides as a fresh point fed x would. */
  lemma RestartAtEvents(d: Double, s: PointState<Double>, before: seq<Double>, x: Double, after: seq<Double>)
    requires IsAnalogEvent(d, AnalogAfter(d, s, before), x)
    ensures AnalogModes(d, s, before + [x] + after)[|before|..] == AnalogModes(d, FRESH_ANALOG, [x] + after)
    ensures AnalogAfter(d, s, before + [x] + after) == AnalogAfter(d, FRESH_ANALOG, [x] + after)
  {
    assert before + [x] + after == before + ([x] + after);
    AnalogAfterSplit(d, s, before, [x] + after);
    assert ([x] + after)[1..] == after;
  }

  /** No NaN latch: a non-finite sample and the sample after it are both events. */
  lemma NonFiniteNeverLatches(d: Double, s: PointState<Double>, vs: seq<Double>, n: nat)
    requires n < |vs| && !vs[n].Finite?
    ensures AnalogModes(d, s, vs)[n] == Force
    ensures n + 1 < |vs| ==> AnalogModes(d, s, vs)[n + 1] == Force
  {
    assert vs == vs[..n] + vs[n..];
    AnalogAfterSplit(d, s, vs[..n], vs[n..]);
  }

  // -------------------------------------------------------------------------
  // Event count
  // -------------------------------------------------------------------------

  function Finites(rs: seq<real>): (vs: seq<Double>)
    ensures |vs| == |rs|
  {
    seq(|rs|, i requires 0 <= i < |rs| => Finite(rs[i]))
  }

  /** The total variation of a run: the sum of its absolute steps. */
  function Variation(rs: seq<real>): real {
    if |rs| < 2 then 0.0 else Abs(rs[1] - rs[0]) + Variation(rs[1..])
  }

  predicate Apart(d: real, x: Double, y: Double) {
    x.Finite? && y.Finite? && (y.value - x.value > d || x.value - y.value > d)
  }

  /** Consecutive values of es are more than d apart. */
  predicate Separated(d: real, es: seq<Double>) {
    forall i, j :: 0 <= i && j == i + 1 < |es| ==> Apart(d, es[i], es[j])
  }

  /** d added up n times. */
  function Multiple(n: nat, d: real): real {
    if n == 0 then 0.0 else d + Multiple(n - 1, d)
  }

  lemma {:induction false} MultipleIsProduct(n: nat, d: real)
    ensures Multiple(n, d) == n as real * d
  {
    if n > 0 {
      MultipleIsProduct(n - 1, d);
      var m := (n - 1) as real;
      assert (m + 1.0) * d == m * d + d;
    }
  }

  lemma SeparatedCons(d: real, x: Double, es: seq<Double>)
    requires Separated(d, es) && es != [] && Apart(d, x, es[0])
    ensures Separated(d, [x] + es)
  {
    var all := [x] + es;
    forall i, j | 0 <= i && j == i + 1 < |all|
      ensures Apart(d, all[i], all[j])
    {
      assert all[j] == es[i];
      if i > 0 {
        assert Apart(d, es[i - 1], es[i]);
      }
    }
  }

  lemma {:induction false} SeparatedFrom(d: real, s: PointState<Double>, rs: seq<real>)
    requires s.seen && s.lastEvented.Finite?
    ensures Separated(d, [s.lastEvented] + AnalogEvents(Finite(d), s, Finites(rs)))
    decreases rs
  {
    if rs != [] {
      var vs := Finites(rs);
      assert vs[1..] == Finites(rs[1..]);
      var s' := NextAnalog(Finite(d), s, vs[0]);
      SeparatedFrom(d, s', rs[1..]);
      var rest := AnalogEvents(Finite(d), s', vs[1..]);
      if IsAnalogEvent(Finite(d), s, vs[0]) {
        assert AnalogEvents(Finite(d), s, vs) == [vs[0]] + rest;
        SeparatedCons(d, s.lastEvented, [vs[0]] + rest);
      } else {
        assert AnalogEvents(Finite(d), s, vs) == rest;
      }
    }
  }

  lemma {:induction false} EventsCostVariation(d: real, s: PointState<Double>, rs: seq<real>)
    requires s.seen && s.lastEvented.Finite? && rs != []
    ensures var n := |AnalogEvents(Finite(d), s, Finites(rs))|;
            var reach := Abs(rs[0] - s.lastEvented.value) + Variation(rs);
            if n == 0 then 0.0 <= reach else Multiple(n, d) < reach
    decreases rs
  {
    var vs := Finites(rs);
    assert vs[1..] == Finites(rs[1..]);
    var s' := NextAnalog(Finite(d), s, vs[0]);
    var rest := AnalogEvents(Finite(d), s', vs[1..]);
    if |rs| == 1 {
      assert rest == [];
    } else {
      EventsCostVariation(d, s', rs[1..]);
      assert Variation(rs) == Abs(rs[1] - rs[0]) + Variation(rs[1..]);
    }
    if IsAnalogEvent(Finite(d), s, vs[0]) {
      assert AnalogEvents(Finite(d), s, vs) == [vs[0]] + rest;
    } else {
      assert AnalogEvents(Finite(d), s, vs) == rest;
    }
  }

  lemma FirstSampleIsEvent(d: real, rs: seq<real>)
    requires rs != []
    ensures AnalogEvents(Finite(d), FRESH_ANALOG, Finites(rs))
         == [Finite(rs[0])] + AnalogEvents(Finite(d), PointState(Finite(rs[0]), true), Finites(rs[1..]))
  {
    assert Finites(rs)[1..] == Finites(rs[1..]);
  }

  /** n events, one of them free, cost more than a deadband of variation each. */
  predicate Budgeted(n: nat, d: real, rs: seq<real>) {
    n >= 2 ==> (n - 1) as real * d < Variation(rs)
  }

  /**
   Event-count bound, for any run of finite samples on a fresh point:
   consecutive evented values are more than d apart, and k + 1 events (k >= 1)
   cost more than k * d of total variation.
   */
  lemma EventCountBound(d: real, rs: seq<real>)
    ensures Separated(d, AnalogEvents(Finite(d), FRESH_ANALOG, Finites(rs)))
    ensures Budgeted(|AnalogEvents(Finite(d), FRESH_ANALOG, Finites(rs))|, d, rs)
  {
    if rs != [] {
      var s' := PointState(Finite(rs[0]), true);
      FirstSampleIsEvent(d, rs);
      SeparatedFrom(d, s', rs[1..]);
      if |rs| > 1 {
        EventsCostVariation(d, s', rs[1..]);
        MultipleIsProduct(|AnalogEvents(Finite(d), s', Finites(rs[1..]))|, d);
      }
    }
  }

  /**
   The deadbands no distance can be compared with: none exceeds NaN or
   infinity, so only the first sample of a finite run is an event; every one
   exceeds minus infinity or a negative deadband, so all are.
   */
  lemma {:induction false} ExtremeDeadbands(d: Double, s: PointState<Double>, rs: seq<real>)
    requires s.seen && s.lastEvented.Finite?
    ensures d == NaN || d == PosInf ==> AnalogEvents(d, s, Finites(rs)) == []
    ensures d == NegInf || (d.Finite? && d.value < 0.0) ==> AnalogEvents(d, s, Finites(rs)) == Finites(rs)
    decreases rs
  {
    if rs != [] {
      var vs := Finites(rs);
      assert vs[1..] == Finites(rs[1..]);
      ExtremeDeadbands(d, NextAnalog(d, s, vs[0]), rs[1..]);
      AnalogEventsStep(d, s, vs);
      assert [vs[0]] + vs[1..] == vs;
    }
  }

  // -------------------------------------------------------------------------
  // Runs of one binary point
  // -------------------------------------------------------------------------

  function BinaryAfter(s: PointState<bool>, vs: seq<bool>): PointState<bool>
    decreases vs
  {
    if vs == [] then s else BinaryAfter(NextBinary(s, vs[0]), vs[1..])
  }

  function BinaryModes(s: PointState<bool>, vs: seq<bool>): (ms: seq<EventMode>)
    ensures |ms| == |vs|
    decreases vs
  {
    if vs == [] then []
    else [ModeOf(IsBinaryEvent(s, vs[0]))] + BinaryModes(NextBinary(s, vs[0]), vs[1..])
  }

  /** A sequence with every run of equal neighbours collapsed to one. */
  function StutterFree(vs: seq<bool>): seq<bool> {
    if |vs| < 2 then vs
    else if vs[0] == vs[1] then StutterFree(vs[1..])
    else [vs[0]] + StutterFree(vs[1..])
  }

  lemma {:induction false} BinaryEventsAfter(s: PointState<bool>, vs: seq<bool>)
    requires s.seen
    ensures [s.lastEvented] + Forced(vs, BinaryModes(s, vs)) == StutterFree([s.lastEvented] + vs)
    ensures BinaryAfter(s, vs) == PointState(([s.lastEvented] + vs)[|vs|], true)
    decreases vs
  {
    if vs != [] {
      var s' := NextBinary(s, vs[0]);
      BinaryEventsAfter(s', vs[1..]);
      assert [s'.lastEvented] + vs[1..] == vs;
      assert ([s.lastEvented] + vs)[1..] == vs;
    }
  }

  lemma {:induction false} StutterFreeAlternates(vs: seq<bool>)
    ensures var w := StutterFree(vs);
            && (forall i :: 0 <= i < |w| - 1 ==> w[i] != w[i + 1])
            && (vs != [] ==> w != [] && w[0] == vs[0] && w[|w| - 1] == vs[|vs| - 1])
  {
    if |vs| >= 2 {
      StutterFreeAlternates(vs[1..]);
    }
  }

  /**
   Binary events: on a fresh point the Force values are the stutter-free form
   of the samples, so they alternate, and the last evented value is always the
   current one.
   */
  lemma {:induction false} BinaryEventsAreStutterFree(vs: seq<bool>)
    ensures Forced(vs, BinaryModes(FRESH_BINARY, vs)) == StutterFree(vs)
    ensures vs != [] ==> BinaryAfter(FRESH_BINARY, vs) == PointState(vs[|vs| - 1], true)
    ensures var es := Forced(vs, BinaryModes(FRESH_BINARY, vs));
            forall i :: 0 <= i < |es| - 1 ==> es[i] != es[i + 1]
  {
    if vs != [] {
      BinaryEventsAfter(PointState(vs[0], true), vs[1..]);
      assert [vs[0]] + vs[1..] == vs;
    }
    StutterFreeAlternates(vs);
  }
}
