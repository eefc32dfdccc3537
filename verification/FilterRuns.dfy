/**
 The event filter over all points at once: the state that `OutstationManager`
 keeps, the effect of one update on it, and properties of arbitrary
 interleavings of updates to many points.
 */
module FilterRuns {
  import opened Measurements
  import opened EventFilter

  /** `outstation_ != nullptr` and the three per-index maps. */
  datatype FilterState = FilterState(
    live: bool,
    deadbands: map<uint16, Double>,
    analogs: map<uint16, PointState<Double>>,
    binaries: map<uint16, PointState<bool>>)

  function DeadbandOf(f: FilterState, i: uint16): Double {
    if i in f.deadbands then f.deadbands[i] else Finite(0.0)
  }

  function AnalogAt(f: FilterState, i: uint16): PointState<Double> {
    if i in f.analogs then f.analogs[i] else FRESH_ANALOG
  }

  function BinaryAt(f: FilterState, i: uint16): PointState<bool> {
    if i in f.binaries then f.binaries[i] else FRESH_BINARY
  }

  /** A state that `start` has just set up: no point has been seen. */
  predicate Started(f: FilterState) {
    f.live && f.analogs == map[] && f.binaries == map[]
  }

  function Step(f: FilterState, u: PointUpdate): FilterState {
    if !f.live then f
    else match u
      case AnalogUpdate(i, v, _) => f.(analogs := f.analogs[i := NextAnalog(DeadbandOf(f, i), AnalogAt(f, i), v)])
      case BinaryUpdate(i, v, _) => f.(binaries := f.binaries[i := NextBinary(BinaryAt(f, i), v)])
  }

  function Decide(f: FilterState, u: PointUpdate): EventMode {
    match u
    case AnalogUpdate(i, v, _) => ModeOf(IsAnalogEvent(DeadbandOf(f, i), AnalogAt(f, i), v))
    case BinaryUpdate(i, v, _) => ModeOf(IsBinaryEvent(BinaryAt(f, i), v))
  }

  function Apply(u: PointUpdate, mode: EventMode): Applied {
    match u
    case AnalogUpdate(i, v, q) => AppliedAnalog(i, v, ToFlagBits(q), mode)
    case BinaryUpdate(i, v, q) => AppliedBinary(i, v, ToFlagBits(q), mode)
  }

  /** What the outstation receives for one update: nothing when it is down. */
  function Output(f: FilterState, u: PointUpdate): seq<Applied> {
    if f.live then [Apply(u, Decide(f, u))] else []
  }

  /** The filter folded over a sequence of updates: final state and applied stream. */
  function After(f: FilterState, us: seq<PointUpdate>): FilterState
    decreases us
  {
    if us == [] then f else After(Step(f, us[0]), us[1..])
  }

  function Stream(f: FilterState, us: seq<PointUpdate>): seq<Applied>
    decreases us
  {
    if us == [] then [] else Output(f, us[0]) + Stream(Step(f, us[0]), us[1..])
  }

  lemma {:induction false} RunSplit(f: FilterState, us: seq<PointUpdate>, ws: seq<PointUpdate>)
    ensures After(f, us + ws) == After(After(f, us), ws)
    ensures Stream(f, us + ws) == Stream(f, us) + Stream(After(f, us), ws)
    decreases us
  {
    if us == [] {
      assert us + ws == ws;
    } else {
      assert (us + ws)[1..] == us[1..] + ws;
      RunSplit(Step(f, us[0]), us[1..], ws);
    }
  }

  // -------------------------------------------------------------------------
  // Nothing lost, nothing invented
  // -------------------------------------------------------------------------

  /**
   On a live outstation every update is applied exactly once, in order, with
   its own point, value and quality; only the mode is the filter's.
   */
  lemma {:induction false} StreamIsFaithful(f: FilterState, us: seq<PointUpdate>)
    requires f.live
    ensures |Stream(f, us)| == |us|
    ensures forall k :: 0 <= k < |us| ==> Delivers(us[k], Stream(f, us)[k])
    ensures forall k :: 0 <= k < |us| ==> Stream(f, us)[k] == Apply(us[k], Stream(f, us)[k].mode)
    decreases us
  {
    if us != [] {
      StreamIsFaithful(Step(f, us[0]), us[1..]);
    }
  }

  /** A stopped outstation drops every update and forgets nothing. */
  lemma {:induction false} DownDropsEverything(f: FilterState, us: seq<PointUpdate>)
    requires !f.live
    ensures Stream(f, us) == [] && After(f, us) == f
    decreases us
  {
    if us != [] {
      DownDropsEverything(Step(f, us[0]), us[1..]);
    }
  }

  // -------------------------------------------------------------------------
  // Quality never decides
  // -------------------------------------------------------------------------

  /** us and ws carry the same values to the same points; their qualities may differ. */
  predicate SameValues(us: seq<PointUpdate>, ws: seq<PointUpdate>) {
    |us| == |ws| && forall k :: 0 <= k < |us| ==> ws[k] == us[k].(quality := ws[k].quality)
  }

  /**
   Quality non-interference: two runs with the same values and arbitrary
   qualities decide alike at every step and end in the same state, while each
   applied flag byte comes from that step's own quality.
   */
  lemma {:induction false} QualityNonInterference(f: FilterState, us: seq<PointUpdate>, ws: seq<PointUpdate>)
    requires f.live && SameValues(us, ws)
    ensures After(f, us) == After(f, ws)
    ensures |Stream(f, us)| == |Stream(f, ws)| == |us|
    ensures forall k :: 0 <= k < |us| ==>
      && Stream(f, us)[k].mode == Stream(f, ws)[k].mode
      && Stream(f, us)[k].flags == ToFlagBits(us[k].quality) && CarriesFlags(us[k], Stream(f, us)[k].flags)
      && Stream(f, ws)[k].flags == ToFlagBits(ws[k].quality) && CarriesFlags(ws[k], Stream(f, ws)[k].flags)
    decreases us
  {
    if us != [] {
      assert ws[0] == us[0].(quality := ws[0].quality);
      assert Step(f, us[0]) == Step(f, ws[0]);
      QualityNonInterference(Step(f, us[0]), us[1..], ws[1..]);
    }
  }

  // -------------------------------------------------------------------------
  // Points are independent
  // -------------------------------------------------------------------------

  /** The updates of us that go to point p, in order. */
  function OnPoint(us: seq<PointUpdate>, p: PointId): seq<PointUpdate> {
    if us == [] then []
    else (if PointOf(us[0]) == p then [us[0]] else []) + OnPoint(us[1..], p)
  }

  function StreamOfPoint(log: seq<Applied>, p: PointId): seq<Applied> {
    if log == [] then []
    else (if PointOfApplied(log[0]) == p then [log[0]] else []) + StreamOfPoint(log[1..], p)
  }

  /** f and g treat point p alike from here on. */
  predicate AgreeAt(f: FilterState, g: FilterState, p: PointId) {
    && f.live == g.live
    && match p
       case AnalogPoint(i) => DeadbandOf(f, i) == DeadbandOf(g, i) && AnalogAt(f, i) == AnalogAt(g, i)
       case BinaryPoint(i) => BinaryAt(f, i) == BinaryAt(g, i)
  }

  lemma StepAgrees(f: FilterState, g: FilterState, u: PointUpdate, p: PointId)
    requires AgreeAt(f, g, p)
    ensures PointOf(u) == p ==> Output(f, u) == Output(g, u) && AgreeAt(Step(f, u), Step(g, u), p)
    ensures PointOf(u) != p ==> AgreeAt(Step(f, u), g, p)
  {
  }

  lemma {:induction false} PointsAgree(f: FilterState, g: FilterState, us: seq<PointUpdate>, p: PointId)
    requires AgreeAt(f, g, p)
    ensures StreamOfPoint(Stream(f, us), p) == Stream(g, OnPoint(us, p))
    ensures AgreeAt(After(f, us), After(g, OnPoint(us, p)), p)
    decreases us
  {
    if us != [] {
      var u := us[0];
      var rest := Stream(Step(f, u), us[1..]);
      StepAgrees(f, g, u, p);
      if PointOf(u) == p {
        PointsAgree(Step(f, u), Step(g, u), us[1..], p);
        assert ([u] + OnPoint(us[1..], p))[1..] == OnPoint(us[1..], p);
      } else {
        PointsAgree(Step(f, u), g, us[1..], p);
        assert OnPoint(us, p) == OnPoint(us[1..], p);
      }
      if f.live {
        assert Stream(f, us) == [Apply(u, Decide(f, u))] + rest;
        assert Stream(f, us)[1..] == rest;
      } else {
        assert Stream(f, us) == rest;
      }
    }
  }

  /**
   Point independence: in any interleaving over all indices and both kinds,
   point p receives exactly what it would receive if its own updates were the
   only ones.
   */
  lemma PointIndependence(f: FilterState, us: seq<PointUpdate>, p: PointId)
    ensures StreamOfPoint(Stream(f, us), p) == Stream(f, OnPoint(us, p))
    ensures AgreeAt(After(f, us), After(f, OnPoint(us, p)), p)
  {
    PointsAgree(f, f, us, p);
  }

  /** Updates to different points commute on the final state. */
  lemma DifferentPointsCommute(f: FilterState, u: PointUpdate, w: PointUpdate)
    requires PointOf(u) != PointOf(w)
    ensures Step(Step(f, u), w) == Step(Step(f, w), u)
  {
    if f.live && u.AnalogUpdate? && w.AnalogUpdate? {
      var a := NextAnalog(DeadbandOf(f, u.index), AnalogAt(f, u.index), u.analog);
      var b := NextAnalog(DeadbandOf(f, w.index), AnalogAt(f, w.index), w.analog);
      assert f.analogs[u.index := a][w.index := b] == f.analogs[w.index := b][u.index := a];
    } else if f.live && u.BinaryUpdate? && w.BinaryUpdate? {
      var a := NextBinary(BinaryAt(f, u.index), u.binary);
      var b := NextBinary(BinaryAt(f, w.index), w.binary);
      assert f.binaries[u.index := a][w.index := b] == f.binaries[w.index := b][u.index := a];
    }
  }

  // -------------------------------------------------------------------------
  // The per-point theorems hold inside any interleaving
  // -------------------------------------------------------------------------

  function AnalogValues(us: seq<PointUpdate>, i: uint16): seq<Double> {
    if us == [] then []
    else (if PointOf(us[0]) == AnalogPoint(i) then [us[0].analog] else []) + AnalogValues(us[1..], i)
  }

  function BinaryValues(us: seq<PointUpdate>, i: uint16): seq<bool> {
    if us == [] then []
    else (if PointOf(us[0]) == BinaryPoint(i) then [us[0].binary] else []) + BinaryValues(us[1..], i)
  }

  /** The values forced to one analog (binary) point, read off the applied stream. */
  function ForcedAnalogs(log: seq<Applied>, i: uint16): seq<Double> {
    if log == [] then []
    else (if log[0].AppliedAnalog? && log[0].index == i && log[0].mode == Force then [log[0].analog] else [])
         + ForcedAnalogs(log[1..], i)
  }

  function ForcedBinaries(log: seq<Applied>, i: uint16): seq<bool> {
    if log == [] then []
    else (if log[0].AppliedBinary? && log[0].index == i && log[0].mode == Force then [log[0].binary] else [])
         + ForcedBinaries(log[1..], i)
  }

  lemma {:induction false} AnalogRunInside(f: FilterState, us: seq<PointUpdate>, i: uint16)
    requires f.live
    ensures ForcedAnalogs(Stream(f, us), i) == AnalogEvents(DeadbandOf(f, i), AnalogAt(f, i), AnalogValues(us, i))
    ensures AnalogAt(After(f, us), i) == AnalogAfter(DeadbandOf(f, i), AnalogAt(f, i), AnalogValues(us, i))
    decreases us
  {
    if us != [] {
      var u := us[0];
      AnalogRunInside(Step(f, u), us[1..], i);
      assert Stream(f, us)[1..] == Stream(Step(f, u), us[1..]);
      if PointOf(u) == AnalogPoint(i) {
        assert AnalogValues(us, i)[1..] == AnalogValues(us[1..], i);
      } else {
        assert AnalogValues(us, i) == AnalogValues(us[1..], i);
      }
    }
  }

  lemma {:induction false} BinaryRunInside(f: FilterState, us: seq<PointUpdate>, i: uint16)
    requires f.live
    ensures ForcedBinaries(Stream(f, us), i)
         == Forced(BinaryValues(us, i), BinaryModes(BinaryAt(f, i), BinaryValues(us, i)))
    ensures BinaryAt(After(f, us), i) == BinaryAfter(BinaryAt(f, i), BinaryValues(us, i))
    decreases us
  {
    if us != [] {
      var u := us[0];
      BinaryRunInside(Step(f, u), us[1..], i);
      assert Stream(f, us)[1..] == Stream(Step(f, u), us[1..]);
      if PointOf(u) == BinaryPoint(i) {
        assert BinaryValues(us, i)[1..] == BinaryValues(us[1..], i);
      } else {
        assert BinaryValues(us, i) == BinaryValues(us[1..], i);
      }
    }
  }

  /**
   Whatever else is updated in between, on a freshly started outstation the
   last event the SCADA got for an analog point stands for the point's current
   value, and what it got for a binary point is the stutter-free form of the
   point's values.
   */
  lemma EventsStandForValues(f: FilterState, us: seq<PointUpdate>, i: uint16)
    requires Started(f)
    ensures var vs := AnalogValues(us, i);
            var es := ForcedAnalogs(Stream(f, us), i);
            vs != [] ==> es != [] && Tracks(DeadbandOf(f, i), es[|es| - 1], vs[|vs| - 1])
    ensures ForcedBinaries(Stream(f, us), i) == StutterFree(BinaryValues(us, i))
  {
    AnalogRunInside(f, us, i);
    BinaryRunInside(f, us, i);
    BinaryEventsAreStutterFree(BinaryValues(us, i));
    var vs := AnalogValues(us, i);
    if vs != [] {
      TrackingInvariant(DeadbandOf(f, i), vs, |vs|);
      assert vs[..|vs|] == vs;
    }
  }

  /**
   The event-count bound inside any interleaving: k + 1 events raised for one
   point whose samples are all finite cost that point more than k deadbands of
   total variation.
   */
  lemma EventsAreBudgeted(f: FilterState, us: seq<PointUpdate>, i: uint16, d: real, rs: seq<real>)
    requires Started(f) && DeadbandOf(f, i) == Finite(d) && AnalogValues(us, i) == Finites(rs)
    ensures Separated(d, ForcedAnalogs(Stream(f, us), i))
    ensures Budgeted(|ForcedAnalogs(Stream(f, us), i)|, d, rs)
  {
    AnalogRunInside(f, us, i);
    EventCountBound(d, rs);
  }
}
