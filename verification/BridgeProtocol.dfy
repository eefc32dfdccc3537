/**
 The bridge as a concurrent system: any number of producers calling
 `applyUpdate`, one controller calling `start` and `stop`, and the flush
 thread. Each critical section of `mutex_` is one atomic step, and so is each
 notification, so a run is any interleaving of these steps.
 */
module BridgeProtocol {
  import opened Wrappers
  import opened Measurements
  import opened EventFilter
  import opened FilterRuns

  /** Off: not launched, or returned from `flushLoop`. Sleeping: blocked in `cv_.wait`. */
  datatype FlushPc = Off | Locking | Sleeping | Draining

  /** Where the controller is inside `start` (Launching) or `stop` (Notifying, Joining). */
  datatype ControlPc = Idle | Launching | Notifying | Joining

  datatype State = State(
    queue: seq<PointUpdate>,
    batch: seq<PointUpdate>,
    running: bool,
    flush: FlushPc,
    control: ControlPc,
    unnotified: nat,             // producers between their unlock and their notify_one
    filter: FilterState,         // the outstation's event filter
    applied: seq<Applied>,       // everything the outstation was asked to apply
    // History, read by no step.
    pushed: seq<PointUpdate>,    // every update pushed so far
    consumed: seq<PointUpdate>,  // every update popped from a batch so far
    cleared: nat,                // how many had been pushed when stop last cleared running_
    epoch: nat,                  // how many had been consumed when the outstation last went up or down
    base: FilterState,           // the filter at that moment
    before: seq<Applied>)        // what had been applied by that moment

  datatype Action =
    | Push(u: PointUpdate)
    | NotifyOne
    | SpuriousWake
    | CallStart
    | Launch
    | CallStop
    | NotifyAll
    | Join
    | Check
    | Drain
    | OutstationUp(deadbands: map<uint16, Double>)
    | OutstationDown

  function Down(): FilterState {
    FilterState(false, map[], map[], map[])
  }

  function Init(): State {
    State([], [], false, Off, Idle, 0, Down(), [], [], [], 0, 0, Down(), [])
  }

  function Wake(s: State): State {
    if s.flush == Sleeping then s.(flush := Locking) else s
  }

  function Rebase(s: State, filter: FilterState): State {
    s.(filter := filter, epoch := |s.consumed|, base := filter, before := s.applied)
  }

  /** One step; None when the action is not enabled. */
  function Next(s: State, a: Action): Option<State> {
    match a
    case Push(u) =>
      Some(s.(queue := s.queue + [u], pushed := s.pushed + [u], unnotified := s.unnotified + 1))
    case NotifyOne =>
      if s.unnotified == 0 then None else Some(Wake(s.(unnotified := s.unnotified - 1)))
    case SpuriousWake =>
      if s.flush != Sleeping then None else Some(Wake(s))
    case CallStart =>
      if s.control != Idle then None
      else if s.running then Some(s)
      else Some(s.(running := true, control := Launching))
    case Launch =>
      if s.control != Launching then None else Some(s.(flush := Locking, control := Idle))
    case CallStop =>
      if s.control != Idle then None
      else if !s.running then Some(s)
      else Some(s.(running := false, control := Notifying, cleared := |s.pushed|))
    case NotifyAll =>
      if s.control != Notifying then None else Some(Wake(s).(control := Joining))
    case Join =>
      if s.control != Joining || s.flush != Off then None else Some(s.(control := Idle))
    case Check =>
      if s.flush != Locking then None
      else if s.queue == [] then Some(s.(flush := if s.running then Sleeping else Off))
      else Some(s.(batch := s.queue, queue := [], flush := Draining))
    case Drain =>
      if s.flush != Draining || s.batch == [] then None
      else
        var u := s.batch[0];
        Some(s.(filter := Step(s.filter, u), applied := s.applied + Output(s.filter, u),
                batch := s.batch[1..], consumed := s.consumed + [u],
                flush := if |s.batch| == 1 then Locking else Draining))
    case OutstationUp(ds) => Some(Rebase(s, FilterState(true, ds, map[], map[])))
    case OutstationDown => Some(Rebase(s, s.filter.(live := false)))
  }

  function Run(s: State, actions: seq<Action>): Option<State>
    decreases actions
  {
    if actions == [] then Some(s)
    else match Next(s, actions[0])
      case None => None
      case Some(t) => Run(t, actions[1..])
  }

  /** Runs compose. */
  lemma {:induction false} RunsJoin(s: State, xs: seq<Action>, ys: seq<Action>)
    requires Run(s, xs).Some?
    ensures Run(s, xs + ys) == Run(Run(s, xs).value, ys)
    decreases xs
  {
    if xs == [] {
      assert xs + ys == ys;
    } else {
      assert (xs + ys)[1..] == xs[1..] + ys;
      RunsJoin(Next(s, xs[0]).value, xs[1..], ys);
    }
  }

  lemma RunOneMore(s: State, xs: seq<Action>, a: Action)
    requires Run(s, xs).Some?
    ensures Run(s, xs + [a]) == Next(Run(s, xs).value, a)
  {
    RunsJoin(s, xs, [a]);
    assert [a][1..] == [];
  }

  // -------------------------------------------------------------------------
  // The inductive invariant
  // -------------------------------------------------------------------------

  /** Nothing is lost, duplicated or reordered between push and consumption. */
  predicate Conserved(s: State) {
    && s.consumed + s.batch + s.queue == s.pushed
    && (|s.batch| > 0 <==> s.flush == Draining)
  }

  /** Where the flush thread can be for each point of the controller. */
  predicate Phased(s: State) {
    && s.cleared <= |s.pushed|
    && match s.control
       case Idle => s.running <==> s.flush != Off
       case Launching => s.running && s.flush == Off
       case Notifying => !s.running && (s.flush == Off ==> s.cleared <= |s.consumed|)
       case Joining => !s.running && s.flush != Sleeping && (s.flush == Off ==> s.cleared <= |s.consumed|)
  }

  /** No wake-up is lost: the flush thread sleeps on work only while a notification is still to come. */
  predicate Attentive(s: State) {
    s.flush == Sleeping ==> (s.queue != [] ==> s.unnotified > 0) && (!s.running ==> s.control == Notifying)
  }

  /** The outstation has seen the pure filter folded over what was consumed. */
  predicate Refines(s: State) {
    && s.epoch <= |s.consumed|
    && (s.base.live ==> Started(s.base))
    && s.filter == After(s.base, s.consumed[s.epoch..])
    && s.applied == s.before + Stream(s.base, s.consumed[s.epoch..])
  }

  predicate Inv(s: State) {
    Conserved(s) && Phased(s) && Attentive(s) && Refines(s)
  }

  lemma DrainRefines(s: State, t: State)
    requires Refines(s) && Next(s, Drain) == Some(t)
    ensures Refines(t)
  {
    var done, u := s.consumed[s.epoch..], s.batch[0];
    assert t.consumed[s.epoch..] == done + [u];
    RunSplit(s.base, done, [u]);
    assert Stream(s.filter, [u]) == Output(s.filter, u);
    assert After(s.filter, [u]) == Step(s.filter, u);
  }

  lemma StepKeepsConserved(s: State, a: Action, t: State)
    requires Conserved(s) && Phased(s) && Next(s, a) == Some(t)
    ensures Conserved(t)
  {
    match a
    case Push(u) => assert s.consumed + s.batch + (s.queue + [u]) == s.pushed + [u];
    case Check => assert s.consumed + s.queue + [] == s.consumed + s.batch + s.queue;
    case Drain => assert (s.consumed + [s.batch[0]]) + s.batch[1..] + s.queue == s.pushed;
    case _ =>
  }

  lemma StepKeepsPhased(s: State, a: Action, t: State)
    requires Conserved(s) && Phased(s) && Next(s, a) == Some(t)
    ensures Phased(t)
  {
  }

  lemma StepKeepsAttentive(s: State, a: Action, t: State)
    requires Phased(s) && Attentive(s) && Next(s, a) == Some(t)
    ensures Attentive(t)
  {
  }

  lemma StepKeepsRefines(s: State, a: Action, t: State)
    requires Refines(s) && Next(s, a) == Some(t)
    ensures Refines(t)
  {
    match a
    case Drain => DrainRefines(s, t);
    case _ =>
  }

  lemma StepKeepsInv(s: State, a: Action, t: State)
    requires Inv(s) && Next(s, a) == Some(t)
    ensures Inv(t)
  {
    StepKeepsConserved(s, a, t);
    StepKeepsPhased(s, a, t);
    StepKeepsAttentive(s, a, t);
    StepKeepsRefines(s, a, t);
  }

  lemma {:induction false} RunKeepsInv(s: State, actions: seq<Action>, t: State)
    requires Inv(s) && Run(s, actions) == Some(t)
    ensures Inv(t)
    decreases actions
  {
    if actions != [] {
      var m := Next(s, actions[0]).value;
      StepKeepsInv(s, actions[0], m);
      RunKeepsInv(m, actions[1..], t);
    }
  }

  // -------------------------------------------------------------------------
  // Safety over all interleavings
  // -------------------------------------------------------------------------

  /**
   End-to-end refinement. In every reachable state, what the outstation has
   been asked to apply since it last went up is a prefix of the pure filter
   folded over push order, whatever batches the scheduler cut; it is the whole
   fold once queue and batch are empty.
   */
  lemma EndToEnd(actions: seq<Action>, s: State)
    requires Run(Init(), actions) == Some(s)
    ensures s.epoch <= |s.consumed| <= |s.pushed|
    ensures s.consumed + s.batch + s.queue == s.pushed
    ensures s.applied == s.before + Stream(s.base, s.consumed[s.epoch..])
    ensures s.applied <= s.before + Stream(s.base, s.pushed[s.epoch..])
    ensures s.queue == [] && s.batch == [] ==> s.applied == s.before + Stream(s.base, s.pushed[s.epoch..])
    ensures s.base.live ==> Started(s.base)
  {
    RunKeepsInv(Init(), actions, s);
    QueuedIsStillToCome(s);
  }

  lemma QueuedIsStillToCome(s: State)
    requires Conserved(s) && Refines(s)
    ensures s.epoch <= |s.consumed| <= |s.pushed|
    ensures s.before + Stream(s.base, s.pushed[s.epoch..]) == s.applied + Stream(s.filter, s.batch + s.queue)
  {
    var done := s.consumed[s.epoch..];
    assert s.pushed[s.epoch..] == done + (s.batch + s.queue);
    RunSplit(s.base, done, s.batch + s.queue);
  }

  /** The updates consumed since the outstation last went up or down, and what it was asked to apply since then. */
  function ConsumedSince(s: State): seq<PointUpdate>
    requires Refines(s)
  {
    s.consumed[s.epoch..]
  }

  function AppliedSince(s: State): seq<Applied>
    requires Refines(s)
  {
    s.applied[|s.before|..]
  }

  lemma ReachableRefines(actions: seq<Action>, s: State)
    requires Run(Init(), actions) == Some(s)
    ensures Refines(s)
    ensures AppliedSince(s) == Stream(s.base, ConsumedSince(s))
    ensures s.epoch <= |s.pushed|
    ensures s.queue == [] && s.batch == [] ==> s.consumed == s.pushed
  {
    RunKeepsInv(Init(), actions, s);
  }

  /**
   What the SCADA is left with, in every reachable state with the outstation
   up: the last event raised for an analog point since it went up stands for
   the last value consumed for that point, and the events of a binary point are
   the stutter-free form of its consumed values. Once queue and batch are empty
   these are the values pushed.
   */
  lemma ScadaIsUpToDate(actions: seq<Action>, s: State, i: uint16)
    requires Run(Init(), actions) == Some(s) && s.base.live
    ensures Refines(s) && s.epoch <= |s.pushed|
    ensures var vs, es := AnalogValues(ConsumedSince(s), i), ForcedAnalogs(AppliedSince(s), i);
            vs != [] ==> es != [] && Tracks(DeadbandOf(s.base, i), es[|es| - 1], vs[|vs| - 1])
    ensures ForcedBinaries(AppliedSince(s), i) == StutterFree(BinaryValues(ConsumedSince(s), i))
    ensures s.queue == [] && s.batch == [] ==> ConsumedSince(s) == s.pushed[s.epoch..]
  {
    ReachableRefines(actions, s);
    EventsStandForValues(s.base, ConsumedSince(s), i);
  }

  /** In every such state each analog point has been charged a deadband of total variation for each event but one. */
  lemma ScadaIsNotFlooded(actions: seq<Action>, s: State, i: uint16, d: real, rs: seq<real>)
    requires Run(Init(), actions) == Some(s) && s.base.live && Refines(s)
    requires DeadbandOf(s.base, i) == Finite(d) && AnalogValues(ConsumedSince(s), i) == Finites(rs)
    ensures Separated(d, ForcedAnalogs(AppliedSince(s), i))
    ensures Budgeted(|ForcedAnalogs(AppliedSince(s), i)|, d, rs)
  {
    ReachableRefines(actions, s);
    EventsAreBudgeted(s.base, ConsumedSince(s), i, d, rs);
  }

  // -------------------------------------------------------------------------
  // The whole history
  // -------------------------------------------------------------------------

  /** The outstation and its log. */
  datatype Station = Station(filter: FilterState, applied: seq<Applied>)

  /**
   The bridge without threads: a list of updates fed to the outstation one at a
   time from number k on, with the outstation going up and down in between. Of
   the actions it heeds only the ups, the downs and the drains.
   */
  function Replay(st: Station, actions: seq<Action>, updates: seq<PointUpdate>, k: nat): Station
    decreases actions
  {
    if actions == [] then st
    else match actions[0]
      case OutstationUp(ds) => Replay(st.(filter := FilterState(true, ds, map[], map[])), actions[1..], updates, k)
      case OutstationDown => Replay(st.(filter := st.filter.(live := false)), actions[1..], updates, k)
      case Drain =>
        if k >= |updates| then st
        else
          var u := updates[k];
          Replay(Station(Step(st.filter, u), st.applied + Output(st.filter, u)), actions[1..], updates, k + 1)
      case _ => Replay(st, actions[1..], updates, k)
  }

  /** The actions Replay heeds. */
  function Outline(actions: seq<Action>): seq<Action> {
    if actions == [] then []
    else (if actions[0].OutstationUp? || actions[0].OutstationDown? || actions[0].Drain? then [actions[0]] else [])
         + Outline(actions[1..])
  }

  lemma {:induction false} ReplayFollowsOutline(st: Station, actions: seq<Action>, updates: seq<PointUpdate>, k: nat)
    ensures Replay(st, actions, updates, k) == Replay(st, Outline(actions), updates, k)
    decreases actions
  {
    if actions != [] {
      var a, rest := actions[0], actions[1..];
      if a.OutstationUp? || a.OutstationDown? || a.Drain? {
        assert Outline(actions)[1..] == Outline(rest);
      } else {
        assert Outline(actions) == Outline(rest);
      }
      match a
      case OutstationUp(ds) =>
        ReplayFollowsOutline(st.(filter := FilterState(true, ds, map[], map[])), rest, updates, k);
      case OutstationDown => ReplayFollowsOutline(st.(filter := st.filter.(live := false)), rest, updates, k);
      case Drain =>
        if k < |updates| {
          var u := updates[k];
          ReplayFollowsOutline(Station(Step(st.filter, u), st.applied + Output(st.filter, u)), rest, updates, k + 1);
        }
      case _ => ReplayFollowsOutline(st, rest, updates, k);
    }
  }

  lemma {:induction false} RunIsReplay(s: State, actions: seq<Action>, t: State)
    requires Conserved(s) && Phased(s) && Run(s, actions) == Some(t)
    ensures s.pushed <= t.pushed
    ensures Replay(Station(s.filter, s.applied), actions, t.pushed, |s.consumed|) == Station(t.filter, t.applied)
    decreases actions
  {
    if actions != [] {
      var m := Next(s, actions[0]).value;
      StepKeepsConserved(s, actions[0], m);
      StepKeepsPhased(s, actions[0], m);
      RunIsReplay(m, actions[1..], t);
      PushedGrows(s, actions[0], m);
      ReplayOneStep(s, actions, m, t.pushed);
    }
  }

  lemma PushedGrows(s: State, a: Action, m: State)
    requires Next(s, a) == Some(m)
    ensures s.pushed <= m.pushed
  {
  }

  lemma ReplayOneStep(s: State, actions: seq<Action>, m: State, updates: seq<PointUpdate>)
    requires Conserved(s) && actions != [] && Next(s, actions[0]) == Some(m)
    requires s.pushed <= m.pushed <= updates
    ensures Replay(Station(s.filter, s.applied), actions, updates, |s.consumed|)
         == Replay(Station(m.filter, m.applied), actions[1..], updates, |m.consumed|)
  {
    if actions[0] == Drain {
      assert s.pushed[|s.consumed|] == s.batch[0];
    }
  }

  /**
   Scheduling cannot matter. Over the whole history, with all its starts and
   stops, filter and log are those of the bridge without threads, fed what
   was pushed in push order. So two runs that push the same updates, and in
   which ups, downs and drains come in the same order, end with the same events,
   however their producers, batches, sleeps and wake-ups fell.
   */
  lemma SchedulingCannotMatter(actions: seq<Action>, s: State, actions': seq<Action>, s': State)
    requires Run(Init(), actions) == Some(s) && Run(Init(), actions') == Some(s')
    ensures Replay(Station(Down(), []), Outline(actions), s.pushed, 0) == Station(s.filter, s.applied)
    ensures s.pushed == s'.pushed && Outline(actions) == Outline(actions') ==>
      s.filter == s'.filter && s.applied == s'.applied
  {
    RunIsReplay(Init(), actions, s);
    ReplayFollowsOutline(Station(Down(), []), actions, s.pushed, 0);
    RunIsReplay(Init(), actions', s');
    ReplayFollowsOutline(Station(Down(), []), actions', s'.pushed, 0);
  }

  lemma DrainedAtJoin(s: State)
    requires Conserved(s) && Phased(s) && s.control == Joining && s.flush == Off
    ensures s.cleared <= |s.consumed| <= |s.pushed| && s.batch == []
    ensures s.consumed == s.pushed[..|s.consumed|] && s.queue == s.pushed[|s.consumed|..]
  {
    assert s.batch == [];
    assert s.pushed == s.consumed + s.queue;
  }

  /**
   Drain on stop: when `stop` can return, everything pushed before `running_`
   was cleared has been consumed in order, and anything pushed later is still
   queued, to be consumed first after the next start.
   */
  lemma DrainOnStop(actions: seq<Action>, s: State)
    requires Run(Init(), actions) == Some(s) && Next(s, Join).Some?
    ensures s.cleared <= |s.consumed| <= |s.pushed|
    ensures s.consumed == s.pushed[..|s.consumed|] && s.queue == s.pushed[|s.consumed|..] && s.batch == []
  {
    RunKeepsInv(Init(), actions, s);
    DrainedAtJoin(s);
  }

  // -------------------------------------------------------------------------
  // When an update is dropped
  // -------------------------------------------------------------------------

  /** Every update drained in the run finds the outstation up. */
  predicate DrainsLive(s: State, actions: seq<Action>)
    decreases actions
  {
    actions != [] ==>
      && (actions[0] == Drain ==> s.filter.live)
      && (Next(s, actions[0]).Some? ==> DrainsLive(Next(s, actions[0]).value, actions[1..]))
  }

  /** The k-th update consumed is the k-th one applied, point, value and quality, for all of them. */
  predicate EachIsApplied(s: State) {
    && |s.applied| == |s.consumed|
    && forall k :: 0 <= k < |s.consumed| ==> Delivers(s.consumed[k], s.applied[k])
  }

  lemma StepDrops(s: State, a: Action, t: State)
    requires Next(s, a) == Some(t) && |s.applied| <= |s.consumed|
    ensures |t.consumed| - |t.applied| == |s.consumed| - |s.applied| + if a == Drain && !s.filter.live then 1 else 0
    ensures EachIsApplied(s) && !(a == Drain && !s.filter.live) ==> EachIsApplied(t)
  {
  }

  lemma {:induction false} RunDrops(s: State, actions: seq<Action>, t: State)
    requires Run(s, actions) == Some(t) && |s.applied| <= |s.consumed|
    ensures |s.consumed| - |s.applied| <= |t.consumed| - |t.applied|
    ensures |s.consumed| - |s.applied| == |t.consumed| - |t.applied| <==> DrainsLive(s, actions)
    ensures EachIsApplied(s) && DrainsLive(s, actions) ==> EachIsApplied(t)
    decreases actions
  {
    if actions != [] {
      var m := Next(s, actions[0]).value;
      StepDrops(s, actions[0], m);
      RunDrops(m, actions[1..], t);
    }
  }

  /**
   Exactly when nothing is dropped: as many updates have been applied as were
   consumed if and only if every one drained found the outstation up, and then
   the k-th one consumed is the k-th one applied.
   */
  lemma NothingIsDropped(actions: seq<Action>, s: State)
    requires Run(Init(), actions) == Some(s)
    ensures |s.applied| <= |s.consumed|
    ensures |s.applied| == |s.consumed| <==> DrainsLive(Init(), actions)
    ensures EachIsApplied(s) <==> DrainsLive(Init(), actions)
  {
    RunDrops(Init(), actions, s);
  }

  // -------------------------------------------------------------------------
  // The order main uses
  // -------------------------------------------------------------------------

  /** `main`: the outstation goes up before `Bridge::start` and down after `Bridge::stop` has returned. */
  predicate MainOrder(s: State, a: Action) {
    match a
    case CallStart => s.filter.live
    case OutstationUp(_) => s.control == Idle && !s.running
    case OutstationDown => s.control == Idle && !s.running
    case _ => true
  }

  predicate InMainOrder(s: State, actions: seq<Action>)
    decreases actions
  {
    actions != [] ==>
      && MainOrder(s, actions[0])
      && (Next(s, actions[0]).Some? ==> InMainOrder(Next(s, actions[0]).value, actions[1..]))
  }

  /** While the bridge runs, or start or stop is in progress, the outstation is up. */
  predicate UpWhileRunning(s: State) {
    s.running || s.control != Idle ==> s.filter.live
  }

  /** A drain finds the bridge running or stopping, so in main's order it finds the outstation up. */
  lemma {:induction false} MainOrderDrainsLive(s: State, actions: seq<Action>, t: State)
    requires Conserved(s) && Phased(s) && UpWhileRunning(s) && InMainOrder(s, actions) && Run(s, actions) == Some(t)
    ensures DrainsLive(s, actions)
    decreases actions
  {
    if actions != [] {
      var m := Next(s, actions[0]).value;
      StepKeepsConserved(s, actions[0], m);
      StepKeepsPhased(s, actions[0], m);
      MainOrderDrainsLive(m, actions[1..], t);
    }
  }

  /**
   In `main`'s order no drained update meets a stopped outstation: the k-th
   update pushed is the k-th one applied, and when `stop` returns every update
   pushed before it has been applied.
   */
  lemma MainLosesNothing(actions: seq<Action>, s: State)
    requires InMainOrder(Init(), actions) && Run(Init(), actions) == Some(s)
    ensures DrainsLive(Init(), actions)
    ensures |s.applied| == |s.consumed| <= |s.pushed|
    ensures forall k :: 0 <= k < |s.applied| ==> Delivers(s.pushed[k], s.applied[k])
    ensures Next(s, Join).Some? ==> s.cleared <= |s.applied|
  {
    MainOrderDrainsLive(Init(), actions, s);
    NothingIsDropped(actions, s);
    RunKeepsInv(Init(), actions, s);
    assert forall k :: 0 <= k < |s.consumed| ==> s.pushed[k] == s.consumed[k];
  }

  /** Out of that order updates can be lost: here the outstation goes down before `stop`. */
  lemma OtherOrdersLoseUpdates(u: PointUpdate) returns (s: State)
    ensures Run(Init(), [OutstationUp(map[]), CallStart, Launch, Push(u), OutstationDown, CallStop, Check, Drain])
         == Some(s)
    ensures s.consumed == [u] && s.applied == []
  {
    var a := [OutstationUp(map[]), CallStart, Launch, Push(u), OutstationDown, CallStop, Check, Drain];
    var s1 := Next(Init(), a[0]).value;
    var s2 := Next(s1, a[1]).value;
    var s3 := Next(s2, a[2]).value;
    var s4 := Next(s3, a[3]).value;
    var s5 := Next(s4, a[4]).value;
    var s6 := Next(s5, a[5]).value;
    var s7 := Next(s6, a[6]).value;
    s := Next(s7, a[7]).value;
    assert Run(s7, a[7..]) == Some(s);
    assert Run(s6, a[6..]) == Some(s);
    assert Run(s5, a[5..]) == Some(s);
    assert Run(s4, a[4..]) == Some(s);
    assert Run(s3, a[3..]) == Some(s);
    assert Run(s2, a[2..]) == Some(s);
    assert Run(s1, a[1..]) == Some(s);
  }

  // -------------------------------------------------------------------------
  // Progress
  // -------------------------------------------------------------------------

  /** Steps the threads take on their own: no new push, call, outstation change or spurious wake-up. */
  predicate Internal(a: Action) {
    a in {NotifyOne, Launch, NotifyAll, Join, Check, Drain}
  }

  function ControlRank(c: ControlPc): nat {
    match c case Idle => 0 case Launching => 1 case Joining => 1 case Notifying => 2
  }

  function FlushRank(f: FlushPc): nat {
    match f case Off => 0 case Sleeping => 0 case Draining => 1 case Locking => 2
  }

  function Rank(s: State): nat {
    3 * s.unnotified + 3 * ControlRank(s.control) + 2 * |s.queue| + 2 * |s.batch| + FlushRank(s.flush)
  }

  lemma InternalStepsDecrease(s: State, a: Action, t: State)
    requires Internal(a) && Next(s, a) == Some(t) && Phased(s) && Conserved(s)
    ensures Rank(t) < Rank(s)
  {
  }

  lemma {:induction false} InternalRunsAreBounded(s: State, actions: seq<Action>, t: State)
    requires Inv(s) && Run(s, actions) == Some(t) && forall k :: 0 <= k < |actions| ==> Internal(actions[k])
    ensures |actions| + Rank(t) <= Rank(s)
    decreases actions
  {
    if actions != [] {
      var m := Next(s, actions[0]).value;
      StepKeepsInv(s, actions[0], m);
      InternalStepsDecrease(s, actions[0], m);
      InternalRunsAreBounded(m, actions[1..], t);
    }
  }

  predicate Quiet(s: State) {
    forall a :: a in {NotifyOne, Launch, NotifyAll, Join, Check, Drain} ==> Next(s, a).None?
  }

  /** The controller is outside start and stop, and the flush thread idle or gone with nothing left to do. */
  predicate Settled(s: State) {
    && s.control == Idle && s.batch == []
    && (s.running ==> s.flush == Sleeping && s.queue == [] && s.consumed == s.pushed)
    && (!s.running ==> s.flush == Off)
  }

  lemma QuietIsSettled(s: State)
    requires Conserved(s) && Phased(s) && Attentive(s) && Quiet(s)
    ensures Settled(s)
  {
    assert Next(s, NotifyOne).None? && Next(s, Launch).None? && Next(s, NotifyAll).None?;
    assert Next(s, Join).None? && Next(s, Check).None? && Next(s, Drain).None?;
  }

  /**
   Progress, with producers quiet: the threads can take at most Rank(s) more
   steps, and where they can take none the controller is outside `start` and
   `stop`, the flush thread is asleep with everything consumed (running) or has
   returned (stopped). So `stop` always returns and no wake-up is ever lost.
   */
  lemma QuietMeansDone(actions: seq<Action>, s: State, more: seq<Action>, t: State)
    requires Run(Init(), actions) == Some(s) && Run(s, more) == Some(t)
    requires forall k :: 0 <= k < |more| ==> Internal(more[k])
    ensures |more| <= Rank(s)
    ensures Quiet(t) ==> Settled(t)
  {
    RunKeepsInv(Init(), actions, s);
    InternalRunsAreBounded(s, more, t);
    RunKeepsInv(s, more, t);
    if Quiet(t) {
      QuietIsSettled(t);
    }
  }

  // -------------------------------------------------------------------------
  // One request need not be one batch
  // -------------------------------------------------------------------------

  lemma StepLeavesQueued(s: State, a: Action, t: State, k: nat)
    requires Conserved(s) && Phased(s) && Next(s, a) == Some(t) && k < |s.pushed|
    ensures k < |t.pushed|
    ensures |s.consumed| + |s.batch| <= k ==> (|t.consumed| + |t.batch| <= k <==> a != Check)
    ensures |s.consumed| + |s.batch| > k ==> |t.consumed| + |t.batch| > k
  {
  }

  /** A queued update is still queued at the end of a stretch of a run if and only if the flush thread took no queue. */
  lemma {:induction false} QueuedUntilCheck(s: State, mid: seq<Action>, t: State, k: nat)
    requires Conserved(s) && Phased(s) && k < |s.pushed| && Run(s, mid) == Some(t)
    ensures k < |t.pushed|
    ensures |s.consumed| + |s.batch| <= k ==> (|t.consumed| + |t.batch| <= k <==> Check !in mid)
    ensures |s.consumed| + |s.batch| > k ==> |t.consumed| + |t.batch| > k
    decreases mid
  {
    if mid != [] {
      var m := Next(s, mid[0]).value;
      StepLeavesQueued(s, mid[0], m, k);
      StepKeepsConserved(s, mid[0], m);
      StepKeepsPhased(s, mid[0], m);
      QueuedUntilCheck(m, mid[1..], t, k);
    }
  }

  /** Update number k of all those pushed is in the batch being drained. */
  predicate InBatch(s: State, k: nat) {
    |s.consumed| <= k < |s.consumed| + |s.batch|
  }

  /**
   Exactly when a request is one batch. Let its first point be pushed, then
   other steps happen (its remaining points among them), then its last point be
   pushed. The batch that takes the last point takes the first one too if and
   only if the flush thread has not taken the queue in between; every update
   pushed between the two is then in that batch as well.
   */
  lemma RequestIsOneBatch(before: seq<Action>, s: State, u: PointUpdate, mid: seq<Action>, t: State,
                          w: PointUpdate, more: seq<Action>, v: State, taken: State)
    requires Run(Init(), before + [Push(u)]) == Some(s)
    requires Run(s, mid) == Some(t)
    requires Run(t, [Push(w)] + more) == Some(v) && Check !in more && Next(v, Check) == Some(taken)
    ensures InBatch(taken, |t.pushed|)
    ensures 0 < |s.pushed| <= |t.pushed|
    ensures InBatch(taken, |s.pushed| - 1) <==> Check !in mid
    ensures Check !in mid ==> forall k :: |s.pushed| - 1 <= k <= |t.pushed| ==> InBatch(taken, k)
  {
    PushedLast(before, u, s);
    RunKeepsOrder(s, mid, t);
    QueuedUntilCheck(s, mid, t, |s.pushed| - 1);
    var t' := Next(t, Push(w)).value;
    StepKeepsConserved(t, Push(w), t');
    StepKeepsPhased(t, Push(w), t');
    assert ([Push(w)] + more)[1..] == more;
    QueuedUntilCheck(t', more, v, |t.pushed|);
    QueuedUntilCheck(t', more, v, |s.pushed| - 1);
    RunKeepsOrder(t', more, v);
    CheckTakesAll(v, taken);
  }

  lemma CheckTakesAll(v: State, taken: State)
    requires Conserved(v) && v.queue != [] && Next(v, Check) == Some(taken)
    ensures taken.consumed == v.consumed && |v.consumed| + |v.batch| == |v.consumed|
    ensures |taken.consumed| + |taken.batch| == |v.pushed|
  {
  }

  lemma {:induction false} RunKeepsOrder(s: State, actions: seq<Action>, t: State)
    requires Conserved(s) && Phased(s) && Run(s, actions) == Some(t)
    ensures Conserved(t) && Phased(t)
    decreases actions
  {
    if actions != [] {
      var m := Next(s, actions[0]).value;
      StepKeepsConserved(s, actions[0], m);
      StepKeepsPhased(s, actions[0], m);
      RunKeepsOrder(m, actions[1..], t);
    }
  }

  lemma PushedLast(before: seq<Action>, u: PointUpdate, s: State)
    requires Run(Init(), before + [Push(u)]) == Some(s)
    ensures 0 < |s.pushed| && |s.consumed| + |s.batch| < |s.pushed|
    ensures Conserved(s) && Phased(s)
  {
    RunPrefix(Init(), before, [Push(u)]);
    RunOneMore(Init(), before, Push(u));
    RunKeepsOrder(Init(), before, Run(Init(), before).value);
    RunKeepsOrder(Init(), before + [Push(u)], s);
  }

  lemma {:induction false} RunPrefix(s: State, xs: seq<Action>, ys: seq<Action>)
    requires Run(s, xs + ys).Some?
    ensures Run(s, xs).Some?
    decreases xs
  {
    if xs != [] {
      assert (xs + ys)[1..] == xs[1..] + ys;
      RunPrefix(Next(s, xs[0]).value, xs[1..], ys);
    }
  }

  /**
   The integration guide says that the points of one request are applied in
   one batch. They need not be: the flush thread may swap the queue between two
   pushes of a request and apply the first while the second is not even queued.
   */
  lemma RequestMaySplit(u: PointUpdate, w: PointUpdate) returns (s: State)
    ensures Run(Init(), [OutstationUp(map[]), CallStart, Launch, Push(u), Check, Drain, Push(w)]) == Some(s)
    ensures s.consumed == [u] && |s.applied| == 1 && s.batch == [] && s.queue == [w]
  {
    var a := [OutstationUp(map[]), CallStart, Launch, Push(u), Check, Drain, Push(w)];
    var s1 := Next(Init(), a[0]).value;
    var s2 := Next(s1, a[1]).value;
    var s3 := Next(s2, a[2]).value;
    var s4 := Next(s3, a[3]).value;
    var s5 := Next(s4, a[4]).value;
    var s6 := Next(s5, a[5]).value;
    s := Next(s6, a[6]).value;
    assert Run(s6, a[6..]) == Some(s);
    assert Run(s5, a[5..]) == Some(s);
    assert Run(s4, a[4..]) == Some(s);
    assert Run(s3, a[3..]) == Some(s);
    assert Run(s2, a[2..]) == Some(s);
    assert Run(s1, a[1..]) == Some(s);
  }
}
