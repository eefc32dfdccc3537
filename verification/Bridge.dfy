/**
 `Bridge` as the object it is. `FlushLoop` is the flush thread's own code; what
 the other threads do while it is not holding the mutex is given as a script.
 Each method is also shown to perform steps of `BridgeProtocol`.
 */
module Bridge {
  import opened Wrappers
  import opened Measurements
  import opened FilterRuns
  import opened Outstation
  import P = BridgeProtocol

  function Concat(arrivals: seq<seq<PointUpdate>>): seq<PointUpdate> {
    if arrivals == [] then [] else arrivals[0] + Concat(arrivals[1..])
  }

  lemma {:induction false} ConcatOneMore(arrivals: seq<seq<PointUpdate>>, last: seq<PointUpdate>)
    ensures Concat(arrivals + [last]) == Concat(arrivals) + last
    decreases arrivals
  {
    if arrivals == [] {
      assert arrivals + [last] == [last];
    } else {
      assert (arrivals + [last])[1..] == arrivals[1..] + [last];
      ConcatOneMore(arrivals[1..], last);
    }
  }

  /** An outstation that has got to (f, log) will, once us are applied, be at (goal, goalLog). */
  ghost predicate Owes(f: FilterState, log: seq<Applied>, us: seq<PointUpdate>,
                       goal: FilterState, goalLog: seq<Applied>) {
    After(f, us) == goal && log + Stream(f, us) == goalLog
  }

  /** Paying off a first part leaves the rest owed: where the cut is does not matter. */
  lemma PaidOff(f: FilterState, log: seq<Applied>, xs: seq<PointUpdate>, ys: seq<PointUpdate>,
                goal: FilterState, goalLog: seq<Applied>)
    requires Owes(f, log, xs + ys, goal, goalLog)
    ensures Owes(After(f, xs), log + Stream(f, xs), ys, goal, goalLog)
  {
    RunSplit(f, xs, ys);
  }

  // -------------------------------------------------------------------------
  // Protocol runs
  // -------------------------------------------------------------------------

  /** A protocol run that has got as far as state now. */
  datatype Trace = Trace(start: P.State, actions: seq<P.Action>, now: P.State)
  {
    ghost predicate Valid() {
      P.Run(start, actions) == Some(now)
    }
  }

  function Take(tr: Trace, a: P.Action): (tr': Trace)
    requires tr.Valid() && P.Next(tr.now, a).Some?
    ensures tr'.Valid() && tr'.start == tr.start && tr'.now == P.Next(tr.now, a).value
  {
    P.RunOneMore(tr.start, tr.actions, a);
    Trace(tr.start, tr.actions + [a], P.Next(tr.now, a).value)
  }

  /** Producers push us one by one, each notifying after its push. */
  function PushAll(tr: Trace, us: seq<PointUpdate>): (tr': Trace)
    requires tr.Valid()
    ensures tr'.Valid() && tr'.start == tr.start
    ensures tr'.now == tr.now.(
              queue := tr.now.queue + us, pushed := tr.now.pushed + us,
              flush := if us != [] && tr.now.flush == P.Sleeping then P.Locking else tr.now.flush)
    decreases us
  {
    if us == [] then tr
    else
      var next := Take(Take(tr, P.Push(us[0])), P.NotifyOne);
      assert tr.now.queue + [us[0]] + us[1..] == tr.now.queue + us;
      assert tr.now.pushed + [us[0]] + us[1..] == tr.now.pushed + us;
      PushAll(next, us[1..])
  }

  /** The controller gets through `stop` as far as the join. */
  function StopCalled(tr: Trace): (tr': Trace)
    requires tr.Valid() && (tr.now.control == P.Joining || (tr.now.control == P.Idle && tr.now.running))
    ensures tr'.Valid() && tr'.start == tr.start
    ensures tr.now.control == P.Joining ==> tr'.now == tr.now
    ensures tr.now.control == P.Idle ==>
      tr'.now == P.Wake(tr.now).(running := false, control := P.Joining, cleared := |tr.now.pushed|)
  {
    if tr.now.control == P.Joining then tr else Take(Take(tr, P.CallStop), P.NotifyAll)
  }

  /** Between sections of the flush loop: from no lock held, batch drained, to the lock being wanted again. */
  ghost predicate BetweenSections(tr: Trace, g: P.State) {
    && tr.Valid() && tr.start == g && tr.now.batch == []
    && (tr.now.flush == P.Locking || (tr.now.running && tr.now.flush == P.Sleeping))
    && tr.now.control == if tr.now.running then P.Idle else P.Joining
  }

  /** The producers push us, or stop is called, and the flush thread is awake afterwards. */
  function OthersRun(tr: Trace, us: seq<PointUpdate>, stop: bool): (tr': Trace)
    requires BetweenSections(tr, tr.start)
    ensures BetweenSections(tr', tr.start) && tr'.now.flush == P.Locking
    ensures tr'.now.queue == tr.now.queue + us && tr'.now.running == (tr.now.running && !stop)
    ensures tr'.now.filter == tr.now.filter && tr'.now.applied == tr.now.applied
  {
    var pushed := PushAll(tr, us);
    var stopped := if stop then StopCalled(pushed) else pushed;
    if stopped.now.flush == P.Sleeping then Take(stopped, P.SpuriousWake) else stopped
  }

  /** The flush thread drains its batch, one step per update. */
  function DrainAll(tr: Trace): (tr': Trace)
    requires tr.Valid() && tr.now.flush == P.Draining && tr.now.batch != []
    ensures tr'.Valid() && tr'.start == tr.start
    ensures tr'.now == tr.now.(
              batch := [], consumed := tr.now.consumed + tr.now.batch, flush := P.Locking,
              filter := After(tr.now.filter, tr.now.batch),
              applied := tr.now.applied + Stream(tr.now.filter, tr.now.batch))
    decreases |tr.now.batch|
  {
    var next := Take(tr, P.Drain);
    var b := tr.now.batch;
    assert tr.now.consumed + [b[0]] + b[1..] == tr.now.consumed + b;
    assert After(tr.now.filter, b) == After(next.now.filter, b[1..]);
    assert tr.now.applied + Stream(tr.now.filter, b) == next.now.applied + Stream(next.now.filter, b[1..]);
    if |b| == 1 then next else DrainAll(next)
  }

  /** The flush thread takes the lock once: it drains what it finds, sleeps, or ends. */
  function OneRound(tr: Trace): (tr': Trace)
    requires BetweenSections(tr, tr.start) && tr.now.flush == P.Locking
    ensures tr'.Valid() && tr'.start == tr.start
    ensures tr'.now.queue == [] && tr'.now.running == tr.now.running && tr'.now.control == tr.now.control
    ensures tr'.now.filter == After(tr.now.filter, tr.now.queue)
    ensures tr'.now.applied == tr.now.applied + Stream(tr.now.filter, tr.now.queue)
    ensures if tr.now.queue == [] && !tr.now.running then tr'.now.flush == P.Off else BetweenSections(tr', tr.start)
  {
    var checked := Take(tr, P.Check);
    if tr.now.queue == [] then checked else DrainAll(checked)
  }

  /** Arrivals, then one round. */
  function PushedRound(tr: Trace, us: seq<PointUpdate>): (tr': Trace)
    requires BetweenSections(tr, tr.start) && tr.now.running
    ensures BetweenSections(tr', tr.start) && tr'.start == tr.start && tr'.now.queue == [] && tr'.now.running
    ensures tr'.now.filter == After(tr.now.filter, tr.now.queue + us)
    ensures tr'.now.applied == tr.now.applied + Stream(tr.now.filter, tr.now.queue + us)
  {
    OneRound(OthersRun(tr, us, false))
  }

  /** Stop is called; the flush thread drains what is left and ends. */
  function StoppedRounds(tr: Trace): (tr': Trace)
    requires BetweenSections(tr, tr.start) && tr.now.running
    ensures tr'.Valid() && tr'.start == tr.start
    ensures tr'.now.queue == [] && !tr'.now.running && P.Next(tr'.now, P.Join).Some?
    ensures tr'.now.filter == After(tr.now.filter, tr.now.queue)
    ensures tr'.now.applied == tr.now.applied + Stream(tr.now.filter, tr.now.queue)
  {
    var stopped := OthersRun(tr, [], true);
    assert stopped.now.queue == tr.now.queue;
    var drained := OneRound(stopped);
    if tr.now.queue == [] then drained else Take(drained, P.Check)
  }

  /** tr is a run from g to a state where nothing is queued and `stop` can return, with this outstation. */
  ghost predicate EndsAfter(tr: Trace, g: P.State, filter: FilterState, applied: seq<Applied>) {
    && tr.Valid() && tr.start == g && tr.now.queue == [] && !tr.now.running && P.Next(tr.now, P.Join).Some?
    && tr.now.filter == filter && tr.now.applied == applied
  }

  /** The whole flush loop under a script of arrivals, followed by stop. */
  lemma {:induction false} LoopRun(tr: Trace, arrivals: seq<seq<PointUpdate>>, goal: FilterState, goalLog: seq<Applied>)
    returns (tr': Trace)
    requires BetweenSections(tr, tr.start) && tr.now.running
    requires Owes(tr.now.filter, tr.now.applied, tr.now.queue + Concat(arrivals), goal, goalLog)
    ensures EndsAfter(tr', tr.start, goal, goalLog)
    decreases arrivals
  {
    if arrivals == [] {
      assert tr.now.queue + Concat(arrivals) == tr.now.queue;
      tr' := StoppedRounds(tr);
    } else {
      var first, rest := tr.now.queue + arrivals[0], Concat(arrivals[1..]);
      assert tr.now.queue + Concat(arrivals) == first + rest;
      PaidOff(tr.now.filter, tr.now.applied, first, rest, goal, goalLog);
      var pushed := PushedRound(tr, arrivals[0]);
      assert pushed.now.queue + rest == rest;
      tr' := LoopRun(pushed, arrivals[1..], goal, goalLog);
    }
  }

  class Bridge {
    const outstation: OutstationManager
    var queue: seq<PointUpdate>
    var running: bool

    constructor (outstation: OutstationManager)
      ensures this.outstation == outstation && queue == [] && !running
    {
      this.outstation := outstation;
      queue, running := [], false;
    }

    /** The object looks like protocol state g. */
    ghost predicate Shows(g: P.State)
      reads this, outstation
    {
      && g.queue == queue && g.running == running
      && g.filter == outstation.Filter() && g.applied == outstation.applied
    }

    method ApplyUpdate(update: PointUpdate)
      modifies this`queue
      ensures queue == old(queue) + [update]
      ensures forall g :: old(Shows(g)) ==> Shows(P.Next(g, P.Push(update)).value)
    {
      queue := queue + [update];
    }

    /** The critical section of `start`; the flush thread is launched when it answers true. */
    method BeginStart() returns (launch: bool)
      modifies this`running
      ensures running && launch == !old(running)
      ensures forall g :: old(Shows(g)) && g.control == P.Idle ==>
        var t := P.Next(g, P.CallStart).value;
        Shows(t) && (launch <==> t.control == P.Launching)
    {
      if running { return false; }
      running := true;
      return true;
    }

    /** The critical section of `stop`; the flush thread is joined when it answers true. */
    method BeginStop() returns (join: bool)
      modifies this`running
      ensures !running && join == old(running)
      ensures forall g :: old(Shows(g)) && g.control == P.Idle ==>
        var t := P.Next(g, P.CallStop).value;
        Shows(t) && (join <==> t.control == P.Notifying)
    {
      if !running { return false; }
      running := false;
      return true;
    }

    /** Applies one swapped-out batch, front to back, outside the lock. */
    method DrainBatch(batch: seq<PointUpdate>)
      modifies outstation
      ensures outstation.Filter() == After(old(outstation.Filter()), batch)
      ensures outstation.applied == old(outstation.applied) + Stream(old(outstation.Filter()), batch)
    {
      var rest := batch;
      while rest != []
        invariant After(old(outstation.Filter()), batch) == After(outstation.Filter(), rest)
        invariant old(outstation.applied) + Stream(old(outstation.Filter()), batch)
               == outstation.applied + Stream(outstation.Filter(), rest)
      {
        outstation.Update(rest[0]);
        rest := rest[1..];
      }
    }

    /**
     `flushLoop`. Before the loop takes the lock for the k-th time the producers
     push arrivals[k]; once the script is used up, `stop` clears `running_`.
     Whatever cuts that produces, the outstation sees the pure filter folded
     over everything queued, in push order, and nothing is left behind.
     */
    method FlushLoop(arrivals: seq<seq<PointUpdate>>)
      requires running
      modifies this`queue, this`running, outstation
      ensures !running && queue == []
      ensures outstation.Filter() == After(old(outstation.Filter()), old(queue) + Concat(arrivals))
      ensures outstation.applied
           == old(outstation.applied) + Stream(old(outstation.Filter()), old(queue) + Concat(arrivals))
    {
      var pending := arrivals;
      ghost var goal := After(outstation.Filter(), queue + Concat(arrivals));
      ghost var goalLog := outstation.applied + Stream(outstation.Filter(), queue + Concat(arrivals));
      while true
        invariant !running ==> pending == []
        invariant Owes(outstation.Filter(), outstation.applied, queue + Concat(pending), goal, goalLog)
        decreases |pending|, running, |queue|
      {
        // Other threads.
        if pending != [] {
          assert queue + Concat(pending) == (queue + pending[0]) + Concat(pending[1..]);
          queue := queue + pending[0];
          pending := pending[1..];
        } else {
          running := false;
        }
        // cv_.wait: asleep until there is work or the bridge is stopping.
        if running && queue == [] { continue; }
        if !running && queue == [] {
          assert queue + Concat(pending) == [];
          return;
        }
        var batch := queue;
        queue := [];
        PaidOff(outstation.Filter(), outstation.applied, batch, Concat(pending), goal, goalLog);
        DrainBatch(batch);
        assert queue + Concat(pending) == Concat(pending);
      }
    }

    /**
     The same loop, seen from the protocol: from any state g that the object
     shows with the flush thread at its lock, what `FlushLoop` does is the effect
     of a protocol run that ends where `stop` can return.
     */
    method FlushLoopIsARun(arrivals: seq<seq<PointUpdate>>, ghost g: P.State) returns (ghost tr: Trace)
      requires running
      requires Shows(g) && g.flush == P.Locking && g.control == P.Idle && g.batch == []
      modifies this`queue, this`running, outstation
      ensures tr.Valid() && tr.start == g && Shows(tr.now) && P.Next(tr.now, P.Join).Some?
    {
      tr := LoopRun(Trace(g, [], g), arrivals, After(g.filter, g.queue + Concat(arrivals)),
                    g.applied + Stream(g.filter, g.queue + Concat(arrivals)));
      FlushLoop(arrivals);
    }
  }
}
