/** Deadlock freedom and termination of the command protocol, treating `Write` as a step that finishes. */
module CommandProgress {
  import opened Wrappers
  import opened CommandMemory
  import opened CommandProtocol
  import opened CommandInvariant
  import opened CommandTheorems

  /** Some resolution of thread i's next step is enabled. */
  ghost predicate CanStep(s: State, i: nat) {
    exists c: Choice :: Next(s, Step(i, c)).Some?
  }

  predicate Finished(th: Thread) {
    match th
    case Dispatching(_, pc) => pc.Returned?
    case Fulfilling(_, _, stage) => stage.Answered?
    case Registering(_, section) => section == Done
    case Releasing(_, section) => section == Done
  }

  predicate WantsPending(th: Thread) {
    match th
    case Dispatching(_, pc) => pc == Allocated || pc.Leaving?
    case Fulfilling(_, _, stage) => stage == Called
    case _ => false
  }

  predicate WantsWriter(th: Thread) {
    match th
    case Dispatching(_, pc) => pc == Installed
    case Registering(_, section) => section == Wanting
    case Releasing(_, section) => section == Wanting
    case _ => false
  }

  /** A thread that is not waiting for a held lock can step. */
  lemma UnblockedCanStep(s: State, i: nat)
    requires Inv(s) && i < |s.threads| && !Finished(s.threads[i])
    requires WantsPending(s.threads[i]) ==> s.pendingLock.None?
    requires WantsWriter(s.threads[i]) ==> s.writerLock.None?
    ensures CanStep(s, i)
  {
    match s.threads[i]
    case Dispatching(id, pc) => DispatchCanStep(s, i, id, pc);
    case _ => assert Next(s, Step(i, Go)).Some?;
  }

  lemma DispatchCanStep(s: State, i: nat, id: nat, pc: DispatchPc)
    requires Ids(s) && Calls(s) && i < |s.threads| && s.threads[i] == Dispatching(id, pc) && !pc.Returned?
    requires pc == Allocated || pc.Leaving? ==> s.pendingLock.None?
    requires pc == Installed ==> s.writerLock.None?
    ensures CanStep(s, i)
  {
    if pc.Writing? {
      assert Next(s, Step(i, WriteThrows)).Some?;
    } else if pc == Waiting && !Ready(s.mem, id) {
      assert Next(s, Step(i, TimerFires)).Some?;
    } else {
      assert pc.Erasing? ==> CallOk(s.threads[s.owner[id]].pc, SliceOf(s, id));
      assert Next(s, Step(i, Go)).Some?;
    }
  }

  /**
   Locks nest only one way: nobody who waits for writer_mutex_ holds a lock,
   nobody who waits for pending_mutex_ holds it, and nobody waits on a future
   holding either.
   */
  lemma LockOrder(s: State, i: nat)
    requires Reachable(s) && i < |s.threads|
    ensures WantsWriter(s.threads[i]) ==> s.writerLock != Some(i) && s.pendingLock != Some(i)
    ensures WantsPending(s.threads[i]) ==> s.pendingLock != Some(i)
    ensures IsCall(s, i) && s.threads[i].pc == Waiting ==> s.writerLock != Some(i) && s.pendingLock != Some(i)
  {
    ReachableInv(s);
  }

  /**
   Deadlock freedom: the holder of pending_mutex_ can always step; so can the
   holder of writer_mutex_ unless it waits for pending_mutex_; and while any
   thread is unfinished, some thread can step.
   */
  lemma DeadlockFree(s: State)
    requires Reachable(s)
    ensures s.pendingLock.Some? ==> CanStep(s, s.pendingLock.value)
    ensures s.writerLock.Some? && s.pendingLock.None? ==> CanStep(s, s.writerLock.value)
    ensures (exists i: nat :: i < |s.threads| && !Finished(s.threads[i])) ==> exists j: nat :: CanStep(s, j)
  {
    ReachableInv(s);
    if s.pendingLock.Some? {
      assert HoldsPending(s.threads[s.pendingLock.value]);
      UnblockedCanStep(s, s.pendingLock.value);
    } else if s.writerLock.Some? {
      assert HoldsWriter(s.threads[s.writerLock.value]);
      UnblockedCanStep(s, s.writerLock.value);
    } else if exists i: nat :: i < |s.threads| && !Finished(s.threads[i]) {
      var i: nat :| i < |s.threads| && !Finished(s.threads[i]);
      UnblockedCanStep(s, i);
    }
  }

  // -------------------------------------------------------------------------
  // A decreasing measure
  // -------------------------------------------------------------------------

  function SectionRank(p: SectionPc): nat {
    match p case Wanting => 2 case Holding => 1 case Done => 0
  }

  /** An upper bound on the steps a thread still takes. */
  function Rank(th: Thread): nat {
    match th
    case Dispatching(_, pc) => (
      match pc
      case Entered => 9
      case Allocated => 8
      case Installing => 7
      case Installed => 6
      case Checking => 5
      case Writing(_) => 4
      case Waiting => 3
      case Leaving(_) => 2
      case Erasing(_) => 1
      case Returned(_, _) => 0)
    case Fulfilling(_, _, stage) =>
      if stage == Called then 3 else if stage == Searching then 2 else if stage == Settling then 1 else 0
    case Registering(_, section) => SectionRank(section)
    case Releasing(_, section) => SectionRank(section)
  }

  function Work(ths: seq<Thread>): nat {
    if ths == [] then 0 else Rank(ths[0]) + Work(ths[1..])
  }

  lemma {:induction false} WorkUpdate(ths: seq<Thread>, i: nat, th: Thread)
    requires i < |ths|
    ensures Work(ths[i := th]) == Work(ths) - Rank(ths[i]) + Rank(th)
  {
    if i == 0 {
      assert ths[0 := th][1..] == ths[1..];
    } else {
      assert ths[i := th][1..] == ths[1..][i - 1 := th];
      WorkUpdate(ths[1..], i - 1, th);
    }
  }

  lemma {:induction false} NoWorkMeansFinished(ths: seq<Thread>)
    ensures Work(ths) == 0 <==> forall i :: 0 <= i < |ths| ==> Finished(ths[i])
  {
    if ths != [] {
      NoWorkMeansFinished(ths[1..]);
      assert forall i :: 0 < i < |ths| ==> ths[i] == ths[1..][i - 1];
      if Work(ths) != 0 && Finished(ths[0]) {
        var i :| 0 <= i < |ths| - 1 && !Finished(ths[1..][i]);
        assert !Finished(ths[i + 1]);
      }
    }
  }

  lemma StepLowersRank(s: State, i: nat, c: Choice, t: State)
    requires Ids(s) && Calls(s) && Next(s, Step(i, c)) == Some(t)
    ensures OneMoved(s, t, i) && Rank(t.threads[i]) < Rank(s.threads[i])
  {
    if s.threads[i].Dispatching? {
      DispatchFrame(s, i, c, t);
      NeverReadsBroken(s, i);
      if IsEarly(s.threads[i].pc) { EarlyLowersRank(s, i, c, t); } else { LateLowersRank(s, i, c, t); }
    } else if s.threads[i].Fulfilling? {
      FulfilFrame(s, i, c, t);
      FulfilLowersRank(s, i, c, t);
    } else {
      WriterFrame(s, i, c, t);
      WriterLowersRank(s, i, c, t);
    }
  }

  lemma EarlyLowersRank(s: State, i: nat, c: Choice, t: State)
    requires IsCall(s, i) && EarlyStep(s, i, c) == Some(t)
    ensures i < |t.threads| && Rank(t.threads[i]) < Rank(s.threads[i])
  {
  }

  lemma LateLowersRank(s: State, i: nat, c: Choice, t: State)
    requires IsCall(s, i) && LateStep(s, i, c) == Some(t)
    requires s.threads[i].pc == Waiting ==> SharedOf(s.mem, s.threads[i].id) != Broken
    ensures i < |t.threads| && Rank(t.threads[i]) < Rank(s.threads[i])
  {
  }

  lemma FulfilLowersRank(s: State, i: nat, c: Choice, t: State)
    requires i < |s.threads| && s.threads[i].Fulfilling? && FulfilStep(s, i, c) == Some(t)
    ensures i < |t.threads| && Rank(t.threads[i]) < Rank(s.threads[i])
  {
  }

  lemma WriterLowersRank(s: State, i: nat, c: Choice, t: State)
    requires i < |s.threads| && (s.threads[i].Registering? || s.threads[i].Releasing?) && ThreadStep(s, i, c) == Some(t)
    ensures i < |t.threads| && Rank(t.threads[i]) < Rank(s.threads[i])
  {
  }

  predicate OnlySteps(actions: seq<Action>) {
    forall k :: 0 <= k < |actions| ==> actions[k].Step?
  }

  lemma {:induction false} RunsAreBounded(s: State, actions: seq<Action>, t: State)
    requires Inv(s) && OnlySteps(actions) && Run(s, actions) == Some(t)
    ensures |actions| + Work(t.threads) <= Work(s.threads)
    decreases actions
  {
    if actions != [] {
      var m := Next(s, actions[0]).value;
      var i := actions[0].thread;
      StepLowersRank(s, i, actions[0].choice, m);
      WorkUpdate(s.threads, i, m.threads[i]);
      StepKeepsInv(s, actions[0], m);
      RunsAreBounded(m, actions[1..], t);
    }
  }

  /**
   Progress: from any reachable state the threads already in the dispatcher can
   take at most Work more steps, and where none of them can step all have
   finished, every dispatch has returned, the pending table is empty and both
   locks are free.
   */
  lemma EveryDispatchReturns(s: State, more: seq<Action>, t: State)
    requires Reachable(s) && OnlySteps(more) && Run(s, more) == Some(t)
    ensures |more| <= Work(s.threads)
    ensures (forall i: nat :: !CanStep(t, i)) ==>
      && (forall i: nat :: i < |t.threads| ==> Finished(t.threads[i]))
      && t.mem.pending == {} && t.writerLock == None && t.pendingLock == None
  {
    ReachableInv(s);
    RunsAreBounded(s, more, t);
    ReachableOn(s, more, t);
    if forall i: nat :: !CanStep(t, i) {
      StuckMeansDone(t);
    }
  }

  lemma StuckMeansDone(t: State)
    requires Reachable(t) && forall i: nat :: !CanStep(t, i)
    ensures forall i: nat :: i < |t.threads| ==> Finished(t.threads[i])
    ensures t.mem.pending == {} && t.writerLock == None && t.pendingLock == None
  {
    DeadlockFree(t);
    PendingIsExact(t);
  }

  /**
   Released exactly once: when every token has been destroyed or disarmed and
   the threads have run to completion, every registration ever made has been
   released, and released once.
   */
  lemma ReleasedExactlyOnce(s: State)
    requires Reachable(s)
    requires forall t :: 0 <= t < |s.tokens| ==> s.tokens[t] == None
    requires forall i: nat :: !CanStep(s, i)
    ensures forall r :: 0 <= r < |s.regs| ==> s.regs[r].holder == Released && s.regs[r].releases == 1
  {
    ReachableInv(s);
    DeadlockFree(s);
    forall r | 0 <= r < |s.regs| ensures s.regs[r].holder == Released && s.regs[r].releases == 1 {
      assert HeldOnce(s, r);
    }
  }
}
