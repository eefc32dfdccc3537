/** The dispatcher object and the protocol tell the same story: a scripted `Dispatch` is a protocol run. */
module CommandRuns {
  import opened Wrappers
  import opened CommandMemory
  import opened CommandProtocol
  import opened CommandInvariant
  import opened CommandTheorems
  import D = CommandDispatcher

  lemma ReachesOn(g: State, s: State)
    requires Reachable(g) && Reaches(g, s)
    ensures Reachable(s)
  {
    var more :| Run(g, more) == Some(s);
    ReachableOn(g, more, s);
  }

  lemma ReachableSound(s: State)
    requires Reachable(s) && s.pendingLock.None?
    ensures D.Sound(s.mem)
  {
    ReachableInv(s);
    forall id | id in s.mem.pending ensures id < s.mem.nextId && id in s.mem.shared && s.mem.shared[id] == Unset {
      PendingIsUnset(s, id);
    }
  }

  lemma PendingIsUnset(s: State, id: nat)
    requires Ids(s) && Domains(s) && Settles(s) && Calls(s) && id in s.mem.pending && s.pendingLock.None?
    ensures id < s.mem.nextId && id in s.mem.shared && s.mem.shared[id] == Unset
  {
    assert CallOk(s.threads[s.owner[id]].pc, SliceOf(s, id));
  }

  /** A state of a run from g in which dispatch i is between sections and no other thread holds a lock. */
  ghost predicate Paused(g: State, s: State, i: nat) {
    && Reachable(g) && Reaches(g, s)
    && IsCall(s, i) && s.threads[i].pc != Entered
    && s.pendingLock.None? && (s.writerLock.None? || s.writerLock == Some(i))
  }

  /** Other threads got on from s to t without touching dispatch i. */
  ghost predicate Beside(g: State, s: State, t: State, i: nat) {
    Paused(g, s, i) && Paused(g, t, i) && t.threads[i] == s.threads[i] && t.writerLock == s.writerLock
  }

  // -------------------------------------------------------------------------
  // Each of the other threads' sections
  // -------------------------------------------------------------------------

  lemma RespondIsARun(g: State, s: State, i: nat, id: nat, status: CommandStatus) returns (t: State)
    requires Paused(g, s, i)
    ensures Beside(g, s, t, i) && t.mem == Resolve(s.mem, id, status)
  {
    ReachesOn(g, s);
    ReachableSound(s);
    var j := |s.threads|;
    t := Then(g, s, CallFulfil(id, status));
    t := Then(g, t, Step(j, Go));
    t := Then(g, t, Step(j, Go));
    if id in s.mem.pending {
      t := Then(g, t, Step(j, Go));
    }
  }

  lemma OpenIsARun(g: State, s: State, i: nat, w: Writer) returns (t: State)
    requires Paused(g, s, i) && s.writerLock.None?
    ensures Beside(g, s, t, i) && t.mem == SetWriter(s.mem, w)
  {
    var j := |s.threads|;
    t := Then(g, s, CallRegister(w));
    t := Then(g, t, Step(j, Go));
    t := Then(g, t, Step(j, Go));
  }

  /** Thread j is a release of the latest registration that has not taken the lock yet. */
  predicate AboutToRelease(s: State, j: nat) {
    j < |s.threads| && s.regs != [] && s.threads[j] == Releasing(|s.regs| - 1, Wanting)
  }

  /** The active writer is registered by an armed token, or its release has begun. */
  lemma ActiveIsHeld(s: State)
    requires Locks(s) && Holders(s) && ActiveIsLatest(s) && s.mem.active.Some? && s.writerLock.None?
    ensures s.regs != [] && s.regs[|s.regs| - 1].writer == s.mem.active.value
    ensures match s.regs[|s.regs| - 1].holder
            case InToken(k) => k < |s.tokens| && s.tokens[k] == Some(|s.regs| - 1)
            case InRelease(j) => AboutToRelease(s, j)
            case Released => false
  {
    var r := |s.regs| - 1;
    assert HeldOnce(s, r);
    if s.regs[r].holder.InRelease? {
      assert !HoldsWriter(s.threads[s.regs[r].holder.thread]);
    }
  }

  lemma ReachableActiveIsHeld(s: State)
    requires Reachable(s) && s.mem.active.Some? && s.writerLock.None?
    ensures s.regs != [] && s.regs[|s.regs| - 1].writer == s.mem.active.value
    ensures match s.regs[|s.regs| - 1].holder
            case InToken(k) => k < |s.tokens| && s.tokens[k] == Some(|s.regs| - 1)
            case InRelease(j) => AboutToRelease(s, j)
            case Released => false
  {
    ReachableInv(s);
    ActiveIsHeld(s);
  }

  lemma BeginToRelease(g: State, s: State, i: nat) returns (t: State, j: nat)
    requires Paused(g, s, i) && s.writerLock.None? && s.mem.active.Some?
    ensures Beside(g, s, t, i) && t.mem == s.mem
    ensures AboutToRelease(t, j) && t.regs[|t.regs| - 1].writer == s.mem.active.value
  {
    ReachesOn(g, s);
    ReachableActiveIsHeld(s);
    var holder := s.regs[|s.regs| - 1].holder;
    if holder.InToken? {
      j := |s.threads|;
      t := Then(g, s, Destroy(holder.token));
    } else {
      t, j := s, holder.thread;
    }
  }

  lemma CloseIsARun(g: State, s: State, i: nat, w: Writer) returns (t: State)
    requires Paused(g, s, i) && s.writerLock.None?
    ensures Beside(g, s, t, i) && t.mem == ClearWriter(s.mem, w)
  {
    t := s;
    if s.mem.active == Some(w) {
      var j;
      t, j := BeginToRelease(g, t, i);
      t := Then(g, t, Step(j, Go));
      t := Then(g, t, Step(j, Go));
    }
  }

  lemma InstallIsARun(g: State, s: State, i: nat) returns (t: State)
    requires Paused(g, s, i)
    ensures Beside(g, s, t, i) && t.mem == Install(TakeId(s.mem), s.mem.nextId)
  {
    var j := |s.threads|;
    t := Then(g, s, CallDispatch);
    t := Then(g, t, Step(j, Go));
    t := Then(g, t, Step(j, Go));
    t := Then(g, t, Step(j, Go));
  }

  /** With no lock held, the dispatch of a pending id wants a lock or waits for an answer. */
  lemma PendingCallIsOutside(s: State, id: nat)
    requires Locks(s) && Ids(s) && Domains(s) && Settles(s) && Calls(s) && id in s.mem.pending
    requires s.pendingLock.None? && s.writerLock.None?
    ensures id in s.owner && IsCall(s, s.owner[id]) && s.threads[s.owner[id]].id == id
    ensures s.threads[s.owner[id]].pc in {Installed, Waiting, Leaving(TimedOut)}
    ensures !Ready(s.mem, id)
  {
    var k := s.owner[id];
    assert CallOk(s.threads[k].pc, SliceOf(s, id));
    assert !HoldsWriter(s.threads[k]) && !HoldsPending(s.threads[k]);
  }

  lemma ReachablePendingCall(s: State, id: nat) returns (k: nat)
    requires Reachable(s) && id in s.mem.pending && s.pendingLock.None? && s.writerLock.None?
    ensures IsCall(s, k) && s.threads[k].id == id && s.threads[k].pc in {Installed, Waiting, Leaving(TimedOut)}
    ensures !Ready(s.mem, id)
  {
    ReachableInv(s);
    PendingCallIsOutside(s, id);
    k := s.owner[id];
  }

  /** A dispatch that wants writer_mutex_ or waits gets to its erase section if its write throws or its timer fires. */
  lemma BeginToErase(g: State, s: State, k: nat) returns (t: State, e: Exit)
    requires Reaches(g, s) && IsCall(s, k) && s.threads[k].pc in {Installed, Waiting, Leaving(TimedOut)}
    requires !Ready(s.mem, s.threads[k].id) && s.pendingLock.None? && s.writerLock.None?
    ensures Reaches(g, t) && e != Future && t.threads == s.threads[k := Dispatching(s.threads[k].id, Leaving(e))]
    ensures t.mem == s.mem && t.pendingLock.None? && t.writerLock == if e == TimedOut then None else Some(k)
  {
    t, e := s, TimedOut;
    if s.threads[k].pc == Installed {
      t := Then(g, t, Step(k, Go));
      t := Then(g, t, Step(k, Go));
      e := NoWriter;
      if s.mem.active.Some? {
        t := Then(g, t, Step(k, WriteThrows));
        e := WriteThrew;
      }
    } else if s.threads[k].pc == Waiting {
      t := Then(g, t, Step(k, TimerFires));
    }
  }

  lemma EraseIsARun(g: State, s: State, i: nat, id: nat) returns (t: State)
    requires Paused(g, s, i) && s.writerLock.None? && id != s.threads[i].id
    ensures Beside(g, s, t, i) && t.mem == Erase(s.mem, id)
  {
    t := s;
    if id in s.mem.pending {
      ReachesOn(g, s);
      var k := ReachablePendingCall(s, id);
      var e;
      t, e := BeginToErase(g, t, k);
      t := Then(g, t, Step(k, Go));
      t := Then(g, t, Step(k, Go));
    }
  }

  /** Sections that need neither writer_mutex_ nor another dispatch to get past it. */
  predicate Unhindered(o: D.Other) {
    o.Respond? || o.OtherInstalls?
  }

  /** What other threads can do while a dispatch that has taken writer_mutex_ holds it. */
  predicate AllUnhindered(others: seq<D.Other>) {
    forall o :: o in others ==> Unhindered(o)
  }

  lemma OtherIsARun(g: State, s: State, i: nat, o: D.Other) returns (t: State)
    requires Paused(g, s, i) && D.Spares([o], s.threads[i].id) && (Unhindered(o) || s.writerLock.None?)
    ensures Beside(g, s, t, i) && t.mem == D.Interfere(s.mem, o)
  {
    assert o in [o];
    match o
    case Respond(id, status) => t := RespondIsARun(g, s, i, id, status);
    case OpenStream(w) => t := OpenIsARun(g, s, i, w);
    case CloseStream(w) => t := CloseIsARun(g, s, i, w);
    case OtherInstalls => t := InstallIsARun(g, s, i);
    case OtherErases(id) => t := EraseIsARun(g, s, i, id);
  }

  lemma {:induction false} OthersAreARun(g: State, s: State, i: nat, others: seq<D.Other>) returns (t: State)
    requires Paused(g, s, i) && D.Spares(others, s.threads[i].id) && (AllUnhindered(others) || s.writerLock.None?)
    ensures Beside(g, s, t, i) && t.mem == D.After(s.mem, others)
    decreases others
  {
    t := s;
    if others != [] {
      assert others[0] in others;
      t := OtherIsARun(g, s, i, others[0]);
      t := OthersAreARun(g, t, i, others[1..]);
    }
  }

  // -------------------------------------------------------------------------
  // The dispatch itself
  // -------------------------------------------------------------------------

  /** While the dispatch holds writer_mutex_ no stream opens or closes and no other dispatch gets past its write. */
  predicate Feasible(m: Memory, sc: D.Script) {
    var found := D.AtCheck(TakeId(m), sc).active;
    && (found.Some? ==> AllUnhindered(sc.duringWrite))
    && (found.None? || sc.write != D.Wrote ==> AllUnhindered(sc.beforeErase))
  }

  /** Dispatch i of this id has returned with the script's ending, and both locks are free. */
  ghost predicate Over(g: State, t: State, i: nat, id: nat, end: D.Ending) {
    && Paused(g, t, i) && t.writerLock.None? && t.mem == end.mem
    && t.threads[i].id == id && t.threads[i].pc.Returned? && t.threads[i].pc.result == end.result
  }

  lemma LeavingIsARun(g: State, s: State, i: nat, others: seq<D.Other>, e: Exit) returns (t: State)
    requires Paused(g, s, i) && D.Spares(others, s.threads[i].id) && (AllUnhindered(others) || s.writerLock.None?)
    requires s.threads[i].pc == Leaving(e) && e != Future && (e == TimedOut ==> s.writerLock.None?)
    ensures Over(g, t, i, s.threads[i].id, D.Ending(Erase(D.After(s.mem, others), s.threads[i].id), ExitStatus(e)))
  {
    t := OthersAreARun(g, s, i, others);
    t := Then(g, t, Step(i, Go));
    t := Then(g, t, Step(i, Go));
  }

  lemma WaitingIsARun(g: State, s: State, i: nat, sc: D.Script) returns (t: State)
    requires Paused(g, s, i) && s.writerLock.None? && s.threads[i].pc == Waiting
    requires sc.Possible(s.threads[i].id) && sc.write == D.Wrote
    ensures var id, waited := s.threads[i].id, D.After(s.mem, sc.untilTimeout);
            && SharedOf(waited, id) != Broken
            && Over(g, t, i, id, if SharedOf(waited, id).Value? then D.Ending(waited, SharedOf(waited, id).status)
                                 else D.Ending(Erase(D.After(waited, sc.beforeErase), id), TIMEOUT))
  {
    var id := s.threads[i].id;
    t := OthersAreARun(g, s, i, sc.untilTimeout);
    ReachesOn(g, t);
    ReachableCall(t, i);
    if SharedOf(t.mem, id) == Unset {
      t := Then(g, t, Step(i, TimerFires));
      t := LeavingIsARun(g, t, i, sc.beforeErase, TimedOut);
    } else {
      t := Then(g, t, Step(i, Go));
    }
  }

  lemma WrittenIsARun(g: State, s: State, i: nat, sc: D.Script) returns (t: State)
    requires Paused(g, s, i) && s.threads[i].pc.Writing? && sc.Possible(s.threads[i].id)
    requires sc.write != D.Wrote ==> AllUnhindered(sc.beforeErase)
    ensures Over(g, t, i, s.threads[i].id, D.EndsFromWrite(s.mem, sc, s.threads[i].id))
  {
    match sc.write
    case Wrote =>
      t := Then(g, s, Step(i, WriteReturns(true)));
      t := WaitingIsARun(g, t, i, sc);
    case ReturnedFalse =>
      t := Then(g, s, Step(i, WriteReturns(false)));
      t := LeavingIsARun(g, t, i, sc.beforeErase, WriteFalse);
    case Threw =>
      t := Then(g, s, Step(i, WriteThrows));
      t := LeavingIsARun(g, t, i, sc.beforeErase, WriteThrew);
  }

  lemma CheckIsARun(g: State, s: State, i: nat, sc: D.Script) returns (t: State)
    requires Paused(g, s, i) && s.writerLock.None? && s.threads[i].pc == Installed && sc.Possible(s.threads[i].id)
    requires s.mem.active.Some? ==> AllUnhindered(sc.duringWrite)
    requires s.mem.active.None? || sc.write != D.Wrote ==> AllUnhindered(sc.beforeErase)
    ensures Over(g, t, i, s.threads[i].id, D.EndsFromCheck(s.mem, sc, s.threads[i].id))
  {
    t := Then(g, s, Step(i, Go));
    t := Then(g, t, Step(i, Go));
    if s.mem.active.None? {
      t := LeavingIsARun(g, t, i, sc.beforeErase, NoWriter);
    } else {
      t := OthersAreARun(g, t, i, sc.duringWrite);
      t := WrittenIsARun(g, t, i, sc);
    }
  }

  /** Installing the entry does not change which writer is found at the check. */
  lemma SameWriterFound(m: Memory, sc: D.Script)
    requires D.Sound(m) && sc.Possible(m.nextId)
    ensures D.After(Install(D.After(TakeId(m), sc.beforeInstall), m.nextId), sc.beforeWriter).active
         == D.AtCheck(TakeId(m), sc).active
  {
    var id, before := m.nextId, D.After(TakeId(m), sc.beforeInstall);
    D.FirstResponseSettles(TakeId(m), sc.beforeInstall, id);
    D.OthersKeepSameBut(Install(before, id), before, sc.beforeWriter, id);
    D.AfterJoin(TakeId(m), sc.beforeInstall, sc.beforeWriter);
  }

  /**
   From any reachable state with both locks free, every feasible script of a
   dispatch is played by a run of the protocol: a new dispatch thread takes the
   next id and returns what the object's `Dispatch` returns, and the shared
   memory ends as the object's does.
   */
  lemma ScriptIsARun(g: State, sc: D.Script) returns (t: State)
    requires Reachable(g) && g.writerLock.None? && g.pendingLock.None?
    requires sc.Possible(g.mem.nextId) && Feasible(g.mem, sc)
    ensures Over(g, t, |g.threads|, g.mem.nextId, D.Ends(g.mem, sc))
  {
    var i := |g.threads|;
    ReachableSound(g);
    SameWriterFound(g.mem, sc);
    assert Run(g, []) == Some(g);
    t := Then(g, g, CallDispatch);
    t := Then(g, t, Step(i, Go));
    t := OthersAreARun(g, t, i, sc.beforeInstall);
    t := Then(g, t, Step(i, Go));
    t := Then(g, t, Step(i, Go));
    t := OthersAreARun(g, t, i, sc.beforeWriter);
    t := CheckIsARun(g, t, i, sc);
  }

  /** `Dispatch` on an object that shows protocol state g: its effect and its answer are those of a protocol run. */
  method DispatchIsARun(dispatcher: D.CommandDispatcher, sc: D.Script, ghost g: State)
    returns (result: CommandStatus, ghost t: State)
    requires Reachable(g) && g.writerLock.None? && g.pendingLock.None? && g.mem == dispatcher.View()
    requires sc.Possible(g.mem.nextId) && Feasible(g.mem, sc)
    modifies dispatcher
    ensures Over(g, t, |g.threads|, g.mem.nextId, D.Ending(dispatcher.View(), result))
  {
    ReachableSound(g);
    t := ScriptIsARun(g, sc);
    result := dispatcher.Dispatch(sc);
  }
}
