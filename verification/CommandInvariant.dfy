/** The inductive invariant of the command protocol, and that every step keeps it. */
module CommandInvariant {
  import opened Wrappers
  import opened CommandMemory
  import opened CommandProtocol

  // -------------------------------------------------------------------------
  // Locks
  // -------------------------------------------------------------------------

  ghost predicate HoldsPending(th: Thread) {
    match th
    case Dispatching(_, pc) => pc == Installing || pc.Erasing?
    case Fulfilling(_, _, stage) => stage == Searching || stage == Settling
    case _ => false
  }

  ghost predicate HoldsWriter(th: Thread) {
    match th
    case Dispatching(_, pc) =>
      pc == Checking || pc.Writing? || ((pc.Leaving? || pc.Erasing?) && pc.exit != TimedOut)
    case Registering(_, section) => section == Holding
    case Releasing(_, section) => section == Holding
    case Fulfilling(_, _, _) => false
  }

  /** Each mutex is held by exactly the thread whose program counter says so. */
  ghost predicate Locks(s: State) {
    && (s.writerLock.Some? ==> s.writerLock.value < |s.threads|)
    && (s.pendingLock.Some? ==> s.pendingLock.value < |s.threads|)
    && (forall i :: 0 <= i < |s.threads| ==> (s.writerLock == Some(i) <==> HoldsWriter(s.threads[i])))
    && (forall i :: 0 <= i < |s.threads| ==> (s.pendingLock == Some(i) <==> HoldsPending(s.threads[i])))
  }

  // -------------------------------------------------------------------------
  // Command ids
  // -------------------------------------------------------------------------

  /** The issued ids are 1 .. nextId - 1, each belonging to one dispatch. */
  ghost predicate Ids(s: State) {
    && s.mem.nextId >= 1
    && (forall id :: id in s.owner <==> 1 <= id < s.mem.nextId)
    && (forall id :: id in s.owner ==>
          && s.owner[id] < |s.threads|
          && s.threads[s.owner[id]].Dispatching? && s.threads[s.owner[id]].id == id
          && s.threads[s.owner[id]].pc != Entered)
    && (forall i :: 0 <= i < |s.threads| && s.threads[i].Dispatching? && s.threads[i].pc != Entered ==>
          s.threads[i].id in s.owner && s.owner[s.threads[i].id] == i)
  }

  /** Nothing is recorded about an id that has not been issued. */
  ghost predicate Domains(s: State) {
    && !s.mem.fault
    && (forall id :: id in s.mem.pending ==> id in s.owner)
    && (forall id :: id in s.mem.shared ==> id in s.owner)
    && (forall id :: id in s.fulfilled ==> id in s.owner)
    && (forall id :: id in s.wrote ==> id in s.owner)
    && (s.settling.Some? ==> s.settling.value in s.owner)
  }

  /** An id is settling exactly while a fulfil that holds pending_mutex_ is between its two steps on it. */
  ghost predicate Settles(s: State) {
    && (s.settling.Some? ==>
          && s.pendingLock.Some? && s.pendingLock.value < |s.threads|
          && IsSettling(s.threads[s.pendingLock.value], s.settling.value))
    && (forall i :: 0 <= i < |s.threads| && s.threads[i].Fulfilling? && s.threads[i].stage == Settling ==>
          s.settling == Some(s.threads[i].id))
  }

  ghost predicate IsSettling(th: Thread, id: nat) {
    th.Fulfilling? && th.stage == Settling && th.id == id
  }

  // -------------------------------------------------------------------------
  // One dispatch
  // -------------------------------------------------------------------------

  /** Everything the state says about one id. */
  datatype Slice = Slice(
    pending: bool, shared: Option<SharedState>, fulfilled: Option<Fulfilment>, wrote: bool, settling: bool)

  function SliceOf(s: State, id: nat): Slice {
    Slice(id in s.mem.pending,
          if id in s.mem.shared then Some(s.mem.shared[id]) else None,
          if id in s.fulfilled then Some(s.fulfilled[id]) else None,
          id in s.wrote,
          s.settling == Some(id))
  }

  /** Between install and erase: the entry is there while the promise is unset, and until a fulfil has erased it. */
  ghost predicate Open(sl: Slice) {
    sl.shared.Some? && sl.shared.value != Broken && (sl.pending <==> sl.shared == Some(Unset) || sl.settling)
  }

  ghost predicate CallOk(pc: DispatchPc, sl: Slice) {
    && (sl.fulfilled.Some? <==> sl.shared.Some? && sl.shared.value.Value?)
    && (sl.fulfilled.Some? ==> sl.shared == Some(Value(sl.fulfilled.value.status)))
    && (sl.settling ==> sl.pending && sl.fulfilled.Some?)
    && match pc
       case Entered => true
       case Allocated => sl == Slice(false, None, None, false, false)
       case Installing => sl == Slice(false, None, None, false, false)
       case Installed => Open(sl) && !sl.wrote && (sl.fulfilled.Some? ==> !sl.fulfilled.value.late)
       case Checking => Open(sl) && !sl.wrote && (sl.fulfilled.Some? ==> !sl.fulfilled.value.late)
       case Writing(_) => Open(sl) && !sl.wrote && (sl.fulfilled.Some? ==> !sl.fulfilled.value.late)
       case Waiting => Open(sl) && sl.wrote && (sl.fulfilled.Some? ==> !sl.fulfilled.value.late)
       case Leaving(e) =>
         && e != Future && Open(sl) && (sl.wrote <==> e == TimedOut)
         && (sl.fulfilled.Some? ==> (sl.fulfilled.value.late <==> e == TimedOut))
       case Erasing(e) =>
         && e != Future && Open(sl) && (sl.wrote <==> e == TimedOut)
         && (sl.fulfilled.Some? ==> (sl.fulfilled.value.late <==> e == TimedOut))
       case Returned(e, r) =>
         && sl.shared.Some? && sl.shared.value != Unset && (sl.pending ==> e == Future && sl.settling)
         && if e == Future then
              sl.wrote && sl.fulfilled.Some? && !sl.fulfilled.value.late && r == sl.fulfilled.value.status
            else
              && r == ExitStatus(e) && (sl.wrote <==> e == TimedOut)
              && (sl.fulfilled.Some? ==> (sl.fulfilled.value.late <==> e == TimedOut))
  }

  ghost predicate Calls(s: State) {
    forall id :: id in s.owner ==>
      && s.owner[id] < |s.threads| && s.threads[s.owner[id]].Dispatching?
      && CallOk(s.threads[s.owner[id]].pc, SliceOf(s, id))
  }

  /** The thread has set the promise of its id, and has answered true or is about to. */
  ghost predicate HasAccepted(th: Thread) {
    th.Fulfilling? && (th.stage == Settling || th.stage == Answered(true))
  }

  /** An accepting fulfil is the recorded one for its id, and the other way round. */
  ghost predicate Answers(s: State) {
    && (forall i :: 0 <= i < |s.threads| && HasAccepted(s.threads[i]) ==>
          s.threads[i].id in s.fulfilled && s.fulfilled[s.threads[i].id].thread == i)
    && (forall id :: id in s.fulfilled ==>
          && s.fulfilled[id].thread < |s.threads|
          && HasAccepted(s.threads[s.fulfilled[id].thread])
          && s.threads[s.fulfilled[id].thread].id == id
          && s.threads[s.fulfilled[id].thread].status == s.fulfilled[id].status)
  }

  // -------------------------------------------------------------------------
  // Stream writers
  // -------------------------------------------------------------------------

  /** Every registration has one holder, and every armed token and running release holds one. */
  ghost predicate Holders(s: State) {
    && (forall t :: 0 <= t < |s.tokens| && s.tokens[t].Some? ==>
          s.tokens[t].value < |s.regs| && s.regs[s.tokens[t].value].holder == InToken(t))
    && (forall i :: 0 <= i < |s.threads| && s.threads[i].Releasing? ==>
          && s.threads[i].registration < |s.regs|
          && s.regs[s.threads[i].registration].holder
             == if s.threads[i].section == Done then Released else InRelease(i))
    && (forall r :: 0 <= r < |s.regs| ==> HeldOnce(s, r))
  }

  ghost predicate HeldOnce(s: State, r: nat)
    requires r < |s.regs|
  {
    match s.regs[r].holder
    case InToken(t) => t < |s.tokens| && s.tokens[t] == Some(r) && s.regs[r].releases == 0
    case InRelease(i) =>
      && i < |s.threads| && s.threads[i].Releasing? && s.threads[i].registration == r
      && s.threads[i].section != Done && s.regs[r].releases == 0
    case Released => s.regs[r].releases == 1
  }

  /** The active writer, if any, is that of the latest registration, which is not released. */
  ghost predicate ActiveIsLatest(s: State) {
    s.mem.active.Some? ==>
      && s.regs != []
      && s.regs[|s.regs| - 1].writer == s.mem.active.value
      && s.regs[|s.regs| - 1].holder != Released
  }

  /** A thread inside Write is writing to the active writer. */
  ghost predicate Targets(s: State) {
    forall i :: 0 <= i < |s.threads| && s.threads[i].Dispatching? && s.threads[i].pc.Writing? ==>
      s.mem.active == Some(s.threads[i].pc.target)
  }

  ghost predicate Inv(s: State) {
    && Locks(s) && Ids(s) && Domains(s) && Settles(s) && Calls(s) && Answers(s)
    && Holders(s) && ActiveIsLatest(s) && Targets(s)
  }

  // -------------------------------------------------------------------------
  // Frames: a thread's step changes that thread and what its kind may change
  // -------------------------------------------------------------------------

  /** Only thread i moved, and it is still a thread of the same kind. */
  ghost predicate OneMoved(s: State, t: State, i: nat) {
    && i < |s.threads| == |t.threads|
    && t.threads == s.threads[i := t.threads[i]]
    && (s.threads[i].Dispatching? <==> t.threads[i].Dispatching?)
    && (s.threads[i].Fulfilling? <==> t.threads[i].Fulfilling?)
    && (s.threads[i].Registering? <==> t.threads[i].Registering?)
    && (s.threads[i].Releasing? <==> t.threads[i].Releasing?)
  }

  /** What a dispatch's own step may change. */
  ghost predicate DispatchFramed(s: State, i: nat, t: State)
    requires i < |s.threads| && s.threads[i].Dispatching?
  {
    && OneMoved(s, t, i)
    && t.tokens == s.tokens && t.regs == s.regs && t.fulfilled == s.fulfilled
    && t.mem.active == s.mem.active && t.settling == s.settling
    && (s.threads[i].pc != Entered ==>
          && t.mem.nextId == s.mem.nextId && t.owner == s.owner
          && t.threads[i].id == s.threads[i].id && t.threads[i].pc != Entered)
  }

  lemma EarlyFrame(s: State, i: nat, c: Choice, t: State)
    requires i < |s.threads| && s.threads[i].Dispatching? && EarlyStep(s, i, c) == Some(t)
    ensures DispatchFramed(s, i, t)
  {
  }

  lemma LateFrame(s: State, i: nat, c: Choice, t: State)
    requires i < |s.threads| && s.threads[i].Dispatching? && LateStep(s, i, c) == Some(t)
    ensures DispatchFramed(s, i, t)
  {
  }

  lemma DispatchFrame(s: State, i: nat, c: Choice, t: State)
    requires i < |s.threads| && s.threads[i].Dispatching? && DispatchStep(s, i, c) == Some(t)
    ensures DispatchFramed(s, i, t)
  {
    if IsEarly(s.threads[i].pc) { EarlyFrame(s, i, c, t); } else { LateFrame(s, i, c, t); }
  }

  lemma FulfilFrame(s: State, i: nat, c: Choice, t: State)
    requires i < |s.threads| && s.threads[i].Fulfilling? && FulfilStep(s, i, c) == Some(t)
    ensures OneMoved(s, t, i)
    ensures t.tokens == s.tokens && t.regs == s.regs && t.mem.active == s.mem.active && t.mem.nextId == s.mem.nextId
    ensures t.owner == s.owner && t.wrote == s.wrote
  {
  }

  lemma WriterFrame(s: State, i: nat, c: Choice, t: State)
    requires i < |s.threads| && ThreadStep(s, i, c) == Some(t)
    requires s.threads[i].Registering? || s.threads[i].Releasing?
    ensures OneMoved(s, t, i)
    ensures t.mem == s.mem.(active := t.mem.active)
    ensures t.owner == s.owner && t.wrote == s.wrote && t.fulfilled == s.fulfilled && t.settling == s.settling
  {
  }

  /** Actions other than a thread's step add at most one thread, at its first program counter. */
  ghost predicate OneAdded(s: State, t: State) {
    && |s.threads| <= |t.threads| <= |s.threads| + 1
    && s.threads <= t.threads
    && (|t.threads| > |s.threads| ==>
          match t.threads[|s.threads|]
          case Dispatching(_, pc) => pc == Entered
          case Fulfilling(_, _, stage) => stage == Called
          case Registering(_, section) => section == Wanting
          case Releasing(_, section) => section == Wanting)
  }

  lemma CallFrame(s: State, a: Action, t: State)
    requires !a.Step? && Next(s, a) == Some(t)
    ensures OneAdded(s, t)
    ensures t.mem == s.mem && t.writerLock == s.writerLock && t.pendingLock == s.pendingLock
    ensures t.owner == s.owner && t.wrote == s.wrote && t.fulfilled == s.fulfilled && t.settling == s.settling
  {
  }

  // -------------------------------------------------------------------------
  // Locks
  // -------------------------------------------------------------------------

  ghost predicate LockAt(s: State, i: nat)
    requires i < |s.threads|
  {
    && (s.writerLock == Some(i) <==> HoldsWriter(s.threads[i]))
    && (s.pendingLock == Some(i) <==> HoldsPending(s.threads[i]))
  }

  /** A lock changes hands only between free and thread i. */
  ghost predicate OwnLocksOnly(before: Option<nat>, after: Option<nat>, i: nat) {
    before == after || (before in {None, Some(i)} && after in {None, Some(i)})
  }

  /** Thread i's locks stay as its program counter says, and no other thread's change. */
  ghost predicate LocksStep(s: State, i: nat, t: State) {
    && i < |t.threads| && LockAt(t, i)
    && OwnLocksOnly(s.writerLock, t.writerLock, i) && OwnLocksOnly(s.pendingLock, t.pendingLock, i)
  }

  lemma EarlyLocks(s: State, i: nat, c: Choice, t: State)
    requires i < |s.threads| && s.threads[i].Dispatching? && EarlyStep(s, i, c) == Some(t) && LockAt(s, i)
    ensures LocksStep(s, i, t)
  {
  }

  lemma LateLocks(s: State, i: nat, c: Choice, t: State)
    requires i < |s.threads| && s.threads[i].Dispatching? && LateStep(s, i, c) == Some(t) && LockAt(s, i)
    ensures LocksStep(s, i, t)
  {
  }

  lemma FulfilLocks(s: State, i: nat, c: Choice, t: State)
    requires i < |s.threads| && s.threads[i].Fulfilling? && FulfilStep(s, i, c) == Some(t) && LockAt(s, i)
    ensures LocksStep(s, i, t)
  {
  }

  lemma RegisterLocks(s: State, i: nat, c: Choice, t: State)
    requires i < |s.threads| && s.threads[i].Registering? && RegisterStep(s, i, c) == Some(t) && LockAt(s, i)
    ensures LocksStep(s, i, t)
  {
  }

  lemma ReleaseLocks(s: State, i: nat, c: Choice, t: State)
    requires i < |s.threads| && s.threads[i].Releasing? && ReleaseStep(s, i, c) == Some(t) && LockAt(s, i)
    ensures LocksStep(s, i, t)
  {
  }

  lemma ThreadLocks(s: State, i: nat, c: Choice, t: State)
    requires ThreadStep(s, i, c) == Some(t) && i < |s.threads| && LockAt(s, i)
    ensures LocksStep(s, i, t)
  {
    match s.threads[i]
    case Dispatching(_, pc) => if IsEarly(pc) { EarlyLocks(s, i, c, t); } else { LateLocks(s, i, c, t); }
    case Fulfilling(_, _, _) => FulfilLocks(s, i, c, t);
    case Registering(_, _) => RegisterLocks(s, i, c, t);
    case Releasing(_, _) => ReleaseLocks(s, i, c, t);
  }

  lemma MovedKeepsLocks(s: State, t: State, i: nat)
    requires Locks(s) && OneMoved(s, t, i) && LockAt(t, i)
    requires OwnLocksOnly(s.writerLock, t.writerLock, i) && OwnLocksOnly(s.pendingLock, t.pendingLock, i)
    ensures Locks(t)
  {
  }

  lemma AddedKeepsLocks(s: State, t: State)
    requires Locks(s) && OneAdded(s, t) && t.writerLock == s.writerLock && t.pendingLock == s.pendingLock
    ensures Locks(t)
  {
  }

  lemma StepKeepsLocks(s: State, a: Action, t: State)
    requires Locks(s) && Next(s, a) == Some(t)
    ensures Locks(t)
  {
    match a
    case Step(i, c) =>
      if s.threads[i].Dispatching? { DispatchFrame(s, i, c, t); }
      else if s.threads[i].Fulfilling? { FulfilFrame(s, i, c, t); }
      else { WriterFrame(s, i, c, t); }
      ThreadLocks(s, i, c, t);
      MovedKeepsLocks(s, t, i);
    case _ =>
      CallFrame(s, a, t);
      AddedKeepsLocks(s, t);
  }

  // -------------------------------------------------------------------------
  // Ids
  // -------------------------------------------------------------------------

  lemma MovedKeepsIds(s: State, t: State, i: nat)
    requires Ids(s) && OneMoved(s, t, i) && t.owner == s.owner && t.mem.nextId == s.mem.nextId
    requires s.threads[i].Dispatching? ==>
      s.threads[i].pc != Entered && t.threads[i].pc != Entered && t.threads[i].id == s.threads[i].id
    ensures Ids(t)
  {
  }

  lemma AddedKeepsIds(s: State, t: State)
    requires Ids(s) && OneAdded(s, t) && t.owner == s.owner && t.mem.nextId == s.mem.nextId
    ensures Ids(t)
  {
  }

  lemma AllocationKeepsIds(s: State, i: nat, t: State)
    requires Ids(s) && i < |s.threads| && s.threads[i].Dispatching? && s.threads[i].pc == Entered
    requires t.threads == s.threads[i := Dispatching(s.mem.nextId, Allocated)]
    requires t.mem.nextId == s.mem.nextId + 1 && t.owner == s.owner[s.mem.nextId := i]
    ensures Ids(t)
  {
  }

  lemma StepKeepsIds(s: State, a: Action, t: State)
    requires Ids(s) && Next(s, a) == Some(t)
    ensures Ids(t)
  {
    match a
    case Step(i, c) =>
      if s.threads[i].Dispatching? && s.threads[i].pc == Entered {
        AllocationKeepsIds(s, i, t);
      } else {
        if s.threads[i].Dispatching? { DispatchFrame(s, i, c, t); }
        else if s.threads[i].Fulfilling? { FulfilFrame(s, i, c, t); }
        else { WriterFrame(s, i, c, t); }
        MovedKeepsIds(s, t, i);
      }
    case _ =>
      CallFrame(s, a, t);
      AddedKeepsIds(s, t);
  }

  // -------------------------------------------------------------------------
  // Slices
  // -------------------------------------------------------------------------

  /** Only what is recorded about one id changed. */
  ghost predicate OneSlice(s: State, t: State, id: nat) {
    forall other: nat :: other != id ==> SliceOf(t, other) == SliceOf(s, other)
  }

  lemma DispatchSlices(s: State, i: nat, c: Choice, t: State)
    requires i < |s.threads| && s.threads[i].Dispatching? && DispatchStep(s, i, c) == Some(t)
    ensures if s.threads[i].pc == Entered then OneSlice(s, t, 0) && SliceOf(t, 0) == SliceOf(s, 0)
            else OneSlice(s, t, s.threads[i].id)
  {
  }

  /** A dispatch's own step takes its slice from one legal form to the next and raises no fault. */
  lemma DispatchOwnSlice(s: State, i: nat, c: Choice, t: State)
    requires i < |s.threads| && s.threads[i].Dispatching? && s.threads[i].pc != Entered
    requires DispatchStep(s, i, c) == Some(t)
    requires CallOk(s.threads[i].pc, SliceOf(s, s.threads[i].id))
    requires s.threads[i].pc.Erasing? ==> s.settling.None?
    ensures i < |t.threads| && t.threads[i].Dispatching?
    ensures CallOk(t.threads[i].pc, SliceOf(t, s.threads[i].id))
    ensures t.mem.fault == s.mem.fault
  {
    var pc := s.threads[i].pc;
    if IsEarly(pc) { EarlyOwnSlice(s, i, c, t); }
    else if pc.Writing? || pc == Waiting { WaitOwnSlice(s, i, c, t); }
    else { LeaveOwnSlice(s, i, c, t); }
  }

  lemma EarlyOwnSlice(s: State, i: nat, c: Choice, t: State)
    requires i < |s.threads| && s.threads[i].Dispatching? && s.threads[i].pc != Entered
    requires EarlyStep(s, i, c) == Some(t) && CallOk(s.threads[i].pc, SliceOf(s, s.threads[i].id))
    ensures i < |t.threads| && t.threads[i].Dispatching?
    ensures CallOk(t.threads[i].pc, SliceOf(t, s.threads[i].id)) && t.mem.fault == s.mem.fault
  {
  }

  lemma WaitOwnSlice(s: State, i: nat, c: Choice, t: State)
    requires i < |s.threads| && s.threads[i].Dispatching? && (s.threads[i].pc.Writing? || s.threads[i].pc == Waiting)
    requires LateStep(s, i, c) == Some(t) && CallOk(s.threads[i].pc, SliceOf(s, s.threads[i].id))
    ensures i < |t.threads| && t.threads[i].Dispatching?
    ensures CallOk(t.threads[i].pc, SliceOf(t, s.threads[i].id)) && t.mem.fault == s.mem.fault
  {
  }

  lemma LeaveOwnSlice(s: State, i: nat, c: Choice, t: State)
    requires i < |s.threads| && s.threads[i].Dispatching? && !s.threads[i].pc.Writing? && s.threads[i].pc != Waiting
    requires LateStep(s, i, c) == Some(t) && CallOk(s.threads[i].pc, SliceOf(s, s.threads[i].id))
    requires s.threads[i].pc.Erasing? ==> s.settling.None?
    ensures i < |t.threads| && t.threads[i].Dispatching?
    ensures CallOk(t.threads[i].pc, SliceOf(t, s.threads[i].id)) && t.mem.fault == s.mem.fault
  {
  }

  lemma FulfilSlices(s: State, i: nat, c: Choice, t: State)
    requires i < |s.threads| && s.threads[i].Fulfilling? && FulfilStep(s, i, c) == Some(t)
    requires s.settling.Some? ==> s.settling == Some(s.threads[i].id)
    ensures OneSlice(s, t, s.threads[i].id)
  {
    forall other: nat | other != s.threads[i].id ensures SliceOf(t, other) == SliceOf(s, other) {
      OtherSlice(s, i, c, t, other);
    }
  }

  lemma OtherSlice(s: State, i: nat, c: Choice, t: State, other: nat)
    requires i < |s.threads| && s.threads[i].Fulfilling? && FulfilStep(s, i, c) == Some(t)
    requires other != s.threads[i].id && s.settling != Some(other)
    ensures SliceOf(t, other) == SliceOf(s, other)
  {
  }

  /** A fulfil that sets no value raises no fault, and one that erases nothing either leaves its id alone. */
  lemma QuietFulfil(s: State, i: nat, c: Choice, t: State)
    requires i < |s.threads| && s.threads[i].Fulfilling? && FulfilStep(s, i, c) == Some(t)
    ensures s.threads[i].stage != Searching ==> t.mem.fault == s.mem.fault
    ensures s.threads[i].stage == Called || (s.threads[i].stage == Searching && s.threads[i].id !in s.mem.pending) ==>
      SliceOf(t, s.threads[i].id) == SliceOf(s, s.threads[i].id) && t.mem.fault == s.mem.fault
  {
  }

  /** A fulfil's first step keeps the slice of the dispatch it answers legal. */
  lemma AcceptOwnSlice(s: State, i: nat, c: Choice, t: State, pc: DispatchPc)
    requires i < |s.threads| && s.threads[i].Fulfilling? && FulfilStep(s, i, c) == Some(t)
    requires s.threads[i].stage == Searching && s.threads[i].id in s.mem.pending && s.settling.None?
    requires CallOk(pc, SliceOf(s, s.threads[i].id)) && !pc.Erasing? && pc != Entered
    requires InLossWindow(s, s.threads[i].id) <==> pc == Leaving(TimedOut)
    ensures CallOk(pc, SliceOf(t, s.threads[i].id)) && t.mem.fault == s.mem.fault
  {
  }

  /** So does its second step. */
  lemma SettleOwnSlice(s: State, i: nat, c: Choice, t: State, pc: DispatchPc)
    requires i < |s.threads| && s.threads[i].Fulfilling? && FulfilStep(s, i, c) == Some(t)
    requires s.threads[i].stage == Settling && s.settling == Some(s.threads[i].id)
    requires CallOk(pc, SliceOf(s, s.threads[i].id)) && pc != Entered
    ensures CallOk(pc, SliceOf(t, s.threads[i].id))
  {
  }

  lemma StepKeepsCalls(s: State, a: Action, t: State)
    requires Locks(s) && Ids(s) && Domains(s) && Settles(s) && Calls(s) && Next(s, a) == Some(t)
    ensures Calls(t)
  {
    match a
    case Step(i, c) =>
      if s.threads[i].Dispatching? { DispatchKeepsCalls(s, i, c, t); }
      else if s.threads[i].Fulfilling? { FulfilKeepsCalls(s, i, c, t); }
      else {
        WriterFrame(s, i, c, t);
        QuietKeepsCalls(s, t);
      }
    case _ =>
      CallFrame(s, a, t);
      QuietKeepsCalls(s, t);
  }

  lemma QuietKeepsCalls(s: State, t: State)
    requires Calls(s) && t.owner == s.owner && t.wrote == s.wrote
    requires t.fulfilled == s.fulfilled && t.settling == s.settling
    requires t.mem == s.mem.(active := t.mem.active) && |s.threads| <= |t.threads|
    requires forall k :: 0 <= k < |s.threads| && s.threads[k].Dispatching? ==> t.threads[k] == s.threads[k]
    ensures Calls(t)
  {
    assert forall id :: id in s.owner ==> SliceOf(t, id) == SliceOf(s, id);
  }

  /** Whoever holds pending_mutex_ and is not settling an id sees none settling. */
  lemma HolderSeesSettled(s: State, i: nat)
    requires Locks(s) && Settles(s) && i < |s.threads| && HoldsPending(s.threads[i])
    ensures s.settling.Some? ==> IsSettling(s.threads[i], s.settling.value)
  {
  }

  lemma DispatchKeepsCalls(s: State, i: nat, c: Choice, t: State)
    requires Locks(s) && Ids(s) && Domains(s) && Settles(s) && Calls(s)
    requires i < |s.threads| && s.threads[i].Dispatching? && DispatchStep(s, i, c) == Some(t)
    ensures Calls(t)
  {
    DispatchFrame(s, i, c, t);
    DispatchSlices(s, i, c, t);
    if s.threads[i].pc == Entered {
      AllocationKeepsCalls(s, i, t);
    } else {
      if s.threads[i].pc.Erasing? { HolderSeesSettled(s, i); }
      DispatchOwnSlice(s, i, c, t);
      MovedKeepsCalls(s, t, i);
    }
  }

  lemma AllocationKeepsCalls(s: State, i: nat, t: State)
    requires Ids(s) && Domains(s) && Calls(s)
    requires i < |s.threads| && s.threads[i].Dispatching? && s.threads[i].pc == Entered
    requires t.threads == s.threads[i := Dispatching(s.mem.nextId, Allocated)]
    requires t.owner == s.owner[s.mem.nextId := i]
    requires forall id: nat :: SliceOf(t, id) == SliceOf(s, id)
    ensures Calls(t)
  {
    assert SliceOf(t, s.mem.nextId) == Slice(false, None, None, false, false);
    forall id | id in t.owner
      ensures t.owner[id] < |t.threads| && t.threads[t.owner[id]].Dispatching?
      ensures CallOk(t.threads[t.owner[id]].pc, SliceOf(t, id))
    {
      if id != s.mem.nextId {
        assert t.threads[t.owner[id]] == s.threads[s.owner[id]];
        assert SliceOf(t, id) == SliceOf(s, id);
      }
    }
  }

  lemma MovedKeepsCalls(s: State, t: State, i: nat)
    requires Ids(s) && Calls(s) && OneMoved(s, t, i) && t.owner == s.owner
    requires s.threads[i].Dispatching? && s.threads[i].pc != Entered && t.threads[i].id == s.threads[i].id
    requires OneSlice(s, t, s.threads[i].id) && CallOk(t.threads[i].pc, SliceOf(t, s.threads[i].id))
    ensures Calls(t)
  {
    forall id | id in t.owner
      ensures t.owner[id] < |t.threads| && t.threads[t.owner[id]].Dispatching?
      ensures CallOk(t.threads[t.owner[id]].pc, SliceOf(t, id))
    {
      if id != s.threads[i].id {
        assert t.owner[id] != i;
        assert SliceOf(t, id) == SliceOf(s, id);
      }
    }
  }

  lemma FulfilKeepsCalls(s: State, i: nat, c: Choice, t: State)
    requires Locks(s) && Ids(s) && Domains(s) && Settles(s) && Calls(s)
    requires i < |s.threads| && s.threads[i].Fulfilling? && FulfilStep(s, i, c) == Some(t)
    ensures Calls(t) && !t.mem.fault
    ensures OneSlice(s, t, s.threads[i].id)
    ensures s.threads[i].id !in s.owner ==> SliceOf(t, s.threads[i].id) == SliceOf(s, s.threads[i].id)
  {
    var id := s.threads[i].id;
    NoOtherSettling(s, i, c);
    FulfilFrame(s, i, c, t);
    FulfilSlices(s, i, c, t);
    QuietFulfil(s, i, c, t);
    if id in s.owner && s.threads[i].stage == Searching && id in s.mem.pending {
      assert HoldsPending(s.threads[i]) && !HoldsPending(s.threads[s.owner[id]]);
      AcceptOwnSlice(s, i, c, t, s.threads[s.owner[id]].pc);
    } else if s.threads[i].stage == Settling {
      SettleOwnSlice(s, i, c, t, s.threads[s.owner[id]].pc);
    }
    OthersKeepCalls(s, t, i, id);
  }

  /** A fulfil that can step finds nothing settling but, at its second step, its own id. */
  lemma NoOtherSettling(s: State, i: nat, c: Choice)
    requires Locks(s) && Settles(s)
    requires i < |s.threads| && s.threads[i].Fulfilling? && FulfilStep(s, i, c).Some?
    ensures if s.threads[i].stage == Settling then s.settling == Some(s.threads[i].id) else s.settling.None?
  {
    assert s.threads[i].stage != Called ==> HoldsPending(s.threads[i]);
  }

  lemma OthersKeepCalls(s: State, t: State, i: nat, id: nat)
    requires Calls(s) && OneMoved(s, t, i) && !s.threads[i].Dispatching? && t.owner == s.owner
    requires OneSlice(s, t, id)
    requires id in s.owner ==> CallOk(s.threads[s.owner[id]].pc, SliceOf(t, id))
    ensures Calls(t)
  {
    forall other | other in t.owner
      ensures t.owner[other] < |t.threads| && t.threads[t.owner[other]].Dispatching?
      ensures CallOk(t.threads[t.owner[other]].pc, SliceOf(t, other))
    {
      assert other != id ==> SliceOf(t, other) == SliceOf(s, other);
    }
  }

  // -------------------------------------------------------------------------
  // Domains and answers
  // -------------------------------------------------------------------------

  lemma SlicesKeepDomains(s: State, t: State, id: nat)
    requires Domains(s) && !t.mem.fault && OneSlice(s, t, id)
    requires forall k :: k in s.owner ==> k in t.owner
    requires id in t.owner || SliceOf(t, id) == SliceOf(s, id)
    ensures Domains(t)
  {
    forall k: nat | k != id ensures SliceOf(t, k) == SliceOf(s, k) {}
    assert forall k: nat :: k in t.mem.pending <==> SliceOf(t, k).pending;
    assert forall k: nat :: k in t.mem.shared <==> SliceOf(t, k).shared.Some?;
    assert forall k: nat :: k in t.fulfilled <==> SliceOf(t, k).fulfilled.Some?;
    assert forall k: nat :: k in t.wrote <==> SliceOf(t, k).wrote;
    assert forall k: nat :: t.settling == Some(k) <==> SliceOf(t, k).settling;
  }

  lemma StepKeepsDomains(s: State, a: Action, t: State)
    requires Locks(s) && Ids(s) && Domains(s) && Settles(s) && Calls(s) && Next(s, a) == Some(t)
    ensures Domains(t)
  {
    match a
    case Step(i, c) =>
      if s.threads[i].Dispatching? { DispatchKeepsDomains(s, i, c, t); }
      else if s.threads[i].Fulfilling? {
        FulfilFrame(s, i, c, t);
        FulfilKeepsCalls(s, i, c, t);
        SlicesKeepDomains(s, t, s.threads[i].id);
      } else { WriterFrame(s, i, c, t); }
    case _ => CallFrame(s, a, t);
  }

  lemma DispatchKeepsDomains(s: State, i: nat, c: Choice, t: State)
    requires Locks(s) && Ids(s) && Domains(s) && Settles(s) && Calls(s)
    requires i < |s.threads| && s.threads[i].Dispatching? && DispatchStep(s, i, c) == Some(t)
    ensures Domains(t)
  {
    DispatchFrame(s, i, c, t);
    DispatchSlices(s, i, c, t);
    if s.threads[i].pc == Entered {
      SlicesKeepDomains(s, t, 0);
    } else {
      if s.threads[i].pc.Erasing? { HolderSeesSettled(s, i); }
      DispatchOwnSlice(s, i, c, t);
      SlicesKeepDomains(s, t, s.threads[i].id);
    }
  }

  lemma StepKeepsAnswers(s: State, a: Action, t: State)
    requires Locks(s) && Ids(s) && Domains(s) && Settles(s) && Calls(s) && Answers(s) && Next(s, a) == Some(t)
    ensures Answers(t)
  {
    match a
    case Step(i, c) =>
      if s.threads[i].Dispatching? { DispatchFrame(s, i, c, t); MovedKeepsAnswers(s, t, i); }
      else if s.threads[i].Fulfilling? { FulfilKeepsAnswers(s, i, c, t); }
      else { WriterFrame(s, i, c, t); MovedKeepsAnswers(s, t, i); }
    case _ =>
      CallFrame(s, a, t);
      AddedKeepsAnswers(s, t);
  }

  lemma MovedKeepsAnswers(s: State, t: State, i: nat)
    requires Answers(s) && OneMoved(s, t, i) && !s.threads[i].Fulfilling? && t.fulfilled == s.fulfilled
    ensures Answers(t)
  {
  }

  lemma AddedKeepsAnswers(s: State, t: State)
    requires Answers(s) && OneAdded(s, t) && t.fulfilled == s.fulfilled
    ensures Answers(t)
  {
  }

  /** An id that is pending and not settling has not been answered. */
  lemma PendingIsUnanswered(s: State, id: nat)
    requires Domains(s) && Ids(s) && Calls(s) && id in s.mem.pending && s.settling != Some(id)
    ensures id !in s.fulfilled && SharedOf(s.mem, id) == Unset
  {
    assert CallOk(s.threads[s.owner[id]].pc, SliceOf(s, id));
  }

  lemma FulfilKeepsAnswers(s: State, i: nat, c: Choice, t: State)
    requires Locks(s) && Ids(s) && Domains(s) && Settles(s) && Calls(s) && Answers(s)
    requires i < |s.threads| && s.threads[i].Fulfilling? && FulfilStep(s, i, c) == Some(t)
    ensures Answers(t)
  {
    NoOtherSettling(s, i, c);
    FulfilFrame(s, i, c, t);
    if s.threads[i].stage == Searching && s.threads[i].id in s.mem.pending {
      PendingIsUnanswered(s, s.threads[i].id);
      AcceptedIsRecorded(s, i, c, t);
    } else {
      QuietFulfilKeepsAnswers(s, i, c, t);
    }
  }

  lemma AcceptedIsRecorded(s: State, i: nat, c: Choice, t: State)
    requires Answers(s) && OneMoved(s, t, i) && s.threads[i].Fulfilling? && FulfilStep(s, i, c) == Some(t)
    requires s.threads[i].stage == Searching && s.threads[i].id in s.mem.pending && s.threads[i].id !in s.fulfilled
    ensures Answers(t)
  {
    assert HasAccepted(t.threads[i]) && !HasAccepted(s.threads[i]);
  }

  lemma QuietFulfilKeepsAnswers(s: State, i: nat, c: Choice, t: State)
    requires Answers(s) && OneMoved(s, t, i) && s.threads[i].Fulfilling? && FulfilStep(s, i, c) == Some(t)
    requires s.threads[i].stage != Searching || s.threads[i].id !in s.mem.pending
    ensures Answers(t)
  {
    assert HasAccepted(t.threads[i]) <==> HasAccepted(s.threads[i]);
  }

  // -------------------------------------------------------------------------
  // Settling
  // -------------------------------------------------------------------------

  lemma StepKeepsSettles(s: State, a: Action, t: State)
    requires Locks(s) && Settles(s) && Next(s, a) == Some(t)
    ensures Settles(t)
  {
    match a
    case Step(i, c) =>
      if s.threads[i].Fulfilling? {
        NoOtherSettling(s, i, c);
        FulfilFrame(s, i, c, t);
        FulfilSettles(s, i, c, t);
      } else {
        if s.threads[i].Dispatching? { DispatchFrame(s, i, c, t); } else { WriterFrame(s, i, c, t); }
        ThreadLocks(s, i, c, t);
        MovedKeepsSettles(s, t, i);
      }
    case _ =>
      CallFrame(s, a, t);
      AddedKeepsSettles(s, t);
  }

  lemma FulfilSettles(s: State, i: nat, c: Choice, t: State)
    requires Locks(s) && Settles(s) && OneMoved(s, t, i)
    requires s.threads[i].Fulfilling? && FulfilStep(s, i, c) == Some(t)
    requires if s.threads[i].stage == Settling then s.settling == Some(s.threads[i].id) else s.settling.None?
    ensures Settles(t)
  {
    OnlyHolder(s, i, c);
    assert forall k :: 0 <= k < |t.threads| && t.threads[k].Fulfilling? && t.threads[k].stage == Settling ==> k == i;
  }

  /** When a fulfil can step no other thread holds pending_mutex_. */
  lemma OnlyHolder(s: State, i: nat, c: Choice)
    requires Locks(s) && i < |s.threads| && s.threads[i].Fulfilling? && FulfilStep(s, i, c).Some?
    ensures forall k :: 0 <= k < |s.threads| && k != i ==> !HoldsPending(s.threads[k])
  {
    assert s.threads[i].stage != Called ==> HoldsPending(s.threads[i]);
  }

  lemma MovedKeepsSettles(s: State, t: State, i: nat)
    requires Locks(s) && Settles(s) && OneMoved(s, t, i) && !s.threads[i].Fulfilling? && t.settling == s.settling
    requires OwnLocksOnly(s.pendingLock, t.pendingLock, i)
    ensures Settles(t)
  {
  }

  lemma AddedKeepsSettles(s: State, t: State)
    requires Settles(s) && OneAdded(s, t) && t.settling == s.settling && t.pendingLock == s.pendingLock
    ensures Settles(t)
  {
  }

  // -------------------------------------------------------------------------
  // Writers
  // -------------------------------------------------------------------------

  lemma MovedKeepsHolders(s: State, t: State, i: nat)
    requires Holders(s) && OneMoved(s, t, i) && !s.threads[i].Releasing? && t.tokens == s.tokens && t.regs == s.regs
    ensures Holders(t)
  {
    forall r | 0 <= r < |t.regs| ensures HeldOnce(t, r) { assert HeldOnce(s, r); }
  }

  lemma RegisterKeepsHolders(s: State, i: nat, c: Choice, t: State)
    requires Holders(s) && i < |s.threads| && s.threads[i].Registering? && RegisterStep(s, i, c) == Some(t)
    ensures Holders(t)
  {
    forall r | 0 <= r < |t.regs| ensures HeldOnce(t, r) { assert r < |s.regs| ==> HeldOnce(s, r); }
  }

  lemma ReleaseKeepsHolders(s: State, i: nat, c: Choice, t: State)
    requires Holders(s) && i < |s.threads| && s.threads[i].Releasing? && ReleaseStep(s, i, c) == Some(t)
    ensures Holders(t)
  {
    assert HeldOnce(s, s.threads[i].registration);
    forall r | 0 <= r < |t.regs| ensures HeldOnce(t, r) { assert HeldOnce(s, r); }
  }

  lemma BeginReleaseKeepsHolders(s: State, k: nat, t: State)
    requires Holders(s) && k < |s.tokens| && t == BeginRelease(s, k)
    ensures Holders(t)
    ensures t.tokens[k] == None && |t.tokens| == |s.tokens|
  {
    forall r | 0 <= r < |t.regs| ensures HeldOnce(t, r) { assert HeldOnce(s, r); }
  }

  lemma TransferKeepsHolders(s: State, k: nat, from: nat, t: State)
    requires Holders(s) && k < |s.tokens| && from < |s.tokens| && k != from && s.tokens[k] == None
    requires t == Transfer(s, k, from)
    ensures Holders(t)
  {
    forall r | 0 <= r < |t.regs| ensures HeldOnce(t, r) { assert HeldOnce(s, r); }
  }

  lemma AddedKeepsHolders(s: State, t: State)
    requires Holders(s) && OneAdded(s, t) && t.regs == s.regs
    requires |t.threads| > |s.threads| ==> !t.threads[|s.threads|].Releasing?
    requires t.tokens == s.tokens || t.tokens == s.tokens + [None]
    ensures Holders(t)
  {
    forall r | 0 <= r < |t.regs| ensures HeldOnce(t, r) { assert HeldOnce(s, r); }
  }

  lemma StepKeepsHolders(s: State, a: Action, t: State)
    requires Holders(s) && Next(s, a) == Some(t)
    ensures Holders(t)
  {
    match a
    case Step(i, c) =>
      if s.threads[i].Dispatching? { DispatchFrame(s, i, c, t); MovedKeepsHolders(s, t, i); }
      else if s.threads[i].Fulfilling? { FulfilFrame(s, i, c, t); MovedKeepsHolders(s, t, i); }
      else if s.threads[i].Registering? { RegisterKeepsHolders(s, i, c, t); }
      else { ReleaseKeepsHolders(s, i, c, t); }
    case Destroy(k) => BeginReleaseKeepsHolders(s, k, t);
    case MoveConstruct(from) =>
      var more := s.(tokens := s.tokens + [None]);
      AddedKeepsHolders(s, more);
      TransferKeepsHolders(more, |s.tokens|, from, t);
    case MoveAssign(k, from) =>
      if k != from {
        var m := BeginRelease(s, k);
        BeginReleaseKeepsHolders(s, k, m);
        TransferKeepsHolders(m, k, from, t);
      }
    case _ => AddedKeepsHolders(s, t);
  }

  /** Moves and the start of a release change no registration's writer and release none. */
  ghost predicate SameRegistrations(s: State, t: State) {
    && |t.regs| == |s.regs|
    && forall r :: 0 <= r < |s.regs| ==>
         t.regs[r].writer == s.regs[r].writer && (t.regs[r].holder == Released <==> s.regs[r].holder == Released)
  }

  lemma CallKeepsRegistrations(s: State, a: Action, t: State)
    requires Holders(s) && !a.Step? && Next(s, a) == Some(t)
    ensures SameRegistrations(s, t)
  {
    match a
    case Destroy(k) => BeginReleaseKeepsRegistrations(s, k);
    case MoveConstruct(from) =>
      var more := s.(tokens := s.tokens + [None]);
      AddedKeepsHolders(s, more);
      TransferKeepsRegistrations(more, |s.tokens|, from);
    case MoveAssign(k, from) =>
      if k != from {
        BeginReleaseKeepsRegistrations(s, k);
        BeginReleaseKeepsHolders(s, k, BeginRelease(s, k));
        TransferKeepsRegistrations(BeginRelease(s, k), k, from);
      }
    case _ =>
  }

  lemma BeginReleaseKeepsRegistrations(s: State, k: nat)
    requires Holders(s) && k < |s.tokens|
    ensures SameRegistrations(s, BeginRelease(s, k))
  {
  }

  lemma TransferKeepsRegistrations(s: State, k: nat, from: nat)
    requires Holders(s) && k < |s.tokens| && from < |s.tokens|
    ensures SameRegistrations(s, Transfer(s, k, from))
  {
  }

  lemma StepKeepsActive(s: State, a: Action, t: State)
    requires Holders(s) && ActiveIsLatest(s) && Next(s, a) == Some(t)
    ensures ActiveIsLatest(t)
  {
    match a
    case Step(i, c) =>
      if s.threads[i].Dispatching? { DispatchFrame(s, i, c, t); }
      else if s.threads[i].Fulfilling? { FulfilFrame(s, i, c, t); }
      else { WriterKeepsActive(s, i, c, t); }
    case _ =>
      CallFrame(s, a, t);
      CallKeepsRegistrations(s, a, t);
  }

  lemma WriterKeepsActive(s: State, i: nat, c: Choice, t: State)
    requires ActiveIsLatest(s) && i < |s.threads| && ThreadStep(s, i, c) == Some(t)
    requires s.threads[i].Registering? || s.threads[i].Releasing?
    ensures ActiveIsLatest(t)
  {
  }

  lemma StepKeepsTargets(s: State, a: Action, t: State)
    requires Locks(s) && Targets(s) && Next(s, a) == Some(t)
    ensures Targets(t)
  {
    match a
    case Step(i, c) =>
      if s.threads[i].Dispatching? { DispatchKeepsTargets(s, i, c, t); }
      else if s.threads[i].Fulfilling? { FulfilFrame(s, i, c, t); MovedKeepsTargets(s, t, i); }
      else {
        WriterFrame(s, i, c, t);
        WriterActs(s, i, c, t);
        MovedKeepsTargets(s, t, i);
      }
    case _ => CallFrame(s, a, t);
  }

  /** The active writer changes only under writer_mutex_. */
  lemma WriterActs(s: State, i: nat, c: Choice, t: State)
    requires i < |s.threads| && LockAt(s, i) && ThreadStep(s, i, c) == Some(t)
    requires s.threads[i].Registering? || s.threads[i].Releasing?
    ensures t.mem.active != s.mem.active ==> s.writerLock == Some(i)
  {
  }

  lemma MovedKeepsTargets(s: State, t: State, i: nat)
    requires Locks(s) && Targets(s) && OneMoved(s, t, i) && !s.threads[i].Dispatching?
    requires t.mem.active != s.mem.active ==> s.writerLock == Some(i)
    ensures Targets(t)
  {
    forall k | 0 <= k < |t.threads| && t.threads[k].Dispatching? && t.threads[k].pc.Writing?
      ensures t.mem.active == Some(t.threads[k].pc.target)
    {
      assert HoldsWriter(s.threads[k]);
    }
  }

  lemma DispatchKeepsTargets(s: State, i: nat, c: Choice, t: State)
    requires Targets(s) && i < |s.threads| && s.threads[i].Dispatching? && DispatchStep(s, i, c) == Some(t)
    ensures Targets(t)
  {
    DispatchFrame(s, i, c, t);
    DispatchTarget(s, i, c, t);
  }

  lemma DispatchTarget(s: State, i: nat, c: Choice, t: State)
    requires i < |s.threads| && s.threads[i].Dispatching? && DispatchStep(s, i, c) == Some(t)
    requires s.threads[i].pc.Writing? ==> s.mem.active == Some(s.threads[i].pc.target)
    ensures i < |t.threads| && t.threads[i].Dispatching?
    ensures t.threads[i].pc.Writing? ==> t.mem.active == Some(t.threads[i].pc.target)
  {
  }

  // -------------------------------------------------------------------------
  // All together
  // -------------------------------------------------------------------------

  lemma StepKeepsInv(s: State, a: Action, t: State)
    requires Inv(s) && Next(s, a) == Some(t)
    ensures Inv(t)
  {
    StepKeepsLocks(s, a, t);
    StepKeepsIds(s, a, t);
    StepKeepsDomains(s, a, t);
    StepKeepsSettles(s, a, t);
    StepKeepsCalls(s, a, t);
    StepKeepsAnswers(s, a, t);
    StepKeepsHolders(s, a, t);
    StepKeepsActive(s, a, t);
    StepKeepsTargets(s, a, t);
  }

  lemma {:induction false} RunKeepsInv(s: State, actions: seq<Action>, t: State)
    requires Inv(s) && Run(s, actions) == Some(t)
    ensures Inv(t)
    decreases actions
  {
    if actions != [] {
      var m := Next(s, actions[0]).value;
      StepKeepsInv(s, actions[0], m);
      RunKeepsInv(m, actions[1..], t);
    }
  }

  lemma InvFromStart(actions: seq<Action>, s: State)
    requires Run(Init(), actions) == Some(s)
    ensures Inv(s)
  {
    RunKeepsInv(Init(), actions, s);
  }
}
