/** What holds of the command protocol in every reachable state and over every run. */
module CommandTheorems {
  import opened Wrappers
  import opened CommandMemory
  import opened CommandProtocol
  import opened CommandInvariant

  ghost predicate Reachable(s: State) {
    Reaches(Init(), s)
  }

  lemma ReachableInv(s: State)
    requires Reachable(s)
    ensures Inv(s)
  {
    var actions :| Run(Init(), actions) == Some(s);
    InvFromStart(actions, s);
  }

  predicate IsCall(s: State, i: nat) {
    i < |s.threads| && s.threads[i].Dispatching?
  }

  /** Thread i accepted a response for this id: it has set the promise, and answers true. */
  ghost predicate Accepted(s: State, i: nat, id: nat) {
    i < |s.threads| && HasAccepted(s.threads[i]) && s.threads[i].id == id
  }

  // The invariant, as the theorems below use it: one thread at a time.

  lemma CallIsOk(s: State, i: nat)
    requires Ids(s) && Calls(s) && IsCall(s, i) && s.threads[i].pc != Entered
    ensures CallOk(s.threads[i].pc, SliceOf(s, s.threads[i].id))
    ensures s.threads[i].id in s.owner && s.owner[s.threads[i].id] == i && 1 <= s.threads[i].id < s.mem.nextId
  {
  }

  /** A dispatch that waits for its future never finds the promise broken. */
  lemma NeverReadsBroken(s: State, i: nat)
    requires Ids(s) && Calls(s) && IsCall(s, i)
    ensures s.threads[i].pc == Waiting ==> SharedOf(s.mem, s.threads[i].id) != Broken
  {
    if s.threads[i].pc == Waiting {
      CallIsOk(s, i);
    }
  }

  lemma ReachableCall(s: State, i: nat)
    requires Reachable(s) && IsCall(s, i) && s.threads[i].pc != Entered
    ensures CallOk(s.threads[i].pc, SliceOf(s, s.threads[i].id))
    ensures s.threads[i].id in s.owner && s.owner[s.threads[i].id] == i && 1 <= s.threads[i].id < s.mem.nextId
  {
    ReachableInv(s);
    CallIsOk(s, i);
  }

  lemma AnswerIsRecorded(s: State, j: nat, id: nat)
    requires Answers(s) && Accepted(s, j, id)
    ensures id in s.fulfilled && s.fulfilled[id].thread == j && s.fulfilled[id].status == s.threads[j].status
  {
  }

  lemma ReachableAnswer(s: State, j: nat, id: nat)
    requires Reachable(s) && Accepted(s, j, id)
    ensures id in s.fulfilled && s.fulfilled[id].thread == j && s.fulfilled[id].status == s.threads[j].status
  {
    ReachableInv(s);
    AnswerIsRecorded(s, j, id);
  }

  // -------------------------------------------------------------------------
  // Ids and the pending table
  // -------------------------------------------------------------------------

  /** Issued ids are exactly 1 .. nextId - 1 and no two dispatches share one. */
  lemma IdsAreFresh(s: State, i: nat, j: nat)
    requires Reachable(s) && IsCall(s, i) && IsCall(s, j)
    requires s.threads[i].pc != Entered && s.threads[j].pc != Entered
    ensures 1 <= s.threads[i].id < s.mem.nextId
    ensures s.threads[i].id == s.threads[j].id ==> i == j
  {
    ReachableCall(s, i);
    ReachableCall(s, j);
  }

  /** The program counters between the install and the erase of an entry. */
  predicate Registered(pc: DispatchPc) {
    !pc.Entered? && !pc.Allocated? && !pc.Installing? && !pc.Returned?
  }

  /** Some dispatch of this id has registered, has not erased its entry and has not been fulfilled. */
  ghost predicate AwaitsAnswer(s: State, id: nat) {
    && id !in s.fulfilled
    && exists i: nat :: IsCall(s, i) && s.threads[i].id == id && Registered(s.threads[i].pc)
  }

  ghost predicate NoDispatchInProgress(s: State) {
    forall i: nat :: IsCall(s, i) ==> s.threads[i].pc.Entered? || s.threads[i].pc.Returned?
  }

  lemma PendingIsExactFor(s: State, id: nat)
    requires Ids(s) && Domains(s) && Calls(s)
    ensures id in s.mem.pending <==> AwaitsAnswer(s, id) || s.settling == Some(id)
  {
    if id in s.owner {
      var i := s.owner[id];
      assert CallOk(s.threads[i].pc, SliceOf(s, id));
      assert IsCall(s, i) && s.threads[i].id == id;
    }
  }

  /**
   Pending-table invariant: the keys of `pending_` are exactly the ids whose
   dispatch has registered, has not erased its entry and has not been
   fulfilled, and while a fulfil holds the lock between setting a promise and
   erasing its entry, that one id. So whenever the lock is free the table holds
   exactly the ids awaiting an answer, and is empty if no dispatch is in progress.
   */
  lemma PendingIsExact(s: State)
    requires Reachable(s)
    ensures forall id: nat :: id in s.mem.pending <==> AwaitsAnswer(s, id) || s.settling == Some(id)
    ensures s.pendingLock.None? ==> s.settling.None?
    ensures s.pendingLock.None? && NoDispatchInProgress(s) ==> s.mem.pending == {}
  {
    ReachableInv(s);
    forall id: nat ensures id in s.mem.pending <==> AwaitsAnswer(s, id) || s.settling == Some(id) {
      PendingIsExactFor(s, id);
    }
    if s.pendingLock.None? && NoDispatchInProgress(s) {
      forall id: nat ensures !AwaitsAnswer(s, id) {}
    }
  }

  // -------------------------------------------------------------------------
  // Correlation and loss
  // -------------------------------------------------------------------------

  /** No std::future_error is ever thrown: no promise is set twice, none is read broken. */
  lemma NoFutureError(s: State)
    requires Reachable(s)
    ensures !s.mem.fault
  {
    ReachableInv(s);
  }

  /** Each id gets at most one fulfil that answers true. */
  lemma AtMostOneAnswer(s: State, id: nat, j: nat, k: nat)
    requires Reachable(s) && Accepted(s, j, id) && Accepted(s, k, id)
    ensures j == k
  {
    ReachableAnswer(s, j, id);
    ReachableAnswer(s, k, id);
  }

  /**
   Correlation: a dispatch that left through `future.get` returned exactly the
   status of the one response that was accepted for its id.
   */
  lemma Correlation(s: State, i: nat) returns (j: nat)
    requires Reachable(s) && IsCall(s, i)
    requires s.threads[i].pc.Returned? && s.threads[i].pc.exit == Future
    ensures Accepted(s, j, s.threads[i].id)
    ensures s.threads[i].pc.result == s.threads[j].status
    ensures forall k: nat :: Accepted(s, k, s.threads[i].id) ==> k == j
  {
    var id := s.threads[i].id;
    ReachableCall(s, i);
    j := RecordedAnswer(s, id);
    forall k: nat | Accepted(s, k, id) ensures k == j {
      AtMostOneAnswer(s, id, j, k);
    }
  }

  lemma RecordedAnswer(s: State, id: nat) returns (j: nat)
    requires Reachable(s) && id in s.fulfilled
    ensures Accepted(s, j, id) && s.threads[j].status == s.fulfilled[id].status
  {
    ReachableInv(s);
    j := s.fulfilled[id].thread;
  }

  /** The response was accepted after the dispatch had observed its timeout. */
  predicate Late(s: State, id: nat) {
    id in s.fulfilled && s.fulfilled[id].late
  }

  /**
   Exact loss window. Take a response that was accepted and whose dispatch has
   returned. The dispatch returned that response's status through its future if
   and only if its write had returned true and the response did not land
   between the observed timeout and the erase. The losing exits are the
   timeout, a failed write, and the missing writer.
   */
  lemma ExactLossWindow(s: State, i: nat, j: nat)
    requires Reachable(s) && IsCall(s, i) && s.threads[i].pc.Returned?
    requires Accepted(s, j, s.threads[i].id)
    ensures var id := s.threads[i].id;
            s.threads[i].pc == Returned(Future, s.threads[j].status)
            <==> id in s.wrote && !Late(s, id)
    ensures s.threads[i].pc.exit != Future ==> s.threads[i].pc.result == ExitStatus(s.threads[i].pc.exit)
  {
    ReachableCall(s, i);
    ReachableAnswer(s, j, s.threads[i].id);
  }

  /**
   No promise is left behind: once its dispatch has returned a promise holds the
   accepted response's status, or is broken if there was none.
   */
  lemma EveryPromiseIsSettled(s: State, i: nat)
    requires Reachable(s) && IsCall(s, i) && s.threads[i].pc.Returned?
    ensures var id := s.threads[i].id;
            SharedOf(s.mem, id) == if id in s.fulfilled then Value(s.fulfilled[id].status) else Broken
  {
    ReachableCall(s, i);
  }

  // -------------------------------------------------------------------------
  // Exits and their causes
  // -------------------------------------------------------------------------

  /** The exit a dispatch is on its way to, once that is decided. */
  function ExitOf(pc: DispatchPc): Option<Exit> {
    match pc
    case Leaving(e) => Some(e)
    case Erasing(e) => Some(e)
    case Returned(e, _) => Some(e)
    case _ => None
  }

  /** What happens to a dispatch that decides its exit. */
  function CauseOf(s: State, i: nat, c: Choice): Option<Exit>
    requires IsCall(s, i)
  {
    var pc := s.threads[i].pc;
    if pc == Checking && s.mem.active.None? then Some(NoWriter)
    else if pc.Writing? && c == WriteReturns(false) then Some(WriteFalse)
    else if pc.Writing? && c == WriteThrows then Some(WriteThrew)
    else if pc == Waiting && c == TimerFires then Some(TimedOut)
    else if pc == Waiting && c == Go then Some(Future)
    else None
  }

  /** A dispatch's exit is decided exactly by its cause, and never revised. */
  lemma ExitIsDecidedByCause(s: State, i: nat, c: Choice, t: State)
    requires Ids(s) && Calls(s) && IsCall(s, i) && Next(s, Step(i, c)) == Some(t)
    ensures IsCall(t, i)
    ensures ExitOf(t.threads[i].pc)
         == if ExitOf(s.threads[i].pc).Some? then ExitOf(s.threads[i].pc) else CauseOf(s, i, c)
  {
    NeverReadsBroken(s, i);
    if IsEarly(s.threads[i].pc) { EarlyExit(s, i, c, t); } else { LateExit(s, i, c, t); }
  }

  lemma EarlyExit(s: State, i: nat, c: Choice, t: State)
    requires IsCall(s, i) && EarlyStep(s, i, c) == Some(t)
    ensures IsCall(t, i) && ExitOf(s.threads[i].pc).None? && ExitOf(t.threads[i].pc) == CauseOf(s, i, c)
  {
  }

  lemma LateExit(s: State, i: nat, c: Choice, t: State)
    requires IsCall(s, i) && LateStep(s, i, c) == Some(t)
    requires s.threads[i].pc == Waiting ==> SharedOf(s.mem, s.threads[i].id) != Broken
    ensures IsCall(t, i)
    ensures ExitOf(t.threads[i].pc)
         == if ExitOf(s.threads[i].pc).Some? then ExitOf(s.threads[i].pc) else CauseOf(s, i, c)
  {
  }

  /** Only its own steps move a dispatch. */
  lemma OnlyOwnStepsMove(s: State, a: Action, t: State, i: nat)
    requires Next(s, a) == Some(t) && i < |s.threads| && !(a.Step? && a.thread == i)
    ensures i < |t.threads| && t.threads[i] == s.threads[i]
  {
    match a
    case Step(k, c) =>
      if s.threads[k].Dispatching? { DispatchFrame(s, k, c, t); }
      else if s.threads[k].Fulfilling? { FulfilFrame(s, k, c, t); }
      else { WriterFrame(s, k, c, t); }
    case _ => CallFrame(s, a, t);
  }

  lemma {:induction false} ExitNeverChanges(s: State, more: seq<Action>, t: State, i: nat)
    requires Inv(s) && Run(s, more) == Some(t) && IsCall(s, i) && ExitOf(s.threads[i].pc).Some?
    ensures IsCall(t, i) && ExitOf(t.threads[i].pc) == ExitOf(s.threads[i].pc)
    decreases more
  {
    if more != [] {
      var m := Next(s, more[0]).value;
      if more[0].Step? && more[0].thread == i {
        ExitIsDecidedByCause(s, i, more[0].choice, m);
      } else {
        OnlyOwnStepsMove(s, more[0], m, i);
      }
      StepKeepsInv(s, more[0], m);
      ExitNeverChanges(m, more[1..], t, i);
    }
  }

  /** The step number n of the run is the one at which dispatch i meets the cause of exit e. */
  ghost predicate MeetsCause(s: State, actions: seq<Action>, n: nat, i: nat, e: Exit) {
    && n < |actions| && Run(s, actions[..n]).Some?
    && actions[n].Step? && actions[n].thread == i
    && IsCall(Run(s, actions[..n]).value, i)
    && CauseOf(Run(s, actions[..n]).value, i, actions[n].choice) == Some(e)
  }

  /** A dispatch on its way out met the cause of just that exit somewhere in the run. */
  lemma {:induction false} ExitHasItsCause(s: State, actions: seq<Action>, t: State, i: nat, e: Exit) returns (n: nat)
    requires Inv(s) && Run(s, actions) == Some(t) && IsCall(t, i) && ExitOf(t.threads[i].pc) == Some(e)
    requires !IsCall(s, i) || ExitOf(s.threads[i].pc).None?
    ensures MeetsCause(s, actions, n, i, e)
    decreases actions
  {
    var a, m := actions[0], Next(s, actions[0]).value;
    StepKeepsInv(s, a, m);
    if IsCall(m, i) && ExitOf(m.threads[i].pc).Some? {
      ExitNeverChanges(m, actions[1..], t, i);
      FirstExitStep(s, a, m, i);
      n := 0;
      assert actions[..0] == [];
    } else {
      var k := ExitHasItsCause(m, actions[1..], t, i, e);
      n := k + 1;
      assert actions[..n][1..] == actions[1..][..k];
    }
  }

  lemma FirstExitStep(s: State, a: Action, m: State, i: nat)
    requires Inv(s) && Next(s, a) == Some(m) && IsCall(m, i) && ExitOf(m.threads[i].pc).Some?
    requires !IsCall(s, i) || ExitOf(s.threads[i].pc).None?
    ensures a.Step? && a.thread == i && IsCall(s, i) && CauseOf(s, i, a.choice) == ExitOf(m.threads[i].pc)
  {
    if a.Step? && a.thread == i {
      if IsCall(s, i) {
        ExitIsDecidedByCause(s, i, a.choice, m);
      } else if s.threads[i].Fulfilling? {
        FulfilFrame(s, i, a.choice, m);
      } else {
        WriterFrame(s, i, a.choice, m);
      }
    } else if i < |s.threads| {
      OnlyOwnStepsMove(s, a, m, i);
    } else {
      NewThreadsHaveNoExit(s, a, m, i);
    }
  }

  lemma NewThreadsHaveNoExit(s: State, a: Action, m: State, i: nat)
    requires Next(s, a) == Some(m) && |s.threads| <= i < |m.threads|
    ensures m.threads[i].Dispatching? ==> m.threads[i].pc == Entered
  {
    match a
    case Step(k, c) =>
      if s.threads[k].Dispatching? { DispatchFrame(s, k, c, m); }
      else if s.threads[k].Fulfilling? { FulfilFrame(s, k, c, m); }
      else { WriterFrame(s, k, c, m); }
    case _ => CallFrame(s, a, m);
  }

  /**
   Exits by cause: a dispatch returns by one of the five exits if and only if it
   met that exit's cause in the run (no writer at its check, a false write, a
   throwing write, its timer, or its ready future), with that exit's status; a
   write that returned true leaves only the last two, told apart by whether an
   accepted response beat the timer.
   */
  lemma ExitsByCause(actions: seq<Action>, s: State, i: nat, e: Exit)
    requires Run(Init(), actions) == Some(s) && IsCall(s, i) && s.threads[i].pc.Returned?
    ensures s.threads[i].pc.exit == e <==> exists n: nat :: MeetsCause(Init(), actions, n, i, e)
    ensures s.threads[i].pc.exit != Future ==> s.threads[i].pc.result == ExitStatus(s.threads[i].pc.exit)
    ensures var id, exit := s.threads[i].id, s.threads[i].pc.exit;
            && (id in s.wrote <==> exit == Future || exit == TimedOut)
            && (exit == Future <==> id in s.wrote && id in s.fulfilled && !Late(s, id))
  {
    assert Reachable(s);
    ReachableCall(s, i);
    RunKeepsInv(Init(), [], Init());
    if s.threads[i].pc.exit == e {
      var n := ExitHasItsCause(Init(), actions, s, i, e);
    }
    if exists n: nat :: MeetsCause(Init(), actions, n, i, e) {
      var n: nat :| MeetsCause(Init(), actions, n, i, e);
      CauseHasItsExit(actions, s, n, i, e);
    }
  }

  lemma CauseHasItsExit(actions: seq<Action>, s: State, n: nat, i: nat, e: Exit)
    requires Run(Init(), actions) == Some(s) && MeetsCause(Init(), actions, n, i, e)
    ensures IsCall(s, i) && ExitOf(s.threads[i].pc) == Some(e)
  {
    var p := Run(Init(), actions[..n]).value;
    assert actions == actions[..n] + actions[n..];
    RunsJoin(Init(), actions[..n], actions[n..]);
    var m := Next(p, actions[n]).value;
    assert actions[n..][1..] == actions[n + 1..];
    InvFromStart(actions[..n], p);
    ExitIsDecidedByCause(p, i, actions[n].choice, m);
    assert ExitOf(p.threads[i].pc).None?;
    StepKeepsInv(p, actions[n], m);
    ExitNeverChanges(m, actions[n + 1..], s, i);
  }

  // -------------------------------------------------------------------------
  // After the dispatch returned
  // -------------------------------------------------------------------------

  lemma {:induction false} ReturnedStays(s: State, more: seq<Action>, t: State, i: nat)
    requires Run(s, more) == Some(t) && IsCall(s, i) && s.threads[i].pc.Returned?
    ensures IsCall(t, i) && t.threads[i] == s.threads[i]
    decreases more
  {
    if more != [] {
      var m := Next(s, more[0]).value;
      ReturnedIsFinal(s, more[0], i);
      OnlyOwnStepsMove(s, more[0], m, i);
      ReturnedStays(m, more[1..], t, i);
    }
  }

  lemma ReturnedIsFinal(s: State, a: Action, i: nat)
    requires IsCall(s, i) && s.threads[i].pc.Returned?
    ensures a.Step? && a.thread == i ==> Next(s, a).None?
  {
  }

  lemma ReachableOn(s: State, more: seq<Action>, t: State)
    requires Reachable(s) && Run(s, more) == Some(t)
    ensures Reachable(t)
  {
    var actions :| Run(Init(), actions) == Some(s);
    RunsJoin(Init(), actions, more);
    assert Run(Init(), actions + more) == Some(t);
  }

  lemma RefusedWhenNotPending(s: State, j: nat, t: State)
    requires j < |s.threads| && s.threads[j].Fulfilling? && s.threads[j].stage == Searching
    requires s.threads[j].id !in s.mem.pending && Next(s, Step(j, Go)) == Some(t)
    ensures t.mem == s.mem && t.fulfilled == s.fulfilled
    ensures t.threads == s.threads[j := Fulfilling(s.threads[j].id, s.threads[j].status, Answered(false))]
  {
  }

  /** While one fulfil searches the table no other is half way through an answer. */
  lemma SearcherIsAlone(s: State, j: nat)
    requires Reachable(s) && j < |s.threads| && s.threads[j].Fulfilling? && s.threads[j].stage == Searching
    ensures s.settling.None?
  {
    ReachableInv(s);
    HolderSeesSettled(s, j);
  }

  /**
   After a dispatch returned, by any path and however the run goes on, a fulfil
   for its id answers false and changes nothing.
   */
  lemma LateFulfilIsRefused(s: State, i: nat, more: seq<Action>, t: State, j: nat, u: State)
    requires Reachable(s) && IsCall(s, i) && s.threads[i].pc.Returned?
    requires Run(s, more) == Some(t)
    requires j < |t.threads| && t.threads[j].Fulfilling? && t.threads[j].stage == Searching
    requires t.threads[j].id == s.threads[i].id
    requires Next(t, Step(j, Go)) == Some(u)
    ensures u.mem == t.mem && u.fulfilled == t.fulfilled
    ensures u.threads[j] == Fulfilling(s.threads[i].id, t.threads[j].status, Answered(false))
  {
    ReachableOn(s, more, t);
    ReturnedStays(s, more, t, i);
    ReachableCall(t, i);
    SearcherIsAlone(t, j);
    RefusedWhenNotPending(t, j, u);
  }

  /** The same for id 0 and for ids that have not been issued. */
  lemma UnissuedFulfilIsRefused(s: State, j: nat, t: State)
    requires Reachable(s)
    requires j < |s.threads| && s.threads[j].Fulfilling? && s.threads[j].stage == Searching
    requires s.threads[j].id == 0 || s.threads[j].id >= s.mem.nextId
    requires Next(s, Step(j, Go)) == Some(t)
    ensures t.mem == s.mem && t.fulfilled == s.fulfilled
    ensures t.threads[j] == Fulfilling(s.threads[j].id, s.threads[j].status, Answered(false))
  {
    ReachableInv(s);
    UnissuedIsNotPending(s, s.threads[j].id);
    RefusedWhenNotPending(s, j, t);
  }

  lemma UnissuedIsNotPending(s: State, id: nat)
    requires Ids(s) && Domains(s) && (id == 0 || id >= s.mem.nextId)
    ensures id !in s.mem.pending
  {
  }

  // -------------------------------------------------------------------------
  // While the dispatch waits
  // -------------------------------------------------------------------------

  /** What is known about an answered id whose write succeeded is never revised. */
  lemma AnswersStay(s: State, a: Action, t: State)
    requires Inv(s) && Next(s, a) == Some(t)
    ensures forall id: nat :: id in s.fulfilled ==> id in t.fulfilled && t.fulfilled[id] == s.fulfilled[id]
    ensures forall id: nat :: id in s.wrote ==> id in t.wrote
  {
    match a
    case Step(i, c) =>
      if s.threads[i].Dispatching? { DispatchFrame(s, i, c, t); WroteGrows(s, i, c, t); }
      else if s.threads[i].Fulfilling? { FulfilFrame(s, i, c, t); FirstAnswerStays(s, i, c, t); }
      else { WriterFrame(s, i, c, t); }
    case _ => CallFrame(s, a, t);
  }

  lemma WroteGrows(s: State, i: nat, c: Choice, t: State)
    requires IsCall(s, i) && DispatchStep(s, i, c) == Some(t)
    ensures s.wrote <= t.wrote
  {
  }

  /** A pending id has not been answered, so an answer is never overwritten. */
  lemma FirstAnswerStays(s: State, i: nat, c: Choice, t: State)
    requires Locks(s) && Settles(s) && Ids(s) && Domains(s) && Calls(s)
    requires i < |s.threads| && s.threads[i].Fulfilling? && FulfilStep(s, i, c) == Some(t)
    ensures forall id: nat :: id in s.fulfilled ==> id in t.fulfilled && t.fulfilled[id] == s.fulfilled[id]
  {
    if s.threads[i].stage == Searching && s.threads[i].id in s.mem.pending {
      NoOtherSettling(s, i, c);
      PendingIsUnanswered(s, s.threads[i].id);
    }
    OwnAnswerOnly(s, i, c, t);
  }

  lemma OwnAnswerOnly(s: State, i: nat, c: Choice, t: State)
    requires i < |s.threads| && s.threads[i].Fulfilling? && FulfilStep(s, i, c) == Some(t)
    requires s.threads[i].stage == Searching && s.threads[i].id in s.mem.pending ==> s.threads[i].id !in s.fulfilled
    ensures forall id: nat :: id in s.fulfilled ==> id in t.fulfilled && t.fulfilled[id] == s.fulfilled[id]
  {
  }

  lemma {:induction false} AnswersStayForever(s: State, more: seq<Action>, t: State, id: nat)
    requires Inv(s) && Run(s, more) == Some(t) && id in s.fulfilled && id in s.wrote
    ensures id in t.fulfilled && t.fulfilled[id] == s.fulfilled[id] && id in t.wrote
    decreases more
  {
    if more != [] {
      var m := Next(s, more[0]).value;
      AnswersStay(s, more[0], m);
      StepKeepsInv(s, more[0], m);
      AnswersStayForever(m, more[1..], t, id);
    }
  }

  /**
   No response is lost while the dispatch waits: once one has been accepted,
   every continuation in which the dispatch returns returns that response's
   status, whatever the timer does.
   */
  lemma AcceptedWhileWaitingIsReturned(s: State, i: nat, more: seq<Action>, t: State)
    requires Reachable(s) && IsCall(s, i) && s.threads[i].pc == Waiting && s.threads[i].id in s.fulfilled
    requires Run(s, more) == Some(t) && IsCall(t, i)
    requires t.threads[i].id == s.threads[i].id && t.threads[i].pc.Returned?
    ensures t.threads[i].pc == Returned(Future, s.fulfilled[s.threads[i].id].status)
  {
    ReachableCall(s, i);
    ReachableInv(s);
    AnswersStayForever(s, more, t, s.threads[i].id);
    ReachableOn(s, more, t);
    ReachableCall(t, i);
  }

  // -------------------------------------------------------------------------
  // Writers
  // -------------------------------------------------------------------------

  predicate IsOpen(s: State, r: nat) {
    r < |s.regs| && s.regs[r].holder != Released
  }

  /**
   Writer safety, for any addresses: a dispatch inside `Write` writes to the
   latest registration, which is still unreleased; it cannot be released while
   the write lasts, because the dispatch holds `writer_mutex_`. Every
   registration is released at most once, and by the token that held it.
   */
  lemma WritesGoToTheLatestStream(s: State)
    requires Reachable(s)
    ensures forall i: nat :: IsCall(s, i) && s.threads[i].pc.Writing? ==>
      && s.regs != [] && IsOpen(s, |s.regs| - 1)
      && s.regs[|s.regs| - 1].writer == s.threads[i].pc.target
      && s.writerLock == Some(i)
    ensures forall r :: 0 <= r < |s.regs| ==> s.regs[r].releases == if IsOpen(s, r) then 0 else 1
    ensures forall t, r :: 0 <= t < |s.tokens| && s.tokens[t] == Some(r) ==>
      IsOpen(s, r) && s.regs[r].holder == InToken(t)
  {
    ReachableInv(s);
    forall i: nat | IsCall(s, i) && s.threads[i].pc.Writing? ensures s.writerLock == Some(i) {
      assert HoldsWriter(s.threads[i]);
    }
    forall r | 0 <= r < |s.regs| ensures s.regs[r].releases == if IsOpen(s, r) then 0 else 1 {
      assert HeldOnce(s, r);
    }
  }

  /**
   Ownership: a registration starts being released only by the token that is
   armed with it, when that token is destroyed or assigned to, and is released
   only by the release so begun.
   */
  lemma OnlyTheOwnerReleases(s: State, a: Action, t: State, r: nat)
    requires Inv(s) && Next(s, a) == Some(t) && r < |s.regs|
    ensures r < |t.regs| && t.regs[r].writer == s.regs[r].writer
    ensures t.regs[r].holder == Released && s.regs[r].holder != Released ==>
      a.Step? && s.regs[r].holder == InRelease(a.thread)
    ensures t.regs[r].holder.InRelease? && s.regs[r].holder != t.regs[r].holder ==>
      (a.Destroy? || (a.MoveAssign? && a.from != a.token)) && s.regs[r].holder == InToken(a.token)
    ensures t.regs[r].holder.InToken? && s.regs[r].holder != t.regs[r].holder ==>
      (a.MoveConstruct? || a.MoveAssign?) && s.regs[r].holder == InToken(a.from)
  {
    match a
    case Step(i, c) =>
      if s.threads[i].Dispatching? { DispatchFrame(s, i, c, t); }
      else if s.threads[i].Fulfilling? { FulfilFrame(s, i, c, t); }
      else { WriterStepOwns(s, i, c, t, r); }
    case Destroy(k) => BeginReleaseOwns(s, k, r);
    case MoveConstruct(from) => TransferOwns(s.(tokens := s.tokens + [None]), |s.tokens|, from, r);
    case MoveAssign(k, from) =>
      if k != from {
        BeginReleaseOwns(s, k, r);
        TransferOwns(BeginRelease(s, k), k, from, r);
      }
    case _ =>
  }

  /** A new release of registration r has begun. */
  predicate ReleaseBegun(s: State, t: State, r: nat) {
    && |t.threads| == |s.threads| + 1 && t.threads[|s.threads|] == Releasing(r, Wanting)
    && r < |t.regs| && t.regs[r].holder == InRelease(|s.threads|)
  }

  /**
   The other way round: destroying an armed token does begin its release, a move
   takes the registration over and disarms the source, and assigning to an armed
   token begins the release of what it held, unless it is assigned to itself.
   */
  lemma MovesHandOver(s: State, a: Action, t: State)
    requires Holders(s) && Next(s, a) == Some(t)
    ensures a.Destroy? ==> a.token < |t.tokens| && t.tokens[a.token] == None
    ensures a.Destroy? && s.tokens[a.token].Some? ==> ReleaseBegun(s, t, s.tokens[a.token].value)
    ensures a.MoveConstruct? ==>
      && |t.tokens| == |s.tokens| + 1 && t.tokens[|s.tokens|] == s.tokens[a.from] && t.tokens[a.from] == None
    ensures a.MoveAssign? && a.token != a.from ==>
      && |t.tokens| == |s.tokens| && t.tokens[a.token] == s.tokens[a.from] && t.tokens[a.from] == None
      && (s.tokens[a.token].Some? ==> ReleaseBegun(s, t, s.tokens[a.token].value))
    ensures a.MoveAssign? && a.token == a.from ==> t == s
  {
    match a
    case MoveAssign(k, from) =>
      if k != from && s.tokens[k].Some? {
        assert s.tokens[k] != s.tokens[from];
      }
    case _ =>
  }

  lemma WriterStepOwns(s: State, i: nat, c: Choice, t: State, r: nat)
    requires Holders(s) && r < |s.regs| && i < |s.threads| && ThreadStep(s, i, c) == Some(t)
    requires s.threads[i].Registering? || s.threads[i].Releasing?
    ensures r < |t.regs| && t.regs[r].writer == s.regs[r].writer
    ensures t.regs[r] == s.regs[r] || (t.regs[r].holder == Released && s.regs[r].holder == InRelease(i))
  {
  }

  lemma BeginReleaseOwns(s: State, k: nat, r: nat)
    requires Holders(s) && k < |s.tokens| && r < |s.regs|
    ensures var t := BeginRelease(s, k);
      && |t.regs| == |s.regs| && |t.tokens| == |s.tokens| && t.regs[r].writer == s.regs[r].writer
      && (t.regs[r] == s.regs[r] || (t.regs[r].holder == InRelease(|s.threads|) && s.regs[r].holder == InToken(k)))
      && (forall j :: 0 <= j < |s.tokens| && j != k ==> t.tokens[j] == s.tokens[j])
      && (forall j :: 0 <= j < |s.tokens| && t.tokens[j].Some? ==>
            t.tokens[j].value < |t.regs| && t.regs[t.tokens[j].value].holder == InToken(j))
  {
  }

  lemma TransferOwns(s: State, k: nat, from: nat, r: nat)
    requires k < |s.tokens| && from < |s.tokens| && r < |s.regs|
    requires s.tokens[from].Some? ==>
      s.tokens[from].value < |s.regs| && s.regs[s.tokens[from].value].holder == InToken(from)
    ensures var t := Transfer(s, k, from);
      && |t.regs| == |s.regs| && t.regs[r].writer == s.regs[r].writer
      && (t.regs[r] == s.regs[r] || (t.regs[r].holder == InToken(k) && s.regs[r].holder == InToken(from)))
  {
  }

  /** `active_writer_` is the writer of the latest registration if that is unreleased, else null. */
  predicate ActiveIsExact(s: State) {
    s.mem.active == if s.regs != [] && s.regs[|s.regs| - 1].holder != Released
                    then Some(s.regs[|s.regs| - 1].writer) else None
  }

  /** The step is a stale stream's release at the address of the latest, still open one. */
  predicate IsAliasedRelease(s: State, a: Action) {
    && a.Step? && a.choice == Go && a.thread < |s.threads|
    && s.threads[a.thread].Releasing? && s.threads[a.thread].section == Holding
    && var r, last := s.threads[a.thread].registration, |s.regs| - 1;
       r < last && s.regs[r].writer == s.regs[last].writer && s.regs[last].holder != Released
  }

  /**
   The contract of StreamToken, that a stale close never clears a newer
   writer, is broken by exactly one kind of step: releasing a stale
   registration whose writer has the address of the latest open one.
   */
  lemma StaleCloseExactly(s: State, a: Action, t: State)
    requires Inv(s) && ActiveIsExact(s) && Next(s, a) == Some(t)
    ensures ActiveIsExact(t) <==> !IsAliasedRelease(s, a)
  {
    match a
    case Step(i, c) =>
      if s.threads[i].Dispatching? { DispatchFrame(s, i, c, t); }
      else if s.threads[i].Fulfilling? { FulfilFrame(s, i, c, t); }
      else if s.threads[i].Registering? { RegisterIsExact(s, i, c, t); }
      else { ReleaseIsExact(s, i, c, t); }
    case _ =>
      CallFrame(s, a, t);
      CallKeepsExact(s, a, t);
  }

  lemma CallKeepsExact(s: State, a: Action, t: State)
    requires Holders(s) && ActiveIsExact(s) && !a.Step? && Next(s, a) == Some(t) && t.mem == s.mem
    ensures ActiveIsExact(t)
  {
    CallKeepsRegistrations(s, a, t);
  }

  lemma RegisterIsExact(s: State, i: nat, c: Choice, t: State)
    requires ActiveIsExact(s) && i < |s.threads| && s.threads[i].Registering? && RegisterStep(s, i, c) == Some(t)
    ensures ActiveIsExact(t)
  {
  }

  lemma ReleaseIsExact(s: State, i: nat, c: Choice, t: State)
    requires Holders(s) && ActiveIsExact(s)
    requires i < |s.threads| && s.threads[i].Releasing? && ReleaseStep(s, i, c) == Some(t)
    ensures ActiveIsExact(t) <==> !IsAliasedRelease(s, Step(i, c))
  {
    assert s.threads[i].registration < |s.regs|;
  }

  /** The active writer is exact at every state of the run. */
  predicate ExactThroughout(s: State, actions: seq<Action>)
    decreases actions
  {
    && ActiveIsExact(s)
    && (actions != [] && Next(s, actions[0]).Some? ==> ExactThroughout(Next(s, actions[0]).value, actions[1..]))
  }

  predicate HasAliasedRelease(s: State, actions: seq<Action>)
    decreases actions
  {
    actions != [] && Next(s, actions[0]).Some? &&
    (IsAliasedRelease(s, actions[0]) || HasAliasedRelease(Next(s, actions[0]).value, actions[1..]))
  }

  lemma {:induction false} ExactUntilAliased(s: State, actions: seq<Action>, t: State)
    requires Inv(s) && ActiveIsExact(s) && Run(s, actions) == Some(t)
    ensures ExactThroughout(s, actions) <==> !HasAliasedRelease(s, actions)
    decreases actions
  {
    if actions != [] {
      var m := Next(s, actions[0]).value;
      StaleCloseExactly(s, actions[0], m);
      StepKeepsInv(s, actions[0], m);
      if ActiveIsExact(m) {
        ExactUntilAliased(m, actions[1..], t);
      }
    }
  }

  /**
   Over whole runs and for any addresses: a stale close never clears a newer
   stream if and only if the run has no aliased release.
   */
  lemma StaleCloseOverRuns(actions: seq<Action>, s: State)
    requires Run(Init(), actions) == Some(s)
    ensures ExactThroughout(Init(), actions) <==> !HasAliasedRelease(Init(), actions)
  {
    ExactUntilAliased(Init(), actions, s);
  }

  /** The step registers a writer whose address no open registration has. */
  predicate DistinctAddresses(s: State, a: Action) {
    a.Step? && a.thread < |s.threads| && s.threads[a.thread].Registering? && s.threads[a.thread].section == Holding ==>
      forall r :: 0 <= r < |s.regs| && s.regs[r].holder != Released ==> s.regs[r].writer != s.threads[a.thread].writer
  }

  predicate AllDistinct(s: State, actions: seq<Action>)
    decreases actions
  {
    actions != [] ==>
      && DistinctAddresses(s, actions[0])
      && (Next(s, actions[0]).Some? ==> AllDistinct(Next(s, actions[0]).value, actions[1..]))
  }

  /** Open registrations have different addresses. */
  predicate OpenDistinct(s: State) {
    forall q, r :: 0 <= q < r < |s.regs| && s.regs[q].holder != Released && s.regs[r].holder != Released ==>
      s.regs[q].writer != s.regs[r].writer
  }

  lemma StepKeepsOpenDistinct(s: State, a: Action, t: State)
    requires Holders(s) && OpenDistinct(s) && DistinctAddresses(s, a) && Next(s, a) == Some(t)
    ensures OpenDistinct(t)
  {
    match a
    case Step(i, c) =>
      if s.threads[i].Dispatching? { DispatchFrame(s, i, c, t); }
      else if s.threads[i].Fulfilling? { FulfilFrame(s, i, c, t); }
    case _ => CallKeepsRegistrations(s, a, t);
  }

  lemma {:induction false} DistinctRunsStayExact(s: State, actions: seq<Action>, t: State)
    requires Inv(s) && ActiveIsExact(s) && OpenDistinct(s) && AllDistinct(s, actions) && Run(s, actions) == Some(t)
    ensures ActiveIsExact(t)
    decreases actions
  {
    if actions != [] {
      var m := Next(s, actions[0]).value;
      StaleReleaseIsOpen(s, actions[0]);
      StaleCloseExactly(s, actions[0], m);
      StepKeepsInv(s, actions[0], m);
      StepKeepsOpenDistinct(s, actions[0], m);
      DistinctRunsStayExact(m, actions[1..], t);
    }
  }

  lemma StaleReleaseIsOpen(s: State, a: Action)
    requires Holders(s) && OpenDistinct(s)
    ensures !IsAliasedRelease(s, a)
  {
  }

  /**
   While streams that are open at the same time have different addresses, the
   active writer is always the latest registration's if unreleased, else null:
   a stale close never clears a newer stream, in any interleaving.
   */
  lemma StaleCloseNeverClears(actions: seq<Action>, s: State)
    requires AllDistinct(Init(), actions) && Run(Init(), actions) == Some(s)
    ensures ActiveIsExact(s)
  {
    DistinctRunsStayExact(Init(), actions, s);
  }
}
