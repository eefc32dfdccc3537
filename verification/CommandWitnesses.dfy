/** Concrete runs that show each losing case, and the aliased release, do happen. */
module CommandWitnesses {
  import opened Wrappers
  import opened CommandMemory
  import opened CommandProtocol
  import opened CommandTheorems

  /** A dispatch has installed its promise, and nothing else has happened. */
  lemma FirstInstalled() returns (s: State)
    ensures Reachable(s)
    ensures s.threads == [Dispatching(1, Installed)] && s.regs == [] && s.writerLock == None && s.pendingLock == None
    ensures s.mem == Memory(2, None, {1}, map[1 := Unset], false) && s.owner == map[1 := 0] && s.fulfilled == map[]
  {
    assert Run(Init(), []) == Some(Init());
    s := Then(Init(), Init(), CallDispatch);
    s := Then(Init(), s, Step(0, Go));
    s := Then(Init(), s, Step(0, Go));
    s := Then(Init(), s, Step(0, Go));
  }

  /** The response has been accepted although nothing has been written yet. */
  lemma AnsweredBeforeWriting(status: CommandStatus) returns (s: State)
    ensures Reachable(s)
    ensures s.threads == [Dispatching(1, Installed), Fulfilling(1, status, Answered(true))]
    ensures s.writerLock == None && s.pendingLock == None
    ensures s.mem == Memory(2, None, {}, map[1 := Value(status)], false)
  {
    s := FirstInstalled();
    s := Then(Init(), s, CallFulfil(1, status));
    s := Then(Init(), s, Step(1, Go));
    s := Then(Init(), s, Step(1, Go));
    s := Then(Init(), s, Step(1, Go));
  }

  /** The answered response is lost when no stream is registered: a client may answer an id it was never sent. */
  lemma NoWriterLosesResponse(status: CommandStatus) returns (s: State)
    ensures Reachable(s) && Accepted(s, 1, 1)
    ensures s.threads[0] == Dispatching(1, Returned(NoWriter, NOT_SUPPORTED)) && s.threads[1].status == status
  {
    s := AnsweredBeforeWriting(status);
    s := Then(Init(), s, Step(0, Go));
    s := Then(Init(), s, Step(0, Go));
    s := Then(Init(), s, Step(0, Go));
    s := Then(Init(), s, Step(0, Go));
  }

  /** A dispatch is inside Write. */
  lemma FirstWriting(w: Writer) returns (s: State)
    ensures Reachable(s)
    ensures s.threads == [Dispatching(1, Writing(w)), Registering(w, Done)]
    ensures s.writerLock == Some(0) && s.pendingLock == None
    ensures s.mem == Memory(2, Some(w), {1}, map[1 := Unset], false) && s.owner == map[1 := 0] && s.fulfilled == map[]
  {
    s := FirstInstalled();
    s := Then(Init(), s, CallRegister(w));
    s := Then(Init(), s, Step(1, Go));
    s := Then(Init(), s, Step(1, Go));
    s := Then(Init(), s, Step(0, Go));
    s := Then(Init(), s, Step(0, Go));
  }

  /** The response has been accepted although the write is still going on. */
  lemma AnsweredDuringWrite(w: Writer, status: CommandStatus) returns (s: State)
    ensures Reachable(s) && s.writerLock == Some(0) && s.pendingLock == None
    ensures s.threads == [Dispatching(1, Writing(w)), Registering(w, Done), Fulfilling(1, status, Answered(true))]
    ensures s.mem == Memory(2, Some(w), {}, map[1 := Value(status)], false)
  {
    s := FirstWriting(w);
    s := Then(Init(), s, CallFulfil(1, status));
    s := Then(Init(), s, Step(2, Go));
    s := Then(Init(), s, Step(2, Go));
    s := Then(Init(), s, Step(2, Go));
  }

  /** The response arrives before Write returns, and Write then fails. */
  lemma FailedWriteLosesResponse(w: Writer, status: CommandStatus) returns (s: State)
    ensures Reachable(s) && Accepted(s, 2, 1)
    ensures s.threads[0] == Dispatching(1, Returned(WriteFalse, DOWNSTREAM_FAIL)) && s.threads[2].status == status
  {
    s := AnsweredDuringWrite(w, status);
    s := Then(Init(), s, Step(0, WriteReturns(false)));
    s := Then(Init(), s, Step(0, Go));
    s := Then(Init(), s, Step(0, Go));
  }

  /** The response arrives before Write returns, and Write succeeds: it is delivered. */
  lemma EarlyResponseIsDelivered(w: Writer, status: CommandStatus) returns (s: State)
    ensures Reachable(s) && Accepted(s, 2, 1)
    ensures s.threads[0] == Dispatching(1, Returned(Future, status)) && s.threads[2].status == status
  {
    s := AnsweredDuringWrite(w, status);
    s := Then(Init(), s, Step(0, WriteReturns(true)));
    s := Then(Init(), s, Step(0, Go));
  }

  /** A dispatch has written and observed its timeout. */
  lemma FirstTimedOut(w: Writer) returns (s: State)
    ensures Reachable(s)
    ensures s.threads == [Dispatching(1, Leaving(TimedOut)), Registering(w, Done)] && s.pendingLock == None
    ensures s.mem == Memory(2, Some(w), {1}, map[1 := Unset], false) && s.owner == map[1 := 0]
  {
    s := FirstWriting(w);
    s := Then(Init(), s, Step(0, WriteReturns(true)));
    s := Then(Init(), s, Step(0, TimerFires));
  }

  /** The response has been accepted although the timeout has been observed. */
  lemma AnsweredAfterTimeout(w: Writer, status: CommandStatus) returns (s: State)
    ensures Reachable(s) && s.pendingLock == None
    ensures s.threads
         == [Dispatching(1, Leaving(TimedOut)), Registering(w, Done), Fulfilling(1, status, Answered(true))]
  {
    s := FirstTimedOut(w);
    s := Then(Init(), s, CallFulfil(1, status));
    s := Then(Init(), s, Step(2, Go));
    s := Then(Init(), s, Step(2, Go));
    s := Then(Init(), s, Step(2, Go));
  }

  /** The response lands between the observed timeout and the erase. */
  lemma TimeoutLosesResponse(w: Writer, status: CommandStatus) returns (s: State)
    ensures Reachable(s) && Accepted(s, 2, 1)
    ensures s.threads[0] == Dispatching(1, Returned(TimedOut, TIMEOUT)) && s.threads[2].status == status
  {
    s := AnsweredAfterTimeout(w, status);
    s := Then(Init(), s, Step(0, Go));
    s := Then(Init(), s, Step(0, Go));
  }

  /** Two streams are open at one address. */
  lemma TwoAtOneAddress(w: Writer) returns (s: State)
    ensures Reachable(s) && s.threads == [Registering(w, Done), Registering(w, Done)]
    ensures s.tokens == [Some(0), Some(1)] && s.writerLock == None && s.mem.active == Some(w)
    ensures s.regs == [Registration(w, InToken(0), 0), Registration(w, InToken(1), 0)]
  {
    assert Run(Init(), []) == Some(Init());
    s := Then(Init(), Init(), CallRegister(w));
    s := Then(Init(), s, Step(0, Go));
    s := Then(Init(), s, Step(0, Go));
    s := Then(Init(), s, CallRegister(w));
    s := Then(Init(), s, Step(1, Go));
    s := Then(Init(), s, Step(1, Go));
  }

  /** Two streams at one address: closing the first clears the writer of the second. */
  lemma AliasedReleaseClearsNewer(w: Writer) returns (s: State)
    ensures Reachable(s)
    ensures s.mem.active == None && |s.regs| == 2 && IsOpen(s, 1) && s.regs[1].writer == w
  {
    s := TwoAtOneAddress(w);
    s := Then(Init(), s, Destroy(0));
    s := Then(Init(), s, Step(2, Go));
    s := Then(Init(), s, Step(2, Go));
  }
}
