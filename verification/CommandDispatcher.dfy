/**
 `CommandDispatcher` and `StreamToken` as the objects they are. `Dispatch` is
 the calling thread's own code; what other threads do between its critical
 sections is given as a script.
 */
module CommandDispatcher {
  import opened Wrappers
  import opened CommandMemory

  /**
   What another thread can do in one go: answer a response, open or close a
   stream, take an id and install its promise, or erase its entry.
   */
  datatype Other =
    | Respond(id: nat, status: CommandStatus)
    | OpenStream(writer: Writer)
    | CloseStream(writer: Writer)
    | OtherInstalls
    | OtherErases(id: nat)

  function Interfere(m: Memory, o: Other): Memory {
    match o
    case Respond(id, status) => Resolve(m, id, status)
    case OpenStream(w) => SetWriter(m, w)
    case CloseStream(w) => ClearWriter(m, w)
    case OtherInstalls => Install(TakeId(m), m.nextId)
    case OtherErases(id) => Erase(m, id)
  }

  /** No other thread erases the entry of this id: only its own dispatch does. */
  predicate Spares(others: seq<Other>, id: nat) {
    forall o :: o in others && o.OtherErases? ==> o.id != id
  }

  function After(m: Memory, others: seq<Other>): Memory
    decreases others
  {
    if others == [] then m else After(Interfere(m, others[0]), others[1..])
  }

  /** The status of the first response for this id, if there is one. */
  function FirstResponse(others: seq<Other>, id: nat): Option<CommandStatus> {
    if others == [] then None
    else if others[0].Respond? && others[0].id == id then Some(others[0].status)
    else FirstResponse(others[1..], id)
  }

  /** Entries are unset promises of issued ids, and nothing has gone wrong. */
  predicate Sound(m: Memory) {
    && !m.fault
    && m.nextId >= 1
    && forall id :: id in m.pending ==> id < m.nextId && id in m.shared && m.shared[id] == Unset
  }

  lemma {:induction false} AfterJoin(m: Memory, xs: seq<Other>, ys: seq<Other>)
    ensures After(m, xs + ys) == After(After(m, xs), ys)
    decreases xs
  {
    if xs == [] {
      assert xs + ys == ys;
    } else {
      assert (xs + ys)[1..] == xs[1..] + ys;
      AfterJoin(Interfere(m, xs[0]), xs[1..], ys);
    }
  }

  /** The first response for a pending id settles it; later ones, and ones for other ids, change nothing about it. */
  lemma {:induction false} FirstResponseSettles(m: Memory, others: seq<Other>, id: nat)
    requires Sound(m) && id < m.nextId && Spares(others, id)
    ensures Sound(After(m, others)) && id < After(m, others).nextId
    ensures id !in m.pending ==> id !in After(m, others).pending && SharedOf(After(m, others), id) == SharedOf(m, id)
    ensures id in m.pending ==>
      var r := FirstResponse(others, id);
      && (id in After(m, others).pending <==> r.None?)
      && SharedOf(After(m, others), id) == if r.None? then Unset else Value(r.value)
    decreases others
  {
    if others != [] {
      FirstResponseSettles(Interfere(m, others[0]), others[1..], id);
    }
  }

  /** m and m' differ at most in what they say about one id. */
  ghost predicate SameBut(m: Memory, m': Memory, id: nat) {
    && m.active == m'.active && m.fault == m'.fault && m.nextId == m'.nextId
    && forall k: nat :: k != id ==>
         (k in m.pending <==> k in m'.pending) && SharedOf(m, k) == SharedOf(m', k)
  }

  /** Beside its own promise's state, a dispatch left memory as alone has it, with no entry pending. */
  ghost predicate LeftNoTrace(m: Memory, alone: Memory, id: nat) {
    SameBut(m, alone, id) && m.pending == alone.pending
  }

  lemma OneKeepsSameBut(m: Memory, m': Memory, o: Other, id: nat)
    requires Sound(m) && Sound(m') && SameBut(m, m', id) && id < m.nextId && Spares([o], id)
    ensures SameBut(Interfere(m, o), Interfere(m', o), id)
  {
    assert o in [o];
  }

  lemma {:induction false} OneKeepsSound(m: Memory, o: Other)
    requires Sound(m)
    ensures Sound(Interfere(m, o)) && m.nextId <= Interfere(m, o).nextId
  {
  }

  lemma {:induction false} OthersKeepSameBut(m: Memory, m': Memory, others: seq<Other>, id: nat)
    requires Sound(m) && Sound(m') && SameBut(m, m', id) && id < m.nextId && Spares(others, id)
    ensures SameBut(After(m, others), After(m', others), id)
    decreases others
  {
    if others != [] {
      OneKeepsSameBut(m, m', others[0], id);
      OneKeepsSound(m, others[0]);
      OneKeepsSound(m', others[0]);
      OthersKeepSameBut(Interfere(m, others[0]), Interfere(m', others[0]), others[1..], id);
    }
  }

  datatype WriteOutcome = Wrote | ReturnedFalse | Threw

  /** What other threads do while a dispatch runs, and how its write ends. */
  datatype Script = Script(
    beforeInstall: seq<Other>,
    beforeWriter: seq<Other>,
    duringWrite: seq<Other>,
    write: WriteOutcome,
    untilTimeout: seq<Other>,
    beforeErase: seq<Other>)
  {
    /** What the other threads can do while this dispatch, with this id, runs: streams are locked during its write. */
    predicate Possible(id: nat) {
      && Spares(beforeInstall, id) && Spares(beforeWriter, id) && Spares(duringWrite, id)
      && Spares(untilTimeout, id) && Spares(beforeErase, id)
      && forall o :: o in duringWrite ==> !o.OpenStream? && !o.CloseStream?
    }
  }

  /** The responses that can still reach a dispatch that gets to wait. */
  function InTime(sc: Script): seq<Other> {
    sc.beforeWriter + sc.duringWrite + sc.untilTimeout
  }

  /** What a dispatch must answer, read off the script, given the writer it finds. */
  function Outcome(writer: Option<Writer>, sc: Script, id: nat): CommandStatus {
    if writer.None? then NOT_SUPPORTED
    else if sc.write != Wrote then DOWNSTREAM_FAIL
    else match FirstResponse(InTime(sc), id)
      case Some(status) => status
      case None => TIMEOUT
  }

  /** The other threads' sections from the writer check on, in order. */
  function RanAfterCheck(writer: Option<Writer>, sc: Script, id: nat): seq<Other> {
    if writer.None? then sc.beforeErase
    else if sc.write != Wrote then sc.duringWrite + sc.beforeErase
    else if FirstResponse(InTime(sc), id).Some? then sc.duringWrite + sc.untilTimeout
    else sc.duringWrite + sc.untilTimeout + sc.beforeErase
  }

  /** The memory at the writer check had the id been taken and never used. */
  function AtCheck(m: Memory, sc: Script): Memory {
    After(m, sc.beforeInstall + sc.beforeWriter)
  }

  /** The memory a dispatch leaves behind, and its answer. */
  datatype Ending = Ending(mem: Memory, result: CommandStatus)

  /** The sections of a dispatch and of the other threads, one after the other. */
  function Ends(m: Memory, sc: Script): Ending {
    EndsFromCheck(After(Install(After(TakeId(m), sc.beforeInstall), m.nextId), sc.beforeWriter), sc, m.nextId)
  }

  function EndsFromCheck(m: Memory, sc: Script, id: nat): Ending {
    if m.active.None? then Ending(Erase(After(m, sc.beforeErase), id), NOT_SUPPORTED)
    else EndsFromWrite(After(m, sc.duringWrite), sc, id)
  }

  function EndsFromWrite(m: Memory, sc: Script, id: nat): Ending {
    if sc.write != Wrote then Ending(Erase(After(m, sc.beforeErase), id), DOWNSTREAM_FAIL)
    else
      var waited := After(m, sc.untilTimeout);
      match SharedOf(waited, id)
      case Unset => Ending(Erase(After(waited, sc.beforeErase), id), TIMEOUT)
      case Value(status) => Ending(waited, status)
      case Broken => Ending(waited.(fault := true), UNDEFINED)
  }

  lemma {:induction false} FirstResponseJoin(xs: seq<Other>, ys: seq<Other>, id: nat)
    ensures FirstResponse(xs + ys, id)
         == if FirstResponse(xs, id).Some? then FirstResponse(xs, id) else FirstResponse(ys, id)
    decreases xs
  {
    if xs == [] {
      assert xs + ys == ys;
    } else {
      assert (xs + ys)[1..] == xs[1..] + ys;
      FirstResponseJoin(xs[1..], ys, id);
    }
  }

  class CommandDispatcher {
    var nextId: nat
    var active: Option<Writer>
    var pending: set<nat>
    var shared: map<nat, SharedState>
    var fault: bool

    function View(): Memory
      reads this
    {
      Memory(nextId, active, pending, shared, fault)
    }

    constructor ()
      ensures View() == Start() && Sound(View())
    {
      nextId, active, pending, shared, fault := 1, None, {}, map[], false;
    }

    /** `pending_[id]`, `get_future`. */
    method InstallEntry(id: nat)
      modifies this`pending, this`shared, this`fault
      ensures View() == Install(old(View()), id)
      ensures fault == (old(fault) || id in old(pending))
      ensures id in pending && (id !in old(pending) ==> id in shared && shared[id] == Unset)
    {
      if id in pending {
        fault := true;
      } else {
        pending := pending + {id};
        shared := shared[id := Unset];
      }
    }

    method EraseEntry(id: nat)
      modifies this`pending, this`shared
      ensures View() == Erase(old(View()), id)
      ensures pending == old(pending) - {id}
      ensures id in old(pending) ==>
        id in shared && shared[id] == if SharedOf(old(View()), id).Value? then old(shared)[id] else Broken
    {
      if id in pending {
        var before := if id in shared then shared[id] else Unset;
        shared := shared[id := if before == Unset then Broken else before];
        pending := pending - {id};
      }
    }

    /** `fulfill`. */
    method Fulfil(id: nat, status: CommandStatus) returns (ok: bool)
      modifies this`pending, this`shared, this`fault
      ensures View() == Resolve(old(View()), id, status)
      ensures ok == Resolves(old(View()), id)
      ensures ok <==> id in old(pending)
      ensures ok && SharedOf(old(View()), id) == Unset ==>
        pending == old(pending) - {id} && id in shared && shared[id] == Value(status) && fault == old(fault)
      ensures ok && SharedOf(old(View()), id) != Unset ==> fault
    {
      if id !in pending { return false; }
      if id in shared && shared[id] != Unset {
        fault := true;
      } else {
        shared := shared[id := Value(status)];
        pending := pending - {id};
      }
      return true;
    }

    /** `registerWriter`. */
    method RegisterWriter(w: Writer) returns (token: StreamToken)
      modifies this`active
      ensures View() == SetWriter(old(View()), w) && active == Some(w)
      ensures fresh(token) && token.dispatcher == this && token.writer == w
    {
      active := Some(w);
      token := new StreamToken(this, w);
    }

    /** The critical section of `StreamToken::release`. */
    method Unregister(w: Writer)
      modifies this`active
      ensures View() == ClearWriter(old(View()), w)
      ensures active == if old(active) == Some(w) then None else old(active)
    {
      if active == Some(w) {
        active := None;
      }
    }

    /** Other threads' critical sections, one after the other. */
    method RunOthers(others: seq<Other>)
      modifies this
      ensures View() == After(old(View()), others)
    {
      var rest := others;
      while rest != []
        invariant After(View(), rest) == After(old(View()), others)
      {
        match rest[0] {
          case Respond(id, status) => var _ := Fulfil(id, status);
          case OpenStream(w) => active := Some(w);
          case CloseStream(w) => Unregister(w);
          case OtherInstalls =>
            nextId := nextId + 1;
            InstallEntry(nextId - 1);
          case OtherErases(id) => EraseEntry(id);
        }
        rest := rest[1..];
      }
    }

    /**
     Other threads' sections while a dispatch of this id is in progress. alone
     is what they would have made of a memory that never knew the dispatch.
     */
    method RunBeside(others: seq<Other>, id: nat, ghost alone: Memory) returns (ghost alone': Memory)
      requires Sound(View()) && Sound(alone) && SameBut(View(), alone, id) && id !in alone.pending
      requires id < nextId && Spares(others, id)
      modifies this
      ensures View() == After(old(View()), others) && alone' == After(alone, others)
      ensures Sound(View()) && Sound(alone') && SameBut(View(), alone', id) && id !in alone'.pending
      ensures id < nextId
      ensures id !in old(pending) ==> id !in pending && SharedOf(View(), id) == SharedOf(old(View()), id)
      ensures id in old(pending) ==>
        var r := FirstResponse(others, id);
        && (id in pending <==> r.None?)
        && SharedOf(View(), id) == if r.None? then Unset else Value(r.value)
    {
      FirstResponseSettles(View(), others, id);
      FirstResponseSettles(alone, others, id);
      OthersKeepSameBut(View(), alone, others, id);
      RunOthers(others);
      alone' := After(alone, others);
    }

    /**
     `dispatch`. Under any script it answers: NOT_SUPPORTED when no stream is
     registered at its check, DOWNSTREAM_FAIL when its write fails, else the
     first response for its id between install and observed timeout, else
     TIMEOUT. It takes the next id, raises no promise error, and leaves what is
     recorded about every other id, and the table of pending ids, as the other
     threads would have left it had that id been taken and never used.
     */
    method Dispatch(sc: Script) returns (result: CommandStatus)
      requires Sound(View())
      requires sc.Possible(nextId)
      modifies this
      ensures Sound(View())
      ensures Ending(View(), result) == Ends(old(View()), sc)
      ensures result == Outcome(AtCheck(TakeId(old(View())), sc).active, sc, old(nextId))
      ensures var alone, id := AtCheck(TakeId(old(View())), sc), old(nextId);
        LeftNoTrace(View(), After(alone, RanAfterCheck(alone.active, sc, id)), id)
    {
      ghost var alone;
      var id;
      id, alone := BeginDispatch(sc);
      result := FinishDispatch(sc, id, alone);
    }

    /** `dispatch` up to the writer check: takes the next id and installs its promise. */
    method BeginDispatch(sc: Script) returns (id: nat, ghost alone: Memory)
      requires Sound(View())
      requires sc.Possible(nextId)
      modifies this
      ensures id == old(nextId) < nextId && alone == AtCheck(TakeId(old(View())), sc)
      ensures View() == After(Install(After(TakeId(old(View())), sc.beforeInstall), id), sc.beforeWriter)
      ensures Sound(View()) && Sound(alone) && SameBut(View(), alone, id) && id !in alone.pending
      ensures var r := FirstResponse(sc.beforeWriter, id);
        && (id in pending <==> r.None?)
        && SharedOf(View(), id) == if r.None? then Unset else Value(r.value)
    {
      id := nextId;
      nextId := nextId + 1;
      ghost var m := View();
      alone := RunBeside(sc.beforeInstall, id, m);
      InstallEntry(id);
      alone := RunBeside(sc.beforeWriter, id, alone);
      AfterJoin(m, sc.beforeInstall, sc.beforeWriter);
    }

    /** `dispatch` from the writer check on; sc.beforeWriter has already run. */
    method FinishDispatch(sc: Script, id: nat, ghost alone: Memory) returns (result: CommandStatus)
      requires Sound(View()) && Sound(alone) && SameBut(View(), alone, id) && id !in alone.pending
      requires id < nextId && sc.Possible(id)
      requires var r := FirstResponse(sc.beforeWriter, id);
        && (id in pending <==> r.None?)
        && SharedOf(View(), id) == if r.None? then Unset else Value(r.value)
      modifies this
      ensures Sound(View())
      ensures Ending(View(), result) == EndsFromCheck(old(View()), sc, id)
      ensures result == Outcome(alone.active, sc, id)
      ensures LeftNoTrace(View(), After(alone, RanAfterCheck(alone.active, sc, id)), id)
    {
      ghost var alone' := alone;
      if active.None? {
        alone' := LeaveEmpty(sc.beforeErase, id, alone);
        return NOT_SUPPORTED;
      }
      alone' := RunBeside(sc.duringWrite, id, alone);
      if sc.write != Wrote {
        AfterJoin(alone, sc.duringWrite, sc.beforeErase);
        alone' := LeaveEmpty(sc.beforeErase, id, alone');
        return DOWNSTREAM_FAIL;
      }
      alone' := RunBeside(sc.untilTimeout, id, alone');
      AfterJoin(alone, sc.duringWrite, sc.untilTimeout);
      FirstResponseJoin(sc.beforeWriter, sc.duringWrite, id);
      FirstResponseJoin(sc.beforeWriter + sc.duringWrite, sc.untilTimeout, id);
      if id !in shared || shared[id] == Unset {
        AfterJoin(alone, sc.duringWrite + sc.untilTimeout, sc.beforeErase);
        alone' := LeaveEmpty(sc.beforeErase, id, alone');
        return TIMEOUT;
      }
      assert forall k: nat :: k in pending <==> k in alone'.pending;
      result := shared[id].status;
    }

    /** The way out of the four failing exits: others may still run, then the entry is erased. */
    method LeaveEmpty(others: seq<Other>, id: nat, ghost alone: Memory) returns (ghost alone': Memory)
      requires Sound(View()) && Sound(alone) && SameBut(View(), alone, id) && id !in alone.pending
      requires id < nextId && Spares(others, id)
      modifies this
      ensures Sound(View())
      ensures View() == Erase(After(old(View()), others), id)
      ensures alone' == After(alone, others) && LeftNoTrace(View(), alone', id)
    {
      alone' := RunBeside(others, id, alone);
      EraseEntry(id);
      assert forall k: nat :: k in pending <==> k in alone'.pending;
    }
  }

  /** Owns one registration; moving transfers it, destroying releases it. */
  class StreamToken {
    var dispatcher: CommandDispatcher?
    var writer: Writer

    constructor (dispatcher: CommandDispatcher, writer: Writer)
      ensures this.dispatcher == dispatcher && this.writer == writer
    {
      this.dispatcher, this.writer := dispatcher, writer;
    }

    constructor MoveFrom(other: StreamToken)
      modifies other`dispatcher
      ensures dispatcher == old(other.dispatcher) && writer == other.writer
      ensures other.dispatcher == null
    {
      dispatcher, writer := other.dispatcher, other.writer;
      new;
      other.dispatcher := null;
    }

    /** `release`: a disarmed token does nothing, an armed one clears its own writer only. */
    method Release()
      modifies this`dispatcher, dispatcher
      ensures dispatcher == null
      ensures old(dispatcher) != null ==> old(dispatcher).View() == ClearWriter(old(dispatcher.View()), writer)
    {
      if dispatcher == null { return; }
      dispatcher.Unregister(writer);
      dispatcher := null;
    }

    /** Move assignment: releases what this token held, takes over the other's, and is harmless on itself. */
    method MoveAssign(other: StreamToken)
      modifies this, other`dispatcher, dispatcher
      ensures this == other ==> dispatcher == old(dispatcher) && writer == old(writer)
      ensures this == other && dispatcher != null ==> dispatcher.View() == old(dispatcher.View())
      ensures this != other ==>
        dispatcher == old(other.dispatcher) && writer == other.writer && other.dispatcher == null
      ensures this != other && old(dispatcher) != null ==>
        old(dispatcher).View() == ClearWriter(old(dispatcher.View()), old(writer))
    {
      if this != other {
        Release();
        dispatcher := other.dispatcher;
        writer := other.writer;
        other.dispatcher := null;
      }
    }
  }
}
