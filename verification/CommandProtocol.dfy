/**
 The command dispatcher as a concurrent system: any number of threads inside
 `dispatch`, `fulfill`, `registerWriter` and `StreamToken::release`, over two
 mutexes. Acquiring a lock, the body of a critical section (which ends by
 releasing), a stream write, and a timer are separate steps; a run is any
 interleaving of them. A dispatch reads its future under no lock, so the body
 of `fulfill` is two steps: set the value, erase the entry.
 */
module CommandProtocol {
  import opened Wrappers
  import opened CommandMemory

  /** The five ways out of `dispatch`. */
  datatype Exit = Future | NoWriter | WriteFalse | WriteThrew | TimedOut

  function ExitStatus(e: Exit): CommandStatus
    requires e != Future
  {
    match e
    case NoWriter => NOT_SUPPORTED
    case WriteFalse => DOWNSTREAM_FAIL
    case WriteThrew => DOWNSTREAM_FAIL
    case TimedOut => TIMEOUT
  }

  datatype DispatchPc =
    | Entered                     // no id yet
    | Allocated                   // wants pending_mutex_ to install its promise
    | Installing                  // holds pending_mutex_
    | Installed                   // wants writer_mutex_
    | Checking                    // holds writer_mutex_, about to test active_writer_
    | Writing(target: Writer)     // holds writer_mutex_, inside Write
    | Waiting                     // in future.wait_for, holding nothing
    | Leaving(exit: Exit)         // wants pending_mutex_ to erase its entry
    | Erasing(exit: Exit)         // holds pending_mutex_
    | Returned(exit: Exit, result: CommandStatus)

  datatype FulfilPc =
    | Called                      // wants pending_mutex_
    | Searching                   // holds it
    | Settling                    // holds it; the value is set, the entry not yet erased
    | Answered(found: bool)

  datatype SectionPc = Wanting | Holding | Done

  datatype Thread =
    | Dispatching(id: nat, pc: DispatchPc)
    | Fulfilling(id: nat, status: CommandStatus, stage: FulfilPc)
    | Registering(writer: Writer, section: SectionPc)
    | Releasing(registration: nat, section: SectionPc)

  /** Who is responsible for releasing a registration. */
  datatype Holder = InToken(token: nat) | InRelease(thread: nat) | Released

  datatype Registration = Registration(writer: Writer, holder: Holder, releases: nat)

  /** An accepted response: its status, its thread, and whether the timeout had been observed by then. */
  datatype Fulfilment = Fulfilment(status: CommandStatus, thread: nat, late: bool)

  datatype State = State(
    mem: Memory,
    threads: seq<Thread>,
    writerLock: Option<nat>,       // holder of writer_mutex_
    pendingLock: Option<nat>,      // holder of pending_mutex_
    tokens: seq<Option<nat>>,      // the registration each token is armed with
    regs: seq<Registration>,       // all registrations, oldest first
    // History, read by no step.
    owner: map<nat, nat>,          // the dispatch thread of each issued id
    wrote: set<nat>,               // ids whose Write returned true
    fulfilled: map<nat, Fulfilment>,
    settling: Option<nat>)         // the id whose promise is set and whose entry is about to be erased

  /** How the environment resolves a step that could go several ways. */
  datatype Choice = Go | WriteReturns(ok: bool) | WriteThrows | TimerFires

  datatype Action =
    | CallDispatch
    | CallFulfil(id: nat, status: CommandStatus)
    | CallRegister(writer: Writer)
    | Destroy(token: nat)                  // ~StreamToken
    | MoveConstruct(from: nat)
    | MoveAssign(token: nat, from: nat)
    | Step(thread: nat, choice: Choice)

  function Init(): State {
    State(Start(), [], None, None, [], [], map[], {}, map[], None)
  }

  function At(s: State, i: nat, th: Thread): State
    requires i < |s.threads|
  {
    s.(threads := s.threads[i := th])
  }

  /** Program counters up to the writer check, where pending_mutex_ and then writer_mutex_ are taken. */
  predicate IsEarly(pc: DispatchPc) {
    pc == Entered || pc == Allocated || pc == Installing || pc == Installed || pc == Checking
  }

  /** `dispatch` up to and including its writer check. */
  function EarlyStep(s: State, i: nat, c: Choice): Option<State>
    requires i < |s.threads| && s.threads[i].Dispatching?
  {
    var Dispatching(id, pc) := s.threads[i];
    match (pc, c)
    case (Entered, Go) =>
      Some(At(s, i, Dispatching(s.mem.nextId, Allocated)).(mem := TakeId(s.mem), owner := s.owner[s.mem.nextId := i]))
    case (Allocated, Go) =>
      if s.pendingLock.Some? then None
      else Some(At(s, i, Dispatching(id, Installing)).(pendingLock := Some(i)))
    case (Installing, Go) =>
      Some(At(s, i, Dispatching(id, Installed)).(mem := Install(s.mem, id), pendingLock := None))
    case (Installed, Go) =>
      if s.writerLock.Some? then None
      else Some(At(s, i, Dispatching(id, Checking)).(writerLock := Some(i)))
    case (Checking, Go) =>
      Some(At(s, i, Dispatching(id, if s.mem.active.None? then Leaving(NoWriter) else Writing(s.mem.active.value))))
    case _ => None
  }

  /** `dispatch` from its write on. */
  function LateStep(s: State, i: nat, c: Choice): Option<State>
    requires i < |s.threads| && s.threads[i].Dispatching?
  {
    var Dispatching(id, pc) := s.threads[i];
    match (pc, c)
    case (Writing(_), WriteReturns(ok)) =>
      if ok then Some(At(s, i, Dispatching(id, Waiting)).(writerLock := None, wrote := s.wrote + {id}))
      else Some(At(s, i, Dispatching(id, Leaving(WriteFalse))))
    case (Writing(_), WriteThrows) =>
      Some(At(s, i, Dispatching(id, Leaving(WriteThrew))))
    case (Waiting, Go) =>
      if !Ready(s.mem, id) then None
      else if SharedOf(s.mem, id) == Broken then Some(s.(mem := s.mem.(fault := true)))
      else Some(At(s, i, Dispatching(id, Returned(Future, SharedOf(s.mem, id).status))))
    case (Waiting, TimerFires) =>
      if Ready(s.mem, id) then None
      else Some(At(s, i, Dispatching(id, Leaving(TimedOut))))
    case (Leaving(e), Go) =>
      if s.pendingLock.Some? then None
      else Some(At(s, i, Dispatching(id, Erasing(e))).(pendingLock := Some(i)))
    case (Erasing(e), Go) =>
      if e == Future then None
      else Some(At(s, i, Dispatching(id, Returned(e, ExitStatus(e)))).(
        mem := Erase(s.mem, id), pendingLock := None,
        writerLock := if e == TimedOut then s.writerLock else None))
    case _ => None
  }

  function DispatchStep(s: State, i: nat, c: Choice): Option<State>
    requires i < |s.threads| && s.threads[i].Dispatching?
  {
    if IsEarly(s.threads[i].pc) then EarlyStep(s, i, c) else LateStep(s, i, c)
  }

  /** Has the dispatch of this id observed its timeout and not yet erased its entry? */
  predicate InLossWindow(s: State, id: nat) {
    id in s.owner && s.owner[id] < |s.threads| && s.threads[s.owner[id]] == Dispatching(id, Leaving(TimedOut))
  }

  function FulfilStep(s: State, i: nat, c: Choice): Option<State>
    requires i < |s.threads| && s.threads[i].Fulfilling?
  {
    var Fulfilling(id, status, stage) := s.threads[i];
    match (stage, c)
    case (Called, Go) =>
      if s.pendingLock.Some? then None
      else Some(At(s, i, Fulfilling(id, status, Searching)).(pendingLock := Some(i)))
    case (Searching, Go) =>
      if Resolves(s.mem, id)
      then Some(At(s, i, Fulfilling(id, status, Settling)).(
        mem := SetValue(s.mem, id, status), settling := Some(id),
        fulfilled := s.fulfilled[id := Fulfilment(status, i, InLossWindow(s, id))]))
      else Some(At(s, i, Fulfilling(id, status, Answered(false))).(pendingLock := None))
    case (Settling, Go) =>
      Some(At(s, i, Fulfilling(id, status, Answered(true))).(
        mem := Erase(s.mem, id), settling := None, pendingLock := None))
    case _ => None
  }

  function RegisterStep(s: State, i: nat, c: Choice): Option<State>
    requires i < |s.threads| && s.threads[i].Registering?
  {
    var Registering(w, section) := s.threads[i];
    match (section, c)
    case (Wanting, Go) =>
      if s.writerLock.Some? then None
      else Some(At(s, i, Registering(w, Holding)).(writerLock := Some(i)))
    case (Holding, Go) =>
      Some(At(s, i, Registering(w, Done)).(
        mem := SetWriter(s.mem, w), writerLock := None,
        tokens := s.tokens + [Some(|s.regs|)],
        regs := s.regs + [Registration(w, InToken(|s.tokens|), 0)]))
    case _ => None
  }

  function ReleaseStep(s: State, i: nat, c: Choice): Option<State>
    requires i < |s.threads| && s.threads[i].Releasing?
  {
    var Releasing(r, section) := s.threads[i];
    match (section, c)
    case (Wanting, Go) =>
      if s.writerLock.Some? then None
      else Some(At(s, i, Releasing(r, Holding)).(writerLock := Some(i)))
    case (Holding, Go) =>
      if r >= |s.regs| then None
      else Some(At(s, i, Releasing(r, Done)).(
        mem := ClearWriter(s.mem, s.regs[r].writer), writerLock := None,
        regs := s.regs[r := Registration(s.regs[r].writer, Released, s.regs[r].releases + 1)]))
    case _ => None
  }

  function ThreadStep(s: State, i: nat, c: Choice): Option<State> {
    if i >= |s.threads| then None
    else match s.threads[i]
      case Dispatching(_, _) => DispatchStep(s, i, c)
      case Fulfilling(_, _, _) => FulfilStep(s, i, c)
      case Registering(_, _) => RegisterStep(s, i, c)
      case Releasing(_, _) => ReleaseStep(s, i, c)
  }

  /**
   `release()`: returns at once on a disarmed token, else a release of its
   registration is under way. It runs as a thread of its own, so after a move
   assignment it interleaves even more freely than in the source, where the
   assigning thread waits for it.
   */
  function BeginRelease(s: State, t: nat): State
    requires t < |s.tokens|
  {
    if s.tokens[t].None? then s
    else
      var r := s.tokens[t].value;
      s.(threads := s.threads + [Releasing(r, Wanting)],
         tokens := s.tokens[t := None],
         regs := if r < |s.regs| then s.regs[r := s.regs[r].(holder := InRelease(|s.threads|))] else s.regs)
  }

  /** Arms token t with what token `from` holds, and disarms `from`. */
  function Transfer(s: State, t: nat, from: nat): State
    requires t < |s.tokens| && from < |s.tokens|
  {
    var o := s.tokens[from];
    s.(tokens := s.tokens[t := o][from := None],
       regs := if o.Some? && o.value < |s.regs| then s.regs[o.value := s.regs[o.value].(holder := InToken(t))]
               else s.regs)
  }

  /** One step; None when the action is not enabled. */
  function Next(s: State, a: Action): Option<State> {
    match a
    case CallDispatch => Some(s.(threads := s.threads + [Dispatching(0, Entered)]))
    case CallFulfil(id, status) => Some(s.(threads := s.threads + [Fulfilling(id, status, Called)]))
    case CallRegister(w) => Some(s.(threads := s.threads + [Registering(w, Wanting)]))
    case Destroy(t) => if t < |s.tokens| then Some(BeginRelease(s, t)) else None
    case MoveConstruct(from) =>
      if from < |s.tokens| then Some(Transfer(s.(tokens := s.tokens + [None]), |s.tokens|, from)) else None
    case MoveAssign(t, from) =>
      if t >= |s.tokens| || from >= |s.tokens| then None
      else if t == from then Some(s)
      else Some(Transfer(BeginRelease(s, t), t, from))
    case Step(i, c) => ThreadStep(s, i, c)
  }

  function Run(s: State, actions: seq<Action>): Option<State>
    decreases actions
  {
    if actions == [] then Some(s)
    else match Next(s, actions[0])
      case None => None
      case Some(t) => Run(t, actions[1..])
  }

  /** Runs compose. */
  lemma {:induction false} RunsJoin(s: State, xs: seq<Action>, ys: seq<Action>)
    requires Run(s, xs).Some?
    ensures Run(s, xs + ys) == Run(Run(s, xs).value, ys)
    decreases xs
  {
    if xs == [] {
      assert xs + ys == ys;
    } else {
      assert (xs + ys)[1..] == xs[1..] + ys;
      RunsJoin(Next(s, xs[0]).value, xs[1..], ys);
    }
  }

  lemma RunOneMore(s: State, xs: seq<Action>, a: Action)
    requires Run(s, xs).Some?
    ensures Run(s, xs + [a]) == Next(Run(s, xs).value, a)
  {
    RunsJoin(s, xs, [a]);
    assert [a][1..] == [];
  }

  ghost predicate Reaches(s: State, t: State) {
    exists actions :: Run(s, actions) == Some(t)
  }

  lemma Then(g: State, s: State, a: Action) returns (t: State)
    requires Reaches(g, s) && Next(s, a).Some?
    ensures Reaches(g, t) && Next(s, a) == Some(t)
  {
    t := Next(s, a).value;
    var xs :| Run(g, xs) == Some(s);
    RunOneMore(g, xs, a);
    assert Run(g, xs + [a]) == Some(t);
  }
}
