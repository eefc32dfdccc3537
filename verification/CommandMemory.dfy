/**
 What the dispatcher's threads share, and the body of each critical section on
 it. The class and the concurrent protocol are both written with these.
 */
module CommandMemory {
  import opened Wrappers

  /** `opendnp3::CommandStatus`, the values the bridge uses. */
  datatype CommandStatus =
    | SUCCESS | TIMEOUT | NO_SELECT | FORMAT_ERROR | NOT_SUPPORTED | ALREADY_ACTIVE
    | HARDWARE_ERROR | LOCAL | TOO_MANY_OPS | NOT_AUTHORIZED | DOWNSTREAM_FAIL | UNDEFINED

  /** The code a status has on the wire (IEEE Std 1815-2012, control status codes). */
  function StatusCode(s: CommandStatus): nat {
    match s
    case SUCCESS => 0
    case TIMEOUT => 1
    case NO_SELECT => 2
    case FORMAT_ERROR => 3
    case NOT_SUPPORTED => 4
    case ALREADY_ACTIVE => 5
    case HARDWARE_ERROR => 6
    case LOCAL => 7
    case TOO_MANY_OPS => 8
    case NOT_AUTHORIZED => 9
    case DOWNSTREAM_FAIL => 18
    case UNDEFINED => 127
  }

  /** A stream writer, by address: two streams may use the same one at different times. */
  datatype Writer = Writer(address: nat)

  /** The state a promise shares with its future. Broken: the promise was destroyed unset. */
  datatype SharedState = Unset | Value(status: CommandStatus) | Broken

  datatype Memory = Memory(
    nextId: nat,
    active: Option<Writer>,
    pending: set<nat>,              // the keys of `pending_`
    shared: map<nat, SharedState>,  // by the command id whose promise it belongs to
    fault: bool)                    // a std::future_error was thrown

  function Start(): Memory {
    Memory(1, None, {}, map[], false)
  }

  function SharedOf(m: Memory, id: nat): SharedState {
    if id in m.shared then m.shared[id] else Unset
  }

  /** `next_id_.fetch_add(1)`. */
  function TakeId(m: Memory): Memory {
    m.(nextId := m.nextId + 1)
  }

  /** `pending_[id]` and `get_future`, which throws when the future was taken before. */
  function Install(m: Memory, id: nat): Memory {
    if id in m.pending then m.(fault := true)
    else m.(pending := m.pending + {id}, shared := m.shared[id := Unset])
  }

  /** `pending_.erase(id)`: an unset promise breaks. */
  function Erase(m: Memory, id: nat): Memory {
    if id !in m.pending then m
    else m.(pending := m.pending - {id},
            shared := m.shared[id := if SharedOf(m, id) == Unset then Broken else SharedOf(m, id)])
  }

  /** `set_value`, which throws when the promise is already set; the waiting thread sees the value at once. */
  function SetValue(m: Memory, id: nat, status: CommandStatus): Memory {
    if SharedOf(m, id) != Unset then m.(fault := true)
    else m.(shared := m.shared[id := Value(status)])
  }

  /** A promise error is raised exactly by taking a future twice or setting a promise twice. */
  lemma FaultsAreMisuse(m: Memory, id: nat, status: CommandStatus)
    ensures Install(m, id).fault <==> m.fault || id in m.pending
    ensures SetValue(m, id, status).fault <==> m.fault || (id in m.shared && m.shared[id] != Unset)
    ensures Erase(m, id).fault == m.fault
  {
  }

  /** The whole body of `fulfill`: set the value, then erase the entry. */
  function Resolve(m: Memory, id: nat, status: CommandStatus): Memory {
    if id !in m.pending then m
    else if SharedOf(m, id) != Unset then SetValue(m, id, status)
    else Erase(SetValue(m, id, status), id)
  }

  /** The answer of `fulfill`. */
  predicate Resolves(m: Memory, id: nat) {
    id in m.pending
  }

  function SetWriter(m: Memory, w: Writer): Memory {
    m.(active := Some(w))
  }

  /** The body of `StreamToken::release`. */
  function ClearWriter(m: Memory, w: Writer): Memory {
    if m.active == Some(w) then m.(active := None) else m
  }

  /** `future.wait_for` finds the shared state ready: set, or broken. */
  predicate Ready(m: Memory, id: nat) {
    SharedOf(m, id) != Unset
  }
}
