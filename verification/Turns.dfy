/**
 The turn lifecycle: the transition table, and the manager that applies it to the
 turns of one pipeline.
 */
module Turns {
  import opened Std

  datatype TurnState =
    | Started | AsrProcessing | LlmThinking | TtsSynthesizing | Playing
    | Completed | Interrupted | Error | Cancelled

  predicate IsActive(s: TurnState) {
    s !in {Completed, Interrupted, Error, Cancelled}
  }

  /** The transition table. */
  function Allowed(s: TurnState): set<TurnState> {
    match s
    case Started => {AsrProcessing, LlmThinking, Cancelled, Error}
    case AsrProcessing => {LlmThinking, Cancelled, Error}
    case LlmThinking => {TtsSynthesizing, Interrupted, Cancelled, Error}
    case TtsSynthesizing => {Playing, Completed, Interrupted, Cancelled, Error}
    case Playing => {Completed, Interrupted, Cancelled, Error}
    case Interrupted => {Completed}
    case Completed => {}
    case Error => {}
    case Cancelled => {}
  }

  predicate CanTransition(a: TurnState, b: TurnState) { b in Allowed(a) }

  /** Whether a failure may overwrite state `s`. */
  predicate CanFail(s: TurnState, allowCompleted: bool, allowInterrupted: bool) {
    IsActive(s) || (allowCompleted && s == Completed) || (allowInterrupted && s == Interrupted)
  }

  datatype TurnRecord = TurnRecord(
    sessionId: string,
    turnSequence: nat,
    state: TurnState,
    createdAt: int,
    asrFirstAt: int,
    asrFinalAt: int,
    completedAt: int,
    interruptedAt: int,
    cancelled: bool)

  /** The manager's state as a value. */
  datatype Book = Book(turns: map<string, TurnRecord>, current: Option<string>)

  function Stamp(t: TurnRecord, s: TurnState, now: int): TurnRecord {
    var u := t.(state := s);
    match s
    case AsrProcessing => u.(asrFirstAt := now)
    case LlmThinking => u.(asrFinalAt := now)
    case Completed => u.(completedAt := now)
    case Interrupted => u.(interruptedAt := now)
    case _ => u
  }

  predicate ActiveIn(b: Book, id: string) {
    id in b.turns && IsActive(b.turns[id].state)
  }

  function AfterTransition(b: Book, id: string, s: TurnState, now: int): Book {
    if id in b.turns && CanTransition(b.turns[id].state, s)
    then b.(turns := b.turns[id := Stamp(b.turns[id], s, now)]) else b
  }

  function AfterInterrupt(b: Book, id: string, now: int): Book {
    if ActiveIn(b, id)
    then b.(turns := b.turns[id := b.turns[id].(state := Interrupted, interruptedAt := now, cancelled := true)])
    else b
  }

  function AfterFail(b: Book, id: string, allowCompleted: bool, allowInterrupted: bool): Book {
    if id in b.turns && CanFail(b.turns[id].state, allowCompleted, allowInterrupted)
    then b.(turns := b.turns[id := b.turns[id].(state := Error)]) else b
  }

  function Fresh(session: string, sequence: nat, now: int): TurnRecord {
    TurnRecord(session, sequence, Started, now, 0, 0, 0, 0, false)
  }

  function AfterCreate(b: Book, id: string, session: string, sequence: nat, interruptAt: int, now: int): Book {
    var cleared := match b.current case Some(c) => AfterInterrupt(b, c, interruptAt) case None => b;
    Book(cleared.turns[id := Fresh(session, sequence, now)], Some(id))
  }

  class TurnManager {
    var turns: map<string, TurnRecord>
    var current: Option<string>

    function State(): Book
      reads this
    {
      Book(turns, current)
    }

    constructor ()
      ensures State() == Book(map[], None)
    {
      turns, current := map[], None;
    }

    /** Starts a turn and makes it current, interrupting a current turn that is still active. */
    method CreateTurn(id: string, session: string, sequence: nat, interruptAt: int, now: int)
      modifies this
      ensures State() == AfterCreate(old(State()), id, session, sequence, interruptAt, now)
    {
      if current.Some? && current.value in turns && IsActive(turns[current.value].state) {
        var interrupted := InterruptTurn(current.value, interruptAt);
      }
      turns := turns[id := Fresh(session, sequence, now)];
      current := Some(id);
    }

    /** Attempts one transition; false when the table forbids it or the turn is unknown. */
    method Transition(id: string, s: TurnState, now: int) returns (ok: bool)
      modifies this
      ensures ok == (id in old(turns) && CanTransition(old(turns)[id].state, s))
      ensures State() == AfterTransition(old(State()), id, s, now)
    {
      if id !in turns { return false; }
      var turn := turns[id];
      if !CanTransition(turn.state, s) { return false; }
      turn := turn.(state := s);
      match s {
        case AsrProcessing => turn := turn.(asrFirstAt := now);
        case LlmThinking => turn := turn.(asrFinalAt := now);
        case Completed => turn := turn.(completedAt := now);
        case Interrupted => turn := turn.(interruptedAt := now);
        case _ =>
      }
      turns := turns[id := turn];
      ok := true;
    }

    /** Marks an active turn interrupted, whatever its active state. */
    method InterruptTurn(id: string, now: int) returns (done: bool)
      modifies this
      ensures done == old(ActiveIn(State(), id))
      ensures State() == AfterInterrupt(old(State()), id, now)
    {
      if id !in turns { return false; }
      var turn := turns[id];
      if !IsActive(turn.state) { return false; }
      turns := turns[id := turn.(state := Interrupted, interruptedAt := now, cancelled := true)];
      done := true;
    }

    /** Marks a turn failed; the two flags let a failure replace one inactive state each. */
    method FailTurn(id: string, allowCompleted: bool, allowInterrupted: bool) returns (done: bool)
      modifies this
      ensures done == (id in old(turns) && CanFail(old(turns)[id].state, allowCompleted, allowInterrupted))
      ensures State() == AfterFail(old(State()), id, allowCompleted, allowInterrupted)
    {
      if id !in turns { return false; }
      var turn := turns[id];
      var canReplace := (allowCompleted && turn.state == Completed) || (allowInterrupted && turn.state == Interrupted);
      if !IsActive(turn.state) && !canReplace { return false; }
      turns := turns[id := turn.(state := Error)];
      done := true;
    }
  }

  // ── Whole runs ──────────────────────────────────────────────────────

  datatype Op =
    | Create(id: string, session: string, sequence: nat, interruptAt: int, now: int)
    | Move(id: string, to: TurnState, now: int)
    | Interrupt(id: string, now: int)
    | Fail(id: string, allowCompleted: bool, allowInterrupted: bool)

  function Apply(b: Book, op: Op): Book {
    match op
    case Create(id, session, sequence, at, now) => AfterCreate(b, id, session, sequence, at, now)
    case Move(id, to, now) => AfterTransition(b, id, to, now)
    case Interrupt(id, now) => AfterInterrupt(b, id, now)
    case Fail(id, ac, ai) => AfterFail(b, id, ac, ai)
  }

  function Run(ops: seq<Op>): Book {
    if ops == [] then Book(map[], None) else Apply(Run(ops[..|ops| - 1]), ops[|ops| - 1])
  }

  ghost predicate OnlyCurrentActive(b: Book) {
    forall id :: ActiveIn(b, id) ==> b.current == Some(id)
  }

  /** No operation can make a turn active again, except a creation that reuses its identifier. */
  lemma ReactivationNeedsReuse(b: Book, op: Op, id: string)
    ensures !ActiveIn(b, id) && ActiveIn(Apply(b, op), id) <==> !ActiveIn(b, id) && op.Create? && op.id == id
  {
    if !op.Create? && !ActiveIn(b, id) && op.id == id && id in b.turns {
      assert Allowed(b.turns[id].state) <= {Completed};
    }
  }

  /** After any run at most one turn is active, and it is the current one. */
  lemma {:induction false} AtMostOneActive(ops: seq<Op>)
    ensures OnlyCurrentActive(Run(ops))
  {
    if ops != [] {
      AtMostOneActive(ops[..|ops| - 1]);
      var b := Run(ops[..|ops| - 1]);
      forall id | ActiveIn(Apply(b, ops[|ops| - 1]), id)
        ensures Apply(b, ops[|ops| - 1]).current == Some(id)
      {
        ReactivationNeedsReuse(b, ops[|ops| - 1], id);
      }
    }
  }
}
