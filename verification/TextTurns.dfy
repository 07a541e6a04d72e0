/**
 Text turns handled one at a time by the orchestrator. Each call is given what its suspended operations
 will answer: the ledger to each publish, the model to the generation, and whether a cancellation arrives
 while the history is committed. A publish that is cancelled while it is accepted still persists its event,
 and a commit that is cancelled still ends, before the cancellation reaches the caller.
 */
module TextTurns {
  import opened Conversation

  datatype Event =
    | Started(session: string, turn: string, sequence: nat)
    | Response(turn: string, text: string)
    | Completed(session: string, turn: string, sequence: nat, user: string, text: string)
    | Failed(session: string, turn: string, sequence: nat)

  /** The limits of the history the orchestrator creates. */
  const MAX_TURNS: int := 50
  const MAX_TOKENS: int := 4000

  datatype Publish = Accepted | AcceptedCancelled | Refused

  datatype Generation = Reply(text: string) | Breaks | Cancelled

  /** What one call will meet, in the order it asks. `failed` answers the failed event, when one is published. */
  datatype Fate = Fate(
    started: Publish, hasModel: bool, generation: Generation, response: Publish, completed: Publish, failed: Publish,
    commitCancelled: bool)

  datatype Ending = Answered(text: string) | Apology | Unconfigured | Raised

  function IfKept(p: Publish, e: Event): seq<Event> { if p == Refused then [] else [e] }

  class Orchestrator {
    var sessionId: string
    var turnSequence: nat
    var ledger: seq<Event>
    const history: ConversationHistory

    ghost predicate Valid() reads this, history {
      history.maxTurns == MAX_TURNS && history.maxTokens == MAX_TOKENS
    }

    ghost function View(): Book reads this, history {
      Book(sessionId, turnSequence, ledger, Window(history.turns, history.tokens))
    }

    constructor ()
      ensures Valid() && View() == Empty && fresh(history)
    {
      sessionId, turnSequence, ledger := "", 0, [];
      history := new ConversationHistory(MAX_TURNS, MAX_TOKENS);
    }

    method Publish(p: Publish, e: Event) returns (kept: bool, cancelled: bool)
      modifies this`ledger
      ensures ledger == old(ledger) + IfKept(p, e)
      ensures kept == (p != Refused) && cancelled == (p == AcceptedCancelled)
    {
      if p != Refused { ledger := ledger + [e]; }
      kept, cancelled := p != Refused, p == AcceptedCancelled;
    }

    /** One text turn. `session` is what the caller asks for, `generated` a fresh identifier. */
    method ProcessUserInput(text: string, turn: string, session: string, generated: string, fate: Fate)
      returns (ending: Ending)
      requires Valid()
      modifies this, history
      ensures Valid()
      ensures (View(), ending) == Handled(old(View()), text, turn, session, generated, fate)
    {
      if session != "" && session != sessionId {
        sessionId := session;
      } else if sessionId == "" {
        sessionId := generated;
      }
      turnSequence := turnSequence + 1;
      ending := RunTurn(text, turn, fate);
    }

    method RunTurn(text: string, turn: string, fate: Fate) returns (ending: Ending)
      requires Valid()
      modifies this`ledger, history
      ensures Valid()
      ensures ledger == old(ledger) + EventsOf(fate, sessionId, turn, turnSequence, text)
      ensures Window(history.turns, history.tokens)
              == Committed(Window(old(history.turns), old(history.tokens)), fate, turn, text)
      ensures ending == EndingOf(fate)
    {
      var failed := Failed(sessionId, turn, turnSequence);
      var kept, cancelled := Publish(fate.started, Started(sessionId, turn, turnSequence));
      if !kept { return Raised; }
      if cancelled {
        kept, cancelled := Publish(fate.failed, failed);
        return Raised;
      }
      if !fate.hasModel {
        kept, cancelled := Publish(fate.failed, failed);
        return if kept && !cancelled then Unconfigured else Raised;
      }
      if !fate.generation.Reply? {
        kept, cancelled := Publish(fate.failed, failed);
        return if fate.generation.Breaks? && kept && !cancelled then Apology else Raised;
      }
      var reply := fate.generation.text;
      kept, cancelled := Publish(fate.response, Response(turn, reply));
      if !kept || cancelled {
        var failedKept, failedCancelled := Publish(fate.failed, failed);
        return if !kept && failedKept && !failedCancelled then Apology else Raised;
      }
      kept, cancelled := Publish(fate.completed, Completed(sessionId, turn, turnSequence, text, reply));
      if !kept {
        kept, cancelled := Publish(fate.failed, failed);
        return if kept && !cancelled then Apology else Raised;
      }
      history.AddTurn(Entry(turn, text, reply));
      ending := if cancelled || fate.commitCancelled then Raised else Answered(reply);
    }
  }

  // ── The same as functions ───────────────────────────────────────────

  datatype Book = Book(sessionId: string, turnSequence: nat, ledger: seq<Event>, history: Window)

  const Empty := Book("", 0, [], Window([], 0))

  /** The history window after one more entry. */
  function Added(w: Window, e: Entry): Window {
    Trimmed(Window(w.turns + [e], w.tokens + Tokens(e)), MAX_TURNS, MAX_TOKENS)
  }

  function Committed(w: Window, fate: Fate, turn: string, user: string): Window {
    if Completes(fate) then Added(w, Entry(turn, user, fate.generation.text)) else w
  }

  /** Whether the turn gets as far as publishing its completion. */
  predicate Reaches(fate: Fate) {
    fate.started == Accepted && fate.hasModel && fate.generation.Reply? && fate.response == Accepted
  }

  predicate Completes(fate: Fate) { Reaches(fate) && fate.completed != Refused }

  /** The events a turn persists. */
  function EventsOf(fate: Fate, session: string, turn: string, sequence: nat, user: string): seq<Event> {
    if fate.started == Refused then []
    else
      [Started(session, turn, sequence)] + MiddleOf(fate, turn) + TerminalOf(fate, session, turn, sequence, user)
  }

  function MiddleOf(fate: Fate, turn: string): seq<Event> {
    if fate.started == Accepted && fate.hasModel && fate.generation.Reply?
    then IfKept(fate.response, Response(turn, fate.generation.text)) else []
  }

  /** The terminal event that a turn's fate leaves in the ledger. */
  function TerminalOf(fate: Fate, session: string, turn: string, sequence: nat, user: string): seq<Event> {
    if fate.started == Refused then []
    else if Completes(fate) then [Completed(session, turn, sequence, user, fate.generation.text)]
    else IfKept(fate.failed, Failed(session, turn, sequence))
  }

  function EndingOf(fate: Fate): Ending {
    var quiet := fate.failed == Accepted;
    if fate.started != Accepted then Raised
    else if !fate.hasModel then (if quiet then Unconfigured else Raised)
    else if fate.generation.Cancelled? then Raised
    else if fate.generation.Breaks? then (if quiet then Apology else Raised)
    else if fate.response == AcceptedCancelled then Raised
    else if fate.response == Refused then (if quiet then Apology else Raised)
    else if fate.completed == Refused then (if quiet then Apology else Raised)
    else if fate.completed == AcceptedCancelled || fate.commitCancelled then Raised
    else Answered(fate.generation.text)
  }

  function SessionFor(current: string, session: string, generated: string): string {
    if session != "" then session else if current == "" then generated else current
  }

  function Handled(b: Book, text: string, turn: string, session: string, generated: string,
                   fate: Fate): (Book, Ending) {
    var id, n := SessionFor(b.sessionId, session, generated), b.turnSequence + 1;
    (Book(id, n, b.ledger + EventsOf(fate, id, turn, n, text), Committed(b.history, fate, turn, text)), EndingOf(fate))
  }

  datatype Call = Call(text: string, turn: string, session: string, generated: string, fate: Fate)

  function After(b: Book, c: Call): (Book, Ending) { Handled(b, c.text, c.turn, c.session, c.generated, c.fate) }

  function Run(calls: seq<Call>): Book {
    if calls == [] then Empty else After(Run(calls[..|calls| - 1]), calls[|calls| - 1]).0
  }

  // ── What every run keeps ────────────────────────────────────────────

  predicate Terminal(e: Event) { e.Completed? || e.Failed? }

  function TerminalsOf(ledger: seq<Event>, sequence: nat): seq<Event> {
    if ledger == [] then []
    else
      var e := ledger[|ledger| - 1];
      TerminalsOf(ledger[..|ledger| - 1], sequence) + (if Terminal(e) && e.sequence == sequence then [e] else [])
  }

  /** The completed events of a ledger, as history entries. */
  function CompletedOf(ledger: seq<Event>): seq<Entry> {
    if ledger == [] then []
    else
      var e := ledger[|ledger| - 1];
      CompletedOf(ledger[..|ledger| - 1]) + (if e.Completed? then [Entry(e.turn, e.user, e.text)] else [])
  }

  lemma {:induction false} TerminalsConcat(a: seq<Event>, b: seq<Event>, sequence: nat)
    ensures TerminalsOf(a + b, sequence) == TerminalsOf(a, sequence) + TerminalsOf(b, sequence)
    ensures CompletedOf(a + b) == CompletedOf(a) + CompletedOf(b)
  {
    if b == [] {
      assert a + b == a;
    } else {
      assert (a + b)[..|a + b| - 1] == a + b[..|b| - 1];
      TerminalsConcat(a, b[..|b| - 1], sequence);
    }
  }

  lemma {:induction false} OneEvent(e: Event, sequence: nat)
    ensures TerminalsOf([e], sequence) == if Terminal(e) && e.sequence == sequence then [e] else []
    ensures CompletedOf([e]) == if e.Completed? then [Entry(e.turn, e.user, e.text)] else []
  {
    assert [e][..0] == [];
  }

  lemma {:induction false} MiddleOfTurn(fate: Fate, turn: string, sequence: nat)
    ensures TerminalsOf(MiddleOf(fate, turn), sequence) == [] && CompletedOf(MiddleOf(fate, turn)) == []
  {
    var middle := MiddleOf(fate, turn);
    if middle != [] {
      assert middle == [middle[0]] && middle[0].Response?;
      OneEvent(middle[0], sequence);
    }
  }

  lemma {:induction false} LastOfTurn(fate: Fate, session: string, turn: string, n: nat, user: string, sequence: nat)
    ensures var last := TerminalOf(fate, session, turn, n, user);
            && TerminalsOf(last, sequence) == (if sequence == n then last else [])
            && CompletedOf(last) == if Completes(fate) then [Entry(turn, user, fate.generation.text)] else []
  {
    var last := TerminalOf(fate, session, turn, n, user);
    if last != [] {
      assert last == [last[0]];
      OneEvent(last[0], sequence);
    }
  }

  lemma {:induction false} EventsOfTurn(fate: Fate, session: string, turn: string, n: nat, user: string, sequence: nat)
    ensures TerminalsOf(EventsOf(fate, session, turn, n, user), sequence) ==
            if sequence == n then TerminalOf(fate, session, turn, n, user) else []
    ensures CompletedOf(EventsOf(fate, session, turn, n, user)) ==
            if Completes(fate) then [Entry(turn, user, fate.generation.text)] else []
  {
    if fate.started != Refused {
      var start, middle, last := Started(session, turn, n), MiddleOf(fate, turn),
        TerminalOf(fate, session, turn, n, user);
      TerminalsConcat([start] + middle, last, sequence);
      TerminalsConcat([start], middle, sequence);
      OneEvent(start, sequence);
      MiddleOfTurn(fate, turn, sequence);
      LastOfTurn(fate, session, turn, n, user, sequence);
    }
  }

  lemma {:induction false} SequenceCounts(calls: seq<Call>)
    ensures Run(calls).turnSequence == |calls|
  {
    if calls != [] { SequenceCounts(calls[..|calls| - 1]); }
  }

  lemma LedgerAfter(b: Book, c: Call)
    ensures var after, id := After(b, c).0, SessionFor(b.sessionId, c.session, c.generated);
            && after.sessionId == id
            && after.ledger == b.ledger + EventsOf(c.fate, id, c.turn, b.turnSequence + 1, c.text)
  {
  }

  /** What one more call adds to the terminals and to the completed events. */
  lemma {:induction false} CallAdds(b: Book, c: Call, k: nat)
    ensures var after, n := After(b, c).0, b.turnSequence + 1;
            && TerminalsOf(after.ledger, k) ==
                 TerminalsOf(b.ledger, k) + (if k == n then TerminalOf(c.fate, after.sessionId, c.turn, n, c.text)
                                             else [])
            && CompletedOf(after.ledger) ==
                 CompletedOf(b.ledger) + (if Completes(c.fate) then [Entry(c.turn, c.text, c.fate.generation.text)]
                                          else [])
  {
    var id, n := SessionFor(b.sessionId, c.session, c.generated), b.turnSequence + 1;
    LedgerAfter(b, c);
    TerminalsConcat(b.ledger, EventsOf(c.fate, id, c.turn, n, c.text), k);
    EventsOfTurn(c.fate, id, c.turn, n, c.text, k);
  }

  /** The terminal events of the k-th turn in a run. */
  function Expected(calls: seq<Call>, k: nat): seq<Event> {
    if 0 < k <= |calls| then
      TerminalOf(calls[k - 1].fate, Run(calls[..k]).sessionId, calls[k - 1].turn, k, calls[k - 1].text)
    else []
  }

  lemma {:induction false} ExpectedMore(calls: seq<Call>, k: nat)
    requires calls != []
    ensures var n, c := |calls| - 1, calls[|calls| - 1];
            Expected(calls, k) ==
              Expected(calls[..n], k)
              + (if k == n + 1 then TerminalOf(c.fate, Run(calls).sessionId, c.turn, n + 1, c.text) else [])
  {
    var n := |calls| - 1;
    if 0 < k <= n {
      assert calls[..n][..k] == calls[..k];
    } else if k == n + 1 {
      assert calls[..k] == calls;
    }
  }

  lemma {:induction false} TerminalsOfRun(calls: seq<Call>, k: nat)
    ensures TerminalsOf(Run(calls).ledger, k) == Expected(calls, k)
  {
    if calls != [] {
      var n := |calls| - 1;
      TerminalsOfRun(calls[..n], k);
      SequenceCounts(calls[..n]);
      CallAdds(Run(calls[..n]), calls[n], k);
      ExpectedMore(calls, k);
    }
  }

  /**
   In every run a turn has at most one terminal event; it has exactly one if and only if its start was
   persisted and either it completed or the ledger took the failed event that was its last resort.
   */
  lemma {:induction false} OneTerminalIff(calls: seq<Call>, k: nat)
    requires 0 < k <= |calls|
    ensures var terminals, fate := TerminalsOf(Run(calls).ledger, k), calls[k - 1].fate;
            && |terminals| <= 1
            && (|terminals| == 1 <==> fate.started != Refused && (Completes(fate) || fate.failed != Refused))
            && (|terminals| == 1 ==> (terminals[0].Completed? <==> Completes(fate)))
  {
    TerminalsOfRun(calls, k);
  }

  lemma {:induction false} AddedMore(all: seq<Entry>, e: Entry)
    ensures AfterAll(all + [e], MAX_TURNS, MAX_TOKENS) == Added(AfterAll(all, MAX_TURNS, MAX_TOKENS), e)
  {
    assert (all + [e])[..|all|] == all;
  }

  /**
   In every run the history is what adding the completed events of the ledger, in their order and with their texts,
   leaves.
   */
  lemma {:induction false} HistoryAddsCompleted(calls: seq<Call>)
    ensures Run(calls).history == AfterAll(CompletedOf(Run(calls).ledger), MAX_TURNS, MAX_TOKENS)
  {
    if calls != [] {
      var n := |calls| - 1;
      var b, c := Run(calls[..n]), calls[n];
      HistoryAddsCompleted(calls[..n]);
      CallAdds(b, c, 0);
      assert Run(calls).history == Committed(b.history, c.fate, c.turn, c.text);
      if Completes(c.fate) {
        AddedMore(CompletedOf(b.ledger), Entry(c.turn, c.text, c.fate.generation.text));
      } else {
        assert CompletedOf(Run(calls).ledger) == CompletedOf(b.ledger);
      }
    }
  }

  /** So in every run the history is the longest stretch of the newest completed events that keeps both limits. */
  lemma {:induction false} HistoryIsNewestCompleted(calls: seq<Call>)
    ensures Exact(Run(calls).history, CompletedOf(Run(calls).ledger), MAX_TURNS, MAX_TOKENS)
  {
    HistoryAddsCompleted(calls);
    WindowIsLongestSuffix(CompletedOf(Run(calls).ledger), MAX_TURNS, MAX_TOKENS);
  }

  /**
   A caller gets an answer only for a turn whose completion was kept, undisturbed, with the text that was kept for
   it.
   */
  lemma AnsweredMeansCompleted(b: Book, c: Call)
    ensures var (after, ending) := After(b, c);
            ending.Answered? ==>
              && after.history == Added(b.history, Entry(c.turn, c.text, ending.text))
              && after.ledger[|after.ledger| - 1]
                   == Completed(after.sessionId, c.turn, b.turnSequence + 1, c.text, ending.text)
              && !c.fate.commitCancelled
  {
    var (after, ending) := After(b, c);
    if ending.Answered? {
      var events := EventsOf(c.fate, after.sessionId, c.turn, b.turnSequence + 1, c.text);
      assert events[|events| - 1] == Completed(after.sessionId, c.turn, b.turnSequence + 1, c.text, ending.text);
    }
  }
}
