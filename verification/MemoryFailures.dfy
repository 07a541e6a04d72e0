/**
 What an operation on the memory tables leaves behind when it is broken off between two statements: the
 connection stays in its transaction, and the next operation of anyone commits the leftover.
 */
module MemoryFailures {
  import opened MemoryTables
  import opened MemoryLock

  type Statement = Tables -> Tables

  function Closing(key: string, now: int): Statement {
    (t: Tables) => t.(facts := CloseOpen(t.facts, key, now))
  }

  function Inserting(d: Draft, later: int): Statement {
    (t: Tables) => t.(facts := t.facts + [NewVersion(d, later)])
  }

  function Appending(e: Event): Statement { (t: Tables) => t.(events := t.events + [e]) }

  /** The statements of an upsert before its commit; the second one fails on a fact id that is taken. */
  function UpsertBody(d: Draft, now: int, later: int): seq<Statement> { [Closing(d.key, now), Inserting(d, later)] }

  predicate HasOpen(facts: seq<Fact>, key: string) { exists f :: f in facts && f.key == key && f.to.None? }

  lemma {:induction false} UpsertRuns(d: Draft, now: int, later: int, t: Tables)
    ensures var body := UpsertBody(d, now, later);
            && RunAll(body[..0], t) == t
            && RunAll(body[..1], t) == t.(facts := CloseOpen(t.facts, d.key, now))
            && RunAll(body[..2], t) == t.(facts := Upserted(t.facts, d, now, later))
  {
    var body := UpsertBody(d, now, later);
    RunAllStep(body, 0, t);
    RunAllStep(body, 1, t);
  }

  lemma {:induction false} AppendRuns(e: Event, t: Tables)
    ensures RunAll([Appending(e)], t) == t.(events := t.events + [e])
  {
    RunAllStep([Appending(e)], 0, t);
    assert [Appending(e)][..0] == [] && [Appending(e)][..1] == [Appending(e)];
  }

  /** Closing changes nothing exactly when the key has no open version. */
  lemma {:induction false} ClosingIsIdleIff(facts: seq<Fact>, key: string, now: int)
    ensures CloseOpen(facts, key, now) == facts <==> !HasOpen(facts, key)
  {
    var u := CloseOpen(facts, key, now);
    if u == facts {
      forall f | f in facts && f.key == key ensures f.to.Some? {
        var i :| 0 <= i < |facts| && facts[i] == f;
        CloseOpenAt(facts, key, now, i);
      }
    }
    if !HasOpen(facts, key) {
      forall i | 0 <= i < |facts| ensures u[i] == facts[i] { CloseOpenAt(facts, key, now, i); }
    }
  }

  /** Task a.t is inside an upsert that began with the given tables, and the step breaks it off. */
  ghost predicate BreaksUpsert(s: Sys<Tables>, a: Step<Tables>, d: Draft, now: int, later: int, begun: Tables) {
    && LeftBehind(s, a).Some?
    && s.tasks[a.t].body == UpsertBody(d, now, later) && s.tasks[a.t].begun == begun
  }

  /** What everybody later sees of the facts, should the next operation be an append. */
  lemma {:induction false} LeftoverOfUpsert(db: Tables, steps: seq<Step<Tables>>, a: Step<Tables>, d: Draft, now: int,
                                            later: int, begun: Tables, other: nat, e: Event)
    requires BreaksUpsert(Run(db, steps), a, d, now, later, begun) && other !in Run(db, steps).tasks
    ensures var s := Run(db, steps);
            var k := LeftBehind(s, a).value;
            Committed(Exec(s, a), other, [Appending(e)]) ==
              Tables(begun.events + [e],
                     if k == 0 then begun.facts else if k == 1 then CloseOpen(begun.facts, d.key, now)
                     else Upserted(begun.facts, d, now, later),
                     begun.episodes, begun.reflections)
  {
    var s := Run(db, steps);
    var k := LeftBehind(s, a).value;
    BrokenOffIsCommitted(db, steps, a, other, [Appending(e)]);
    UpsertRuns(d, now, later, begun);
    AppendRuns(e, RunAll(UpsertBody(d, now, later)[..k], begun));
  }

  /**
   An upsert that is broken off leaves no trace in what any later operation commits exactly when its first
   statement had no effect: it was not executed, or the key had no open version and the second was not executed.
   */
  lemma {:induction false} UpsertFailureIsInvisibleIff(db: Tables, steps: seq<Step<Tables>>, a: Step<Tables>, d: Draft,
                                                       now: int, later: int, begun: Tables, other: nat)
    requires BreaksUpsert(Run(db, steps), a, d, now, later, begun) && other !in Run(db, steps).tasks
    ensures var s := Run(db, steps);
            var k := LeftBehind(s, a).value;
            (forall body :: Committed(Exec(s, a), other, body) == RunAll(body, begun))
            <==> k == 0 || (k == 1 && !HasOpen(begun.facts, d.key))
  {
    var s := Run(db, steps);
    var k := LeftBehind(s, a).value;
    var left := RunAll(UpsertBody(d, now, later)[..k], begun);
    UpsertRuns(d, now, later, begun);
    ClosingIsIdleIff(begun.facts, d.key, now);
    forall body ensures Committed(Exec(s, a), other, body) == RunAll(body, left) {
      BrokenOffIsCommitted(db, steps, a, other, body);
    }
    if k != 0 && !(k == 1 && !HasOpen(begun.facts, d.key)) {
      assert left != begun;
      assert RunAll([], left) == left && RunAll([], begun) == begun;
      assert Committed(Exec(s, a), other, []) != RunAll([], begun);
    }
  }

  /** An upsert of task 0 with a fact id that is taken, after which somebody else appends an event. */
  function LeakingRun(d: Draft, now: int, later: int, e: Event): seq<Step<Tables>> {
    WholeOp(0, UpsertBody(d, now, later), 1) + [Execute(0, false)] + WholeOp(1, [Appending(e)], 1) + [Commit(1, true)]
  }

  lemma {:induction false} RunIsRunFrom<Db>(db: Db, steps: seq<Step<Db>>, more: seq<Step<Db>>)
    ensures Run(db, steps + more) == RunFrom(Run(db, steps), more)
  {
    if more == [] {
      assert steps + more == steps;
    } else {
      assert (steps + more)[..|steps + more| - 1] == steps + more[..|more| - 1];
      RunIsRunFrom(db, steps, more[..|more| - 1]);
    }
  }

  /** The failed upsert of any fact closes the open version of its key for good, as soon as anybody appends an event. */
  lemma {:induction false} FailedUpsertLeaks(db: Tables, d: Draft, now: int, later: int, e: Event)
    requires Taken(db.facts, d.id)
    ensures Run(db, LeakingRun(d, now, later, e)).durable ==
            db.(facts := CloseOpen(db.facts, d.key, now), events := db.events + [e])
    ensures Run(db, LeakingRun(d, now, later, e)).durable.facts == db.facts <==> !HasOpen(db.facts, d.key)
  {
    var body := UpsertBody(d, now, later);
    var begin := WholeOp(0, body, 1);
    var fail: Step<Tables> := Execute(0, false);
    RunIsRunFrom(db, [], begin);
    assert [] + begin == begin;
    WholeOpRuns(Fresh(db), 0, body, 1);
    var s := Run(db, begin);
    assert (begin + [fail])[..|begin|] == begin;
    var u := Run(db, begin + [fail]);
    RunHasOnly(db, d, now, later);
    LeftoverOfUpsert(db, begin, fail, d, now, later, db, 1, e);
    RunIsRunFrom(db, begin + [fail], WholeOp(1, [Appending(e)], 1));
    var all := LeakingRun(d, now, later, e);
    assert all[..|all| - 1] == begin + [fail] + WholeOp(1, [Appending(e)], 1);
    ClosingIsIdleIff(db.facts, d.key, now);
  }

  /** Only task 0 has been started by then. */
  lemma {:induction false} RunHasOnly(db: Tables, d: Draft, now: int, later: int)
    ensures 1 !in Run(db, WholeOp(0, UpsertBody(d, now, later), 1)).tasks
  {
    var body := UpsertBody(d, now, later);
    var steps := WholeOp(0, body, 1);
    assert steps[..|steps| - 1] == WholeOp(0, body, 0);
    RunIsRunFrom(db, [], WholeOp(0, body, 0));
    assert [] + WholeOp(0, body, 0) == WholeOp(0, body, 0);
    OpStarts(Fresh(db), 0, body);
  }
}
