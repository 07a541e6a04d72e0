/**
 The rebuild of the derived tables as the plan that runs under the operation lock: three deletions, then one
 nested public operation for every fact, episode and reflection. What a rebuild without failures makes durable
 is what the ledger says.
 */
module Rebuild {
  import opened MemoryTables
  import opened MemoryLock
  import opened MemoryFailures
  import opened Replay
  import Episodes

  function ClearReflections(): Statement { (t: Tables) => t.(reflections := []) }

  function ClearEpisodes(): Statement { (t: Tables) => t.(episodes := []) }

  function ClearFacts(): Statement { (t: Tables) => t.(facts := []) }

  function AddingEpisode(r: Derived): Statement { (t: Tables) => t.(episodes := t.episodes + [r]) }

  function AddingReflection(r: Derived): Statement { (t: Tables) => t.(reflections := t.reflections + [r]) }

  const Clearing: seq<Piece<Tables>> := [Direct(ClearReflections()), Direct(ClearEpisodes()), Direct(ClearFacts())]

  /** One upsert for every statement, in ledger order. */
  function FactPieces(ws: seq<Write>, stamp: nat -> Stamp): seq<Piece<Tables>> {
    if ws == [] then []
    else
      var n := |ws| - 1;
      FactPieces(ws[..n], stamp)
      + [Nested(UpsertBody(DraftOf(ws[n], stamp(n)), stamp(n).now, stamp(n).later))]
  }

  function EpisodePieces(rows: seq<Derived>): seq<Piece<Tables>> {
    if rows == [] then [] else EpisodePieces(rows[..|rows| - 1]) + [Nested([AddingEpisode(rows[|rows| - 1])])]
  }

  function ReflectionPieces(rows: seq<Derived>): seq<Piece<Tables>> {
    if rows == [] then [] else ReflectionPieces(rows[..|rows| - 1]) + [Nested([AddingReflection(rows[|rows| - 1])])]
  }

  /** What a rebuild reads from the ledger it begins with, and what its nested operations draw. */
  datatype Source = Source(extract: Extractor, words: string -> set<string>, events: seq<Event>, ordered: seq<Event>,
                           stamp: nat -> Stamp, id: nat -> nat, reflections: seq<Derived>)

  function EpisodesOf(src: Source): seq<Derived> {
    EpisodeRows(Episodes.LongRuns(Episodes.Runs(src.words, TurnsOf(src.ordered))), src.id)
  }

  function PlanOf(src: Source): seq<Piece<Tables>> {
    Clearing + FactPieces(Statements(src.extract, src.events), src.stamp)
    + EpisodePieces(EpisodesOf(src)) + ReflectionPieces(src.reflections)
  }

  function TablesOf(src: Source): Tables {
    Rebuilt(src.extract, src.words, src.events, src.ordered, src.stamp, src.id, src.reflections)
  }

  // ── What the pieces leave ───────────────────────────────────────────

  lemma {:induction false} PiecesConcat<Db>(a: seq<Piece<Db>>, b: seq<Piece<Db>>, db: Db)
    ensures RunPieces(a + b, db) == RunPieces(b, RunPieces(a, db))
  {
    if b == [] {
      assert a + b == a;
    } else {
      assert (a + b)[..|a + b| - 1] == a + b[..|b| - 1];
      PiecesConcat(a, b[..|b| - 1], db);
    }
  }

  lemma {:induction false} OnePiece<Db>(a: seq<Piece<Db>>, p: Piece<Db>, db: Db)
    ensures RunPieces(a + [p], db) == RunPiece(p, RunPieces(a, db))
  {
    assert (a + [p])[..|a|] == a;
  }

  /** A nested operation of one statement, after what ran before it. */
  lemma {:induction false} OneStatementRuns(a: seq<Piece<Tables>>, run: Statement, db: Tables, before: Tables)
    requires RunPieces(a, db) == before
    ensures RunPieces(a + [Nested([run])], db) == run(before)
  {
    OnePiece(a, Nested([run]), db);
    assert [run][..0] == [] && RunAll([run], before) == run(before);
  }

  lemma {:induction false} ClearingRuns(db: Tables)
    ensures RunPieces(Clearing, db) == Tables(db.events, [], [], [])
  {
    var a, b := Clearing[..1], Clearing[..2];
    assert Clearing[..2][..1] == a && a[..0] == [];
    assert RunPieces(a, db) == db.(reflections := []);
    assert RunPieces(b, db) == db.(reflections := [], episodes := []);
  }

  lemma {:induction false} FactsRun(ws: seq<Write>, stamp: nat -> Stamp, db: Tables)
    requires db.facts == []
    ensures RunPieces(FactPieces(ws, stamp), db) == db.(facts := Store(ws, stamp))
  {
    if ws != [] {
      var n := |ws| - 1;
      var body := UpsertBody(DraftOf(ws[n], stamp(n)), stamp(n).now, stamp(n).later);
      FactsRun(ws[..n], stamp, db);
      OnePiece(FactPieces(ws[..n], stamp), Nested(body), db);
      UpsertRuns(DraftOf(ws[n], stamp(n)), stamp(n).now, stamp(n).later, db.(facts := Store(ws[..n], stamp)));
      assert body[..2] == body;
    }
  }

  lemma {:induction false} EpisodeAdded(pieces: seq<Piece<Tables>>, front: seq<Derived>, r: Derived, db: Tables)
    requires RunPieces(pieces, db) == db.(episodes := front)
    ensures RunPieces(pieces + [Nested([AddingEpisode(r)])], db) == db.(episodes := front + [r])
  {
    OneStatementRuns(pieces, AddingEpisode(r), db, db.(episodes := front));
  }

  lemma {:induction false} EpisodesRun(rows: seq<Derived>, db: Tables)
    requires db.episodes == []
    ensures RunPieces(EpisodePieces(rows), db) == db.(episodes := rows)
  {
    if rows != [] {
      var front, r := rows[..|rows| - 1], rows[|rows| - 1];
      assert rows == front + [r];
      EpisodesRun(front, db);
      EpisodeAdded(EpisodePieces(front), front, r, db);
    }
  }

  lemma {:induction false} ReflectionAdded(pieces: seq<Piece<Tables>>, front: seq<Derived>, r: Derived, db: Tables)
    requires RunPieces(pieces, db) == db.(reflections := front)
    ensures RunPieces(pieces + [Nested([AddingReflection(r)])], db) == db.(reflections := front + [r])
  {
    OneStatementRuns(pieces, AddingReflection(r), db, db.(reflections := front));
  }

  lemma {:induction false} ReflectionsRun(rows: seq<Derived>, db: Tables)
    requires db.reflections == []
    ensures RunPieces(ReflectionPieces(rows), db) == db.(reflections := rows)
  {
    if rows != [] {
      var front, r := rows[..|rows| - 1], rows[|rows| - 1];
      assert rows == front + [r];
      ReflectionsRun(front, db);
      ReflectionAdded(ReflectionPieces(front), front, r, db);
    }
  }

  /** Run from any derived tables, the plan leaves the ledger alone and exactly the rebuilt tables. */
  lemma {:induction false} PlanRebuilds(src: Source, db: Tables)
    requires db.events == src.events
    ensures RunPieces(PlanOf(src), db) == TablesOf(src)
  {
    var ws, rows := Statements(src.extract, src.events), EpisodesOf(src);
    var facts, episodes := FactPieces(ws, src.stamp), EpisodePieces(rows);
    ClearingRuns(db);
    PiecesConcat(Clearing, facts, db);
    FactsRun(ws, src.stamp, Tables(db.events, [], [], []));
    PiecesConcat(Clearing + facts, episodes, db);
    EpisodesRun(rows, Tables(db.events, Store(ws, src.stamp), [], []));
    PiecesConcat(Clearing + facts + episodes, ReflectionPieces(src.reflections), db);
    ReflectionsRun(src.reflections, Tables(db.events, Store(ws, src.stamp), rows, []));
  }

  /**
   In every run, the commit of a rebuild that met no failure makes durable exactly the tables that the ledger it
   began with says, and on them the consistency check finds no error.
   */
  lemma {:induction false} RebuildMakesDurable(db: Tables, steps: seq<Step<Tables>>, t: nat, src: Source)
    requires var s := Run(db, steps);
             && t in s.tasks && s.tasks[t].RbRunning? && !s.tasks[t].failed && s.tasks[t].inner.None?
             && s.tasks[t].plan == PlanOf(src) && s.tasks[t].done == |s.tasks[t].plan|
             && s.tasks[t].begun.events == src.events && (forall e | e in src.ordered :: e in src.events)
    ensures var after := Exec(Run(db, steps), Commit(t, true)).durable;
            && after == TablesOf(src) && Consistent(after) && OneOpen(after.facts)
  {
    var s := Run(db, steps);
    RebuildSucceeds(db, steps, t);
    PlanRebuilds(src, s.tasks[t].begun);
    RebuiltIsConsistent(src.extract, src.words, src.events, src.ordered, src.stamp, src.id, src.reflections);
  }
}
