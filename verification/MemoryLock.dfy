/**
 The shared database connection under concurrent operations. Every operation takes the operation lock,
 which its holder may enter again; a rebuild runs nested operations whose commits are withheld until
 its own final commit or rollback. `Db` is the content of all tables; a statement maps content to content.
 */
module MemoryLock {
  import opened Std

  /** One piece of a rebuild: a statement of its own, or a nested public operation. */
  datatype Piece<!Db> = Direct(run: Db -> Db) | Nested(body: seq<Db -> Db>)

  function RunAll<Db>(body: seq<Db -> Db>, db: Db): Db {
    if body == [] then db else body[|body| - 1](RunAll(body[..|body| - 1], db))
  }

  function RunPiece<Db>(p: Piece<Db>, db: Db): Db {
    match p
    case Direct(run) => run(db)
    case Nested(body) => RunAll(body, db)
  }

  function RunPieces<Db>(plan: seq<Piece<Db>>, db: Db): Db {
    if plan == [] then db else RunPiece(plan[|plan| - 1], RunPieces(plan[..|plan| - 1], db))
  }

  /** `begun` is the content an operation, or the transaction of a rebuild, started from. */
  datatype Task<!Db> =
    | OpWaiting(body: seq<Db -> Db>)
    | OpRunning(body: seq<Db -> Db>, next: nat, begun: Db)
    | RbWaiting(plan: seq<Piece<Db>>)
    | RbOpening(plan: seq<Piece<Db>>)
    | RbRunning(plan: seq<Piece<Db>>, done: nat, inner: Option<nat>, failed: bool, begun: Db)
    | Ended

  datatype Sys<!Db> = Sys(
    working: Db, durable: Db, inTransaction: bool,
    owner: Option<nat>, depth: nat, transactionOwner: Option<nat>,
    tasks: map<nat, Task<Db>>)

  function Fresh<Db>(db: Db): Sys<Db> { Sys(db, db, false, None, 0, None, map[]) }

  datatype Step<!Db> =
    | StartOp(t: nat, body: seq<Db -> Db>)
    | StartRebuild(t: nat, plan: seq<Piece<Db>>)
    | Acquire(t: nat)
    | Begin(t: nat, ok: bool)
    | Execute(t: nat, ok: bool)
    | Commit(t: nat, ok: bool)
    | Abort(t: nat)
    | Cancel(t: nat, landed: bool)

  function Goto<Db>(s: Sys<Db>, t: nat, task: Task<Db>): Sys<Db> { s.(tasks := s.tasks[t := task]) }

  function Leave<Db>(s: Sys<Db>, t: nat): Sys<Db> { Goto(s, t, Ended).(owner := None, depth := 0) }

  /** The commit at the end of every public operation. */
  function CommitUnlessOwned<Db>(s: Sys<Db>, t: nat): Sys<Db> {
    if s.transactionOwner == Some(t) then s else s.(durable := s.working, inTransaction := false)
  }

  function Rollback<Db>(s: Sys<Db>, t: nat): Sys<Db> {
    Leave(s.(working := s.durable, inTransaction := false, transactionOwner := None), t)
  }

  function FinalCommit<Db>(s: Sys<Db>, t: nat): Sys<Db> {
    Leave(s.(durable := s.working, inTransaction := false, transactionOwner := None), t)
  }

  function TakeLock<Db>(s: Sys<Db>, t: nat): Sys<Db>
    requires t in s.tasks
  {
    match s.tasks[t]
    case OpWaiting(body) => Goto(s, t, OpRunning(body, 0, s.working)).(owner := Some(t), depth := 1)
    case RbWaiting(plan) => Goto(s, t, RbOpening(plan)).(owner := Some(t), depth := 1)
    case _ => s
  }

  /** A transaction cannot be begun inside one that is still open. */
  function BeginEnds<Db>(s: Sys<Db>, t: nat, plan: seq<Piece<Db>>, ok: bool): Sys<Db> {
    if !ok || s.inTransaction then Leave(s, t)
    else Goto(s, t, RbRunning(plan, 0, None, false, s.durable)).(inTransaction := true, transactionOwner := Some(t))
  }

  /** A data statement opens a transaction even when it fails. */
  function OpStatement<Db>(s: Sys<Db>, t: nat, body: seq<Db -> Db>, next: nat, begun: Db, ok: bool): Sys<Db>
    requires next < |body|
  {
    if ok then Goto(s, t, OpRunning(body, next + 1, begun)).(working := body[next](s.working), inTransaction := true)
    else Leave(s, t).(inTransaction := true)
  }

  /** A failed piece is abandoned and remembered; a nested operation leaves the lock one level up. */
  function PieceStatement<Db>(s: Sys<Db>, t: nat, r: Task<Db>, ok: bool): Sys<Db>
    requires r.RbRunning? && r.done < |r.plan|
  {
    match r.plan[r.done]
    case Direct(run) =>
      if ok then Goto(s, t, r.(done := r.done + 1)).(working := run(s.working))
      else Goto(s, t, r.(done := r.done + 1, failed := true))
    case Nested(body) =>
      if r.inner.None? then Goto(s, t, r.(inner := Some(0))).(depth := s.depth + 1)
      else if r.inner.value >= |body| then s
      else if ok then Goto(s, t, r.(inner := Some(r.inner.value + 1))).(working := body[r.inner.value](s.working))
      else Goto(s, t, r.(done := r.done + 1, inner := None, failed := true)).(depth := Pred(s.depth))
  }

  function Pred(n: nat): nat { if n > 0 then n - 1 else 0 }

  /** A commit statement: of an operation, of a nested operation, or the final one of a rebuild. */
  function CommitEnds<Db>(s: Sys<Db>, t: nat, ok: bool): Sys<Db>
    requires t in s.tasks
  {
    match s.tasks[t]
    case OpRunning(body, next, begun) =>
      if next < |body| then s else if ok then Leave(CommitUnlessOwned(s, t), t) else Leave(s, t)
    case RbRunning(plan, done, inner, failed, begun) =>
      if inner.Some? then
        if done < |plan| && plan[done].Nested? && inner.value == |plan[done].body| then
          Goto(CommitUnlessOwned(s, t), t, RbRunning(plan, done + 1, None, failed, begun)).(depth := Pred(s.depth))
        else s
      else if done < |plan| then s
      else if failed || !ok then Rollback(s, t)
      else FinalCommit(s, t)
    case _ => s
  }

  /** A cancelled statement or commit may or may not have taken effect. */
  function CancelTask<Db>(s: Sys<Db>, t: nat, landed: bool): Sys<Db>
    requires t in s.tasks
  {
    match s.tasks[t]
    case OpWaiting(_) => Goto(s, t, Ended)
    case RbWaiting(_) => Goto(s, t, Ended)
    case OpRunning(body, next, begun) =>
      if !landed then Leave(s, t)
      else if next < |body| then Leave(s.(working := body[next](s.working), inTransaction := true), t)
      else Leave(CommitUnlessOwned(s, t), t)
    case RbOpening(_) => Leave(s.(inTransaction := s.inTransaction || landed), t)
    case RbRunning(plan, done, inner, failed, begun) =>
      if landed && done == |plan| && !failed && inner.None? then FinalCommit(s, t) else Rollback(s, t)
    case Ended => s
  }

  function Exec<Db>(s: Sys<Db>, a: Step<Db>): Sys<Db> {
    match a
    case StartOp(t, body) => if t in s.tasks then s else Goto(s, t, OpWaiting(body))
    case StartRebuild(t, plan) => if t in s.tasks then s else Goto(s, t, RbWaiting(plan))
    case Acquire(t) => if t !in s.tasks || s.owner.Some? then s else TakeLock(s, t)
    case Begin(t, ok) => if t in s.tasks && s.tasks[t].RbOpening? then BeginEnds(s, t, s.tasks[t].plan, ok) else s
    case Execute(t, ok) =>
      if t !in s.tasks then s
      else if s.tasks[t].OpRunning? && s.tasks[t].next < |s.tasks[t].body| then
        OpStatement(s, t, s.tasks[t].body, s.tasks[t].next, s.tasks[t].begun, ok)
      else if s.tasks[t].RbRunning? && s.tasks[t].done < |s.tasks[t].plan| then PieceStatement(s, t, s.tasks[t], ok)
      else s
    case Commit(t, ok) => if t in s.tasks then CommitEnds(s, t, ok) else s
    case Abort(t) => if t in s.tasks && s.tasks[t].RbRunning? then Rollback(s, t) else s
    case Cancel(t, landed) => if t in s.tasks then CancelTask(s, t, landed) else s
  }

  function Run<Db>(db: Db, steps: seq<Step<Db>>): Sys<Db> {
    if steps == [] then Fresh(db) else Exec(Run(db, steps[..|steps| - 1]), steps[|steps| - 1])
  }

  // ── The invariant ───────────────────────────────────────────────────

  predicate Running<Db>(task: Task<Db>) { task.OpRunning? || task.RbOpening? || task.RbRunning? }

  /** What a rebuild without failures has made of the content it began with. */
  ghost predicate OnPlan<Db>(s: Sys<Db>, r: Task<Db>)
    requires r.RbRunning?
  {
    && r.done <= |r.plan|
    && (r.inner.Some? ==> r.done < |r.plan| && r.plan[r.done].Nested? && r.inner.value <= |r.plan[r.done].body|)
    && s.depth == (if r.inner.Some? then 2 else 1)
    && (!r.failed ==>
          s.working
            == (if r.inner.Some? then RunAll(r.plan[r.done].body[..r.inner.value], RunPieces(r.plan[..r.done], r.begun))
                        else RunPieces(r.plan[..r.done], r.begun)))
  }

  ghost predicate HolderOk<Db>(s: Sys<Db>, t: nat, task: Task<Db>) {
    match task
    case OpRunning(body, next, begun) =>
      s.transactionOwner.None? && s.depth == 1 && next <= |body| && s.working == RunAll(body[..next], begun)
    case RbOpening(_) => s.transactionOwner.None? && s.depth == 1
    case RbRunning(_, _, _, _, begun) =>
      s.transactionOwner == Some(t) && s.inTransaction && s.durable == begun && OnPlan(s, task)
    case _ => false
  }

  ghost predicate Inv<Db>(s: Sys<Db>) {
    && (!s.inTransaction ==> s.working == s.durable)
    && (s.owner.None? ==> s.depth == 0 && s.transactionOwner.None?)
    && (s.owner.Some? ==> s.owner.value in s.tasks && HolderOk(s, s.owner.value, s.tasks[s.owner.value]))
    && (forall t | t in s.tasks && Running(s.tasks[t]) :: s.owner == Some(t))
  }

  lemma RunAllStep<Db>(body: seq<Db -> Db>, k: nat, db: Db)
    requires k < |body|
    ensures RunAll(body[..k + 1], db) == body[k](RunAll(body[..k], db))
  {
    assert body[..k + 1][..k] == body[..k];
  }

  lemma RunPiecesStep<Db>(plan: seq<Piece<Db>>, k: nat, db: Db)
    requires k < |plan|
    ensures RunPieces(plan[..k + 1], db) == RunPiece(plan[k], RunPieces(plan[..k], db))
  {
    assert plan[..k + 1][..k] == plan[..k];
  }

  lemma PieceKeeps<Db>(s: Sys<Db>, t: nat, ok: bool)
    requires Inv(s) && t in s.tasks && s.tasks[t].RbRunning? && s.tasks[t].done < |s.tasks[t].plan|
    ensures Inv(PieceStatement(s, t, s.tasks[t], ok))
  {
    var r := s.tasks[t];
    RunPiecesStep(r.plan, r.done, r.begun);
    if r.inner.Some? && r.inner.value < |r.plan[r.done].body| {
      RunAllStep(r.plan[r.done].body, r.inner.value, RunPieces(r.plan[..r.done], r.begun));
    }
  }

  lemma CommitKeeps<Db>(s: Sys<Db>, t: nat, ok: bool)
    requires Inv(s) && t in s.tasks
    ensures Inv(CommitEnds(s, t, ok))
  {
    var r := s.tasks[t];
    if r.RbRunning? && r.inner.Some? && r.inner.value == |r.plan[r.done].body| {
      RunPiecesStep(r.plan, r.done, r.begun);
      assert r.plan[r.done].body[..r.inner.value] == r.plan[r.done].body;
    }
  }

  lemma StatementKeeps<Db>(s: Sys<Db>, t: nat, ok: bool)
    requires Inv(s) && t in s.tasks && s.tasks[t].OpRunning? && s.tasks[t].next < |s.tasks[t].body|
    ensures Inv(OpStatement(s, t, s.tasks[t].body, s.tasks[t].next, s.tasks[t].begun, ok))
  {
    RunAllStep(s.tasks[t].body, s.tasks[t].next, s.tasks[t].begun);
  }

  lemma CancelKeeps<Db>(s: Sys<Db>, t: nat, landed: bool)
    requires Inv(s) && t in s.tasks
    ensures Inv(CancelTask(s, t, landed))
  {
  }

  lemma LockKeeps<Db>(s: Sys<Db>, t: nat)
    requires Inv(s) && t in s.tasks && s.owner.None?
    ensures Inv(TakeLock(s, t))
  {
  }

  lemma StepKeeps<Db>(s: Sys<Db>, a: Step<Db>)
    requires Inv(s)
    ensures Inv(Exec(s, a))
  {
    match a
    case Execute(t, ok) =>
      if t in s.tasks {
        if s.tasks[t].OpRunning? && s.tasks[t].next < |s.tasks[t].body| { StatementKeeps(s, t, ok); }
        if s.tasks[t].RbRunning? && s.tasks[t].done < |s.tasks[t].plan| { PieceKeeps(s, t, ok); }
      }
    case Commit(t, ok) => if t in s.tasks { CommitKeeps(s, t, ok); }
    case Cancel(t, landed) => if t in s.tasks { CancelKeeps(s, t, landed); }
    case Acquire(t) => if t in s.tasks && s.owner.None? { LockKeeps(s, t); }
    case _ =>
  }

  lemma {:induction false} RunKeeps<Db>(db: Db, steps: seq<Step<Db>>)
    ensures Inv(Run(db, steps))
  {
    if steps != [] {
      RunKeeps(db, steps[..|steps| - 1]);
      StepKeeps(Run(db, steps[..|steps| - 1]), steps[|steps| - 1]);
    }
  }

  // ── Rebuilds are all or nothing ─────────────────────────────────────

  /** In every run, the durable tables stay what they were at BEGIN for as long as a rebuild is under way. */
  lemma {:induction false} DurableDuringRebuild<Db>(db: Db, steps: seq<Step<Db>>, t: nat)
    requires t in Run(db, steps).tasks && Run(db, steps).tasks[t].RbRunning?
    ensures var s := Run(db, steps);
            && s.durable == s.tasks[t].begun && s.owner == Some(t)
            && forall t' | t' in s.tasks && t' != t :: !Running(s.tasks[t'])
  {
    RunKeeps(db, steps);
  }

  /** How a rebuild of `r` stands after one more step of the system. */
  ghost predicate Onward<Db>(s: Sys<Db>, u: Sys<Db>, t: nat, r: Task<Db>)
    requires r.RbRunning?
  {
    && t in u.tasks
    && if u.tasks[t].RbRunning? then
         u.durable == s.durable && u.tasks[t].begun == r.begun && u.tasks[t].plan == r.plan
         && (r.failed ==> u.tasks[t].failed)
       else
         && u.owner.None? && u.transactionOwner.None? && !u.inTransaction && u.working == u.durable
         && (u.durable == r.begun || (!r.failed && u.durable == RunPieces(r.plan, r.begun)))
  }

  lemma OthersWait<Db>(s: Sys<Db>, a: Step<Db>, t: nat)
    requires Inv(s) && t in s.tasks && s.tasks[t].RbRunning? && a.t != t
    ensures Onward(s, Exec(s, a), t, s.tasks[t])
  {
    if a.t in s.tasks { assert !Running(s.tasks[a.t]); }
  }

  lemma OwnStep<Db>(s: Sys<Db>, a: Step<Db>, t: nat)
    requires Inv(s) && t in s.tasks && s.tasks[t].RbRunning? && a.t == t
    ensures Onward(s, Exec(s, a), t, s.tasks[t])
  {
    var r := s.tasks[t];
    if r.done == |r.plan| { assert r.plan[..r.done] == r.plan; }
  }

  /**
   Whatever the next step is, of the rebuild, of a nested operation or of anyone else: either the rebuild
   goes on and nothing durable changed, or it is over and the durable tables are entirely the old ones, or
   entirely what the whole plan makes of them; after any failure, the old ones.
   */
  lemma {:induction false} RebuildIsAtomic<Db>(db: Db, steps: seq<Step<Db>>, a: Step<Db>, t: nat)
    requires t in Run(db, steps).tasks && Run(db, steps).tasks[t].RbRunning?
    ensures Onward(Run(db, steps), Exec(Run(db, steps), a), t, Run(db, steps).tasks[t])
  {
    RunKeeps(db, steps);
    if a.t == t { OwnStep(Run(db, steps), a, t); } else { OthersWait(Run(db, steps), a, t); }
  }

  /** A rebuild that runs to its commit without a failure makes the whole plan durable. */
  lemma {:induction false} RebuildSucceeds<Db>(db: Db, steps: seq<Step<Db>>, t: nat)
    requires var s := Run(db, steps);
             && t in s.tasks && s.tasks[t].RbRunning? && !s.tasks[t].failed
             && s.tasks[t].done == |s.tasks[t].plan| && s.tasks[t].inner.None?
    ensures var s := Run(db, steps);
            Exec(s, Commit(t, true)).durable == RunPieces(s.tasks[t].plan, s.tasks[t].begun)
  {
    RunKeeps(db, steps);
    var r := Run(db, steps).tasks[t];
    assert r.plan[..r.done] == r.plan;
  }

  // ── Single operations are not ───────────────────────────────────────

  /** An operation that commits makes all its statements durable, over the content it started from. */
  lemma {:induction false} CommittedWhole<Db>(db: Db, steps: seq<Step<Db>>, t: nat)
    requires var s := Run(db, steps);
             t in s.tasks && s.tasks[t].OpRunning? && s.tasks[t].next == |s.tasks[t].body|
    ensures var s := Run(db, steps);
            Exec(s, Commit(t, true)).durable == RunAll(s.tasks[t].body, s.tasks[t].begun)
  {
    RunKeeps(db, steps);
    var r := Run(db, steps).tasks[t];
    assert r.body[..r.next] == r.body;
  }

  /** A failing statement leaves exactly the statements before it in the open transaction, and nothing durable. */
  lemma {:induction false} FailureLeavesPrefix<Db>(db: Db, steps: seq<Step<Db>>, t: nat)
    requires var s := Run(db, steps);
             t in s.tasks && s.tasks[t].OpRunning? && s.tasks[t].next < |s.tasks[t].body|
    ensures var s := Run(db, steps);
            var u := Exec(s, Execute(t, false));
            && u.durable == s.durable && u.inTransaction && u.owner.None?
            && u.working == RunAll(s.tasks[t].body[..s.tasks[t].next], s.tasks[t].begun)
  {
    RunKeeps(db, steps);
  }

  /** The steps of one operation that nobody disturbs. */
  function WholeOp<Db>(t: nat, body: seq<Db -> Db>, n: nat): seq<Step<Db>> {
    if n == 0 then [StartOp(t, body), Acquire(t)] else WholeOp(t, body, n - 1) + [Execute(t, true)]
  }

  function RunFrom<Db>(s: Sys<Db>, steps: seq<Step<Db>>): Sys<Db> {
    if steps == [] then s else Exec(RunFrom(s, steps[..|steps| - 1]), steps[|steps| - 1])
  }

  lemma {:induction false} OpStarts<Db>(s: Sys<Db>, t: nat, body: seq<Db -> Db>)
    requires s.owner.None? && t !in s.tasks
    ensures RunFrom(s, WholeOp(t, body, 0)) ==
            Goto(s, t, OpRunning(body, 0, s.working)).(owner := Some(t), depth := 1)
  {
    var start: Step<Db> := StartOp(t, body);
    var steps := WholeOp(t, body, 0);
    assert steps[..1] == [start] && [start][..0] == [];
    assert RunFrom(s, []) == s;
    var waiting := Goto(s, t, OpWaiting(body));
    assert RunFrom(s, [start]) == waiting;
    assert TakeLock(waiting, t).tasks == s.tasks[t := OpRunning(body, 0, s.working)];
  }

  /** One statement of an operation that owns the lock. */
  lemma {:induction false} OpExecutes<Db>(u: Sys<Db>, t: nat, body: seq<Db -> Db>, n: nat, begun: Db)
    requires u.owner == Some(t) && u.transactionOwner.None? && n < |body|
    requires t in u.tasks && u.tasks[t] == OpRunning(body, n, begun)
    ensures var v := Exec(u, Execute(t, true));
            && v.owner == Some(t) && v.transactionOwner.None? && v.durable == u.durable
            && t in v.tasks && v.tasks[t] == OpRunning(body, n + 1, begun) && v.working == body[n](u.working)
  {
  }

  lemma {:induction false} WholeOpRuns<Db>(s: Sys<Db>, t: nat, body: seq<Db -> Db>, n: nat)
    requires s.owner.None? && s.transactionOwner.None? && t !in s.tasks && n <= |body|
    ensures var u := RunFrom(s, WholeOp(t, body, n));
            && u.owner == Some(t) && u.transactionOwner.None? && u.durable == s.durable
            && t in u.tasks && u.tasks[t] == OpRunning(body, n, s.working)
            && u.working == RunAll(body[..n], s.working)
  {
    if n == 0 {
      OpStarts(s, t, body);
    } else {
      var steps := WholeOp(t, body, n);
      WholeOpRuns(s, t, body, n - 1);
      assert steps[..|steps| - 1] == WholeOp(t, body, n - 1);
      RunAllStep(body, n - 1, s.working);
      OpExecutes(RunFrom(s, WholeOp(t, body, n - 1)), t, body, n - 1, s.working);
    }
  }

  lemma CommitOfWhole<Db>(u: Sys<Db>, t: nat, body: seq<Db -> Db>, begun: Db)
    requires t in u.tasks && u.tasks[t] == OpRunning(body, |body|, begun) && u.transactionOwner.None?
    ensures Exec(u, Commit(t, true)).durable == u.working
  {
  }

  /**
   What a failed operation left in the open transaction is made durable by the next operation of anyone
   that succeeds, together with that operation's own statements.
   */
  lemma {:induction false} LeftoverIsCommitted<Db>(s: Sys<Db>, t: nat, body: seq<Db -> Db>)
    requires s.owner.None? && s.transactionOwner.None? && t !in s.tasks
    ensures Exec(RunFrom(s, WholeOp(t, body, |body|)), Commit(t, true)).durable == RunAll(body, s.working)
  {
    WholeOpRuns(s, t, body, |body|);
    CommitOfWhole(RunFrom(s, WholeOp(t, body, |body|)), t, body, s.working);
    assert body[..|body|] == body;
  }

  /** What is durable once somebody else's operation has run after `s` and committed. */
  function Committed<Db>(s: Sys<Db>, other: nat, body: seq<Db -> Db>): Db {
    Exec(RunFrom(s, WholeOp(other, body, |body|)), Commit(other, true)).durable
  }

  /** How many statements of its body an operation leaves behind when this step ends it without a commit. */
  function LeftBehind<Db>(s: Sys<Db>, a: Step<Db>): Option<nat> {
    if a.t in s.tasks && s.tasks[a.t].OpRunning? && s.tasks[a.t].next < |s.tasks[a.t].body| then
      match a
      case Execute(_, ok) => if ok then None else Some(s.tasks[a.t].next)
      case Cancel(_, landed) => Some(s.tasks[a.t].next + (if landed then 1 else 0))
      case _ => None
    else None
  }

  /**
   However an operation is broken off, by a failing statement or by a cancellation, the next one commits what it
   left.
   */
  lemma {:induction false} BrokenOffIsCommitted<Db>(db: Db, steps: seq<Step<Db>>, a: Step<Db>, other: nat,
                                                    body: seq<Db -> Db>)
    requires var s := Run(db, steps); LeftBehind(s, a).Some? && other !in s.tasks
    ensures var s := Run(db, steps);
            var u := Exec(s, a);
            && u.durable == s.durable
            && Committed(u, other, body)
                 == RunAll(body, RunAll(s.tasks[a.t].body[..LeftBehind(s, a).value], s.tasks[a.t].begun))
  {
    var s := Run(db, steps);
    RunKeeps(db, steps);
    var r := s.tasks[a.t];
    RunAllStep(r.body, r.next, r.begun);
    LeftoverIsCommitted(Exec(s, a), other, body);
  }

  /** Until then no rebuild can begin: it is refused and changes nothing. */
  lemma RebuildRefusedWhileOpen<Db>(s: Sys<Db>, t: nat, ok: bool)
    requires Inv(s) && t in s.tasks && s.tasks[t].RbOpening? && s.inTransaction
    ensures var u := Exec(s, Begin(t, ok));
            u.tasks[t] == Ended && u.owner.None? && u.durable == s.durable && u.working == s.working
  {
  }
}
