/**
 What every step of the action service keeps: which observations may follow which, where each task may
 stand, that one task at most carries an action to its execution, and that the waiting ones stay capped.
 */
module ActionSafety {
  import opened Std
  import opened Actions

  // ── What a trace may contain ────────────────────────────────────────

  predicate Undecided(trace: seq<Obs>, id: nat) {
    Decided(id, true) !in trace && Decided(id, false) !in trace && Expired(id) !in trace
  }

  /** What the past must hold when an observation is made. */
  predicate Justified(cfg: Config, kinds: map<nat, Kind>, past: seq<Obs>, o: Obs) {
    && o.id in kinds
    && match o
       case Stored(id, stage) =>
         cfg.requireDurable ==>
           && (stage == StExecuting && kinds[id].confirm ==> Stored(id, StConfirmed) in past)
           && (stage == StUndoExecuting ==> Stored(id, StUndoRequested) in past)
       case Decided(id, _) => kinds[id].confirm && Undecided(past, id)
       case Expired(id) => kinds[id].confirm && Undecided(past, id)
       case Executed(id) =>
         && !kinds[id].undo
         && Executed(id) !in past
         && (kinds[id].confirm ==> Decided(id, true) in past)
         && (cfg.requireDurable ==> Stored(id, StExecuting) in past)
       case Undone(id, _) => kinds[id].undo && (cfg.requireDurable ==> Stored(id, StUndoExecuting) in past)
  }

  predicate Lawful(cfg: Config, kinds: map<nat, Kind>, trace: seq<Obs>) {
    trace == [] ||
    (Lawful(cfg, kinds, trace[..|trace| - 1])
     && Justified(cfg, kinds, trace[..|trace| - 1], trace[|trace| - 1]))
  }

  // ── The invariant ───────────────────────────────────────────────────

  /** The task is on its way to executing `id`. */
  predicate Carries(kinds: map<nat, Kind>, task: Task, id: nat) {
    match task
    case RqAudit(i) => i == id && id in kinds && !kinds[id].confirm
    case RqPub(i) => i == id && id in kinds && !kinds[id].confirm
    case CfPub(i, approve) => i == id && approve
    case CfAudit(i, approve) => i == id && approve
    case ExSlot(i) => i == id
    case ExSandbox(i) => i == id
    case ExAudit(i) => i == id
    case _ => false
  }

  predicate Known(s: Sys, id: nat) { id in s.kinds }

  predicate Ready(s: Sys, id: nat) {
    && id in s.kinds && !s.kinds[id].undo
    && Executed(id) !in s.trace
    && (s.kinds[id].confirm ==> Decided(id, true) in s.trace)
  }

  predicate Victim(s: Sys, id: nat) { id in s.kinds && s.kinds[id].confirm && Undecided(s.trace, id) }

  /** Whoever waits although it is too old for the given time is still to be expired. */
  predicate Pruned(cfg: Config, s: Sys, todo: set<nat>, now: int) {
    forall v | v in s.pending && v in s.records && s.records[v].state == Waiting && v !in todo ::
      s.records[v].createdAt >= now - cfg.ttl
  }

  predicate Expiring(cfg: Config, s: Sys, t: nat, todo: set<nat>, auditing: Option<nat>, now: int) {
    && s.lock == Some(t) && Pruned(cfg, s, todo, now)
    && (forall v | v in todo :: Victim(s, v))
    && (auditing.Some? ==> Known(s, auditing.value))
  }

  predicate Logged(cfg: Config, s: Sys, id: nat, stage: Stage) {
    cfg.requireDurable ==> Stored(id, stage) in s.trace
  }

  predicate Cleared(cfg: Config, s: Sys, id: nat) {
    Ready(s, id) && (s.kinds[id].confirm ==> Logged(cfg, s, id, StConfirmed))
  }

  predicate Undoing(s: Sys, id: nat) { id in s.kinds && s.kinds[id].undo }

  predicate TaskOk(cfg: Config, s: Sys, t: nat, task: Task) {
    match task
    case RqLock(id) => Known(s, id) && s.kinds[id].confirm
    case RqExpiring(id, todo, auditing, now) =>
      Known(s, id) && s.kinds[id].confirm && Expiring(cfg, s, t, todo, auditing, now)
    case RqOverflow(id) => Known(s, id) && s.lock == Some(t)
    case RqAudit(id) => Known(s, id) && (!s.kinds[id].confirm ==> Ready(s, id))
    case RqPreview(id) => Known(s, id) && s.kinds[id].confirm
    case RqPub(id) => Known(s, id) && (!s.kinds[id].confirm ==> Ready(s, id))
    case CfLock(_, _) => true
    case CfExpiring(_, _, todo, auditing, now) => Expiring(cfg, s, t, todo, auditing, now)
    case CfPub(id, approve) => Known(s, id) && (approve ==> Ready(s, id))
    case CfAudit(id, approve) => Known(s, id) && (approve ==> Ready(s, id))
    case ExSlot(id) => Cleared(cfg, s, id)
    case ExSandbox(id) => Cleared(cfg, s, id)
    case ExAudit(id) => Cleared(cfg, s, id)
    case ExCall(id) => Known(s, id)
    case ExPub(id) => Known(s, id)
    case UnAudit(id, _) => Undoing(s, id)
    case UnSlot(id, _) => Undoing(s, id) && Logged(cfg, s, id, StUndoRequested)
    case UnSandbox(id, _) => Undoing(s, id) && Logged(cfg, s, id, StUndoRequested)
    case UnIntent(id, _) => Undoing(s, id) && Logged(cfg, s, id, StUndoRequested)
    case UnCall(id, _) => Known(s, id)
    case UnPub(id) => Known(s, id)
    case LastAudit(id) => Known(s, id)
    case Ended => true
  }

  predicate KindsOk(cfg: Config, s: Sys) {
    forall id | id in s.kinds ::
      if s.kinds[id].undo then !s.kinds[id].confirm
      else s.kinds[id].confirm == NeedsConfirmation(cfg, s.kinds[id].actionType)
  }

  predicate RecordsOk(s: Sys) {
    && s.pending <= s.kinds.Keys
    && (forall id | id in s.records :: Known(s, id) && (s.records[id].state == Waiting ==> Victim(s, id)))
  }

  predicate TasksOk(cfg: Config, s: Sys) { forall t | t in s.tasks :: TaskOk(cfg, s, t, s.tasks[t]) }

  ghost predicate OneCarrier(s: Sys) {
    forall t, t', id | t in s.tasks && t' in s.tasks
      && Carries(s.kinds, s.tasks[t], id) && Carries(s.kinds, s.tasks[t'], id) :: t == t'
  }

  ghost predicate Inv(cfg: Config, s: Sys) {
    && KindsOk(cfg, s) && RecordsOk(s) && TasksOk(cfg, s) && OneCarrier(s) && Lawful(cfg, s.kinds, s.trace)
    && |WaitingSet(s)| <= cfg.maxPending
  }

  // ── One move of one task, with at most one observation ──────────────

  function With(trace: seq<Obs>, o: Option<Obs>): seq<Obs> { if o.Some? then trace + [o.value] else trace }

  predicate LockMoves(s: Sys, u: Sys, t: nat) {
    u.lock == s.lock || ((s.lock == None || s.lock == Some(t)) && (u.lock == None || u.lock == Some(t)))
  }

  predicate RecordsMove(s: Sys, u: Sys) {
    && u.records.Keys == s.records.Keys
    && (forall id | id in u.records && u.records[id].state == Waiting ::
          s.records[id].state == Waiting && u.records[id].createdAt == s.records[id].createdAt)
  }

  predicate NoneCarries(s: Sys, id: nat) {
    forall t | t in s.tasks :: !Carries(s.kinds, s.tasks[t], id)
  }

  predicate Observable(cfg: Config, s: Sys, u: Sys, t: nat, o: Obs)
    requires t in s.tasks && t in u.tasks
  {
    && Justified(cfg, s.kinds, s.trace, o)
    && (o.Executed? ==> Carries(s.kinds, s.tasks[t], o.id) && !Carries(s.kinds, u.tasks[t], o.id))
    && (o.Decided? || o.Expired? ==>
          s.lock == Some(t) && (o.id in u.records ==> u.records[o.id].state != Waiting))
  }

  /** At most one action joins the pending ones, and only while there is room for one more that waits. */
  predicate PendingMoves(cfg: Config, s: Sys, u: Sys) {
    u.pending <= s.pending || (|u.pending - s.pending| <= 1 && |WaitingSet(s)| < cfg.maxPending)
  }

  /** What a step leaves behind: the invariant, and no known record newly waiting. */
  ghost predicate Next(cfg: Config, s: Sys, u: Sys) {
    && Inv(cfg, u)
    && (forall id | id in s.records ::
          id in u.records && (u.records[id].state == Waiting ==> s.records[id].state == Waiting))
  }

  /** What the step may touch: one task, at most one observation, and of the records nothing that starts to wait. */
  ghost predicate Shape(cfg: Config, s: Sys, u: Sys, t: nat, o: Option<Obs>) {
    && t in s.tasks && t in u.tasks
    && u.kinds == s.kinds
    && u.tasks == s.tasks[t := u.tasks[t]]
    && u.trace == With(s.trace, o)
    && u.pending <= u.kinds.Keys && PendingMoves(cfg, s, u)
    && LockMoves(s, u, t) && (u.pending <= s.pending || s.lock == Some(t))
    && RecordsMove(s, u)
  }

  /** What the step owes: its task stands where it may, observes what it may, and carries nothing it did not carry. */
  ghost predicate Duty(cfg: Config, s: Sys, u: Sys, t: nat, o: Option<Obs>)
    requires t in s.tasks && t in u.tasks
  {
    && TaskOk(cfg, u, t, u.tasks[t])
    && (o.Some? ==> Observable(cfg, s, u, t, o.value))
    && (forall id | Carries(u.kinds, u.tasks[t], id) :: Carries(s.kinds, s.tasks[t], id) || NoneCarries(s, id))
  }

  ghost predicate Move(cfg: Config, s: Sys, u: Sys, t: nat, o: Option<Obs>) {
    Shape(cfg, s, u, t, o) && Duty(cfg, s, u, t, o)
  }

  /** A task that waits for the lock holder's expiries is the lock holder, and nothing else is decided meanwhile. */
  lemma ExpiringKeeps(cfg: Config, s: Sys, u: Sys, t: nat, o: Option<Obs>, t': nat)
    requires Inv(cfg, s) && Move(cfg, s, u, t, o) && t' in s.tasks && t' != t
    requires s.tasks[t'].RqExpiring? || s.tasks[t'].CfExpiring?
    ensures TaskOk(cfg, u, t', u.tasks[t'])
  {
    var task := s.tasks[t'];
    assert TaskOk(cfg, s, t', task);
    assert s.lock == Some(t');
    forall v | v in task.todo ensures Victim(u, v) { assert Victim(s, v); }
  }

  lemma OthersKeep(cfg: Config, s: Sys, u: Sys, t: nat, o: Option<Obs>, t': nat)
    requires Inv(cfg, s) && Move(cfg, s, u, t, o) && t' in s.tasks && t' != t
    ensures TaskOk(cfg, u, t', u.tasks[t'])
  {
    var task := s.tasks[t'];
    if task.RqExpiring? || task.CfExpiring? {
      ExpiringKeeps(cfg, s, u, t, o, t');
    } else {
      assert TaskOk(cfg, s, t', task);
      if o.Some? && o.value.Executed? { assert !Carries(s.kinds, task, o.value.id); }
    }
  }

  lemma RecordsKeep(cfg: Config, s: Sys, u: Sys, t: nat, o: Option<Obs>)
    requires Inv(cfg, s) && Move(cfg, s, u, t, o)
    ensures RecordsOk(u)
  {
    forall id | id in u.records && u.records[id].state == Waiting ensures Victim(u, id) {
      assert s.records[id].state == Waiting && Victim(s, id);
    }
  }

  lemma CarrierKeep(cfg: Config, s: Sys, u: Sys, t: nat, o: Option<Obs>)
    requires Inv(cfg, s) && Move(cfg, s, u, t, o)
    ensures OneCarrier(u)
  {
  }

  lemma SubsetSize(a: set<nat>, b: set<nat>)
    requires a <= b
    ensures |a| <= |b|
  {
    assert b == a + (b - a);
  }

  lemma MoveWaits(cfg: Config, s: Sys, u: Sys, t: nat, o: Option<Obs>)
    requires Inv(cfg, s) && Move(cfg, s, u, t, o)
    ensures |WaitingSet(u)| <= cfg.maxPending
  {
    if u.pending <= s.pending {
      SubsetSize(WaitingSet(u), WaitingSet(s));
    } else {
      SubsetSize(WaitingSet(u), WaitingSet(s) + (u.pending - s.pending));
    }
  }

  lemma MoveKeeps(cfg: Config, s: Sys, u: Sys, t: nat, o: Option<Obs>)
    requires Inv(cfg, s) && Move(cfg, s, u, t, o)
    ensures Next(cfg, s, u)
  {
    MoveWaits(cfg, s, u, t, o);
    forall t' | t' in u.tasks ensures TaskOk(cfg, u, t', u.tasks[t']) {
      if t' != t { OthersKeep(cfg, s, u, t, o, t'); }
    }
    RecordsKeep(cfg, s, u, t, o);
    CarrierKeep(cfg, s, u, t, o);
    if o.Some? { assert u.trace[..|u.trace| - 1] == s.trace; }
  }

  // ── Every step keeps the invariant ──────────────────────────────────

  function Kept(cfg: Config, s: Sys, id: nat, stage: Stage, reply: AuditReply): Option<Obs> {
    if cfg.auditEnabled && !s.storeQuarantined && cfg.hasStore && (reply.Written? || (reply.Lost? && reply.landed))
    then Some(Stored(id, stage)) else None
  }

  /** An audit observes at most one stored entry, and reports success only when a required one was stored. */
  lemma AuditSpec(cfg: Config, s: Sys, id: nat, stage: Stage, reply: AuditReply)
    ensures var (ok, u) := Audit(cfg, s, id, stage, reply);
            && u == s.(trace := With(s.trace, Kept(cfg, s, id, stage, reply)), storeQuarantined := u.storeQuarantined)
            && (ok && cfg.requireDurable ==> Stored(id, stage) in u.trace)
  {
  }

  predicate Framed(s: Sys, u: Sys) {
    RecordsMove(s, u) && u.pending <= s.pending
    && u == s.(records := u.records, pending := u.pending, history := u.history, slots := u.slots)
  }

  lemma PutFrame(s: Sys, id: nat, state: State, result: Option<Outcome>)
    requires state != Waiting
    ensures var u := if id in s.records then Put(s, id, s.records[id].(state := state, result := result)) else s;
            RecordsMove(s, u) && u == s.(records := u.records)
  {
  }

  lemma CloseFrame(cfg: Config, s: Sys, id: nat, state: State, result: Option<Outcome>)
    requires state != Waiting
    ensures Framed(s, Close(cfg, s, id, state, result))
  {
    var u := if id in s.records then Put(s, id, s.records[id].(state := state, result := result)) else s;
    PutFrame(s, id, state, result);
    assert Close(cfg, s, id, state, result) == Remember(cfg, Pop(u, id), id);
  }

  lemma FinishFrame(cfg: Config, s: Sys, t: nat, id: nat, outcome: Outcome)
    ensures Framed(s.(tasks := s.tasks[t := ExPub(id)]), FinishExecution(cfg, s, t, id, outcome))
  {
  }

  lemma FinishUndoFrame(cfg: Config, s: Sys, t: nat, id: nat, outcome: Outcome)
    ensures Framed(s.(tasks := s.tasks[t := UnPub(id)]), FinishUndo(cfg, s, t, id, outcome))
  {
  }

  /** A change of records, queue and one task by somebody who may hold the lock. */
  lemma FrameIsShape(cfg: Config, s: Sys, u: Sys, t: nat)
    requires t in s.tasks && t in u.tasks && s.pending <= s.kinds.Keys
    requires u == s.(lock := u.lock, tasks := s.tasks[t := u.tasks[t]], records := u.records, pending := u.pending,
                     history := u.history, slots := u.slots, providerQuarantined := u.providerQuarantined)
    requires RecordsMove(s, u) && u.pending <= s.pending && LockMoves(s, u, t)
    ensures Shape(cfg, s, u, t, None)
  {
  }

  lemma AuditShape(cfg: Config, s: Sys, u: Sys, t: nat, id: nat, stage: Stage, reply: AuditReply)
    requires t in s.tasks && t in u.tasks && s.pending <= s.kinds.Keys
    requires u == Audit(cfg, s, id, stage, reply).1.(lock := u.lock, tasks := s.tasks[t := u.tasks[t]],
                    records := u.records, pending := u.pending, history := u.history, slots := u.slots)
    requires RecordsMove(s, u) && u.pending <= s.pending && LockMoves(s, u, t)
    ensures Shape(cfg, s, u, t, Kept(cfg, s, id, stage, reply))
  {
    AuditSpec(cfg, s, id, stage, reply);
  }

  lemma AuditDuty(cfg: Config, s: Sys, u: Sys, t: nat, id: nat, stage: Stage, reply: AuditReply)
    requires t in s.tasks && t in u.tasks && Known(s, id) && u.kinds == s.kinds && TaskOk(cfg, u, t, u.tasks[t])
    requires stage == StExecuting && s.kinds[id].confirm ==> Logged(cfg, s, id, StConfirmed)
    requires stage == StUndoExecuting ==> Logged(cfg, s, id, StUndoRequested)
    requires forall i | Carries(u.kinds, u.tasks[t], i) :: Carries(s.kinds, s.tasks[t], i)
    ensures Duty(cfg, s, u, t, Kept(cfg, s, id, stage, reply))
  {
  }

  /** An audit of a task, followed by a change of records only. */
  lemma AuditStep(cfg: Config, s: Sys, u: Sys, t: nat, id: nat, stage: Stage, reply: AuditReply)
    requires t in s.tasks && t in u.tasks && Known(s, id) && s.pending <= s.kinds.Keys
    requires u == Audit(cfg, s, id, stage, reply).1.(lock := u.lock, tasks := s.tasks[t := u.tasks[t]],
                    records := u.records, pending := u.pending, history := u.history, slots := u.slots)
    requires RecordsMove(s, u) && u.pending <= s.pending && LockMoves(s, u, t)
    requires TaskOk(cfg, u, t, u.tasks[t])
    requires stage == StExecuting && s.kinds[id].confirm ==> Logged(cfg, s, id, StConfirmed)
    requires stage == StUndoExecuting ==> Logged(cfg, s, id, StUndoRequested)
    requires forall i | Carries(u.kinds, u.tasks[t], i) :: Carries(s.kinds, s.tasks[t], i)
    ensures Move(cfg, s, u, t, Kept(cfg, s, id, stage, reply))
  {
    AuditShape(cfg, s, u, t, id, stage, reply);
    AuditSpec(cfg, s, id, stage, reply);
    AuditDuty(cfg, s, u, t, id, stage, reply);
  }

  lemma ExpiryAudited(cfg: Config, s: Sys, t: nat, reply: AuditReply)
    requires Inv(cfg, s) && t in s.tasks
    requires (s.tasks[t].RqExpiring? || s.tasks[t].CfExpiring?) && s.tasks[t].auditing.Some?
    ensures Next(cfg, s, AuditEnds(cfg, s, t, reply))
  {
    var task := s.tasks[t];
    assert TaskOk(cfg, s, t, task);
    var victim := task.auditing.value;
    var u := AuditEnds(cfg, s, t, reply);
    AuditSpec(cfg, s, victim, StOther, reply);
    forall v | v in task.todo ensures Victim(u, v) { assert Victim(s, v); }
    AuditStep(cfg, s, u, t, victim, StOther, reply);
    MoveKeeps(cfg, s, u, t, Kept(cfg, s, victim, StOther, reply));
  }

  /** The audit passes, and the task takes its next stage. */
  lemma PassedIsMove(cfg: Config, s: Sys, t: nat, id: nat, stage: Stage, reply: AuditReply, next: Task)
    requires t in s.tasks && s.pending <= s.kinds.Keys && Known(s, id) && (stage == StRequested || stage == StConfirmed)
    requires var u := Goto(Audit(cfg, s, id, stage, reply).1, t, next);
             TaskOk(cfg, u, t, next) && forall i | Carries(u.kinds, next, i) :: Carries(s.kinds, s.tasks[t], i)
    ensures Move(cfg, s, Goto(Audit(cfg, s, id, stage, reply).1, t, next), t, Kept(cfg, s, id, stage, reply))
  {
    AuditSpec(cfg, s, id, stage, reply);
    AuditStep(cfg, s, Goto(Audit(cfg, s, id, stage, reply).1, t, next), t, id, stage, reply);
  }

  /** The audit does not pass, and the action is closed. */
  lemma RefusedIsMove(cfg: Config, s: Sys, t: nat, id: nat, stage: Stage, reply: AuditReply)
    requires t in s.tasks && s.pending <= s.kinds.Keys && Known(s, id) && (stage == StRequested || stage == StConfirmed)
    ensures Move(cfg, s, Goto(Close(cfg, Audit(cfg, s, id, stage, reply).1, id, Failed, Failure()), t, Ended), t,
                 Kept(cfg, s, id, stage, reply))
  {
    var v := Audit(cfg, s, id, stage, reply).1;
    AuditSpec(cfg, s, id, stage, reply);
    CloseFrame(cfg, v, id, Failed, Failure());
    AuditStep(cfg, s, Goto(Close(cfg, v, id, Failed, Failure()), t, Ended), t, id, stage, reply);
  }

  /** What an audit leaves of the task's standing: only observations are added, and none of an execution. */
  lemma AuditKeepsReady(cfg: Config, s: Sys, id: nat, stage: Stage, reply: AuditReply)
    ensures Ready(s, id) ==> Ready(Audit(cfg, s, id, stage, reply).1, id)
    ensures Known(s, id) ==> Known(Audit(cfg, s, id, stage, reply).1, id)
    ensures Audit(cfg, s, id, stage, reply).0 ==> Logged(cfg, Audit(cfg, s, id, stage, reply).1, id, stage)
  {
  }

  lemma RequestIsMove(cfg: Config, s: Sys, t: nat, id: nat, reply: AuditReply)
    requires t in s.tasks && s.pending <= s.kinds.Keys && s.tasks[t] == RqAudit(id) && TaskOk(cfg, s, t, s.tasks[t])
    ensures Move(cfg, s, AuditEnds(cfg, s, t, reply), t, Kept(cfg, s, id, StRequested, reply))
  {
    var (ok, v) := Audit(cfg, s, id, StRequested, reply);
    AuditSpec(cfg, s, id, StRequested, reply);
    AuditKeepsReady(cfg, s, id, StRequested, reply);
    if ok {
      PassedIsMove(cfg, s, t, id, StRequested, reply,
                   if s.kinds[id].confirm && cfg.hasProvider then RqPreview(id) else RqPub(id));
    } else {
      RefusedIsMove(cfg, s, t, id, StRequested, reply);
    }
  }

  lemma ConfirmIsMove(cfg: Config, s: Sys, t: nat, id: nat, approve: bool, reply: AuditReply)
    requires t in s.tasks && s.pending <= s.kinds.Keys && s.tasks[t] == CfAudit(id, approve)
    requires TaskOk(cfg, s, t, s.tasks[t])
    ensures Move(cfg, s, AuditEnds(cfg, s, t, reply), t, Kept(cfg, s, id, StConfirmed, reply))
  {
    var (ok, v) := Audit(cfg, s, id, StConfirmed, reply);
    AuditSpec(cfg, s, id, StConfirmed, reply);
    AuditKeepsReady(cfg, s, id, StConfirmed, reply);
    if approve && !ok {
      RefusedIsMove(cfg, s, t, id, StConfirmed, reply);
    } else {
      PassedIsMove(cfg, s, t, id, StConfirmed, reply, if approve then ExSlot(id) else Ended);
    }
  }

  lemma RequestAudited(cfg: Config, s: Sys, t: nat, reply: AuditReply)
    requires Inv(cfg, s) && t in s.tasks && (s.tasks[t].RqAudit? || s.tasks[t].CfAudit?)
    ensures Next(cfg, s, AuditEnds(cfg, s, t, reply))
  {
    assert TaskOk(cfg, s, t, s.tasks[t]);
    var id := s.tasks[t].id;
    if s.tasks[t].RqAudit? {
      RequestIsMove(cfg, s, t, id, reply);
      MoveKeeps(cfg, s, AuditEnds(cfg, s, t, reply), t, Kept(cfg, s, id, StRequested, reply));
    } else {
      ConfirmIsMove(cfg, s, t, id, s.tasks[t].approve, reply);
      MoveKeeps(cfg, s, AuditEnds(cfg, s, t, reply), t, Kept(cfg, s, id, StConfirmed, reply));
    }
  }

  lemma OverflowAudited(cfg: Config, s: Sys, t: nat, id: nat, reply: AuditReply)
    requires Inv(cfg, s) && t in s.tasks && s.tasks[t] == RqOverflow(id)
    ensures Next(cfg, s, AuditEnds(cfg, s, t, reply))
  {
    assert TaskOk(cfg, s, t, s.tasks[t]);
    var u := Goto(Audit(cfg, s, id, StOther, reply).1.(lock := None), t, Ended);
    AuditSpec(cfg, s, id, StOther, reply);
    AuditStep(cfg, s, u, t, id, StOther, reply);
    MoveKeeps(cfg, s, u, t, Kept(cfg, s, id, StOther, reply));
  }

  lemma LastAudited(cfg: Config, s: Sys, t: nat, id: nat, reply: AuditReply)
    requires Inv(cfg, s) && t in s.tasks && s.tasks[t] == LastAudit(id)
    ensures Next(cfg, s, AuditEnds(cfg, s, t, reply))
  {
    assert TaskOk(cfg, s, t, s.tasks[t]);
    var u := Goto(Audit(cfg, s, id, StOther, reply).1, t, Ended);
    assert AuditEnds(cfg, s, t, reply) == u;
    AuditSpec(cfg, s, id, StOther, reply);
    AuditStep(cfg, s, u, t, id, StOther, reply);
    MoveKeeps(cfg, s, u, t, Kept(cfg, s, id, StOther, reply));
  }

  lemma UndoRequestIsMove(cfg: Config, s: Sys, t: nat, id: nat, original: nat, reply: AuditReply, next: Task)
    requires t in s.tasks && s.pending <= s.kinds.Keys && s.tasks[t] == UnAudit(id, original)
    requires TaskOk(cfg, s, t, s.tasks[t])
    requires next == Ended || (next == UnSlot(id, original) && Audit(cfg, s, id, StUndoRequested, reply).0)
    ensures Move(cfg, s, Goto(Audit(cfg, s, id, StUndoRequested, reply).1, t, next), t,
                 Kept(cfg, s, id, StUndoRequested, reply))
  {
    AuditSpec(cfg, s, id, StUndoRequested, reply);
    AuditStep(cfg, s, Goto(Audit(cfg, s, id, StUndoRequested, reply).1, t, next), t, id, StUndoRequested, reply);
  }

  lemma UndoRequestAudited(cfg: Config, s: Sys, t: nat, id: nat, original: nat, reply: AuditReply)
    requires Inv(cfg, s) && t in s.tasks && s.tasks[t] == UnAudit(id, original)
    ensures Next(cfg, s, AuditEnds(cfg, s, t, reply))
  {
    assert TaskOk(cfg, s, t, s.tasks[t]);
    var (ok, v) := Audit(cfg, s, id, StUndoRequested, reply);
    var next := if ok then UnSlot(id, original) else Ended;
    assert AuditEnds(cfg, s, t, reply) == Goto(v, t, next);
    UndoRequestIsMove(cfg, s, t, id, original, reply, next);
    MoveKeeps(cfg, s, Goto(v, t, next), t, Kept(cfg, s, id, StUndoRequested, reply));
  }

  lemma PlainAudited(cfg: Config, s: Sys, t: nat, reply: AuditReply)
    requires Inv(cfg, s) && t in s.tasks
    requires s.tasks[t].RqOverflow? || s.tasks[t].UnAudit? || s.tasks[t].LastAudit?
    ensures Next(cfg, s, AuditEnds(cfg, s, t, reply))
  {
    var task := s.tasks[t];
    if task.RqOverflow? {
      OverflowAudited(cfg, s, t, task.id, reply);
    } else if task.LastAudit? {
      LastAudited(cfg, s, t, task.id, reply);
    } else {
      UndoRequestAudited(cfg, s, t, task.id, task.original, reply);
    }
  }

  /** A durable intent is stored first; the side effect is a second observation of the same step. */
  lemma IntentStored(cfg: Config, s: Sys, t: nat, id: nat, stage: Stage, reply: AuditReply)
    requires Inv(cfg, s) && t in s.tasks
    requires (s.tasks[t].ExAudit? && stage == StExecuting) || (s.tasks[t].UnIntent? && stage == StUndoExecuting)
    requires id == s.tasks[t].id
    ensures var (ok, mid) := Audit(cfg, s, id, stage, reply);
            && Next(cfg, s, mid) && mid.tasks == s.tasks && (ok ==> Logged(cfg, mid, id, stage))
  {
    assert TaskOk(cfg, s, t, s.tasks[t]);
    var mid := Audit(cfg, s, id, stage, reply).1;
    AuditSpec(cfg, s, id, stage, reply);
    assert mid.tasks == s.tasks[t := mid.tasks[t]];
    AuditStep(cfg, s, mid, t, id, stage, reply);
    MoveKeeps(cfg, s, mid, t, Kept(cfg, s, id, stage, reply));
  }

  lemma ExecuteIsMove(cfg: Config, s: Sys, t: nat, id: nat)
    requires t in s.tasks && s.pending <= s.kinds.Keys && s.tasks[t] == ExAudit(id) && TaskOk(cfg, s, t, s.tasks[t])
    requires Logged(cfg, s, id, StExecuting)
    ensures Move(cfg, s, Goto(Observe(s, Executed(id)), t, ExCall(id)), t, Some(Executed(id)))
  {
  }

  lemma ExecutedKeeps(cfg: Config, s: Sys, t: nat, id: nat)
    requires Inv(cfg, s) && t in s.tasks && s.tasks[t] == ExAudit(id) && Logged(cfg, s, id, StExecuting)
    ensures Next(cfg, s, Goto(Observe(s, Executed(id)), t, ExCall(id)))
  {
    assert TaskOk(cfg, s, t, s.tasks[t]);
    ExecuteIsMove(cfg, s, t, id);
    MoveKeeps(cfg, s, Goto(Observe(s, Executed(id)), t, ExCall(id)), t, Some(Executed(id)));
  }

  lemma ExecutionRefusedKeeps(cfg: Config, s: Sys, t: nat, id: nat)
    requires Inv(cfg, s) && t in s.tasks && s.tasks[t] == ExAudit(id)
    ensures Next(cfg, s, FinishExecution(cfg, s, t, id, Outcome(false, false)))
  {
    assert TaskOk(cfg, s, t, s.tasks[t]);
    FinishIsMove(cfg, s, s, t, id, Outcome(false, false));
    MoveKeeps(cfg, s, FinishExecution(cfg, s, t, id, Outcome(false, false)), t, None);
  }

  lemma ExecutionAllowed(cfg: Config, s: Sys, t: nat, id: nat, reply: AuditReply)
    requires Inv(cfg, s) && t in s.tasks && s.tasks[t] == ExAudit(id) && Audit(cfg, s, id, StExecuting, reply).0
    ensures Next(cfg, s, Goto(Observe(Audit(cfg, s, id, StExecuting, reply).1, Executed(id)), t, ExCall(id)))
  {
    var mid := Audit(cfg, s, id, StExecuting, reply).1;
    IntentStored(cfg, s, t, id, StExecuting, reply);
    ExecutedKeeps(cfg, mid, t, id);
    NextTwice(cfg, s, mid, Goto(Observe(mid, Executed(id)), t, ExCall(id)));
  }

  lemma ExecutionBarred(cfg: Config, s: Sys, t: nat, id: nat, reply: AuditReply)
    requires Inv(cfg, s) && t in s.tasks && s.tasks[t] == ExAudit(id)
    ensures Next(cfg, s, FinishExecution(cfg, Audit(cfg, s, id, StExecuting, reply).1, t, id, Outcome(false, false)))
  {
    var mid := Audit(cfg, s, id, StExecuting, reply).1;
    IntentStored(cfg, s, t, id, StExecuting, reply);
    ExecutionRefusedKeeps(cfg, mid, t, id);
    NextTwice(cfg, s, mid, FinishExecution(cfg, mid, t, id, Outcome(false, false)));
  }

  lemma ExecuteAudited(cfg: Config, s: Sys, t: nat, id: nat, reply: AuditReply)
    requires Inv(cfg, s) && t in s.tasks && s.tasks[t] == ExAudit(id)
    ensures Next(cfg, s, AuditEnds(cfg, s, t, reply))
  {
    var (ok, mid) := Audit(cfg, s, id, StExecuting, reply);
    if ok {
      assert AuditEnds(cfg, s, t, reply) == Goto(Observe(mid, Executed(id)), t, ExCall(id));
      ExecutionAllowed(cfg, s, t, id, reply);
    } else {
      assert AuditEnds(cfg, s, t, reply) == FinishExecution(cfg, mid, t, id, Outcome(false, false));
      ExecutionBarred(cfg, s, t, id, reply);
    }
  }

  lemma UndoIsMove(cfg: Config, s: Sys, t: nat, id: nat, original: nat)
    requires t in s.tasks && s.pending <= s.kinds.Keys && s.tasks[t] == UnIntent(id, original)
    requires TaskOk(cfg, s, t, s.tasks[t]) && Logged(cfg, s, id, StUndoExecuting)
    ensures Move(cfg, s, Goto(Observe(s, Undone(id, original)), t, UnCall(id, original)), t, Some(Undone(id, original)))
  {
  }

  lemma UndoRefusedKeeps(cfg: Config, s: Sys, t: nat, id: nat, original: nat)
    requires Inv(cfg, s) && t in s.tasks && s.tasks[t] == UnIntent(id, original)
    ensures Next(cfg, s, FinishUndo(cfg, s, t, id, Outcome(false, false)))
  {
    assert TaskOk(cfg, s, t, s.tasks[t]);
    FinishUndoIsMove(cfg, s, s, t, id, Outcome(false, false));
    MoveKeeps(cfg, s, FinishUndo(cfg, s, t, id, Outcome(false, false)), t, None);
  }

  lemma UndoneKeeps(cfg: Config, s: Sys, t: nat, id: nat, original: nat)
    requires Inv(cfg, s) && t in s.tasks && s.tasks[t] == UnIntent(id, original) && Logged(cfg, s, id, StUndoExecuting)
    ensures Next(cfg, s, Goto(Observe(s, Undone(id, original)), t, UnCall(id, original)))
  {
    assert TaskOk(cfg, s, t, s.tasks[t]);
    UndoIsMove(cfg, s, t, id, original);
    MoveKeeps(cfg, s, Goto(Observe(s, Undone(id, original)), t, UnCall(id, original)), t, Some(Undone(id, original)));
  }

  lemma NextTwice(cfg: Config, s: Sys, mid: Sys, u: Sys)
    requires Next(cfg, s, mid) && Next(cfg, mid, u)
    ensures Next(cfg, s, u)
  {
  }

  lemma UndoAllowed(cfg: Config, s: Sys, t: nat, id: nat, original: nat, reply: AuditReply)
    requires Inv(cfg, s) && t in s.tasks && s.tasks[t] == UnIntent(id, original)
    requires Audit(cfg, s, id, StUndoExecuting, reply).0
    ensures var mid := Audit(cfg, s, id, StUndoExecuting, reply).1;
            Next(cfg, s, Goto(Observe(mid, Undone(id, original)), t, UnCall(id, original)))
  {
    var mid := Audit(cfg, s, id, StUndoExecuting, reply).1;
    IntentStored(cfg, s, t, id, StUndoExecuting, reply);
    UndoneKeeps(cfg, mid, t, id, original);
    NextTwice(cfg, s, mid, Goto(Observe(mid, Undone(id, original)), t, UnCall(id, original)));
  }

  lemma UndoBarred(cfg: Config, s: Sys, t: nat, id: nat, original: nat, reply: AuditReply)
    requires Inv(cfg, s) && t in s.tasks && s.tasks[t] == UnIntent(id, original)
    ensures Next(cfg, s, FinishUndo(cfg, Audit(cfg, s, id, StUndoExecuting, reply).1, t, id, Outcome(false, false)))
  {
    var mid := Audit(cfg, s, id, StUndoExecuting, reply).1;
    IntentStored(cfg, s, t, id, StUndoExecuting, reply);
    UndoRefusedKeeps(cfg, mid, t, id, original);
    NextTwice(cfg, s, mid, FinishUndo(cfg, mid, t, id, Outcome(false, false)));
  }

  lemma UndoAudited(cfg: Config, s: Sys, t: nat, id: nat, original: nat, reply: AuditReply)
    requires Inv(cfg, s) && t in s.tasks && s.tasks[t] == UnIntent(id, original)
    ensures Next(cfg, s, AuditEnds(cfg, s, t, reply))
  {
    var (ok, mid) := Audit(cfg, s, id, StUndoExecuting, reply);
    if ok {
      assert AuditEnds(cfg, s, t, reply) == Goto(Observe(mid, Undone(id, original)), t, UnCall(id, original));
      UndoAllowed(cfg, s, t, id, original, reply);
    } else {
      assert AuditEnds(cfg, s, t, reply) == FinishUndo(cfg, mid, t, id, Outcome(false, false));
      UndoBarred(cfg, s, t, id, original, reply);
    }
  }

  /** Audits of an intent, whose side effect follows in the same step, and audits of an expiry. */
  lemma IntentAudited(cfg: Config, s: Sys, t: nat, reply: AuditReply)
    requires Inv(cfg, s) && t in s.tasks
    requires s.tasks[t].ExAudit? || s.tasks[t].UnIntent? || s.tasks[t].RqExpiring? || s.tasks[t].CfExpiring?
    ensures Next(cfg, s, AuditEnds(cfg, s, t, reply))
  {
    var task := s.tasks[t];
    if task.ExAudit? {
      ExecuteAudited(cfg, s, t, s.tasks[t].id, reply);
    } else if task.UnIntent? {
      UndoAudited(cfg, s, t, s.tasks[t].id, s.tasks[t].original, reply);
    } else if task.auditing.Some? {
      ExpiryAudited(cfg, s, t, reply);
    }
  }

  lemma AuditKeeps(cfg: Config, s: Sys, t: nat, reply: AuditReply)
    requires Inv(cfg, s) && t in s.tasks
    ensures Next(cfg, s, AuditEnds(cfg, s, t, reply))
  {
    var task := s.tasks[t];
    if task.RqAudit? || task.CfAudit? {
      RequestAudited(cfg, s, t, reply);
    } else if task.RqOverflow? || task.UnAudit? || task.LastAudit? {
      PlainAudited(cfg, s, t, reply);
    } else if task.ExAudit? || task.UnIntent? || task.RqExpiring? || task.CfExpiring? {
      IntentAudited(cfg, s, t, reply);
    } else {
      NothingKeeps(cfg, s);
    }
  }

  lemma NothingKeeps(cfg: Config, s: Sys)
    requires Inv(cfg, s)
    ensures Next(cfg, s, s)
  {
  }

  /** The lock is taken with everything stale still to be expired. */
  lemma LockedDuty(cfg: Config, s: Sys, t: nat, now: int, next: Task)
    requires RecordsOk(s) && t in s.tasks && TaskOk(cfg, s, t, s.tasks[t])
    requires match next
             case RqExpiring(id, todo, a, n) =>
               s.tasks[t] == RqLock(id) && todo == Stale(cfg, s, now) && a == None && n == now
             case CfExpiring(id, approve, todo, a, n) =>
               s.tasks[t] == CfLock(id, approve) && todo == Stale(cfg, s, now) && a == None && n == now
             case _ => false
    ensures Duty(cfg, s, Goto(s.(lock := Some(t)), t, next), t, None)
  {
    var u := Goto(s.(lock := Some(t)), t, next);
    forall v | v in Stale(cfg, s, now) ensures Victim(u, v) { assert Victim(s, v); }
  }

  lemma LockedKeeps(cfg: Config, s: Sys, t: nat, now: int, next: Task)
    requires Inv(cfg, s) && t in s.tasks && s.lock.None?
    requires Duty(cfg, s, Goto(s.(lock := Some(t)), t, next), t, None)
    ensures Next(cfg, s, Goto(s.(lock := Some(t)), t, next))
  {
    var u := Goto(s.(lock := Some(t)), t, next);
    FrameIsShape(cfg, s, u, t);
    MoveKeeps(cfg, s, u, t, None);
  }

  lemma LockKeeps(cfg: Config, s: Sys, t: nat, now: int)
    requires Inv(cfg, s) && t in s.tasks && s.lock.None?
    ensures Next(cfg, s, TakeLock(cfg, s, t, now))
  {
    assert TaskOk(cfg, s, t, s.tasks[t]);
    match s.tasks[t]
    case RqLock(id) =>
      LockedDuty(cfg, s, t, now, RqExpiring(id, Stale(cfg, s, now), None, now));
      LockedKeeps(cfg, s, t, now, RqExpiring(id, Stale(cfg, s, now), None, now));
    case CfLock(id, approve) =>
      LockedDuty(cfg, s, t, now, CfExpiring(id, approve, Stale(cfg, s, now), None, now));
      LockedKeeps(cfg, s, t, now, CfExpiring(id, approve, Stale(cfg, s, now), None, now));
    case _ => NothingKeeps(cfg, s);
  }

  lemma ExpiryIsMove(cfg: Config, s: Sys, t: nat, victim: nat)
    requires t in s.tasks && s.pending <= s.kinds.Keys && TaskOk(cfg, s, t, s.tasks[t])
    requires s.tasks[t].RqExpiring? || s.tasks[t].CfExpiring?
    requires victim in s.tasks[t].todo && s.tasks[t].auditing.None?
    ensures Move(cfg, s, Expire(cfg, s, t, victim), t, Some(Expired(victim)))
  {
    var u := Expire(cfg, s, t, victim);
    assert Victim(s, victim);
    forall v | v in s.tasks[t].todo - {victim} ensures Victim(u, v) { assert Victim(s, v); }
    CloseFrame(cfg, s, victim, Revoked, Failure());
  }

  lemma ExpireKeeps(cfg: Config, s: Sys, t: nat, victim: nat)
    requires Inv(cfg, s) && t in s.tasks
    ensures Next(cfg, s, Expire(cfg, s, t, victim))
  {
    var task := s.tasks[t];
    assert TaskOk(cfg, s, t, task);
    if (task.RqExpiring? || task.CfExpiring?) && victim in task.todo && task.auditing.None? {
      ExpiryIsMove(cfg, s, t, victim);
      MoveKeeps(cfg, s, Expire(cfg, s, t, victim), t, Some(Expired(victim)));
    }
  }

  lemma OverflowIsMove(cfg: Config, s: Sys, t: nat, id: nat, now: int)
    requires t in s.tasks && s.pending <= s.kinds.Keys && s.tasks[t] == RqExpiring(id, {}, None, now)
    requires TaskOk(cfg, s, t, s.tasks[t]) && |WaitingSet(s)| >= cfg.maxPending
    ensures Move(cfg, s, Body(cfg, s, t), t, None)
  {
    var v := if id in s.records then Put(s, id, s.records[id].(state := Denied, result := Failure())) else s;
    PutFrame(s, id, Denied, Failure());
    var u := Goto(Remember(cfg, v, id), t, RqOverflow(id));
    assert Body(cfg, s, t) == u;
    FrameIsShape(cfg, s, u, t);
  }

  lemma AdmittedIsMove(cfg: Config, s: Sys, t: nat, id: nat, now: int)
    requires t in s.tasks && s.pending <= s.kinds.Keys && s.tasks[t] == RqExpiring(id, {}, None, now)
    requires TaskOk(cfg, s, t, s.tasks[t]) && |WaitingSet(s)| < cfg.maxPending
    ensures Move(cfg, s, Body(cfg, s, t), t, None)
  {
    var u := Goto(s.(lock := None, pending := s.pending + {id}), t, RqAudit(id));
    assert Body(cfg, s, t) == u;
    assert u.pending - s.pending <= {id};
    SubsetSize(u.pending - s.pending, {id});
  }

  lemma RequestBody(cfg: Config, s: Sys, t: nat)
    requires Inv(cfg, s) && t in s.tasks && s.tasks[t].RqExpiring?
    ensures Next(cfg, s, Body(cfg, s, t))
  {
    var task := s.tasks[t];
    assert TaskOk(cfg, s, t, task);
    if task.todo == {} && task.auditing.None? {
      if |WaitingSet(s)| >= cfg.maxPending {
        OverflowIsMove(cfg, s, t, task.id, task.now);
      } else {
        AdmittedIsMove(cfg, s, t, task.id, task.now);
      }
      MoveKeeps(cfg, s, Body(cfg, s, t), t, None);
    }
  }

  predicate Decidable(s: Sys, id: nat) {
    id in s.pending && id in s.records && s.records[id].state == Waiting
  }

  /** The lock is released; nothing else happens unless the action still waits. */
  lemma NoDecisionIsMove(cfg: Config, s: Sys, t: nat, id: nat, approve: bool, now: int)
    requires t in s.tasks && s.pending <= s.kinds.Keys && s.tasks[t] == CfExpiring(id, approve, {}, None, now)
    requires TaskOk(cfg, s, t, s.tasks[t]) && !Decidable(s, id)
    ensures Move(cfg, s, Body(cfg, s, t), t, None)
  {
  }

  lemma ApprovalIsMove(cfg: Config, s: Sys, t: nat, id: nat, now: int)
    requires t in s.tasks && s.pending <= s.kinds.Keys && s.tasks[t] == CfExpiring(id, true, {}, None, now)
    requires TaskOk(cfg, s, t, s.tasks[t]) && KindsOk(cfg, s)
    requires Decidable(s, id) && Victim(s, id) && NoneCarries(s, id) && Executed(id) !in s.trace
    ensures Move(cfg, s, Body(cfg, s, t), t, Some(Decided(id, true)))
  {
  }

  lemma DenialIsMove(cfg: Config, s: Sys, t: nat, id: nat, now: int)
    requires t in s.tasks && s.pending <= s.kinds.Keys && s.tasks[t] == CfExpiring(id, false, {}, None, now)
    requires TaskOk(cfg, s, t, s.tasks[t])
    requires Decidable(s, id) && Victim(s, id)
    ensures Move(cfg, s, Body(cfg, s, t), t, Some(Decided(id, false)))
  {
  }

  lemma ConfirmBody(cfg: Config, s: Sys, t: nat)
    requires Inv(cfg, s) && t in s.tasks && s.tasks[t].CfExpiring?
    ensures Next(cfg, s, Body(cfg, s, t))
  {
    var task := s.tasks[t];
    assert TaskOk(cfg, s, t, task);
    var id := task.id;
    if task.todo == {} && task.auditing.None? {
      if Decidable(s, id) {
        assert Victim(s, id);
        WaitingIsNotCarried(cfg, s, id);
        if task.approve { ApprovalIsMove(cfg, s, t, id, task.now); } else { DenialIsMove(cfg, s, t, id, task.now); }
        MoveKeeps(cfg, s, Body(cfg, s, t), t, Some(Decided(id, task.approve)));
      } else {
        NoDecisionIsMove(cfg, s, t, id, task.approve, task.now);
        MoveKeeps(cfg, s, Body(cfg, s, t), t, None);
      }
    }
  }

  lemma BodyKeeps(cfg: Config, s: Sys, t: nat)
    requires Inv(cfg, s) && t in s.tasks
    ensures Next(cfg, s, Body(cfg, s, t))
  {
    if s.tasks[t].RqExpiring? { RequestBody(cfg, s, t); }
    if s.tasks[t].CfExpiring? { ConfirmBody(cfg, s, t); }
  }

  /** An action that waits for a decision is neither executed nor on its way to being so. */
  lemma WaitingIsNotCarried(cfg: Config, s: Sys, id: nat)
    requires Inv(cfg, s) && Victim(s, id)
    ensures NoneCarries(s, id) && Executed(id) !in s.trace
  {
    forall t | t in s.tasks ensures !Carries(s.kinds, s.tasks[t], id) {
      assert TaskOk(cfg, s, t, s.tasks[t]);
    }
    if Executed(id) in s.trace { ExecutedWasDecided(cfg, s.kinds, s.trace, id); }
  }

  lemma {:induction false} ExecutedWasDecided(cfg: Config, kinds: map<nat, Kind>, trace: seq<Obs>, id: nat)
    requires Lawful(cfg, kinds, trace) && Executed(id) in trace
    ensures id in kinds && (kinds[id].confirm ==> Decided(id, true) in trace)
  {
    if trace[|trace| - 1] != Executed(id) {
      assert Executed(id) in trace[..|trace| - 1];
      ExecutedWasDecided(cfg, kinds, trace[..|trace| - 1], id);
    }
  }

  lemma PreviewedIsMove(cfg: Config, s: Sys, t: nat, id: nat)
    requires t in s.tasks && s.pending <= s.kinds.Keys && s.tasks[t] == RqPreview(id) && TaskOk(cfg, s, t, s.tasks[t])
    ensures Move(cfg, s, Goto(s, t, RqPub(id)), t, None)
  {
    FrameIsShape(cfg, s, Goto(s, t, RqPub(id)), t);
  }

  lemma FailedPreviewIsMove(cfg: Config, s: Sys, t: nat, id: nat, timedOut: bool)
    requires t in s.tasks && s.pending <= s.kinds.Keys && s.tasks[t] == RqPreview(id) && TaskOk(cfg, s, t, s.tasks[t])
    ensures Move(cfg, s, PreviewEnds(cfg, s, t, false, timedOut), t, None)
  {
    var v := s.(providerQuarantined := s.providerQuarantined || timedOut);
    var u := Goto(Close(cfg, v, id, Failed, Failure()), t, LastAudit(id));
    CloseFrame(cfg, v, id, Failed, Failure());
    assert PreviewEnds(cfg, s, t, false, timedOut) == u;
    FrameIsShape(cfg, s, u, t);
  }

  lemma PreviewIsMove(cfg: Config, s: Sys, t: nat, ok: bool, timedOut: bool)
    requires t in s.tasks && s.pending <= s.kinds.Keys && s.tasks[t].RqPreview? && TaskOk(cfg, s, t, s.tasks[t])
    ensures Move(cfg, s, PreviewEnds(cfg, s, t, ok, timedOut), t, None)
  {
    if ok {
      PreviewedIsMove(cfg, s, t, s.tasks[t].id);
    } else {
      FailedPreviewIsMove(cfg, s, t, s.tasks[t].id, timedOut);
    }
  }

  lemma RequestPublishDuty(cfg: Config, s: Sys, t: nat, id: nat, ok: bool)
    requires t in s.tasks && s.tasks[t] == RqPub(id) && TaskOk(cfg, s, t, s.tasks[t])
    ensures Duty(cfg, s, PublishEnds(s, t, ok), t, None)
  {
  }

  lemma PublishDuty(cfg: Config, s: Sys, t: nat, ok: bool)
    requires t in s.tasks && TaskOk(cfg, s, t, s.tasks[t])
    requires s.tasks[t].CfPub? || s.tasks[t].ExPub? || s.tasks[t].UnPub?
    ensures Duty(cfg, s, PublishEnds(s, t, ok), t, None)
  {
  }

  lemma PublishIsMove(cfg: Config, s: Sys, t: nat, ok: bool)
    requires t in s.tasks && s.pending <= s.kinds.Keys && TaskOk(cfg, s, t, s.tasks[t])
    requires s.tasks[t].RqPub? || s.tasks[t].CfPub? || s.tasks[t].ExPub? || s.tasks[t].UnPub?
    ensures Move(cfg, s, PublishEnds(s, t, ok), t, None)
  {
    var u := PublishEnds(s, t, ok);
    assert u == Goto(s, t, u.tasks[t]);
    FrameIsShape(cfg, s, u, t);
    if s.tasks[t].RqPub? { RequestPublishDuty(cfg, s, t, s.tasks[t].id, ok); } else { PublishDuty(cfg, s, t, ok); }
  }

  /** However an execution ends, no matter from which stage. */
  lemma FinishIsMove(cfg: Config, s: Sys, u: Sys, t: nat, id: nat, outcome: Outcome)
    requires t in s.tasks && s.pending <= s.kinds.Keys && Known(s, id)
    requires RecordsMove(s, u)
    requires u == s.(records := u.records, slots := u.slots, providerQuarantined := u.providerQuarantined)
    ensures Move(cfg, s, FinishExecution(cfg, u, t, id, outcome), t, None)
  {
    FinishFrame(cfg, u, t, id, outcome);
  }

  lemma FinishUndoIsMove(cfg: Config, s: Sys, u: Sys, t: nat, id: nat, outcome: Outcome)
    requires t in s.tasks && s.pending <= s.kinds.Keys && Known(s, id)
    requires RecordsMove(s, u)
    requires u == s.(records := u.records, slots := u.slots, providerQuarantined := u.providerQuarantined)
    ensures Move(cfg, s, FinishUndo(cfg, u, t, id, outcome), t, None)
  {
    FinishUndoFrame(cfg, u, t, id, outcome);
  }

  /** A task takes its next stage; what it is about to do is unchanged. */
  lemma AdvanceIsMove(cfg: Config, s: Sys, u: Sys, t: nat, next: Task)
    requires t in s.tasks && s.pending <= s.kinds.Keys && TaskOk(cfg, s, t, next)
    requires RecordsMove(s, u)
    requires u == s.(records := u.records, slots := u.slots, providerQuarantined := u.providerQuarantined)
    requires !next.RqExpiring? && !next.CfExpiring? && !next.RqOverflow?
    requires forall i | Carries(s.kinds, next, i) :: Carries(s.kinds, s.tasks[t], i)
    ensures Move(cfg, s, Goto(u, t, next), t, None)
  {
  }

  lemma OccupyFrame(s: Sys, id: nat)
    ensures var u := Occupy(s, id); RecordsMove(s, u) && u == s.(records := u.records, slots := u.slots)
  {
  }

  lemma SlotIsMove(cfg: Config, s: Sys, t: nat)
    requires t in s.tasks && s.pending <= s.kinds.Keys && TaskOk(cfg, s, t, s.tasks[t])
    requires s.slots < cfg.maxConcurrent && s.tasks[t].ExSlot?
    requires !s.providerQuarantined && cfg.hasProvider
    ensures Move(cfg, s, EnterSlot(cfg, s, t), t, None)
  {
    var id := s.tasks[t].id;
    var u := Occupy(s, id);
    OccupyFrame(s, id);
    AdvanceIsMove(cfg, s, u, t, if cfg.sandbox then ExSandbox(id) else ExAudit(id));
  }

  lemma RefusedSlotIsMove(cfg: Config, s: Sys, t: nat)
    requires t in s.tasks && s.pending <= s.kinds.Keys && TaskOk(cfg, s, t, s.tasks[t])
    requires s.slots < cfg.maxConcurrent && s.tasks[t].ExSlot?
    requires s.providerQuarantined || !cfg.hasProvider
    ensures Move(cfg, s, EnterSlot(cfg, s, t), t, None)
  {
    var id := s.tasks[t].id;
    var u := Occupy(s, id);
    OccupyFrame(s, id);
    FinishIsMove(cfg, s, u, t, id, Outcome(false, false));
  }

  lemma UndoSlotIsMove(cfg: Config, s: Sys, t: nat)
    requires t in s.tasks && s.pending <= s.kinds.Keys && TaskOk(cfg, s, t, s.tasks[t])
    requires s.slots < cfg.maxConcurrent && s.tasks[t].UnSlot?
    ensures Move(cfg, s, EnterSlot(cfg, s, t), t, None)
  {
    var id, original := s.tasks[t].id, s.tasks[t].original;
    var u := Occupy(s, id);
    OccupyFrame(s, id);
    AdvanceIsMove(cfg, s, u, t, if cfg.sandbox then UnSandbox(id, original) else UnIntent(id, original));
  }

  lemma SandboxIsMove(cfg: Config, s: Sys, t: nat, verified: bool, timedOut: bool)
    requires t in s.tasks && s.pending <= s.kinds.Keys && TaskOk(cfg, s, t, s.tasks[t])
    requires s.tasks[t].ExSandbox? || s.tasks[t].UnSandbox?
    ensures Move(cfg, s, SandboxEnds(cfg, s, t, verified, timedOut), t, None)
  {
    if s.tasks[t].ExSandbox? {
      ExecutionSandboxIsMove(cfg, s, t, s.tasks[t].id, verified, timedOut);
    } else {
      UndoSandboxIsMove(cfg, s, t, s.tasks[t].id, s.tasks[t].original, verified, timedOut);
    }
  }

  lemma ExecutionSandboxIsMove(cfg: Config, s: Sys, t: nat, id: nat, verified: bool, timedOut: bool)
    requires t in s.tasks && s.pending <= s.kinds.Keys && TaskOk(cfg, s, t, s.tasks[t])
    requires s.tasks[t] == ExSandbox(id)
    ensures Move(cfg, s, SandboxEnds(cfg, s, t, verified, timedOut), t, None)
  {
    var u := s.(providerQuarantined := s.providerQuarantined || timedOut);
    if verified && !timedOut {
      AdvanceIsMove(cfg, s, u, t, ExAudit(id));
    } else {
      FinishIsMove(cfg, s, u, t, id, Outcome(false, false));
    }
  }

  lemma UndoSandboxIsMove(cfg: Config, s: Sys, t: nat, id: nat, original: nat, verified: bool, timedOut: bool)
    requires t in s.tasks && s.pending <= s.kinds.Keys && TaskOk(cfg, s, t, s.tasks[t])
    requires s.tasks[t] == UnSandbox(id, original)
    ensures Move(cfg, s, SandboxEnds(cfg, s, t, verified, timedOut), t, None)
  {
    var u := s.(providerQuarantined := s.providerQuarantined || timedOut);
    if verified && !timedOut {
      AdvanceIsMove(cfg, s, u, t, UnIntent(id, original));
    } else {
      FinishUndoIsMove(cfg, s, u, t, id, Outcome(false, false));
    }
  }

  lemma CallIsMove(cfg: Config, s: Sys, t: nat, outcome: Outcome, timedOut: bool)
    requires t in s.tasks && s.pending <= s.kinds.Keys && TaskOk(cfg, s, t, s.tasks[t])
    requires s.tasks[t].ExCall? || s.tasks[t].UnCall?
    ensures Move(cfg, s, CallEnds(cfg, s, t, outcome, timedOut), t, None)
  {
    var u := s.(providerQuarantined := s.providerQuarantined || timedOut);
    var result := if timedOut then Outcome(false, false) else outcome;
    if s.tasks[t].ExCall? {
      FinishIsMove(cfg, s, u, t, s.tasks[t].id, result);
    } else {
      FinishUndoIsMove(cfg, s, u, t, s.tasks[t].id, result);
    }
  }

  lemma QuietCancelIsMove(cfg: Config, s: Sys, t: nat, reply: AuditReply)
    requires t in s.tasks && s.pending <= s.kinds.Keys && TaskOk(cfg, s, t, s.tasks[t])
    requires InterruptedAudit(s.tasks[t]).None? && Idle(s.tasks[t])
    ensures Move(cfg, s, CancelTask(cfg, s, t, reply), t, None)
  {
  }

  lemma AuditCancelIsMove(cfg: Config, s: Sys, t: nat, reply: AuditReply)
    requires t in s.tasks && s.pending <= s.kinds.Keys && TaskOk(cfg, s, t, s.tasks[t])
    requires InterruptedAudit(s.tasks[t]).Some?
    ensures var a := InterruptedAudit(s.tasks[t]).value;
            Move(cfg, s, CancelTask(cfg, s, t, reply), t, Kept(cfg, s, a.0, a.1, reply))
  {
    var u := CancelTask(cfg, s, t, reply);
    var a := InterruptedAudit(s.tasks[t]).value;
    AuditSpec(cfg, s, a.0, a.1, reply);
    AuditStep(cfg, s, u, t, a.0, a.1, reply);
  }

  lemma {:induction false} LawfulGrows(cfg: Config, kinds: map<nat, Kind>, id: nat, kind: Kind, trace: seq<Obs>)
    requires Lawful(cfg, kinds, trace) && id !in kinds
    ensures Lawful(cfg, kinds[id := kind], trace)
    ensures forall o | o in trace :: o.id != id
  {
    if trace != [] {
      var n := |trace| - 1;
      LawfulGrows(cfg, kinds, id, kind, trace[..n]);
      assert trace == trace[..n] + [trace[n]];
    }
  }

  /** A fresh action enters: nothing was observed about it, nothing carries it. */
  predicate Arrival(cfg: Config, s: Sys, u: Sys, t: nat, id: nat) {
    && t !in s.tasks && id !in s.kinds
    && t in u.tasks && id in u.kinds && id in u.records
    && u.kinds == s.kinds[id := u.kinds[id]]
    && u.tasks == s.tasks[t := u.tasks[t]]
    && u.records == s.records[id := u.records[id]]
    && u.pending <= s.pending + {id} && (u.records[id].state == Waiting ==> u.pending <= s.pending)
    && u.trace == s.trace && u.lock == s.lock
    && (u.records[id].state == Waiting ==> u.kinds[id].confirm)
    && (if u.kinds[id].undo then !u.kinds[id].confirm
        else u.kinds[id].confirm == NeedsConfirmation(cfg, u.kinds[id].actionType))
    && (match u.tasks[t]
        case LastAudit(i) => i == id
        case RqLock(i) => i == id && u.kinds[id].confirm
        case RqAudit(i) => i == id && !u.kinds[id].undo
        case UnAudit(i, _) => i == id && u.kinds[id].undo
        case _ => false)
  }

  lemma ArrivalKeeps(cfg: Config, s: Sys, u: Sys, t: nat, id: nat)
    requires Inv(cfg, s) && Arrival(cfg, s, u, t, id)
    ensures Next(cfg, s, u)
  {
    LawfulGrows(cfg, s.kinds, id, u.kinds[id], s.trace);
    ArrivalTasks(cfg, s, u, t, id);
    ArrivalCarriers(cfg, s, u, t, id);
    ArrivalRecords(cfg, s, u, t, id);
    SubsetSize(WaitingSet(u), WaitingSet(s));
  }

  lemma ArrivalCarriers(cfg: Config, s: Sys, u: Sys, t: nat, id: nat)
    requires TasksOk(cfg, s) && OneCarrier(s) && Arrival(cfg, s, u, t, id)
    ensures OneCarrier(u)
  {
    forall t', i | t' in s.tasks && Carries(u.kinds, s.tasks[t'], i)
      ensures i != id && Carries(s.kinds, s.tasks[t'], i)
    {
      assert TaskOk(cfg, s, t', s.tasks[t']);
    }
    forall i | Carries(u.kinds, u.tasks[t], i) ensures i == id { }
  }

  lemma ArrivalRecords(cfg: Config, s: Sys, u: Sys, t: nat, id: nat)
    requires RecordsOk(s) && KindsOk(cfg, s) && Arrival(cfg, s, u, t, id)
    requires forall o | o in s.trace :: o.id != id
    ensures RecordsOk(u) && KindsOk(cfg, u)
  {
    forall i | i in u.records && u.records[i].state == Waiting ensures Victim(u, i) {
      if i != id { assert Victim(s, i); }
    }
  }

  lemma ArrivalTasks(cfg: Config, s: Sys, u: Sys, t: nat, id: nat)
    requires TasksOk(cfg, s) && s.pending <= s.kinds.Keys && Arrival(cfg, s, u, t, id)
    requires forall o | o in s.trace :: o.id != id
    ensures TasksOk(cfg, u)
  {
    forall t' | t' in u.tasks ensures TaskOk(cfg, u, t', u.tasks[t']) {
      if t' != t {
        var task := s.tasks[t'];
        assert TaskOk(cfg, s, t', task);
        if task.RqExpiring? || task.CfExpiring? {
          forall v | v in task.todo ensures Victim(u, v) { assert Victim(s, v); }
        }
      }
    }
  }

  lemma NewConfirmKeeps(cfg: Config, s: Sys, t: nat, id: nat, approve: bool)
    requires Inv(cfg, s) && t !in s.tasks
    ensures Next(cfg, s, Goto(s, t, CfLock(id, approve)))
  {
    var u := Goto(s, t, CfLock(id, approve));
    forall t' | t' in u.tasks ensures TaskOk(cfg, u, t', u.tasks[t']) {
      if t' != t {
        assert TaskOk(cfg, s, t', s.tasks[t']);
        if s.tasks[t'].RqExpiring? || s.tasks[t'].CfExpiring? {
          forall v | v in s.tasks[t'].todo ensures Victim(u, v) { assert Victim(s, v); }
        }
      }
    }
    forall i | i in u.records && u.records[i].state == Waiting ensures Victim(u, i) { assert Victim(s, i); }
    assert WaitingSet(u) == WaitingSet(s);
  }

  lemma CancelKeeps(cfg: Config, s: Sys, t: nat, reply: AuditReply)
    requires Inv(cfg, s) && t in s.tasks
    ensures Next(cfg, s, CancelTask(cfg, s, t, reply))
  {
    assert TaskOk(cfg, s, t, s.tasks[t]);
    var a := InterruptedAudit(s.tasks[t]);
    if a.Some? {
      AuditCancelIsMove(cfg, s, t, reply);
      MoveKeeps(cfg, s, CancelTask(cfg, s, t, reply), t, Kept(cfg, s, a.value.0, a.value.1, reply));
    } else if Idle(s.tasks[t]) {
      QuietCancelIsMove(cfg, s, t, reply);
      MoveKeeps(cfg, s, CancelTask(cfg, s, t, reply), t, None);
    }
  }

  lemma PreviewKeeps(cfg: Config, s: Sys, t: nat, ok: bool, timedOut: bool)
    requires Inv(cfg, s) && t in s.tasks
    ensures Next(cfg, s, PreviewEnds(cfg, s, t, ok, timedOut))
  {
    assert TaskOk(cfg, s, t, s.tasks[t]);
    if s.tasks[t].RqPreview? {
      PreviewIsMove(cfg, s, t, ok, timedOut);
      MoveKeeps(cfg, s, PreviewEnds(cfg, s, t, ok, timedOut), t, None);
    }
  }

  lemma PublishKeeps(cfg: Config, s: Sys, t: nat, ok: bool)
    requires Inv(cfg, s) && t in s.tasks
    ensures Next(cfg, s, PublishEnds(s, t, ok))
  {
    var task := s.tasks[t];
    assert TaskOk(cfg, s, t, task);
    if task.RqPub? || task.CfPub? || task.ExPub? || task.UnPub? {
      PublishIsMove(cfg, s, t, ok);
      MoveKeeps(cfg, s, PublishEnds(s, t, ok), t, None);
    }
  }

  lemma SandboxKeeps(cfg: Config, s: Sys, t: nat, verified: bool, timedOut: bool)
    requires Inv(cfg, s) && t in s.tasks
    ensures Next(cfg, s, SandboxEnds(cfg, s, t, verified, timedOut))
  {
    assert TaskOk(cfg, s, t, s.tasks[t]);
    if s.tasks[t].ExSandbox? || s.tasks[t].UnSandbox? {
      SandboxIsMove(cfg, s, t, verified, timedOut);
      MoveKeeps(cfg, s, SandboxEnds(cfg, s, t, verified, timedOut), t, None);
    }
  }

  lemma CallKeeps(cfg: Config, s: Sys, t: nat, outcome: Outcome, timedOut: bool)
    requires Inv(cfg, s) && t in s.tasks
    ensures Next(cfg, s, CallEnds(cfg, s, t, outcome, timedOut))
  {
    assert TaskOk(cfg, s, t, s.tasks[t]);
    if s.tasks[t].ExCall? || s.tasks[t].UnCall? {
      CallIsMove(cfg, s, t, outcome, timedOut);
      MoveKeeps(cfg, s, CallEnds(cfg, s, t, outcome, timedOut), t, None);
    }
  }

  lemma SlotKeeps(cfg: Config, s: Sys, t: nat)
    requires Inv(cfg, s) && t in s.tasks
    ensures Next(cfg, s, EnterSlot(cfg, s, t))
  {
    assert TaskOk(cfg, s, t, s.tasks[t]);
    if s.slots < cfg.maxConcurrent {
      if s.tasks[t].ExSlot? {
        if s.providerQuarantined || !cfg.hasProvider { RefusedSlotIsMove(cfg, s, t); } else { SlotIsMove(cfg, s, t); }
        MoveKeeps(cfg, s, EnterSlot(cfg, s, t), t, None);
      } else if s.tasks[t].UnSlot? {
        UndoSlotIsMove(cfg, s, t);
        MoveKeeps(cfg, s, EnterSlot(cfg, s, t), t, None);
      }
    }
  }

  /** A request that is answered at once. */
  lemma AnsweredArrives(cfg: Config, s: Sys, t: nat, id: nat, actionType: string, state: State, now: int,
                        result: Option<Outcome>)
    requires t !in s.tasks && id !in s.kinds && state != Waiting
    ensures var known := s.(kinds := s.kinds[id := Kind(actionType, NeedsConfirmation(cfg, actionType), false)]);
            Arrival(cfg, s, Goto(Remember(cfg, Put(known, id, Record(state, now, None, result)), id), t, LastAudit(id)),
                    t, id)
  {
  }

  lemma RequestArrives(cfg: Config, s: Sys, t: nat, id: nat, actionType: string, gateDenies: bool, now: int)
    requires t !in s.tasks && id !in s.kinds
    ensures Arrival(cfg, s, Request(cfg, s, t, id, actionType, gateDenies, now), t, id)
  {
    if gateDenies && Classify(actionType).risk != Irreversible {
      AnsweredArrives(cfg, s, t, id, actionType, Denied, now, None);
    } else if s.providerQuarantined {
      AnsweredArrives(cfg, s, t, id, actionType, Failed, now, Failure());
    } else {
      GoingArrives(cfg, s, t, id, actionType, now);
    }
  }

  /** A request that goes on to the lock, or straight to its audit. */
  lemma GoingArrives(cfg: Config, s: Sys, t: nat, id: nat, actionType: string, now: int)
    requires t !in s.tasks && id !in s.kinds
    ensures var confirm := NeedsConfirmation(cfg, actionType);
            var known := s.(kinds := s.kinds[id := Kind(actionType, confirm, false)]);
            Arrival(cfg, s,
                    if confirm then Goto(Put(known, id, Record(Waiting, now, None, None)), t, RqLock(id))
                    else
                      var held := Put(known, id, Record(Pending, now, None, None)).(pending := s.pending + {id});
                      Goto(held, t, RqAudit(id)),
                    t, id)
  {
  }

  lemma NewRequestKeeps(cfg: Config, s: Sys, t: nat, id: nat, actionType: string, gateDenies: bool, now: int)
    requires Inv(cfg, s) && t !in s.tasks && id !in s.kinds
    ensures Next(cfg, s, Request(cfg, s, t, id, actionType, gateDenies, now))
  {
    assert id !in s.records;
    RequestArrives(cfg, s, t, id, actionType, gateDenies, now);
    ArrivalKeeps(cfg, s, Request(cfg, s, t, id, actionType, gateDenies, now), t, id);
  }

  lemma NewUndoKeeps(cfg: Config, s: Sys, t: nat, id: nat, original: nat, now: int)
    requires Inv(cfg, s) && t !in s.tasks && id !in s.kinds && original in s.kinds
    ensures Next(cfg, s, Undo(s, t, id, original, now))
  {
    assert id !in s.records;
    ArrivalKeeps(cfg, s, Undo(s, t, id, original, now), t, id);
  }

  /** A new task. */
  lemma BeginningKeeps(cfg: Config, s: Sys, a: Step)
    requires Inv(cfg, s) && (a.NewRequest? || a.NewUndo? || a.NewConfirm?)
    ensures Next(cfg, s, Exec(cfg, s, a))
  {
    NothingKeeps(cfg, s);
    match a
    case NewRequest(t, id, actionType, gateDenies, now) =>
      if t !in s.tasks && id !in s.kinds { NewRequestKeeps(cfg, s, t, id, actionType, gateDenies, now); }
    case NewUndo(t, id, original, now) =>
      if t !in s.tasks && id !in s.kinds && original in s.kinds { NewUndoKeeps(cfg, s, t, id, original, now); }
    case NewConfirm(t, id, approve) => if t !in s.tasks { NewConfirmKeeps(cfg, s, t, id, approve); }
  }

  /** What happens around the lock. */
  lemma LockingKeeps(cfg: Config, s: Sys, a: Step)
    requires Inv(cfg, s) && a.t in s.tasks && (a.Acquire? || a.ExpireNext? || a.LockedBody?)
    ensures Next(cfg, s, Exec(cfg, s, a))
  {
    match a
    case Acquire(t, now) => if s.lock.None? { LockKeeps(cfg, s, t, now); } else { NothingKeeps(cfg, s); }
    case ExpireNext(t, victim) => ExpireKeeps(cfg, s, t, victim);
    case LockedBody(t) => BodyKeeps(cfg, s, t);
  }

  /** An audit, a preview or a publish that returns, or a cancellation. */
  lemma ReturningKeeps(cfg: Config, s: Sys, a: Step)
    requires Inv(cfg, s) && a.t in s.tasks
    requires a.AuditReturns? || a.PreviewReturns? || a.PublishReturns? || a.Cancel?
    ensures Next(cfg, s, Exec(cfg, s, a))
  {
    match a
    case AuditReturns(t, reply) => AuditKeeps(cfg, s, t, reply);
    case PreviewReturns(t, ok, timedOut) => PreviewKeeps(cfg, s, t, ok, timedOut);
    case PublishReturns(t, ok) => PublishKeeps(cfg, s, t, ok);
    case Cancel(t, reply) => CancelKeeps(cfg, s, t, reply);
  }

  /** A slot that is granted, or an operation of the provider that returns. */
  lemma RunningKeeps(cfg: Config, s: Sys, a: Step)
    requires Inv(cfg, s) && a.t in s.tasks && (a.SlotGranted? || a.SandboxReturns? || a.CallReturns?)
    ensures Next(cfg, s, Exec(cfg, s, a))
  {
    match a
    case SlotGranted(t) => SlotKeeps(cfg, s, t);
    case SandboxReturns(t, verified, timedOut) => SandboxKeeps(cfg, s, t, verified, timedOut);
    case CallReturns(t, outcome, timedOut) => CallKeeps(cfg, s, t, outcome, timedOut);
  }

  lemma StepKeeps(cfg: Config, s: Sys, a: Step)
    requires Inv(cfg, s)
    ensures Next(cfg, s, Exec(cfg, s, a))
  {
    if a.NewRequest? || a.NewUndo? || a.NewConfirm? {
      BeginningKeeps(cfg, s, a);
    } else if a.t !in s.tasks {
      NothingKeeps(cfg, s);
    } else if a.Acquire? || a.ExpireNext? || a.LockedBody? {
      LockingKeeps(cfg, s, a);
    } else if a.SlotGranted? || a.SandboxReturns? || a.CallReturns? {
      RunningKeeps(cfg, s, a);
    } else {
      ReturningKeeps(cfg, s, a);
    }
  }

  lemma {:induction false} RunKeeps(cfg: Config, steps: seq<Step>)
    ensures Inv(cfg, Run(cfg, steps))
  {
    if steps == [] {
      assert WaitingSet(Initial) == {};
    } else {
      RunKeeps(cfg, steps[..|steps| - 1]);
      StepKeeps(cfg, Run(cfg, steps[..|steps| - 1]), steps[|steps| - 1]);
    }
  }
}
