/**
 Managed computer actions as a step relation. Each request, confirmation and undo is a task;
 a step is the code between two suspension points of one task. The confirmation lock, the
 execution slots, the audit store, previews, sandbox checks and the provider resume with
 arbitrary outcomes, given as parameters of the steps.
 */
module Actions {
  import opened Std

  datatype Risk = ReadOnly | ReversibleLow | ReversibleHigh | Irreversible

  datatype Class = Class(risk: Risk, needsConfirmation: bool, canUndo: bool)

  /** The classification table; an unknown type is irreversible and needs confirmation. */
  function Classify(actionType: string): Class {
    if actionType in {"read_window_title", "read_active_app", "read_clipboard", "check_system_status"} then
      Class(ReadOnly, false, false)
    else if actionType in {"open_app", "focus_window", "search_web"} then
      Class(ReversibleLow, false, false)
    else if actionType in {"play_media", "pause_media", "volume_up", "volume_down"} then
      Class(ReversibleLow, false, true)
    else if actionType in {"create_file", "edit_file", "create_calendar_event"} then
      Class(ReversibleHigh, true, true)
    else Class(Irreversible, true, false)
  }

  datatype Config = Config(
    sandbox: bool, maxConcurrent: nat, undoEnabled: bool, auditEnabled: bool, requireDurable: bool,
    readonlyAuto: bool, lowAuto: bool, highAuto: bool, irreversibleAuto: bool,
    maxHistory: nat, maxPending: nat, ttl: int,
    hasProvider: bool, hasStore: bool)

  function AutoAllowed(cfg: Config, risk: Risk): bool {
    match risk
    case ReadOnly => cfg.readonlyAuto
    case ReversibleLow => cfg.lowAuto
    case ReversibleHigh => cfg.highAuto
    case Irreversible => false
  }

  /** The policy gate's own demand for confirmation of an approved action. */
  function GateConfirms(c: Class): bool {
    match c.risk
    case Irreversible => true
    case ReadOnly => false
    case ReversibleLow => false
    case ReversibleHigh => c.needsConfirmation
  }

  function NeedsConfirmation(cfg: Config, actionType: string): bool {
    var c := Classify(actionType);
    GateConfirms(c) || c.needsConfirmation || !AutoAllowed(cfg, c.risk)
  }

  datatype State = Pending | Waiting | Executing | Completed | Failed | Revoked | Denied

  datatype Outcome = Outcome(success: bool, canUndo: bool)

  datatype Record = Record(state: State, createdAt: int, approved: Option<bool>, result: Option<Outcome>)

  /** What never changes about an action: its type, whether it needs confirmation, whether it undoes another. */
  datatype Kind = Kind(actionType: string, confirm: bool, undo: bool)

  datatype Stage = StRequested | StConfirmed | StExecuting | StUndoRequested | StUndoExecuting | StOther

  /** The observable trace: stored audit entries, user decisions, expiries and provider side effects. */
  datatype Obs =
    | Stored(id: nat, stage: Stage)
    | Decided(id: nat, approved: bool)
    | Expired(id: nat)
    | Executed(id: nat)
    | Undone(id: nat, original: nat)

  datatype Task =
    | RqLock(id: nat)
    | RqExpiring(id: nat, todo: set<nat>, auditing: Option<nat>, now: int)   // `now`: the time expiry is judged by
    | RqOverflow(id: nat)
    | RqAudit(id: nat)
    | RqPreview(id: nat)
    | RqPub(id: nat)
    | CfLock(id: nat, approve: bool)
    | CfExpiring(id: nat, approve: bool, todo: set<nat>, auditing: Option<nat>, now: int)
    | CfPub(id: nat, approve: bool)
    | CfAudit(id: nat, approve: bool)
    | ExSlot(id: nat)
    | ExSandbox(id: nat)
    | ExAudit(id: nat)
    | ExCall(id: nat)
    | ExPub(id: nat)
    | UnAudit(id: nat, original: nat)
    | UnSlot(id: nat, original: nat)
    | UnSandbox(id: nat, original: nat)
    | UnIntent(id: nat, original: nat)
    | UnCall(id: nat, original: nat)
    | UnPub(id: nat)
    | LastAudit(id: nat)                     // an audit whose result is not used
    | Ended

  datatype Sys = Sys(
    kinds: map<nat, Kind>,
    records: map<nat, Record>,
    pending: set<nat>,
    history: seq<nat>,
    tasks: map<nat, Task>,
    lock: Option<nat>,
    slots: nat,
    providerQuarantined: bool,
    storeQuarantined: bool,
    trace: seq<Obs>)

  const Initial := Sys(map[], map[], {}, [], map[], None, 0, false, false, [])

  datatype AuditReply = Written | Refused | Lost(landed: bool)

  datatype Step =
    | NewRequest(t: nat, id: nat, actionType: string, gateDenies: bool, now: int)
    | NewConfirm(t: nat, id: nat, approve: bool)
    | NewUndo(t: nat, id: nat, original: nat, now: int)
    | Acquire(t: nat, now: int)
    | ExpireNext(t: nat, victim: nat)
    | LockedBody(t: nat)
    | AuditReturns(t: nat, reply: AuditReply)
    | PreviewReturns(t: nat, ok: bool, timedOut: bool)
    | PublishReturns(t: nat, ok: bool)
    | SlotGranted(t: nat)
    | SandboxReturns(t: nat, verified: bool, timedOut: bool)
    | CallReturns(t: nat, outcome: Outcome, timedOut: bool)
    | Cancel(t: nat, reply: AuditReply)

  // ── Small updates ───────────────────────────────────────────────────

  function Goto(s: Sys, t: nat, task: Task): Sys { s.(tasks := s.tasks[t := task]) }

  function Put(s: Sys, id: nat, r: Record): Sys { s.(records := s.records[id := r]) }

  function SetState(s: Sys, id: nat, state: State): Sys {
    if id in s.records then Put(s, id, s.records[id].(state := state)) else s
  }

  function Pop(s: Sys, id: nat): Sys { s.(pending := s.pending - {id}) }

  function Observe(s: Sys, o: Obs): Sys { s.(trace := s.trace + [o]) }

  function Remember(cfg: Config, s: Sys, id: nat): Sys {
    var h := s.history + [id];
    s.(history := if |h| > cfg.maxHistory then h[|h| - cfg.maxHistory..] else h)
  }

  /** A record leaves the pending table in a final state. */
  function Close(cfg: Config, s: Sys, id: nat, state: State, result: Option<Outcome>): Sys {
    var u := if id in s.records then Put(s, id, s.records[id].(state := state, result := result)) else s;
    Remember(cfg, Pop(u, id), id)
  }

  /** Whether the audit counts as durable, and the state after it. */
  function Audit(cfg: Config, s: Sys, id: nat, stage: Stage, reply: AuditReply): (bool, Sys) {
    if !cfg.auditEnabled then (!cfg.requireDurable, s)
    else if s.storeQuarantined then (false, s)
    else if !cfg.hasStore then (!cfg.requireDurable, s)
    else
      match reply
      case Written => (true, Observe(s, Stored(id, stage)))
      case Refused => (false, s)
      case Lost(landed) =>
        (false, (if landed then Observe(s, Stored(id, stage)) else s).(storeQuarantined := true))
  }

  function Failure(): Option<Outcome> { Some(Outcome(false, false)) }

  function WaitingSet(s: Sys): set<nat> {
    set id | id in s.pending && id in s.records && s.records[id].state == Waiting
  }

  function Stale(cfg: Config, s: Sys, now: int): set<nat> {
    set id | id in WaitingSet(s) && s.records[id].createdAt < now - cfg.ttl
  }

  /** The execution part ends: the slot is released and the record closed. */
  function FinishExecution(cfg: Config, s: Sys, t: nat, id: nat, outcome: Outcome): Sys {
    var u := Close(cfg, s.(slots := if s.slots > 0 then s.slots - 1 else 0), id,
                   if outcome.success then Completed else Failed, Some(outcome));
    Goto(u, t, ExPub(id))
  }

  function FinishUndo(cfg: Config, s: Sys, t: nat, id: nat, outcome: Outcome): Sys {
    var u := SetState(s.(slots := if s.slots > 0 then s.slots - 1 else 0), id,
                      if outcome.success then Revoked else Failed);
    var v := if id in u.records then Put(u, id, u.records[id].(result := Some(outcome))) else u;
    Goto(Remember(cfg, v, id), t, UnPub(id))
  }

  /** The newest remembered record with this identifier. */
  predicate Remembered(s: Sys, id: nat) { id in s.history && id in s.records && id in s.kinds }

  predicate Undoable(cfg: Config, s: Sys, id: nat) {
    && Remembered(s, id)
    && s.records[id].result.Some? && s.records[id].result.value.success
    && (Classify(s.kinds[id].actionType).canUndo || s.records[id].result.value.canUndo)
  }

  // ── Steps ───────────────────────────────────────────────────────────

  function Request(cfg: Config, s: Sys, t: nat, id: nat, actionType: string, gateDenies: bool, now: int): Sys {
    var confirm := NeedsConfirmation(cfg, actionType);
    var known := s.(kinds := s.kinds[id := Kind(actionType, confirm, false)]);
    if gateDenies && Classify(actionType).risk != Irreversible then
      Goto(Remember(cfg, Put(known, id, Record(Denied, now, None, None)), id), t, LastAudit(id))
    else if s.providerQuarantined then
      Goto(Remember(cfg, Put(known, id, Record(Failed, now, None, Failure())), id), t, LastAudit(id))
    else if confirm then
      Goto(Put(known, id, Record(Waiting, now, None, None)), t, RqLock(id))
    else
      var u := Put(known, id, Record(Pending, now, None, None));
      Goto(u.(pending := u.pending + {id}), t, RqAudit(id))
  }

  function Undo(s: Sys, t: nat, id: nat, original: nat, now: int): Sys
    requires original in s.kinds
  {
    var u := s.(kinds := s.kinds[id := Kind("undo:" + s.kinds[original].actionType, false, true)]);
    Goto(Put(u, id, Record(Pending, now, None, None)), t, UnAudit(id, original))
  }

  function TakeLock(cfg: Config, s: Sys, t: nat, now: int): Sys
    requires t in s.tasks
  {
    var u := s.(lock := Some(t));
    match s.tasks[t]
    case RqLock(id) => Goto(u, t, RqExpiring(id, Stale(cfg, s, now), None, now))
    case CfLock(id, approve) => Goto(u, t, CfExpiring(id, approve, Stale(cfg, s, now), None, now))
    case _ => s
  }

  function Expire(cfg: Config, s: Sys, t: nat, victim: nat): Sys
    requires t in s.tasks
  {
    var task := s.tasks[t];
    if (task.RqExpiring? || task.CfExpiring?) && victim in task.todo && task.auditing.None? then
      Goto(Observe(Close(cfg, s, victim, Revoked, Failure()), Expired(victim)), t,
           task.(todo := task.todo - {victim}, auditing := Some(victim)))
    else s
  }

  /** The code under the confirmation lock once nothing is left to expire; it releases the lock. */
  function Body(cfg: Config, s: Sys, t: nat): Sys
    requires t in s.tasks
  {
    var open := s.(lock := None);
    match s.tasks[t]
    case RqExpiring(id, todo, auditing, _) =>
      if todo != {} || auditing.Some? then s
      else if |WaitingSet(s)| >= cfg.maxPending then
        Goto(Remember(cfg, if id in s.records then Put(s, id, s.records[id].(state := Denied, result := Failure()))
                      else s, id),
             t, RqOverflow(id))
      else Goto(open.(pending := s.pending + {id}), t, RqAudit(id))
    case CfExpiring(id, approve, todo, auditing, _) =>
      if todo != {} || auditing.Some? then s
      else if id !in s.pending || id !in s.records || s.records[id].state != Waiting then Goto(open, t, Ended)
      else if approve then
        Goto(Observe(Put(open, id, s.records[id].(approved := Some(true), state := Pending)), Decided(id, true)),
             t, CfPub(id, true))
      else
        Goto(Observe(Remember(cfg, Pop(Put(open, id, s.records[id].(approved := Some(false), state := Denied)), id),
                              id),
                     Decided(id, false)), t, CfPub(id, false))
    case _ => s
  }

  function AuditEnds(cfg: Config, s: Sys, t: nat, reply: AuditReply): Sys
    requires t in s.tasks
  {
    match s.tasks[t]
    case RqExpiring(id, todo, Some(victim), now) =>
      Goto(Audit(cfg, s, victim, StOther, reply).1, t, RqExpiring(id, todo, None, now))
    case CfExpiring(id, approve, todo, Some(victim), now) =>
      Goto(Audit(cfg, s, victim, StOther, reply).1, t, CfExpiring(id, approve, todo, None, now))
    case RqOverflow(id) => Goto(Audit(cfg, s, id, StOther, reply).1.(lock := None), t, Ended)
    case RqAudit(id) =>
      var (ok, u) := Audit(cfg, s, id, StRequested, reply);
      if !ok then Goto(Close(cfg, u, id, Failed, Failure()), t, Ended)
      else if id in s.kinds && s.kinds[id].confirm && cfg.hasProvider then Goto(u, t, RqPreview(id))
      else Goto(u, t, RqPub(id))
    case CfAudit(id, approve) =>
      var (ok, u) := Audit(cfg, s, id, StConfirmed, reply);
      if approve && !ok then Goto(Close(cfg, u, id, Failed, Failure()), t, Ended)
      else Goto(u, t, if approve then ExSlot(id) else Ended)
    case ExAudit(id) =>
      var (ok, u) := Audit(cfg, s, id, StExecuting, reply);
      if ok then Goto(Observe(u, Executed(id)), t, ExCall(id))
      else FinishExecution(cfg, u, t, id, Outcome(false, false))
    case UnAudit(id, original) =>
      var (ok, u) := Audit(cfg, s, id, StUndoRequested, reply);
      Goto(u, t, if ok then UnSlot(id, original) else Ended)
    case UnIntent(id, original) =>
      var (ok, u) := Audit(cfg, s, id, StUndoExecuting, reply);
      if ok then Goto(Observe(u, Undone(id, original)), t, UnCall(id, original))
      else FinishUndo(cfg, u, t, id, Outcome(false, false))
    case LastAudit(id) => Goto(Audit(cfg, s, id, StOther, reply).1, t, Ended)
    case _ => s
  }

  function PreviewEnds(cfg: Config, s: Sys, t: nat, ok: bool, timedOut: bool): Sys
    requires t in s.tasks
  {
    match s.tasks[t]
    case RqPreview(id) =>
      if ok then Goto(s, t, RqPub(id))
      else Goto(Close(cfg, s.(providerQuarantined := s.providerQuarantined || timedOut), id, Failed, Failure()),
                t, LastAudit(id))
    case _ => s
  }

  function PublishEnds(s: Sys, t: nat, ok: bool): Sys
    requires t in s.tasks
  {
    match s.tasks[t]
    case RqPub(id) =>
      Goto(s, t, if !ok || (id in s.kinds && s.kinds[id].confirm) then Ended else ExSlot(id))
    case CfPub(id, approve) => Goto(s, t, if ok then CfAudit(id, approve) else Ended)
    case ExPub(id) => Goto(s, t, if ok then LastAudit(id) else Ended)
    case UnPub(id) => Goto(s, t, if ok then LastAudit(id) else Ended)
    case _ => s
  }

  function Occupy(s: Sys, id: nat): Sys { SetState(s.(slots := s.slots + 1), id, Executing) }

  function EnterSlot(cfg: Config, s: Sys, t: nat): Sys
    requires t in s.tasks
  {
    if s.slots >= cfg.maxConcurrent then s
    else
      match s.tasks[t]
      case ExSlot(id) =>
        var u := Occupy(s, id);
        if s.providerQuarantined || !cfg.hasProvider then FinishExecution(cfg, u, t, id, Outcome(false, false))
        else Goto(u, t, if cfg.sandbox then ExSandbox(id) else ExAudit(id))
      case UnSlot(id, original) =>
        var u := Occupy(s, id);
        Goto(u, t, if cfg.sandbox then UnSandbox(id, original) else UnIntent(id, original))
      case _ => s
  }

  function SandboxEnds(cfg: Config, s: Sys, t: nat, verified: bool, timedOut: bool): Sys
    requires t in s.tasks
  {
    var u := s.(providerQuarantined := s.providerQuarantined || timedOut);
    match s.tasks[t]
    case ExSandbox(id) =>
      if verified && !timedOut then Goto(u, t, ExAudit(id)) else FinishExecution(cfg, u, t, id, Outcome(false, false))
    case UnSandbox(id, original) =>
      if verified && !timedOut then Goto(u, t, UnIntent(id, original))
      else FinishUndo(cfg, u, t, id, Outcome(false, false))
    case _ => s
  }

  function CallEnds(cfg: Config, s: Sys, t: nat, outcome: Outcome, timedOut: bool): Sys
    requires t in s.tasks
  {
    var u := s.(providerQuarantined := s.providerQuarantined || timedOut);
    var result := if timedOut then Outcome(false, false) else outcome;
    match s.tasks[t]
    case ExCall(id) => FinishExecution(cfg, u, t, id, result)
    case UnCall(id, _) => FinishUndo(cfg, u, t, id, result)
    case _ => s
  }

  /** What an audit that a cancellation interrupts is about. */
  function InterruptedAudit(task: Task): Option<(nat, Stage)> {
    match task
    case RqExpiring(_, _, Some(victim), _) => Some((victim, StOther))
    case CfExpiring(_, _, _, Some(victim), _) => Some((victim, StOther))
    case RqOverflow(id) => Some((id, StOther))
    case RqAudit(id) => Some((id, StRequested))
    case CfAudit(id, _) => Some((id, StConfirmed))
    case UnAudit(id, _) => Some((id, StUndoRequested))
    case LastAudit(id) => Some((id, StOther))
    case _ => None
  }

  predicate Idle(task: Task) {
    task.RqLock? || task.CfLock? || task.RqExpiring? || task.CfExpiring? || task.RqPreview? || task.RqPub?
      || task.CfPub?
  }

  /**
   A cancellation. Execution and undo are shielded. Anywhere else the task ends, giving up the lock it may hold;
   an interrupted audit takes effect or quarantines the store, an interrupted preview quarantines the provider.
   */
  function CancelTask(cfg: Config, s: Sys, t: nat, reply: AuditReply): Sys
    requires t in s.tasks
  {
    var lock := if s.lock == Some(t) then None else s.lock;
    var audit := InterruptedAudit(s.tasks[t]);
    if audit.Some? then Goto(Audit(cfg, s, audit.value.0, audit.value.1, reply).1.(lock := lock), t, Ended)
    else if Idle(s.tasks[t]) then
      Goto(s.(lock := lock, providerQuarantined := s.providerQuarantined || s.tasks[t].RqPreview?), t, Ended)
    else s
  }

  function Exec(cfg: Config, s: Sys, a: Step): Sys {
    match a
    case NewRequest(t, id, actionType, gateDenies, now) =>
      if t in s.tasks || id in s.kinds then s else Request(cfg, s, t, id, actionType, gateDenies, now)
    case NewConfirm(t, id, approve) =>
      if t in s.tasks then s else Goto(s, t, CfLock(id, approve))
    case NewUndo(t, id, original, now) =>
      if t in s.tasks || id in s.kinds || !cfg.hasProvider || !cfg.undoEnabled || s.providerQuarantined
         || !Undoable(cfg, s, original) then s
      else Undo(s, t, id, original, now)
    case Acquire(t, now) => if t !in s.tasks || s.lock.Some? then s else TakeLock(cfg, s, t, now)
    case ExpireNext(t, victim) => if t !in s.tasks then s else Expire(cfg, s, t, victim)
    case LockedBody(t) => if t !in s.tasks then s else Body(cfg, s, t)
    case AuditReturns(t, reply) => if t !in s.tasks then s else AuditEnds(cfg, s, t, reply)
    case PreviewReturns(t, ok, timedOut) => if t !in s.tasks then s else PreviewEnds(cfg, s, t, ok, timedOut)
    case PublishReturns(t, ok) => if t !in s.tasks then s else PublishEnds(s, t, ok)
    case SlotGranted(t) => if t !in s.tasks then s else EnterSlot(cfg, s, t)
    case SandboxReturns(t, verified, timedOut) =>
      if t !in s.tasks then s else SandboxEnds(cfg, s, t, verified, timedOut)
    case CallReturns(t, outcome, timedOut) => if t !in s.tasks then s else CallEnds(cfg, s, t, outcome, timedOut)
    case Cancel(t, reply) => if t !in s.tasks then s else CancelTask(cfg, s, t, reply)
  }

  function Run(cfg: Config, steps: seq<Step>): Sys {
    if steps == [] then Initial else Exec(cfg, Run(cfg, steps[..|steps| - 1]), steps[|steps| - 1])
  }
}
