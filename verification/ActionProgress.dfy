/**
 Which actions can still execute: the execution slots are never leaked, an action that nobody carries on and
 nobody can confirm any more has stopped for good, and whoever can go on reaches the execution in some run.
 */
module ActionProgress {
  import opened Std
  import opened Actions
  import opened ActionSafety

  // ── Execution slots ─────────────────────────────────────────────────

  predicate HoldsSlot(task: Task) {
    task.ExSandbox? || task.ExAudit? || task.ExCall? || task.UnSandbox? || task.UnIntent? || task.UnCall?
  }

  function Holders(s: Sys): set<nat> { set t | t in s.tasks && HoldsSlot(s.tasks[t]) }

  predicate SlotsOk(cfg: Config, s: Sys) { s.slots == |Holders(s)| <= cfg.maxConcurrent }

  /** A step changes the stage of one task; whether that task holds a slot changes with the count. */
  predicate SlotMove(cfg: Config, s: Sys, u: Sys, t: nat) {
    && t in u.tasks && u.tasks == s.tasks[t := u.tasks[t]]
    && var before, after := t in s.tasks && HoldsSlot(s.tasks[t]), HoldsSlot(u.tasks[t]);
       if before == after then u.slots == s.slots
       else if after then u.slots == s.slots + 1 <= cfg.maxConcurrent
       else s.slots > 0 ==> u.slots == s.slots - 1
  }

  predicate SlotStep(cfg: Config, s: Sys, u: Sys, t: nat) {
    (u.tasks == s.tasks && u.slots == s.slots) || SlotMove(cfg, s, u, t)
  }

  /** Whether an audit of the right reply counts as durable. */
  predicate CanAudit(cfg: Config, s: Sys) {
    if !cfg.auditEnabled then !cfg.requireDurable
    else !s.storeQuarantined && (cfg.hasStore || !cfg.requireDurable)
  }

  predicate Settled(s: Sys, id: nat) { id in s.kinds && id in s.records && s.records[id].state != Waiting }

  /**
   A settled action, one that cannot be confirmed any more, is carried on only by whoever carried it before,
   enters a slot only while nothing forbids it, and is executed only on a durable intent.
   */
  predicate CarryStep(cfg: Config, s: Sys, u: Sys, t: nat, id: nat) {
    && id in s.kinds && id in u.kinds && u.kinds[id] == s.kinds[id]
    && (s.providerQuarantined ==> u.providerQuarantined) && (s.storeQuarantined ==> u.storeQuarantined)
    && (Executed(id) in u.trace ==>
          Executed(id) in s.trace || (t in s.tasks && s.tasks[t] == ExAudit(id) && CanAudit(cfg, s)))
    && (t in u.tasks && Carries(u.kinds, u.tasks[t], id) ==>
          && t in s.tasks && Carries(s.kinds, s.tasks[t], id)
          && (HoldsSlot(u.tasks[t]) && !HoldsSlot(s.tasks[t]) ==>
                !s.providerQuarantined && cfg.hasProvider && cfg.maxConcurrent > 0))
  }

  predicate Stepped(cfg: Config, s: Sys, u: Sys, t: nat, id: nat) {
    SlotStep(cfg, s, u, t) && (t in s.tasks ==> u.kinds == s.kinds) && (Settled(s, id) ==> CarryStep(cfg, s, u, t, id))
  }

  lemma HoldersMove(s: Sys, u: Sys, t: nat)
    requires t in u.tasks && u.tasks == s.tasks[t := u.tasks[t]]
    ensures Holders(u) == if HoldsSlot(u.tasks[t]) then Holders(s) + {t} else Holders(s) - {t}
    ensures t in Holders(s) <==> t in s.tasks && HoldsSlot(s.tasks[t])
  {
  }

  lemma SlotMoveKeeps(cfg: Config, s: Sys, u: Sys, t: nat)
    requires SlotsOk(cfg, s) && SlotStep(cfg, s, u, t)
    ensures SlotsOk(cfg, u)
  {
    if SlotMove(cfg, s, u, t) {
      HoldersMove(s, u, t);
      assert |Holders(s) + {t}| == if t in Holders(s) then |Holders(s)| else |Holders(s)| + 1;
      assert |Holders(s) - {t}| == if t in Holders(s) then |Holders(s)| - 1 else |Holders(s)|;
    } else {
      assert Holders(u) == Holders(s);
    }
  }

  lemma AuditFrame(cfg: Config, s: Sys, id: nat, stage: Stage, reply: AuditReply)
    ensures var u := Audit(cfg, s, id, stage, reply).1;
            u == s.(trace := u.trace, storeQuarantined := u.storeQuarantined)
    ensures Audit(cfg, s, id, stage, reply).0 ==> CanAudit(cfg, s)
    ensures CanAudit(cfg, s) ==> Audit(cfg, s, id, stage, Written).0
                                 && Audit(cfg, s, id, stage, Written).1.storeQuarantined == s.storeQuarantined
    ensures s.storeQuarantined ==> Audit(cfg, s, id, stage, reply).1.storeQuarantined
    ensures Audit(cfg, s, id, stage, Refused).1.storeQuarantined == s.storeQuarantined
    ensures forall o | o in Audit(cfg, s, id, stage, reply).1.trace :: o in s.trace || o.Stored?
  {
  }

  /** A change of the stage of t that leaves kinds, trace and quarantine flags alone. */
  predicate OnlyStage(s: Sys, u: Sys, t: nat, task: Task) {
    && u.kinds == s.kinds && u.trace == s.trace && u.tasks == s.tasks[t := task]
    && u.providerQuarantined == s.providerQuarantined && u.storeQuarantined == s.storeQuarantined
  }

  /** What the end of an execution or an undo changes besides records and history. */
  lemma ExecutionReleases(cfg: Config, s: Sys, t: nat, id: nat, outcome: Outcome)
    ensures var u := FinishExecution(cfg, s, t, id, outcome);
            OnlyStage(s, u, t, ExPub(id)) && u.slots == (if s.slots > 0 then s.slots - 1 else 0)
  {
  }

  lemma UndoReleases(cfg: Config, s: Sys, t: nat, id: nat, outcome: Outcome)
    ensures var u := FinishUndo(cfg, s, t, id, outcome);
            OnlyStage(s, u, t, UnPub(id)) && u.slots == (if s.slots > 0 then s.slots - 1 else 0)
  {
  }

  lemma FinishReleases(cfg: Config, s: Sys, t: nat, id: nat, outcome: Outcome)
    ensures var u := FinishExecution(cfg, s, t, id, outcome);
            OnlyStage(s, u, t, ExPub(id)) && u.slots == (if s.slots > 0 then s.slots - 1 else 0)
    ensures var u := FinishUndo(cfg, s, t, id, outcome);
            OnlyStage(s, u, t, UnPub(id)) && u.slots == (if s.slots > 0 then s.slots - 1 else 0)
  {
    ExecutionReleases(cfg, s, t, id, outcome);
    UndoReleases(cfg, s, t, id, outcome);
  }

  /** A task that leaves its slot, with or without a side effect just before. */
  lemma LeavingMoves(cfg: Config, s: Sys, u: Sys, t: nat, task: Task, who: nat)
    requires t in s.tasks && HoldsSlot(s.tasks[t]) && (task.ExPub? || task.UnPub?)
    requires u.kinds == s.kinds && u.tasks == s.tasks[t := task]
    requires (s.providerQuarantined ==> u.providerQuarantined) && (s.storeQuarantined ==> u.storeQuarantined)
    requires Executed(who) in u.trace ==> Executed(who) in s.trace
    requires u.slots == (if s.slots > 0 then s.slots - 1 else 0)
    ensures Stepped(cfg, s, u, t, who)
  {
  }

  /** A task that neither enters nor leaves a slot, and carries nothing new. */
  lemma StayingMoves(cfg: Config, s: Sys, u: Sys, t: nat, who: nat)
    requires t in s.tasks && t in u.tasks && HoldsSlot(s.tasks[t]) == HoldsSlot(u.tasks[t])
    requires u.kinds == s.kinds && u.tasks == s.tasks[t := u.tasks[t]] && u.slots == s.slots
    requires (s.providerQuarantined ==> u.providerQuarantined) && (s.storeQuarantined ==> u.storeQuarantined)
    requires Executed(who) in u.trace ==> Executed(who) in s.trace || (s.tasks[t] == ExAudit(who) && CanAudit(cfg, s))
    requires Carries(s.kinds, u.tasks[t], who) && Settled(s, who) ==> Carries(s.kinds, s.tasks[t], who)
    ensures Stepped(cfg, s, u, t, who)
  {
  }

  lemma IntentMoves(cfg: Config, s: Sys, t: nat, id: nat, reply: AuditReply, who: nat)
    requires t in s.tasks && s.tasks[t] == ExAudit(id)
    ensures Stepped(cfg, s, AuditEnds(cfg, s, t, reply), t, who)
  {
    var u := AuditEnds(cfg, s, t, reply);
    AuditFrame(cfg, s, id, StExecuting, reply);
    if Audit(cfg, s, id, StExecuting, reply).0 {
      assert u.tasks[t] == ExCall(id);
      StayingMoves(cfg, s, u, t, who);
    } else {
      FinishReleases(cfg, Audit(cfg, s, id, StExecuting, reply).1, t, id, Outcome(false, false));
      LeavingMoves(cfg, s, u, t, ExPub(id), who);
    }
  }

  lemma UndoIntentMoves(cfg: Config, s: Sys, t: nat, id: nat, original: nat, reply: AuditReply, who: nat)
    requires t in s.tasks && s.tasks[t] == UnIntent(id, original)
    ensures Stepped(cfg, s, AuditEnds(cfg, s, t, reply), t, who)
  {
    var u := AuditEnds(cfg, s, t, reply);
    AuditFrame(cfg, s, id, StUndoExecuting, reply);
    if Audit(cfg, s, id, StUndoExecuting, reply).0 {
      assert u.tasks[t] == UnCall(id, original);
      StayingMoves(cfg, s, u, t, who);
    } else {
      FinishReleases(cfg, Audit(cfg, s, id, StUndoExecuting, reply).1, t, id, Outcome(false, false));
      LeavingMoves(cfg, s, u, t, UnPub(id), who);
    }
  }

  /** A task outside the slots takes its next stage; records, queue and quarantine may change with it. */
  lemma QuietMoves(cfg: Config, s: Sys, u: Sys, t: nat, next: Task, who: nat)
    requires t in s.tasks && !HoldsSlot(s.tasks[t]) && !HoldsSlot(next)
    requires u == s.(lock := u.lock, tasks := s.tasks[t := next], records := u.records, pending := u.pending,
                     history := u.history, trace := u.trace, providerQuarantined := u.providerQuarantined,
                     storeQuarantined := u.storeQuarantined)
    requires (s.providerQuarantined ==> u.providerQuarantined) && (s.storeQuarantined ==> u.storeQuarantined)
    requires Executed(who) in u.trace ==> Executed(who) in s.trace
    requires Carries(s.kinds, next, who) && Settled(s, who) ==> Carries(s.kinds, s.tasks[t], who)
    ensures Stepped(cfg, s, u, t, who)
  {
    StayingMoves(cfg, s, u, t, who);
  }

  /** The audit is done and the task takes its next stage. */
  lemma AuditedMoves(cfg: Config, s: Sys, t: nat, id: nat, stage: Stage, reply: AuditReply, next: Task, who: nat)
    requires t in s.tasks && !HoldsSlot(s.tasks[t]) && !HoldsSlot(next)
    requires Carries(s.kinds, next, who) ==> Carries(s.kinds, s.tasks[t], who)
    ensures Stepped(cfg, s, Goto(Audit(cfg, s, id, stage, reply).1, t, next), t, who)
  {
    AuditFrame(cfg, s, id, stage, reply);
    QuietMoves(cfg, s, Goto(Audit(cfg, s, id, stage, reply).1, t, next), t, next, who);
  }

  /** The audit is done and the action is closed. */
  lemma ClosedMoves(cfg: Config, s: Sys, t: nat, id: nat, stage: Stage, reply: AuditReply, who: nat)
    requires t in s.tasks && !HoldsSlot(s.tasks[t])
    ensures var closed := Close(cfg, Audit(cfg, s, id, stage, reply).1, id, Failed, Failure());
            Stepped(cfg, s, Goto(closed, t, Ended), t, who)
  {
    var v := Audit(cfg, s, id, stage, reply).1;
    AuditFrame(cfg, s, id, stage, reply);
    CloseFrame(cfg, v, id, Failed, Failure());
    QuietMoves(cfg, s, Goto(Close(cfg, v, id, Failed, Failure()), t, Ended), t, Ended, who);
  }

  lemma RequestAuditMoves(cfg: Config, s: Sys, t: nat, id: nat, reply: AuditReply, who: nat)
    requires t in s.tasks && s.tasks[t] == RqAudit(id)
    ensures Stepped(cfg, s, AuditEnds(cfg, s, t, reply), t, who)
  {
    var (ok, v) := Audit(cfg, s, id, StRequested, reply);
    AuditFrame(cfg, s, id, StRequested, reply);
    if ok {
      AuditedMoves(cfg, s, t, id, StRequested, reply,
                   if id in s.kinds && s.kinds[id].confirm && cfg.hasProvider then RqPreview(id) else RqPub(id), who);
    } else {
      ClosedMoves(cfg, s, t, id, StRequested, reply, who);
    }
  }

  lemma ConfirmAuditMoves(cfg: Config, s: Sys, t: nat, id: nat, approve: bool, reply: AuditReply, who: nat)
    requires t in s.tasks && s.tasks[t] == CfAudit(id, approve)
    ensures Stepped(cfg, s, AuditEnds(cfg, s, t, reply), t, who)
  {
    if approve && !Audit(cfg, s, id, StConfirmed, reply).0 {
      ClosedMoves(cfg, s, t, id, StConfirmed, reply, who);
    } else {
      AuditedMoves(cfg, s, t, id, StConfirmed, reply, if approve then ExSlot(id) else Ended, who);
    }
  }

  lemma OverflowMoves(cfg: Config, s: Sys, t: nat, id: nat, reply: AuditReply, who: nat)
    requires t in s.tasks && s.tasks[t] == RqOverflow(id)
    ensures Stepped(cfg, s, AuditEnds(cfg, s, t, reply), t, who)
  {
    AuditFrame(cfg, s, id, StOther, reply);
    var u := Goto(Audit(cfg, s, id, StOther, reply).1.(lock := None), t, Ended);
    assert AuditEnds(cfg, s, t, reply) == u;
    QuietMoves(cfg, s, u, t, Ended, who);
  }

  lemma PlainMoves(cfg: Config, s: Sys, t: nat, reply: AuditReply, who: nat)
    requires t in s.tasks && (s.tasks[t].RqOverflow? || s.tasks[t].UnAudit? || s.tasks[t].LastAudit?)
    ensures Stepped(cfg, s, AuditEnds(cfg, s, t, reply), t, who)
  {
    match s.tasks[t]
    case RqOverflow(id) => OverflowMoves(cfg, s, t, id, reply, who);
    case LastAudit(id) => AuditedMoves(cfg, s, t, id, StOther, reply, Ended, who);
    case UnAudit(id, original) =>
      var ok := Audit(cfg, s, id, StUndoRequested, reply).0;
      AuditedMoves(cfg, s, t, id, StUndoRequested, reply, if ok then UnSlot(id, original) else Ended, who);
  }

  lemma ExpiringMoves(cfg: Config, s: Sys, t: nat, reply: AuditReply, who: nat)
    requires t in s.tasks && (s.tasks[t].RqExpiring? || s.tasks[t].CfExpiring?) && s.tasks[t].auditing.Some?
    ensures Stepped(cfg, s, AuditEnds(cfg, s, t, reply), t, who)
  {
    AuditFrame(cfg, s, s.tasks[t].auditing.value, StOther, reply);
    StayingMoves(cfg, s, AuditEnds(cfg, s, t, reply), t, who);
  }

  lemma AuditMoves(cfg: Config, s: Sys, t: nat, reply: AuditReply, who: nat)
    requires t in s.tasks
    ensures Stepped(cfg, s, AuditEnds(cfg, s, t, reply), t, who)
  {
    var task := s.tasks[t];
    if task.ExAudit? {
      IntentMoves(cfg, s, t, task.id, reply, who);
    } else if task.UnIntent? {
      UndoIntentMoves(cfg, s, t, task.id, task.original, reply, who);
    } else if task.RqAudit? {
      RequestAuditMoves(cfg, s, t, task.id, reply, who);
    } else if task.CfAudit? {
      ConfirmAuditMoves(cfg, s, t, task.id, task.approve, reply, who);
    } else if task.RqOverflow? || task.UnAudit? || task.LastAudit? {
      PlainMoves(cfg, s, t, reply, who);
    } else if (task.RqExpiring? || task.CfExpiring?) && task.auditing.Some? {
      ExpiringMoves(cfg, s, t, reply, who);
    } else {
      NothingMoves(cfg, s, t, who);
    }
  }

  lemma NothingMoves(cfg: Config, s: Sys, t: nat, who: nat)
    ensures Stepped(cfg, s, s, t, who)
  {
  }

  lemma CancelMoves(cfg: Config, s: Sys, t: nat, reply: AuditReply, who: nat)
    requires t in s.tasks
    ensures Stepped(cfg, s, CancelTask(cfg, s, t, reply), t, who)
  {
    var u := CancelTask(cfg, s, t, reply);
    var audit := InterruptedAudit(s.tasks[t]);
    if audit.Some? {
      AuditFrame(cfg, s, audit.value.0, audit.value.1, reply);
      StayingMoves(cfg, s, u, t, who);
    } else if Idle(s.tasks[t]) {
      StayingMoves(cfg, s, u, t, who);
    } else {
      NothingMoves(cfg, s, t, who);
    }
  }

  lemma SandboxMoves(cfg: Config, s: Sys, t: nat, verified: bool, timedOut: bool, who: nat)
    requires t in s.tasks
    ensures Stepped(cfg, s, SandboxEnds(cfg, s, t, verified, timedOut), t, who)
  {
    var task := s.tasks[t];
    var u := SandboxEnds(cfg, s, t, verified, timedOut);
    if !task.ExSandbox? && !task.UnSandbox? {
      NothingMoves(cfg, s, t, who);
    } else if verified && !timedOut {
      StayingMoves(cfg, s, u, t, who);
    } else {
      var v := s.(providerQuarantined := s.providerQuarantined || timedOut);
      FinishReleases(cfg, v, t, task.id, Outcome(false, false));
      LeavingMoves(cfg, s, u, t, if task.ExSandbox? then ExPub(task.id) else UnPub(task.id), who);
    }
  }

  lemma CallMoves(cfg: Config, s: Sys, t: nat, outcome: Outcome, timedOut: bool, who: nat)
    requires t in s.tasks
    ensures Stepped(cfg, s, CallEnds(cfg, s, t, outcome, timedOut), t, who)
  {
    var task := s.tasks[t];
    if !task.ExCall? && !task.UnCall? {
      NothingMoves(cfg, s, t, who);
    } else {
      var v := s.(providerQuarantined := s.providerQuarantined || timedOut);
      FinishReleases(cfg, v, t, task.id, if timedOut then Outcome(false, false) else outcome);
      LeavingMoves(cfg, s, CallEnds(cfg, s, t, outcome, timedOut), t,
                   if task.ExCall? then ExPub(task.id) else UnPub(task.id), who);
    }
  }

  lemma RequestPublishMoves(cfg: Config, s: Sys, t: nat, id: nat, ok: bool, who: nat)
    requires t in s.tasks && s.tasks[t] == RqPub(id)
    ensures Stepped(cfg, s, PublishEnds(s, t, ok), t, who)
  {
    var next := if !ok || (id in s.kinds && s.kinds[id].confirm) then Ended else ExSlot(id);
    assert next == Ended || !Settled(s, who) || (Carries(s.kinds, next, who) ==> Carries(s.kinds, RqPub(id), who));
    QuietMoves(cfg, s, Goto(s, t, next), t, next, who);
  }

  lemma ConfirmPublishMoves(cfg: Config, s: Sys, t: nat, id: nat, approve: bool, ok: bool, who: nat)
    requires t in s.tasks && s.tasks[t] == CfPub(id, approve)
    ensures Stepped(cfg, s, PublishEnds(s, t, ok), t, who)
  {
    var next := if ok then CfAudit(id, approve) else Ended;
    QuietMoves(cfg, s, Goto(s, t, next), t, next, who);
  }

  lemma ResultPublishMoves(cfg: Config, s: Sys, t: nat, id: nat, ok: bool, who: nat)
    requires t in s.tasks && (s.tasks[t] == ExPub(id) || s.tasks[t] == UnPub(id))
    ensures Stepped(cfg, s, PublishEnds(s, t, ok), t, who)
  {
    var next := if ok then LastAudit(id) else Ended;
    QuietMoves(cfg, s, Goto(s, t, next), t, next, who);
  }

  lemma PublishMoves(cfg: Config, s: Sys, t: nat, ok: bool, who: nat)
    requires t in s.tasks
    ensures Stepped(cfg, s, PublishEnds(s, t, ok), t, who)
  {
    var task := s.tasks[t];
    if task.RqPub? {
      RequestPublishMoves(cfg, s, t, task.id, ok, who);
    } else if task.CfPub? {
      ConfirmPublishMoves(cfg, s, t, task.id, task.approve, ok, who);
    } else if task.ExPub? || task.UnPub? {
      ResultPublishMoves(cfg, s, t, task.id, ok, who);
    } else {
      NothingMoves(cfg, s, t, who);
    }
  }

  lemma OccupyAdds(s: Sys, id: nat)
    ensures var u := Occupy(s, id); u == s.(records := u.records, slots := s.slots + 1)
  {
  }

  lemma RefusedEntryMoves(cfg: Config, s: Sys, t: nat, id: nat, who: nat)
    requires t in s.tasks && s.slots < cfg.maxConcurrent && s.tasks[t] == ExSlot(id)
    requires s.providerQuarantined || !cfg.hasProvider
    ensures Stepped(cfg, s, EnterSlot(cfg, s, t), t, who)
  {
    OccupyAdds(s, id);
    FinishReleases(cfg, Occupy(s, id), t, id, Outcome(false, false));
    StayingMoves(cfg, s, EnterSlot(cfg, s, t), t, who);
  }

  lemma EntryMoves(cfg: Config, s: Sys, t: nat, who: nat)
    requires t in s.tasks
    ensures Stepped(cfg, s, EnterSlot(cfg, s, t), t, who)
  {
    if s.slots < cfg.maxConcurrent && s.tasks[t].ExSlot? && (s.providerQuarantined || !cfg.hasProvider) {
      RefusedEntryMoves(cfg, s, t, s.tasks[t].id, who);
    } else if s.slots < cfg.maxConcurrent && (s.tasks[t].ExSlot? || s.tasks[t].UnSlot?) {
      OccupyAdds(s, s.tasks[t].id);
    }
  }

  lemma FailedPreviewMoves(cfg: Config, s: Sys, t: nat, id: nat, timedOut: bool, who: nat)
    requires t in s.tasks && s.tasks[t] == RqPreview(id)
    ensures Stepped(cfg, s, PreviewEnds(cfg, s, t, false, timedOut), t, who)
  {
    var v := s.(providerQuarantined := s.providerQuarantined || timedOut);
    CloseFrame(cfg, v, id, Failed, Failure());
    var u := Goto(Close(cfg, v, id, Failed, Failure()), t, LastAudit(id));
    assert PreviewEnds(cfg, s, t, false, timedOut) == u;
    QuietMoves(cfg, s, u, t, LastAudit(id), who);
  }

  lemma PreviewMoves(cfg: Config, s: Sys, t: nat, ok: bool, timedOut: bool, who: nat)
    requires t in s.tasks && TaskOk(cfg, s, t, s.tasks[t])
    ensures Stepped(cfg, s, PreviewEnds(cfg, s, t, ok, timedOut), t, who)
  {
    if !s.tasks[t].RqPreview? {
      NothingMoves(cfg, s, t, who);
    } else if ok {
      var id := s.tasks[t].id;
      QuietMoves(cfg, s, Goto(s, t, RqPub(id)), t, RqPub(id), who);
    } else {
      FailedPreviewMoves(cfg, s, t, s.tasks[t].id, timedOut, who);
    }
  }

  lemma RequestBodyMoves(cfg: Config, s: Sys, t: nat, id: nat, now: int, who: nat)
    requires t in s.tasks && s.tasks[t] == RqExpiring(id, {}, None, now) && TaskOk(cfg, s, t, s.tasks[t])
    ensures Stepped(cfg, s, Body(cfg, s, t), t, who)
  {
    var u := Body(cfg, s, t);
    if |WaitingSet(s)| >= cfg.maxPending {
      assert u.tasks == s.tasks[t := RqOverflow(id)];
      QuietMoves(cfg, s, u, t, RqOverflow(id), who);
    } else {
      assert u.tasks == s.tasks[t := RqAudit(id)];
      QuietMoves(cfg, s, u, t, RqAudit(id), who);
    }
  }

  lemma DecisionMoves(cfg: Config, s: Sys, t: nat, id: nat, approve: bool, now: int, who: nat)
    requires t in s.tasks && s.tasks[t] == CfExpiring(id, approve, {}, None, now) && Decidable(s, id)
    ensures Stepped(cfg, s, Body(cfg, s, t), t, who)
  {
    var u := Body(cfg, s, t);
    assert u.tasks == s.tasks[t := CfPub(id, approve)] && u.trace == s.trace + [Decided(id, approve)];
    QuietMoves(cfg, s, u, t, CfPub(id, approve), who);
  }

  lemma ConfirmBodyMoves(cfg: Config, s: Sys, t: nat, id: nat, approve: bool, now: int, who: nat)
    requires t in s.tasks && s.tasks[t] == CfExpiring(id, approve, {}, None, now)
    ensures Stepped(cfg, s, Body(cfg, s, t), t, who)
  {
    if Decidable(s, id) {
      DecisionMoves(cfg, s, t, id, approve, now, who);
    } else {
      var u := Goto(s.(lock := None), t, Ended);
      assert Body(cfg, s, t) == u;
      QuietMoves(cfg, s, u, t, Ended, who);
    }
  }

  lemma BodyMoves(cfg: Config, s: Sys, t: nat, who: nat)
    requires t in s.tasks && TaskOk(cfg, s, t, s.tasks[t])
    ensures Stepped(cfg, s, Body(cfg, s, t), t, who)
  {
    var task := s.tasks[t];
    if task.RqExpiring? && task.todo == {} && task.auditing.None? {
      RequestBodyMoves(cfg, s, t, task.id, task.now, who);
    } else if task.CfExpiring? && task.todo == {} && task.auditing.None? {
      ConfirmBodyMoves(cfg, s, t, task.id, task.approve, task.now, who);
    } else {
      NothingMoves(cfg, s, t, who);
    }
  }

  lemma ExpiryMoves(cfg: Config, s: Sys, t: nat, victim: nat, who: nat)
    requires t in s.tasks
    ensures Stepped(cfg, s, Expire(cfg, s, t, victim), t, who)
  {
    var u := Expire(cfg, s, t, victim);
    if u != s { StayingMoves(cfg, s, u, t, who); }
  }

  lemma RequestMoves(cfg: Config, s: Sys, t: nat, id: nat, actionType: string, gateDenies: bool, now: int, who: nat)
    requires t !in s.tasks && id !in s.kinds
    ensures Stepped(cfg, s, Request(cfg, s, t, id, actionType, gateDenies, now), t, who)
  {
  }

  lemma UndoMoves(cfg: Config, s: Sys, t: nat, id: nat, original: nat, now: int, who: nat)
    requires t !in s.tasks && id !in s.kinds && original in s.kinds
    ensures Stepped(cfg, s, Undo(s, t, id, original, now), t, who)
  {
  }

  lemma ConfirmMoves(cfg: Config, s: Sys, t: nat, id: nat, approve: bool, who: nat)
    requires t !in s.tasks
    ensures Stepped(cfg, s, Goto(s, t, CfLock(id, approve)), t, who)
  {
  }

  lemma LockMovesOn(cfg: Config, s: Sys, t: nat, now: int, who: nat)
    requires t in s.tasks
    ensures Stepped(cfg, s, TakeLock(cfg, s, t, now), t, who)
  {
    if s.tasks[t].RqLock? || s.tasks[t].CfLock? { StayingMoves(cfg, s, TakeLock(cfg, s, t, now), t, who); }
  }

  lemma ArrivalMoves(cfg: Config, s: Sys, a: Step, who: nat)
    requires TasksOk(cfg, s) && (a.NewRequest? || a.NewConfirm? || a.NewUndo? || a.Acquire?)
    ensures Stepped(cfg, s, Exec(cfg, s, a), a.t, who)
  {
    var u := Exec(cfg, s, a);
    match a
    case NewRequest(t, id, actionType, gateDenies, now) =>
      if t in s.tasks || id in s.kinds { NothingMoves(cfg, s, t, who); }
      else { RequestMoves(cfg, s, t, id, actionType, gateDenies, now, who); }
    case NewUndo(t, id, original, now) =>
      if t in s.tasks || id in s.kinds || original !in s.kinds { NothingMoves(cfg, s, t, who); }
      else { UndoMoves(cfg, s, t, id, original, now, who); NothingMoves(cfg, s, t, who); }
    case NewConfirm(t, id, approve) =>
      if t in s.tasks { NothingMoves(cfg, s, t, who); } else { ConfirmMoves(cfg, s, t, id, approve, who); }
    case Acquire(t, now) =>
      if t in s.tasks && s.lock.None? { LockMovesOn(cfg, s, t, now, who); } else { NothingMoves(cfg, s, t, who); }
  }

  lemma StepMoves(cfg: Config, s: Sys, a: Step, who: nat)
    requires TasksOk(cfg, s)
    ensures Stepped(cfg, s, Exec(cfg, s, a), a.t, who)
  {
    if a.NewRequest? || a.NewConfirm? || a.NewUndo? || a.Acquire? {
      ArrivalMoves(cfg, s, a, who);
    } else if a.t !in s.tasks {
      NothingMoves(cfg, s, a.t, who);
    } else {
      match a
      case ExpireNext(t, victim) => ExpiryMoves(cfg, s, t, victim, who);
      case LockedBody(t) => BodyMoves(cfg, s, t, who);
      case AuditReturns(t, reply) => AuditMoves(cfg, s, t, reply, who);
      case PreviewReturns(t, ok, timedOut) => PreviewMoves(cfg, s, t, ok, timedOut, who);
      case PublishReturns(t, ok) => PublishMoves(cfg, s, t, ok, who);
      case SlotGranted(t) => EntryMoves(cfg, s, t, who);
      case SandboxReturns(t, verified, timedOut) => SandboxMoves(cfg, s, t, verified, timedOut, who);
      case CallReturns(t, outcome, timedOut) => CallMoves(cfg, s, t, outcome, timedOut, who);
      case Cancel(t, reply) => CancelMoves(cfg, s, t, reply, who);
      case _ =>
    }
  }

  /** In every run exactly the tasks between slot entry and their end hold a slot, and never more than allowed. */
  lemma {:induction false} SlotsAreCounted(cfg: Config, steps: seq<Step>)
    ensures var s := Run(cfg, steps); s.slots == |Holders(s)| <= cfg.maxConcurrent
  {
    if steps == [] {
      assert Holders(Initial) == {};
    } else {
      var before, a := steps[..|steps| - 1], steps[|steps| - 1];
      SlotsAreCounted(cfg, before);
      RunKeeps(cfg, before);
      StepMoves(cfg, Run(cfg, before), a, 0);
      SlotMoveKeeps(cfg, Run(cfg, before), Run(cfg, steps), a.t);
    }
  }

  // ── Who can still execute ───────────────────────────────────────────

  /** Task t is on its way to executing `id`, and nothing that cannot be lifted stands in its way. */
  predicate CanGoOn(cfg: Config, s: Sys, t: nat, id: nat) {
    && t in s.tasks && Carries(s.kinds, s.tasks[t], id) && CanAudit(cfg, s)
    && (!HoldsSlot(s.tasks[t]) ==> !s.providerQuarantined && cfg.hasProvider && cfg.maxConcurrent > 0)
  }

  ghost predicate Alive(cfg: Config, s: Sys, id: nat) { exists t :: CanGoOn(cfg, s, t, id) }

  /** The action will not execute: it has not, nobody can still carry it on, and it cannot be confirmed. */
  ghost predicate Stopped(cfg: Config, s: Sys, id: nat) {
    Settled(s, id) && Executed(id) !in s.trace && !Alive(cfg, s, id)
  }

  /** Whoever can go on after a step could before it. */
  lemma CouldGoOn(cfg: Config, s: Sys, u: Sys, t: nat, who: nat, id: nat)
    requires Settled(s, id) && Stepped(cfg, s, u, t, id) && CanGoOn(cfg, u, who, id)
    ensures CanGoOn(cfg, s, who, id)
  {
  }

  lemma StoppedStays(cfg: Config, s: Sys, a: Step, id: nat)
    requires Inv(cfg, s) && Stopped(cfg, s, id)
    ensures Stopped(cfg, Exec(cfg, s, a), id)
  {
    var u := Exec(cfg, s, a);
    StepKeeps(cfg, s, a);
    StepMoves(cfg, s, a, id);
    assert Executed(id) in u.trace ==> CanGoOn(cfg, s, a.t, id);
    forall t ensures !CanGoOn(cfg, u, t, id) {
      if CanGoOn(cfg, u, t, id) { CouldGoOn(cfg, s, u, a.t, t, id); }
    }
  }

  /** Whoever has stopped never executes, whatever happens next. */
  lemma {:induction false} StoppedForGood(cfg: Config, steps: seq<Step>, more: seq<Step>, id: nat)
    requires Stopped(cfg, Run(cfg, steps), id)
    ensures Stopped(cfg, Run(cfg, steps + more), id)
  {
    if more == [] {
      assert steps + more == steps;
    } else {
      var n := |more| - 1;
      StoppedForGood(cfg, steps, more[..n], id);
      RunKeeps(cfg, steps + more[..n]);
      ConcatLast(steps, more);
      StoppedStays(cfg, Run(cfg, steps + more[..n]), more[n], id);
    }
  }

  // ── Whoever can go on does so in some run ───────────────────────────

  function From(cfg: Config, s: Sys, steps: seq<Step>): Sys
    decreases |steps|
  {
    if steps == [] then s else From(cfg, Exec(cfg, s, steps[0]), steps[1..])
  }

  lemma {:induction false} RunFrom(cfg: Config, before: seq<Step>, steps: seq<Step>)
    ensures Run(cfg, before + steps) == From(cfg, Run(cfg, before), steps)
    decreases |steps|
  {
    if steps == [] {
      assert before + steps == before;
    } else {
      var next := before + [steps[0]];
      assert next[..|next| - 1] == before && next + steps[1..] == before + steps;
      RunFrom(cfg, next, steps[1..]);
    }
  }

  lemma {:induction false} FromThree(cfg: Config, s: Sys, a: Step, b: Step, c: Step)
    ensures From(cfg, s, [a, b, c]) == Exec(cfg, Exec(cfg, Exec(cfg, s, a), b), c)
  {
    assert [a, b, c][1..] == [b, c] && [b, c][1..] == [c] && [c][1..] == [];
    var u := Exec(cfg, Exec(cfg, s, a), b);
    assert From(cfg, u, [c]) == From(cfg, Exec(cfg, u, c), []);
  }

  ghost predicate CanExecute(cfg: Config, s: Sys, id: nat) {
    exists more :: Executed(id) in From(cfg, s, more).trace
  }

  lemma Before(cfg: Config, s: Sys, a: Step, id: nat)
    requires CanExecute(cfg, Exec(cfg, s, a), id)
    ensures CanExecute(cfg, s, id)
  {
    var more :| Executed(id) in From(cfg, Exec(cfg, s, a), more).trace;
    assert ([a] + more)[1..] == more;
    assert Executed(id) in From(cfg, s, [a] + more).trace;
  }

  lemma FromAudit(cfg: Config, s: Sys, t: nat, id: nat)
    requires t in s.tasks && s.tasks[t] == ExAudit(id) && CanAudit(cfg, s)
    ensures CanExecute(cfg, s, id)
  {
    var a := AuditReturns(t, Written);
    AuditFrame(cfg, s, id, StExecuting, Written);
    var u := Exec(cfg, s, a);
    assert u == AuditEnds(cfg, s, t, Written) && u.trace[|u.trace| - 1] == Executed(id);
    assert From(cfg, u, []) == u;
    Before(cfg, s, a, id);
  }

  lemma FromSandbox(cfg: Config, s: Sys, t: nat, id: nat)
    requires t in s.tasks && s.tasks[t] == ExSandbox(id) && CanAudit(cfg, s)
    ensures CanExecute(cfg, s, id)
  {
    var a := SandboxReturns(t, true, false);
    assert Exec(cfg, s, a) == SandboxEnds(cfg, s, t, true, false);
    FromAudit(cfg, Exec(cfg, s, a), t, id);
    Before(cfg, s, a, id);
  }

  /** What stays open for an action that has yet to enter a slot. */
  predicate Entering(cfg: Config, s: Sys) {
    CanAudit(cfg, s) && !s.providerQuarantined && cfg.hasProvider && cfg.maxConcurrent > 0
  }

  lemma FromFreeSlot(cfg: Config, s: Sys, t: nat, id: nat)
    requires t in s.tasks && s.tasks[t] == ExSlot(id) && Entering(cfg, s) && s.slots < cfg.maxConcurrent
    ensures CanExecute(cfg, s, id)
  {
    var a := SlotGranted(t);
    var u := Exec(cfg, s, a);
    assert u == EnterSlot(cfg, s, t);
    OccupyAdds(s, id);
    assert u == Goto(Occupy(s, id), t, if cfg.sandbox then ExSandbox(id) else ExAudit(id));
    if cfg.sandbox { FromSandbox(cfg, u, t, id); } else { FromAudit(cfg, u, t, id); }
    Before(cfg, s, a, id);
  }

  /** The state after a slot was given back by another task. */
  predicate Freed(cfg: Config, s: Sys, u: Sys, t: nat) {
    && t in s.tasks && t in u.tasks && u.tasks[t] == s.tasks[t] && u.kinds == s.kinds
    && u.providerQuarantined == s.providerQuarantined && u.storeQuarantined == s.storeQuarantined
    && (s.slots > 0 ==> u.slots == s.slots - 1)
  }

  lemma StageFrees(cfg: Config, s: Sys, u: Sys, h: nat, task: Task, t: nat)
    requires t in s.tasks && t != h && OnlyStage(s, u, h, task) && u.slots == (if s.slots > 0 then s.slots - 1 else 0)
    ensures Freed(cfg, s, u, t)
  {
  }

  lemma CallFrees(cfg: Config, s: Sys, h: nat, t: nat)
    requires h in s.tasks && t in s.tasks && t != h && (s.tasks[h].ExCall? || s.tasks[h].UnCall?)
    ensures Freed(cfg, s, Exec(cfg, s, CallReturns(h, Outcome(false, false), false)), t)
  {
    var id, failure := s.tasks[h].id, Outcome(false, false);
    var u := CallEnds(cfg, s, h, failure, false);
    assert s.(providerQuarantined := s.providerQuarantined || false) == s;
    if s.tasks[h].ExCall? {
      ExecutionReleases(cfg, s, h, id, failure);
      assert u == FinishExecution(cfg, s, h, id, failure);
      StageFrees(cfg, s, u, h, ExPub(id), t);
    } else {
      UndoReleases(cfg, s, h, id, failure);
      assert u == FinishUndo(cfg, s, h, id, failure);
      StageFrees(cfg, s, u, h, UnPub(id), t);
    }
  }

  lemma SandboxFrees(cfg: Config, s: Sys, h: nat, t: nat)
    requires h in s.tasks && t in s.tasks && t != h && (s.tasks[h].ExSandbox? || s.tasks[h].UnSandbox?)
    ensures Freed(cfg, s, Exec(cfg, s, SandboxReturns(h, false, false)), t)
  {
    var id, failure := s.tasks[h].id, Outcome(false, false);
    var u := SandboxEnds(cfg, s, h, false, false);
    assert s.(providerQuarantined := s.providerQuarantined || false) == s;
    if s.tasks[h].ExSandbox? {
      ExecutionReleases(cfg, s, h, id, failure);
      assert u == FinishExecution(cfg, s, h, id, failure);
      StageFrees(cfg, s, u, h, ExPub(id), t);
    } else {
      UndoReleases(cfg, s, h, id, failure);
      assert u == FinishUndo(cfg, s, h, id, failure);
      StageFrees(cfg, s, u, h, UnPub(id), t);
    }
  }

  /** What a refused intent leaves: a free slot, or, where none is required, a call that can end. */
  predicate Refusable(cfg: Config, s: Sys, u: Sys, h: nat, t: nat) {
    Freed(cfg, s, u, t)
    || (h in u.tasks && (u.tasks[h].ExCall? || u.tasks[h].UnCall?) && Freed(cfg, s.(slots := s.slots + 1), u, t))
  }

  lemma ExecutionIntentFrees(cfg: Config, s: Sys, h: nat, id: nat, t: nat)
    requires h in s.tasks && t in s.tasks && t != h && s.tasks[h] == ExAudit(id)
    ensures Refusable(cfg, s, AuditEnds(cfg, s, h, Refused), h, t)
  {
    var v, u := Audit(cfg, s, id, StExecuting, Refused).1, AuditEnds(cfg, s, h, Refused);
    AuditFrame(cfg, s, id, StExecuting, Refused);
    if Audit(cfg, s, id, StExecuting, Refused).0 {
      assert u == Goto(Observe(v, Executed(id)), h, ExCall(id));
    } else {
      ExecutionReleases(cfg, v, h, id, Outcome(false, false));
      assert u == FinishExecution(cfg, v, h, id, Outcome(false, false));
    }
  }

  lemma UndoIntentFrees(cfg: Config, s: Sys, h: nat, id: nat, original: nat, t: nat)
    requires h in s.tasks && t in s.tasks && t != h && s.tasks[h] == UnIntent(id, original)
    ensures Refusable(cfg, s, AuditEnds(cfg, s, h, Refused), h, t)
  {
    var v, u := Audit(cfg, s, id, StUndoExecuting, Refused).1, AuditEnds(cfg, s, h, Refused);
    AuditFrame(cfg, s, id, StUndoExecuting, Refused);
    if Audit(cfg, s, id, StUndoExecuting, Refused).0 {
      assert u == Goto(Observe(v, Undone(id, original)), h, UnCall(id, original));
    } else {
      UndoReleases(cfg, v, h, id, Outcome(false, false));
      assert u == FinishUndo(cfg, v, h, id, Outcome(false, false));
    }
  }

  lemma IntentFrees(cfg: Config, s: Sys, h: nat, t: nat)
    requires h in s.tasks && t in s.tasks && t != h && (s.tasks[h].ExAudit? || s.tasks[h].UnIntent?)
    ensures Refusable(cfg, s, Exec(cfg, s, AuditReturns(h, Refused)), h, t)
  {
    var task := s.tasks[h];
    if task.ExAudit? {
      ExecutionIntentFrees(cfg, s, h, task.id, t);
    } else {
      UndoIntentFrees(cfg, s, h, task.id, task.original, t);
    }
  }

  lemma FromFullSlots(cfg: Config, s: Sys, h: nat, t: nat, id: nat)
    requires t in s.tasks && s.tasks[t] == ExSlot(id) && Entering(cfg, s) && 0 < s.slots <= cfg.maxConcurrent
    requires h in s.tasks && HoldsSlot(s.tasks[h])
    ensures CanExecute(cfg, s, id)
  {
    var task := s.tasks[h];
    var back := CallReturns(h, Outcome(false, false), false);
    if task.ExCall? || task.UnCall? {
      CallFrees(cfg, s, h, t);
      FromFreeSlot(cfg, Exec(cfg, s, back), t, id);
      Before(cfg, s, back, id);
    } else if task.ExSandbox? || task.UnSandbox? {
      SandboxFrees(cfg, s, h, t);
      FromFreeSlot(cfg, Exec(cfg, s, SandboxReturns(h, false, false)), t, id);
      Before(cfg, s, SandboxReturns(h, false, false), id);
    } else {
      var a := AuditReturns(h, Refused);
      var u := Exec(cfg, s, a);
      IntentFrees(cfg, s, h, t);
      if Freed(cfg, s, u, t) {
        FromFreeSlot(cfg, u, t, id);
      } else {
        CallFrees(cfg, u, h, t);
        FromFreeSlot(cfg, Exec(cfg, u, back), t, id);
        Before(cfg, u, back, id);
      }
      Before(cfg, s, a, id);
    }
  }

  lemma FromSlot(cfg: Config, s: Sys, t: nat, id: nat)
    requires t in s.tasks && s.tasks[t] == ExSlot(id) && Entering(cfg, s) && SlotsOk(cfg, s)
    ensures CanExecute(cfg, s, id)
  {
    if s.slots < cfg.maxConcurrent {
      FromFreeSlot(cfg, s, t, id);
    } else {
      assert Holders(s) != {};
      var h :| h in Holders(s);
      FromFullSlots(cfg, s, h, t, id);
    }
  }

  lemma StepKeepsSlots(cfg: Config, s: Sys, a: Step)
    requires TasksOk(cfg, s) && SlotsOk(cfg, s)
    ensures SlotsOk(cfg, Exec(cfg, s, a))
  {
    StepMoves(cfg, s, a, 0);
    SlotMoveKeeps(cfg, s, Exec(cfg, s, a), a.t);
  }

  lemma FromConfirm(cfg: Config, s: Sys, t: nat, id: nat)
    requires Inv(cfg, s) && SlotsOk(cfg, s) && Entering(cfg, s) && t in s.tasks && s.tasks[t] == CfAudit(id, true)
    ensures CanExecute(cfg, s, id)
  {
    var a := AuditReturns(t, Written);
    AuditFrame(cfg, s, id, StConfirmed, Written);
    var u := Exec(cfg, s, a);
    assert u == Goto(Audit(cfg, s, id, StConfirmed, Written).1, t, ExSlot(id));
    StepKeepsSlots(cfg, s, a);
    FromSlot(cfg, u, t, id);
    Before(cfg, s, a, id);
  }

  lemma FromConfirmed(cfg: Config, s: Sys, t: nat, id: nat)
    requires Inv(cfg, s) && SlotsOk(cfg, s) && Entering(cfg, s) && t in s.tasks && s.tasks[t] == CfPub(id, true)
    ensures CanExecute(cfg, s, id)
  {
    var a := PublishReturns(t, true);
    assert Exec(cfg, s, a) == Goto(s, t, CfAudit(id, true));
    StepKeeps(cfg, s, a);
    StepKeepsSlots(cfg, s, a);
    FromConfirm(cfg, Exec(cfg, s, a), t, id);
    Before(cfg, s, a, id);
  }

  lemma FromRequested(cfg: Config, s: Sys, t: nat, id: nat)
    requires Inv(cfg, s) && SlotsOk(cfg, s) && Entering(cfg, s) && t in s.tasks && s.tasks[t] == RqPub(id)
    requires id in s.kinds && !s.kinds[id].confirm
    ensures CanExecute(cfg, s, id)
  {
    var a := PublishReturns(t, true);
    assert Exec(cfg, s, a) == Goto(s, t, ExSlot(id));
    StepKeepsSlots(cfg, s, a);
    FromSlot(cfg, Exec(cfg, s, a), t, id);
    Before(cfg, s, a, id);
  }

  lemma FromRequest(cfg: Config, s: Sys, t: nat, id: nat)
    requires Inv(cfg, s) && SlotsOk(cfg, s) && Entering(cfg, s) && t in s.tasks && s.tasks[t] == RqAudit(id)
    requires id in s.kinds && !s.kinds[id].confirm
    ensures CanExecute(cfg, s, id)
  {
    var a := AuditReturns(t, Written);
    AuditFrame(cfg, s, id, StRequested, Written);
    assert Exec(cfg, s, a) == Goto(Audit(cfg, s, id, StRequested, Written).1, t, RqPub(id));
    StepKeeps(cfg, s, a);
    StepKeepsSlots(cfg, s, a);
    FromRequested(cfg, Exec(cfg, s, a), t, id);
    Before(cfg, s, a, id);
  }

  lemma GoesOnToSlot(cfg: Config, s: Sys, t: nat, id: nat)
    requires Inv(cfg, s) && SlotsOk(cfg, s) && CanGoOn(cfg, s, t, id) && !HoldsSlot(s.tasks[t])
    ensures CanExecute(cfg, s, id)
  {
    assert Entering(cfg, s);
    match s.tasks[t]
    case RqAudit(_) => FromRequest(cfg, s, t, id);
    case RqPub(_) => FromRequested(cfg, s, t, id);
    case CfPub(_, _) => FromConfirmed(cfg, s, t, id);
    case CfAudit(_, _) => FromConfirm(cfg, s, t, id);
    case ExSlot(_) => FromSlot(cfg, s, t, id);
    case _ =>
  }

  /** Whoever can go on reaches the execution in some continuation, whatever the other tasks hold. */
  lemma GoesOn(cfg: Config, s: Sys, t: nat, id: nat)
    requires Inv(cfg, s) && SlotsOk(cfg, s) && CanGoOn(cfg, s, t, id)
    ensures CanExecute(cfg, s, id)
  {
    if !HoldsSlot(s.tasks[t]) {
      GoesOnToSlot(cfg, s, t, id);
    } else if s.tasks[t].ExSandbox? {
      FromSandbox(cfg, s, t, id);
    } else {
      FromAudit(cfg, s, t, id);
    }
  }

  /** Whether some continuation of the run ends with the action executed. */
  ghost predicate Executable(cfg: Config, steps: seq<Step>, id: nat) {
    exists more :: Executed(id) in Run(cfg, steps + more).trace
  }

  /**
   An action that cannot be confirmed any more executes in some continuation exactly when it has executed,
   or somebody carries it whom no quarantine, missing store, missing provider or lack of slots stops.
   */
  lemma {:induction false} ExecutableIff(cfg: Config, steps: seq<Step>, id: nat)
    requires Settled(Run(cfg, steps), id)
    ensures Executable(cfg, steps, id) <==>
              Executed(id) in Run(cfg, steps).trace || Alive(cfg, Run(cfg, steps), id)
  {
    var s := Run(cfg, steps);
    RunKeeps(cfg, steps);
    SlotsAreCounted(cfg, steps);
    if Executed(id) in s.trace {
      assert steps + [] == steps;
    } else if Alive(cfg, s, id) {
      var t :| CanGoOn(cfg, s, t, id);
      GoesOn(cfg, s, t, id);
      var more :| Executed(id) in From(cfg, s, more).trace;
      RunFrom(cfg, steps, more);
    } else {
      forall more ensures Executed(id) !in Run(cfg, steps + more).trace { StoppedForGood(cfg, steps, more, id); }
    }
  }
}
