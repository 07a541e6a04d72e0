/**
 What a request that fails stops: the audit or the preview of a request runs without the confirmation lock,
 so that a failure can meet an action that waits, or one that was approved in the meantime.
 */
module ActionFailures {
  import opened Std
  import opened Actions
  import opened ActionSafety
  import opened ActionProgress

  // ── A request that fails after others could see it ──────────────────

  /** The step ends the request of `id` in failure: its audit is not durable, or its preview fails. */
  predicate FailsRequest(cfg: Config, s: Sys, a: Step, id: nat) {
    && a.t in s.tasks && id in s.kinds
    && match a
       case PreviewReturns(t, ok, _) => !ok && s.tasks[t] == RqPreview(id)
       case AuditReturns(t, reply) => s.tasks[t] == RqAudit(id) && !Audit(cfg, s, id, StRequested, reply).0
       case _ => false
  }

  lemma NewIsRecorded(cfg: Config, s: Sys, a: Step, id: nat)
    requires a.t !in s.tasks && id in Exec(cfg, s, a).kinds && id !in s.kinds
    ensures id in Exec(cfg, s, a).records
  {
  }

  lemma {:induction false} KnownIsRecorded(cfg: Config, steps: seq<Step>, id: nat)
    requires id in Run(cfg, steps).kinds
    ensures id in Run(cfg, steps).records
  {
    if steps != [] {
      var before, a := steps[..|steps| - 1], steps[|steps| - 1];
      var s := Run(cfg, before);
      RunKeeps(cfg, before);
      StepKeeps(cfg, s, a);
      StepMoves(cfg, s, a, id);
      if id in s.kinds { KnownIsRecorded(cfg, before, id); } else { NewIsRecorded(cfg, s, a, id); }
    }
  }

  lemma FailingSettles(cfg: Config, s: Sys, a: Step, id: nat)
    requires FailsRequest(cfg, s, a, id) && id in s.records
    ensures var u := Exec(cfg, s, a);
            Settled(u, id) && u.records[id].state == Failed && (Executed(id) in u.trace ==> Executed(id) in s.trace)
    ensures forall t | t in s.tasks && t != a.t :: t in Exec(cfg, s, a).tasks && Exec(cfg, s, a).tasks[t] == s.tasks[t]
    ensures var u := Exec(cfg, s, a); u.kinds == s.kinds && a.t in u.tasks && !Carries(u.kinds, u.tasks[a.t], id)
  {
    if a.AuditReturns? {
      AuditFrame(cfg, s, id, StRequested, a.reply);
      assert Exec(cfg, s, a) == AuditEnds(cfg, s, a.t, a.reply);
    } else {
      assert Exec(cfg, s, a) == PreviewEnds(cfg, s, a.t, a.ok, a.timedOut);
    }
  }

  /**
   A failed request closes the action as failed. Yet it executes in some continuation exactly when it has
   executed already, or another task, which can only be that of an approving confirmation, can still go on.
   */
  lemma {:induction false} FailedRequestStopsIff(cfg: Config, steps: seq<Step>, a: Step, id: nat)
    requires FailsRequest(cfg, Run(cfg, steps), a, id)
    ensures var u := Run(cfg, steps + [a]);
            && id in u.records && u.records[id].state == Failed
            && (Executable(cfg, steps + [a], id) <==>
                  Executed(id) in Run(cfg, steps).trace || exists t :: t != a.t && CanGoOn(cfg, u, t, id))
  {
    var s := Run(cfg, steps);
    assert (steps + [a])[..|steps|] == steps;
    KnownIsRecorded(cfg, steps, id);
    FailingSettles(cfg, s, a, id);
    ExecutableIff(cfg, steps + [a], id);
    assert Executed(id) in s.trace ==> Executed(id) in Exec(cfg, s, a).trace by {
      if a.AuditReturns? { AuditFrame(cfg, s, id, StRequested, a.reply); }
    }
  }

  /** A failed request stops every action that still waits for its decision: no continuation executes it. */
  lemma {:induction false} FailedRequestStopsWaiting(cfg: Config, steps: seq<Step>, a: Step, id: nat, more: seq<Step>)
    requires FailsRequest(cfg, Run(cfg, steps), a, id)
    requires id in Run(cfg, steps).records && Run(cfg, steps).records[id].state == Waiting
    ensures Executed(id) !in Run(cfg, steps + [a] + more).trace
  {
    var s := Run(cfg, steps);
    RunKeeps(cfg, steps);
    WaitingIsNotCarried(cfg, s, id);
    FailingSettles(cfg, s, a, id);
    assert (steps + [a])[..|steps|] == steps;
    FailedRequestStopsIff(cfg, steps, a, id);
    forall t ensures !(t != a.t && CanGoOn(cfg, Run(cfg, steps + [a]), t, id)) { }
  }

  /** Whoever executed, or is carried by another task, when its request fails, has been approved. */
  lemma CarriedWasApproved(cfg: Config, s: Sys, a: Step, t: nat, id: nat)
    requires Inv(cfg, s) && FailsRequest(cfg, s, a, id)
    requires Executed(id) in s.trace || (t != a.t && t in s.tasks && Carries(s.kinds, s.tasks[t], id))
    ensures Decided(id, true) in s.trace
  {
    var failing := s.tasks[a.t];
    assert TaskOk(cfg, s, a.t, failing);
    assert Carries(s.kinds, failing, id) <==> failing.RqAudit? && !s.kinds[id].confirm;
    if Executed(id) in s.trace {
      ExecutedWasDecided(cfg, s.kinds, s.trace, id);
    } else {
      assert TaskOk(cfg, s, t, s.tasks[t]);
    }
  }

  /** Once a request has failed, only who was approved before goes on. */
  lemma AliveWasApproved(cfg: Config, s: Sys, a: Step, id: nat)
    requires Inv(cfg, s) && FailsRequest(cfg, s, a, id) && id in s.records
    requires Executed(id) in s.trace || exists t :: t != a.t && CanGoOn(cfg, Exec(cfg, s, a), t, id)
    ensures Decided(id, true) in s.trace
  {
    FailingSettles(cfg, s, a, id);
    var t: nat :| Executed(id) in s.trace || (t != a.t && CanGoOn(cfg, Exec(cfg, s, a), t, id));
    CarriedWasApproved(cfg, s, a, t, id);
  }

  /** Conversely, what executes although its request failed had been approved before the request failed. */
  lemma {:induction false} ExecutedThoughFailedWasApproved(cfg: Config, steps: seq<Step>, a: Step, id: nat,
                                                           more: seq<Step>)
    requires FailsRequest(cfg, Run(cfg, steps), a, id)
    requires Executed(id) in Run(cfg, steps + [a] + more).trace
    ensures Decided(id, true) in Run(cfg, steps).trace
  {
    assert Executable(cfg, steps + [a], id);
    FailedRequestStopsIff(cfg, steps, a, id);
    assert (steps + [a])[..|steps|] == steps;
    KnownIsRecorded(cfg, steps, id);
    RunKeeps(cfg, steps);
    AliveWasApproved(cfg, Run(cfg, steps), a, id);
  }

  // ── A failed preview that stops nothing ─────────────────────────────

  /** A confirmation arrives while the preview of the action runs, and then the preview fails. */
  function ApprovedMeanwhile(id: nat, c: nat, now: int): seq<Step> {
    [NewConfirm(c, id, true), Acquire(c, now), LockedBody(c)]
  }

  lemma LockIsTaken(cfg: Config, s: Sys, id: nat, c: nat, now: int)
    requires c !in s.tasks && s.lock.None? && Stale(cfg, s, now) == {}
    ensures Exec(cfg, Exec(cfg, s, NewConfirm(c, id, true)), Acquire(c, now))
            == Goto(s, c, CfExpiring(id, true, {}, None, now)).(lock := Some(c))
  {
    var a := Goto(s, c, CfLock(id, true));
    assert Stale(cfg, a, now) == {};
    var b := TakeLock(cfg, a, c, now);
    assert b.tasks == s.tasks[c := CfExpiring(id, true, {}, None, now)];
  }

  lemma {:induction false} ApprovalIsClaimed(cfg: Config, steps: seq<Step>, t: nat, id: nat, c: nat, now: int)
    requires var s := Run(cfg, steps);
             && t in s.tasks && c !in s.tasks && s.lock.None? && Decidable(s, id) && Stale(cfg, s, now) == {}
    ensures var s, u := Run(cfg, steps), Run(cfg, steps + ApprovedMeanwhile(id, c, now));
            && u.tasks == s.tasks[c := CfPub(id, true)] && u.kinds == s.kinds
            && u.providerQuarantined == s.providerQuarantined && u.storeQuarantined == s.storeQuarantined
  {
    var s := Run(cfg, steps);
    LockIsTaken(cfg, s, id, c, now);
    ClaimIsTaken(cfg, s, id, c, now);
    RunFrom(cfg, steps, ApprovedMeanwhile(id, c, now));
    FromThree(cfg, s, NewConfirm(c, id, true), Acquire(c, now), LockedBody(c));
  }

  lemma ClaimIsTaken(cfg: Config, s: Sys, id: nat, c: nat, now: int)
    requires Decidable(s, id)
    ensures var b := Goto(s, c, CfExpiring(id, true, {}, None, now)).(lock := Some(c));
            var u := Exec(cfg, b, LockedBody(c));
            && u.tasks == s.tasks[c := CfPub(id, true)] && u.kinds == s.kinds
            && u.providerQuarantined == s.providerQuarantined && u.storeQuarantined == s.storeQuarantined
  {
    var b := Goto(s, c, CfExpiring(id, true, {}, None, now)).(lock := Some(c));
    assert Exec(cfg, b, LockedBody(c)) == Body(cfg, b, c);
    assert b.tasks[c := CfPub(id, true)] == s.tasks[c := CfPub(id, true)];
  }

  /**
   Whenever a confirmation is claimed while the preview of its action is still running, the preview's failure
   closes the action as failed, and it can still be executed.
   */
  lemma {:induction false} FailedPreviewDoesNotStopApproved(cfg: Config, steps: seq<Step>, t: nat, id: nat, c: nat,
                                                            now: int)
    requires var s := Run(cfg, steps);
             && t in s.tasks && s.tasks[t] == RqPreview(id) && id in s.kinds
             && c !in s.tasks && s.lock.None? && Decidable(s, id) && Stale(cfg, s, now) == {} && Entering(cfg, s)
    ensures var failed := steps + ApprovedMeanwhile(id, c, now) + [PreviewReturns(t, false, false)];
            && id in Run(cfg, failed).records && Run(cfg, failed).records[id].state == Failed
            && Executable(cfg, failed, id)
  {
    var approved, a := steps + ApprovedMeanwhile(id, c, now), PreviewReturns(t, false, false);
    ApprovalIsClaimed(cfg, steps, t, id, c, now);
    var v := Run(cfg, approved);
    FailedRequestStopsIff(cfg, approved, a, id);
    assert (approved + [a])[..|approved|] == approved;
    assert CanGoOn(cfg, PreviewEnds(cfg, v, t, false, false), c, id);
  }

  /** Action 7 in the given stage of its request by task 1, at time 0. */
  function Requested(kind: Kind, task: Task, pending: set<nat>, lock: Option<nat>, trace: seq<Obs>): Sys {
    Sys(map[7 := kind], map[7 := Record(Waiting, 0, None, None)], pending, [], map[1 := task], lock, 0, false, false,
        trace)
  }

  lemma RequestTakesLock(cfg: Config, actionType: string)
    requires NeedsConfirmation(cfg, actionType)
    ensures Exec(cfg, Exec(cfg, Initial, NewRequest(1, 7, actionType, false, 0)), Acquire(1, 0))
            == Requested(Kind(actionType, true, false), RqExpiring(7, {}, None, 0), {}, Some(1), [])
  {
    var kind := Kind(actionType, true, false);
    var a := Exec(cfg, Initial, NewRequest(1, 7, actionType, false, 0));
    assert a == Requested(kind, RqLock(7), {}, None, []);
    assert Stale(cfg, a, 0) == {};
    assert TakeLock(cfg, a, 1, 0).tasks == map[1 := RqExpiring(7, {}, None, 0)];
  }

  lemma RequestIsPending(cfg: Config, kind: Kind)
    requires cfg.maxPending > 0
    ensures Exec(cfg, Requested(kind, RqExpiring(7, {}, None, 0), {}, Some(1), []), LockedBody(1))
            == Requested(kind, RqAudit(7), {7}, None, [])
  {
    var b := Requested(kind, RqExpiring(7, {}, None, 0), {}, Some(1), []);
    assert WaitingSet(b) == {};
    var c := Body(cfg, b, 1);
    assert c.tasks == map[1 := RqAudit(7)] && c.pending == {7};
  }

  lemma RequestIsAudited(cfg: Config, kind: Kind)
    requires cfg.auditEnabled && cfg.hasStore && cfg.hasProvider && kind.confirm
    ensures Exec(cfg, Requested(kind, RqAudit(7), {7}, None, []), AuditReturns(1, Written))
            == Requested(kind, RqPreview(7), {7}, None, [Stored(7, StRequested)])
  {
    var c := Requested(kind, RqAudit(7), {7}, None, []);
    var d := AuditEnds(cfg, c, 1, Written);
    assert d.tasks == map[1 := RqPreview(7)] && d.trace == [Stored(7, StRequested)];
  }

  /** Such a state is reached by the first request of a service, for any action that needs confirmation. */
  lemma {:induction false} PreviewIsReached(cfg: Config, actionType: string)
    requires cfg.auditEnabled && cfg.hasStore && cfg.hasProvider && cfg.maxPending > 0 && cfg.ttl >= 0
    requires NeedsConfirmation(cfg, actionType)
    ensures var s := Run(cfg, [NewRequest(1, 7, actionType, false, 0), Acquire(1, 0), LockedBody(1)]
                         + [AuditReturns(1, Written)]);
            && s.tasks == map[1 := RqPreview(7)] && 7 in s.kinds && s.lock.None? && Decidable(s, 7)
                 && Stale(cfg, s, 0) == {}
            && (cfg.maxConcurrent > 0 ==> Entering(cfg, s))
  {
    var request := [NewRequest(1, 7, actionType, false, 0), Acquire(1, 0), LockedBody(1)];
    var kind := Kind(actionType, true, false);
    RequestTakesLock(cfg, actionType);
    RequestIsPending(cfg, kind);
    RequestIsAudited(cfg, kind);
    RunFrom(cfg, [], request);
    FromThree(cfg, Initial, NewRequest(1, 7, actionType, false, 0), Acquire(1, 0), LockedBody(1));
    assert [] + request == request;
    var all := request + [AuditReturns(1, Written)];
    assert all[..|all| - 1] == request;
  }
}
