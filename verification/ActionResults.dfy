/** What every run of the action service guarantees about approval, execution, undo and waiting. */
module ActionResults {
  import opened Std
  import opened Actions
  import opened ActionSafety

  // ── What every run guarantees ───────────────────────────────────────

  /** Whatever the configuration, only read-only and reversible-low actions can skip the user. */
  lemma RiskDecides(cfg: Config, actionType: string)
    ensures var risk := Classify(actionType).risk;
            NeedsConfirmation(cfg, actionType) <==>
              (risk == ReversibleHigh || risk == Irreversible || !AutoAllowed(cfg, risk))
  {
  }

  lemma {:induction false} JustifiedAt(cfg: Config, kinds: map<nat, Kind>, trace: seq<Obs>, i: nat)
    requires Lawful(cfg, kinds, trace) && i < |trace|
    ensures Justified(cfg, kinds, trace[..i], trace[i])
  {
    var n := |trace| - 1;
    if i < n {
      JustifiedAt(cfg, kinds, trace[..n], i);
      assert trace[..n][..i] == trace[..i];
    }
  }

  /** In every run an action that was decided either way, or expired, was so exactly once. */
  lemma {:induction false} DecidedOnce(cfg: Config, steps: seq<Step>, i: nat, j: nat)
    requires var trace := Run(cfg, steps).trace;
             && i < |trace| && j < |trace| && trace[i].id == trace[j].id
             && (trace[i].Decided? || trace[i].Expired?) && (trace[j].Decided? || trace[j].Expired?)
    ensures i == j
  {
    var s := Run(cfg, steps);
    RunKeeps(cfg, steps);
    var a, b := Min(i, j), Max(i, j);
    JustifiedAt(cfg, s.kinds, s.trace, b);
    if a < b { assert false; }
  }

  lemma {:induction false} ExecutedOnce(cfg: Config, steps: seq<Step>, i: nat, j: nat)
    requires var trace := Run(cfg, steps).trace;
             i < |trace| && j < |trace| && trace[i].Executed? && trace[i] == trace[j]
    ensures i == j
  {
    var s := Run(cfg, steps);
    RunKeeps(cfg, steps);
    var a, b := Min(i, j), Max(i, j);
    JustifiedAt(cfg, s.kinds, s.trace, b);
    if a < b { assert false; }
  }

  /** The execution at position i was approved earlier, and the action is never denied and never expires. */
  ghost predicate ApprovedBefore(trace: seq<Obs>, i: nat)
    requires i < |trace|
  {
    var id := trace[i].id;
    && Decided(id, true) in trace[..i]
    && Decided(id, false) !in trace && Expired(id) !in trace
  }

  lemma {:induction false} ExecutedOnlyApproved(cfg: Config, steps: seq<Step>, i: nat)
    requires i < |Run(cfg, steps).trace| && Run(cfg, steps).trace[i].Executed?
    ensures var s := Run(cfg, steps);
            var id := s.trace[i].id;
            && id in s.kinds
            && (Classify(s.kinds[id].actionType).risk in {ReversibleHigh, Irreversible} ==> ApprovedBefore(s.trace, i))
  {
    var s := Run(cfg, steps);
    RunKeeps(cfg, steps);
    JustifiedAt(cfg, s.kinds, s.trace, i);
    var id := s.trace[i].id;
    RiskDecides(cfg, s.kinds[id].actionType);
    if s.kinds[id].confirm {
      var j :| 0 <= j < i && s.trace[..i][j] == Decided(id, true);
      forall k | 0 <= k < |s.trace| && (s.trace[k] == Decided(id, false) || s.trace[k] == Expired(id)) ensures false {
        DecidedOnce(cfg, steps, j, k);
      }
    }
  }

  /**
   With a durable audit required, the intent (and for a confirmed action, before it the confirmation) was stored
   first.
   */
  lemma {:induction false} ExecutionWasLogged(cfg: Config, steps: seq<Step>, i: nat)
    requires cfg.requireDurable
    requires i < |Run(cfg, steps).trace| && Run(cfg, steps).trace[i].Executed?
    ensures var s := Run(cfg, steps);
            var id := s.trace[i].id;
            exists j | 0 <= j < i :: s.trace[j] == Stored(id, StExecuting)
              && (id in s.kinds && s.kinds[id].confirm ==> Stored(id, StConfirmed) in s.trace[..j])
  {
    var s := Run(cfg, steps);
    RunKeeps(cfg, steps);
    JustifiedAt(cfg, s.kinds, s.trace, i);
    var j :| 0 <= j < i && s.trace[..i][j] == Stored(s.trace[i].id, StExecuting);
    JustifiedAt(cfg, s.kinds, s.trace, j);
    assert s.trace[j] == Stored(s.trace[i].id, StExecuting);
  }

  lemma {:induction false} UndoWasLogged(cfg: Config, steps: seq<Step>, i: nat)
    requires cfg.requireDurable
    requires i < |Run(cfg, steps).trace| && Run(cfg, steps).trace[i].Undone?
    ensures var s := Run(cfg, steps);
            var id := s.trace[i].id;
            exists j | 0 <= j < i :: s.trace[j] == Stored(id, StUndoExecuting)
              && Stored(id, StUndoRequested) in s.trace[..j]
  {
    var s := Run(cfg, steps);
    RunKeeps(cfg, steps);
    JustifiedAt(cfg, s.kinds, s.trace, i);
    var j :| 0 <= j < i && s.trace[..i][j] == Stored(s.trace[i].id, StUndoExecuting);
    JustifiedAt(cfg, s.kinds, s.trace, j);
    assert s.trace[j] == Stored(s.trace[i].id, StUndoExecuting);
  }

  lemma DecisionIsObserved(cfg: Config, s: Sys, t: nat)
    requires t in s.tasks && s.tasks[t].CfExpiring? && s.tasks[t].todo == {} && s.tasks[t].auditing.None?
    requires Decidable(s, s.tasks[t].id)
    ensures Exec(cfg, s, LockedBody(t)).trace == s.trace + [Decided(s.tasks[t].id, s.tasks[t].approve)]
  {
  }

  lemma DecisionIsFresh(cfg: Config, s: Sys, t: nat)
    requires Inv(cfg, s) && t in s.tasks && s.tasks[t].CfExpiring? && s.tasks[t].todo == {}
    requires Decidable(s, s.tasks[t].id)
    ensures s.records[s.tasks[t].id].createdAt >= s.tasks[t].now - cfg.ttl
  {
    assert TaskOk(cfg, s, t, s.tasks[t]);
  }

  /**
   A decision is taken only on an action that was not too old when the confirmation took the lock: whenever a
   confirmation has nothing left to expire, the action it is about to decide was created within the time to live.
   */
  lemma {:induction false} DecidedInTime(cfg: Config, steps: seq<Step>, t: nat)
    requires var s := Run(cfg, steps);
             && t in s.tasks && s.tasks[t].CfExpiring? && s.tasks[t].todo == {} && s.tasks[t].auditing.None?
             && Decidable(s, s.tasks[t].id)
    ensures var s := Run(cfg, steps);
            && Exec(cfg, s, LockedBody(t)).trace == s.trace + [Decided(s.tasks[t].id, s.tasks[t].approve)]
            && s.records[s.tasks[t].id].createdAt >= s.tasks[t].now - cfg.ttl
  {
    RunKeeps(cfg, steps);
    DecisionIsObserved(cfg, Run(cfg, steps), t);
    DecisionIsFresh(cfg, Run(cfg, steps), t);
  }

  // ── Waiting for a decision ──────────────────────────────────────────

  /** In every run the actions awaiting a decision stay within the cap. */
  lemma {:induction false} WaitingIsCapped(cfg: Config, steps: seq<Step>)
    ensures |WaitingSet(Run(cfg, steps))| <= cfg.maxPending
  {
    RunKeeps(cfg, steps);
  }

  lemma StepSettles(cfg: Config, s: Sys, a: Step, id: nat)
    requires Inv(cfg, s) && id in s.records && s.records[id].state != Waiting
    ensures id in Exec(cfg, s, a).records && Exec(cfg, s, a).records[id].state != Waiting
  {
    StepKeeps(cfg, s, a);
  }

  /** Once a record has stopped waiting, no continuation of the run makes it wait. */
  lemma {:induction false} NeverWaitsAgain(cfg: Config, steps: seq<Step>, more: seq<Step>, id: nat)
    requires id in Run(cfg, steps).records && Run(cfg, steps).records[id].state != Waiting
    ensures id in Run(cfg, steps + more).records && Run(cfg, steps + more).records[id].state != Waiting
  {
    if more == [] {
      assert steps + more == steps;
    } else {
      var n := |more| - 1;
      NeverWaitsAgain(cfg, steps, more[..n], id);
      var before := steps + more[..n];
      ConcatLast(steps, more);
      RunKeeps(cfg, before);
      StepSettles(cfg, Run(cfg, before), more[n], id);
    }
  }
}
