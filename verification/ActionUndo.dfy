/** An undo is not claimed by anyone: an action that can be undone can be undone twice. */
module ActionUndo {
  import opened Actions
  import opened ActionProgress

  /** Task t has moved on; what others rely on is as it was, and nothing observed is lost. */
  ghost predicate Onward(s: Sys, u: Sys, t: nat, task: Task) {
    && u.kinds == s.kinds && u.tasks == s.tasks[t := task]
    && u.providerQuarantined == s.providerQuarantined && u.storeQuarantined == s.storeQuarantined
    && forall o | o in s.trace :: o in u.trace
  }

  /** The steps of an undo whose audits are stored, whose sandbox is verified and whose call succeeds. */
  function UndoSteps(t: nat): seq<Step> {
    [AuditReturns(t, Written), SlotGranted(t), SandboxReturns(t, true, false), AuditReturns(t, Written),
     CallReturns(t, Outcome(true, false), false)]
  }

  lemma RequestGoes(cfg: Config, s: Sys, t: nat, id: nat, original: nat)
    requires t in s.tasks && s.tasks[t] == UnAudit(id, original) && CanAudit(cfg, s)
    ensures var u := Exec(cfg, s, AuditReturns(t, Written)); Onward(s, u, t, UnSlot(id, original)) && u.slots == s.slots
  {
    AuditFrame(cfg, s, id, StUndoRequested, Written);
    assert Exec(cfg, s, AuditReturns(t, Written)) == AuditEnds(cfg, s, t, Written);
  }

  lemma SlotGoes(cfg: Config, s: Sys, t: nat, id: nat, original: nat)
    requires t in s.tasks && s.tasks[t] == UnSlot(id, original) && s.slots < cfg.maxConcurrent && cfg.sandbox
    ensures var u := Exec(cfg, s, SlotGranted(t)); Onward(s, u, t, UnSandbox(id, original)) && u.slots == s.slots + 1
  {
    OccupyAdds(s, id);
  }

  lemma IntentGoes(cfg: Config, s: Sys, t: nat, id: nat, original: nat)
    requires t in s.tasks && s.tasks[t] == UnIntent(id, original) && CanAudit(cfg, s)
    ensures var u := Exec(cfg, s, AuditReturns(t, Written));
            Onward(s, u, t, UnCall(id, original)) && u.slots == s.slots && Undone(id, original) in u.trace
  {
    AuditFrame(cfg, s, id, StUndoExecuting, Written);
    var u := AuditEnds(cfg, s, t, Written);
    assert u.trace[|u.trace| - 1] == Undone(id, original);
    var v := Audit(cfg, s, id, StUndoExecuting, Written).1;
    assert forall o | o in s.trace :: o in v.trace;
  }

  lemma CallGoes(cfg: Config, s: Sys, t: nat, id: nat, original: nat)
    requires t in s.tasks && s.tasks[t] == UnCall(id, original) && s.slots > 0
    ensures var u := Exec(cfg, s, CallReturns(t, Outcome(true, false), false));
            Onward(s, u, t, UnPub(id)) && u.slots == s.slots - 1
  {
    var v := s.(providerQuarantined := s.providerQuarantined || false);
    assert v == s;
    FinishReleases(cfg, v, t, id, Outcome(true, false));
  }

  lemma {:induction false} FromFive(cfg: Config, s: Sys, a: Step, b: Step, c: Step, d: Step, e: Step)
    ensures From(cfg, s, [a, b, c, d, e])
            == Exec(cfg, Exec(cfg, Exec(cfg, Exec(cfg, Exec(cfg, s, a), b), c), d), e)
  {
    assert [a, b, c, d, e][1..] == [b, c, d, e] && [b, c, d, e][1..] == [c, d, e];
    FromThree(cfg, Exec(cfg, Exec(cfg, s, a), b), c, d, e);
  }

  lemma OnwardTwice(s: Sys, mid: Sys, u: Sys, t: nat, task: Task, next: Task)
    requires Onward(s, mid, t, task) && Onward(mid, u, t, next)
    ensures Onward(s, u, t, next)
  {
  }

  /** From the request of an undo to its slot, verified. */
  lemma UndoEnters(cfg: Config, s: Sys, t: nat, id: nat, original: nat)
    requires t in s.tasks && s.tasks[t] == UnAudit(id, original) && CanAudit(cfg, s)
    requires s.slots < cfg.maxConcurrent && cfg.sandbox
    ensures var c := Exec(cfg, Exec(cfg, Exec(cfg, s, AuditReturns(t, Written)), SlotGranted(t)),
                          SandboxReturns(t, true, false));
            Onward(s, c, t, UnIntent(id, original)) && c.slots == s.slots + 1
  {
    var a := Exec(cfg, s, AuditReturns(t, Written));
    RequestGoes(cfg, s, t, id, original);
    var b := Exec(cfg, a, SlotGranted(t));
    SlotGoes(cfg, a, t, id, original);
    OnwardTwice(s, a, b, t, UnSlot(id, original), UnSandbox(id, original));
    var c := Exec(cfg, b, SandboxReturns(t, true, false));
    SandboxGoes(cfg, b, t, id, original);
    OnwardTwice(s, b, c, t, UnSandbox(id, original), UnIntent(id, original));
  }

  lemma SandboxGoes(cfg: Config, s: Sys, t: nat, id: nat, original: nat)
    requires t in s.tasks && s.tasks[t] == UnSandbox(id, original)
    ensures var u := Exec(cfg, s, SandboxReturns(t, true, false));
            Onward(s, u, t, UnIntent(id, original)) && u.slots == s.slots
  {
  }

  /** From its intent to its end. */
  lemma UndoRuns(cfg: Config, s: Sys, t: nat, id: nat, original: nat)
    requires t in s.tasks && s.tasks[t] == UnIntent(id, original) && CanAudit(cfg, s) && s.slots > 0
    ensures var u := Exec(cfg, Exec(cfg, s, AuditReturns(t, Written)), CallReturns(t, Outcome(true, false), false));
            Onward(s, u, t, UnPub(id)) && u.slots == s.slots - 1 && Undone(id, original) in u.trace
  {
    var d := Exec(cfg, s, AuditReturns(t, Written));
    IntentGoes(cfg, s, t, id, original);
    CallGoes(cfg, d, t, id, original);
    OnwardTwice(s, d, Exec(cfg, d, CallReturns(t, Outcome(true, false), false)), t, UnCall(id, original), UnPub(id));
  }

  lemma {:induction false} UndoGoes(cfg: Config, s: Sys, t: nat, id: nat, original: nat)
    requires t in s.tasks && s.tasks[t] == UnAudit(id, original) && CanAudit(cfg, s)
    requires s.slots < cfg.maxConcurrent && cfg.sandbox
    ensures var u := From(cfg, s, UndoSteps(t));
            Onward(s, u, t, UnPub(id)) && u.slots == s.slots && Undone(id, original) in u.trace
  {
    var c := Exec(cfg, Exec(cfg, Exec(cfg, s, AuditReturns(t, Written)), SlotGranted(t)),
                  SandboxReturns(t, true, false));
    UndoEnters(cfg, s, t, id, original);
    UndoRuns(cfg, c, t, id, original);
    FromFive(cfg, s, AuditReturns(t, Written), SlotGranted(t), SandboxReturns(t, true, false),
             AuditReturns(t, Written), CallReturns(t, Outcome(true, false), false));
    OnwardTwice(s, c, From(cfg, s, UndoSteps(t)), t, UnIntent(id, original), UnPub(id));
  }

  lemma UndoArrives(cfg: Config, s: Sys, t: nat, id: nat, original: nat, now: int)
    requires t !in s.tasks && id !in s.kinds && original in s.kinds && original != id && Undoable(cfg, s, original)
    requires cfg.hasProvider && cfg.undoEnabled && !s.providerQuarantined
    ensures var u := Exec(cfg, s, NewUndo(t, id, original, now));
            && u == Undo(s, t, id, original, now) && Undoable(cfg, u, original)
            && u.tasks == s.tasks[t := UnAudit(id, original)] && u.kinds.Keys == s.kinds.Keys + {id}
            && u.slots == s.slots && u.storeQuarantined == s.storeQuarantined && !u.providerQuarantined
  {
  }

  /** Two undos of one action, both asked for before either is done. */
  function TwoUndos(t: nat, t': nat, id: nat, id': nat, original: nat, now: int): seq<Step> {
    [NewUndo(t, id, original, now), NewUndo(t', id', original, now)] + UndoSteps(t) + UndoSteps(t')
  }

  lemma {:induction false} FromConcat(cfg: Config, s: Sys, a: seq<Step>, b: seq<Step>)
    ensures From(cfg, s, a + b) == From(cfg, From(cfg, s, a), b)
    decreases |a|
  {
    if a == [] {
      assert a + b == b;
    } else {
      assert (a + b)[1..] == a[1..] + b;
      FromConcat(cfg, Exec(cfg, s, a[0]), a[1..], b);
    }
  }

  /** After every run, an action that can be undone can have its effect undone twice by the provider. */
  lemma {:induction false} UndoneTwice(cfg: Config, steps: seq<Step>, t: nat, t': nat, id: nat, id': nat,
                                       original: nat, now: int)
    requires var s := Run(cfg, steps);
             && Undoable(cfg, s, original) && Entering(cfg, s) && s.slots < cfg.maxConcurrent
             && t !in s.tasks && t' !in s.tasks && id !in s.kinds && id' !in s.kinds
    requires t != t' && id != id' && cfg.undoEnabled && cfg.sandbox
    ensures var trace := Run(cfg, steps + TwoUndos(t, t', id, id', original, now)).trace;
            Undone(id, original) in trace && Undone(id', original) in trace
  {
    var s := Run(cfg, steps);
    var two := [NewUndo(t, id, original, now), NewUndo(t', id', original, now)];
    UndoArrives(cfg, s, t, id, original, now);
    var a := Exec(cfg, s, two[0]);
    UndoArrives(cfg, a, t', id', original, now);
    var b := Exec(cfg, a, two[1]);
    assert two[1..] == [two[1]] && [two[1]][1..] == [];
    assert From(cfg, s, two) == From(cfg, b, []);
    UndoGoes(cfg, b, t, id, original);
    var c := From(cfg, b, UndoSteps(t));
    UndoGoes(cfg, c, t', id', original);
    FromConcat(cfg, s, two, UndoSteps(t));
    FromConcat(cfg, s, two + UndoSteps(t), UndoSteps(t'));
    RunFrom(cfg, steps, TwoUndos(t, t', id, id', original, now));
  }
}
