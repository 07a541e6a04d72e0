/** What every run of the pipeline guarantees about terminal events, history and spoken text. */
module VoiceTurnResults {
  import opened Std
  import T = Turns
  import opened Playback
  import opened VoiceTurn
  import opened VoiceTurnSafety

  // ── Main results ────────────────────────────────────────────────────

  /** The terminal events of one turn in the ledger. */
  function TerminalsOf(ledger: seq<Event>, id: nat): seq<Event> {
    Filter(ledger, (e: Event) => e.turn == id && IsTerminal(e))
  }

  function EntriesOf(history: seq<Entry>, id: nat): seq<Entry> {
    Filter(history, (e: Entry) => e.turn == id)
  }

  function AsEvents(v: Verdict, id: nat): seq<Event> {
    match v
    case Failed => [FailedEv(id)]
    case Done(user, text, interrupted) => [CompletedEv(id, user, text, interrupted)]
    case _ => []
  }

  lemma {:induction false} VerdictMeaning(ledger: seq<Event>, id: nat)
    ensures if VerdictOf(ledger, id) == Repeated then |TerminalsOf(ledger, id)| > 1
            else TerminalsOf(ledger, id) == AsEvents(VerdictOf(ledger, id), id)
  {
    if ledger != [] { VerdictMeaning(ledger[..|ledger| - 1], id); }
  }

  lemma {:induction false} NoteMeaning(history: seq<Entry>, id: nat)
    ensures match NoteOf(history, id)
            case Absent => EntriesOf(history, id) == []
            case Noted(user, text) => EntriesOf(history, id) == [Entry(id, user, text)]
            case Doubled => |EntriesOf(history, id)| > 1
  {
    if history != [] { NoteMeaning(history[..|history| - 1], id); }
  }

  predicate Finished(x: Turn) { x.r == RDone && (x.f == FNone || x.f == FDone) }

  /** What the invariant of a turn says about its terminal event and its history entry. */
  lemma TurnOkMeans(cfg: Config, x: Turn, started: bool, v: Verdict, n: Note)
    requires TurnOk(cfg, x, started, v, n)
    ensures v != Repeated && n != Doubled
    ensures Finished(x) && started ==> (v != Open <==> !x.refused)
    ensures n.Noted? ==> v.Done? && n == Noted(v.user, v.text)
    ensures Finished(x) && cfg.hasRuntime && v.Done? ==> n.Noted?
  {
  }

  lemma {:induction false} TurnFacts(cfg: Config, actions: seq<Action>, id: nat)
    ensures var s := Run(cfg, actions);
            var v, n := VerdictOf(s.ledger, id), NoteOf(s.history, id);
            if id in s.turns then TurnOk(cfg, s.turns[id], HasStart(s.ledger, id), v, n) else v == Open && n == Absent
  {
    RunOk(cfg, actions);
    var s := Run(cfg, actions);
    if id !in s.turns { SilentTurn(s.ledger, s.history, id); }
  }

  /**
   In every interleaving a turn gets at most one persisted terminal event. Once both of its tasks
   are done and its start was persisted, it has exactly one if and only if the ledger did not
   refuse the failed event that was its last resort.
   */
  lemma {:induction false} OneTerminal(cfg: Config, actions: seq<Action>, id: nat)
    ensures |TerminalsOf(Run(cfg, actions).ledger, id)| <= 1
    ensures var s := Run(cfg, actions);
            id in s.turns && Finished(s.turns[id]) && HasStart(s.ledger, id) ==>
              (|TerminalsOf(s.ledger, id)| == 1 <==> !s.turns[id].refused)
  {
    var s := Run(cfg, actions);
    TurnFacts(cfg, actions, id);
    VerdictMeaning(s.ledger, id);
    if id in s.turns {
      TurnOkMeans(cfg, s.turns[id], HasStart(s.ledger, id), VerdictOf(s.ledger, id), NoteOf(s.history, id));
    }
  }

  /** History entries and terminal events of one turn say the same. */
  predicate Agree(id: nat, entries: seq<Entry>, terminals: seq<Event>) {
    entries == [] ||
    (|terminals| == 1 && terminals[0].CompletedEv? && entries == [Entry(id, terminals[0].user, terminals[0].text)])
  }

  /**
   The history agrees with the ledger: a turn has at most one entry; an entry repeats, with the
   same user and companion text, the turn's one completed event; a failed turn has none; and once
   the turn's tasks are done a completed event has its entry, when a runtime keeps history.
   */
  lemma {:induction false} HistoryAgrees(cfg: Config, actions: seq<Action>, id: nat)
    ensures Agree(id, EntriesOf(Run(cfg, actions).history, id), TerminalsOf(Run(cfg, actions).ledger, id))
    ensures var s := Run(cfg, actions);
            id in s.turns && Finished(s.turns[id]) && cfg.hasRuntime ==>
              (EntriesOf(s.history, id) != [] <==>
                 TerminalsOf(s.ledger, id) != [] && TerminalsOf(s.ledger, id)[0].CompletedEv?)
  {
    var s := Run(cfg, actions);
    TurnFacts(cfg, actions, id);
    VerdictMeaning(s.ledger, id);
    NoteMeaning(s.history, id);
    if id in s.turns {
      TurnOkMeans(cfg, s.turns[id], HasStart(s.ledger, id), VerdictOf(s.ledger, id), NoteOf(s.history, id));
    }
  }

  /** At most one turn is active at any time, and it is the current one. */
  lemma {:induction false} OneActiveTurn(cfg: Config, actions: seq<Action>, a: nat, b: nat)
    requires var s := Run(cfg, actions);
             a in s.turns && b in s.turns && T.IsActive(s.turns[a].state) && T.IsActive(s.turns[b].state)
    ensures a == b && Run(cfg, actions).current == Some(a)
  {
    RunOk(cfg, actions);
  }

  lemma ReturnLeavesInterrupted(cfg: Config, x: Turn)
    requires x.state == T.Interrupted
    ensures ReturnR(cfg, x).state != T.Completed
  {
    if EventR(0, x).Some? && PubR(x) == Pub(Accepted, false) {
      match x.r {
        case RStart(_) =>
        case RAsrPub(_) =>
        case RReplyPub(_, _, _) =>
        case _ =>
      }
    }
  }

  /**
   Only the finisher, and only when it wakes, completes an interrupted turn; the response task
   never does.
   */
  lemma OnlyFinisherCompletesInterrupted(cfg: Config, id: nat, x: Turn, m: Move)
    requires x.state == T.Interrupted
    requires LocalStep(cfg, id, x, m).turn.state == T.Completed
    ensures m == Awake && x.f == FYield
  {
    ReturnLeavesInterrupted(cfg, x);
    NoOtherCompletes(cfg, id, x, m);
  }

  /**
   When the finisher wakes, its turn is always still interrupted: the branch that reports an invalid terminal state
   is dead.
   */
  lemma {:induction false} WakesInterrupted(cfg: Config, actions: seq<Action>, id: nat)
    requires id in Run(cfg, actions).turns && Run(cfg, actions).turns[id].f == FYield
    ensures Run(cfg, actions).turns[id].state == T.Interrupted
    ensures T.CanTransition(Run(cfg, actions).turns[id].state, T.Completed)
  {
    RunOk(cfg, actions);
  }

  // ── Spoken text: what was heard when the turn was completed ─────────

  /** The text a completed turn stands for, wherever its completion has got to. */
  function ClaimedText(x: Turn, v: Verdict): string {
    if x.r.RCompletePub? || x.r.RCommit? then x.r.text
    else if x.f.FCompletePub? then x.f.text
    else if v.Done? then v.text
    else ""
  }

  predicate Spoken(x: Turn) { x.speak || x.f != FNone }

  /** At the k-th action the turn became completed, and `text` was then exactly what had been heard. */
  ghost predicate HeardAt(cfg: Config, actions: seq<Action>, k: nat, id: nat, text: string)
    requires k < |actions|
  {
    var before, after := Run(cfg, actions[..k]), Run(cfg, actions[..k + 1]);
    && id in before.turns && before.turns[id].state != T.Completed
    && id in after.turns && after.turns[id].state == T.Completed
    && text == PlayedText(before.turns[id].audio) && AnyPlayed(before.turns[id].audio)
  }

  ghost predicate HeardInRun(cfg: Config, actions: seq<Action>, id: nat, text: string) {
    exists k: nat :: k < |actions| && HeardAt(cfg, actions, k, id, text)
  }

  lemma HeardExtends(cfg: Config, actions: seq<Action>, a: Action, id: nat, text: string)
    requires HeardInRun(cfg, actions, id, text)
    ensures HeardInRun(cfg, actions + [a], id, text)
  {
    var k: nat :| k < |actions| && HeardAt(cfg, actions, k, id, text);
    assert (actions + [a])[..k] == actions[..k];
    assert (actions + [a])[..k + 1] == actions[..k + 1];
    assert HeardAt(cfg, actions + [a], k, id, text);
  }

  lemma NoCompletionElsewhere(cfg: Config, x: Turn)
    requires x.state != T.Completed && !x.r.RReplyPub?
    ensures ContinueR(cfg, x).state != T.Completed
  {
    match x.r {
      case RStart(_) =>
      case RAsrPub(_) =>
      case RSynthPub(_, _, _) =>
      case _ =>
    }
  }

  lemma ReplyClaimsHeard(cfg: Config, x: Turn)
    requires x.state != T.Completed && x.r.RReplyPub? && x.speak && ContinueR(cfg, x).state == T.Completed
    ensures ContinueR(cfg, x) == Complete(x, PlayedText(x.audio)) && PlayedText(x.audio) != ""
  {
    if x.r.streaming { assert x.r == RReplyPub(x.r.pub, x.r.reply, true); }
  }

  lemma RejectedNeverCompletes(cfg: Config, x: Turn)
    requires x.state != T.Completed && EventR(0, x).Some? && PubR(x).decision == Rejected
    ensures ReturnR(cfg, x).state != T.Completed
  {
  }

  lemma DrainedNeverCompletes(cfg: Config, x: Turn)
    requires x.state != T.Completed && EventR(0, x).Some? && PubR(x).decision == Accepted && PubR(x).drain
    ensures ReturnR(cfg, x).state != T.Completed
  {
  }

  lemma OnlyPlainReturnCompletes(cfg: Config, x: Turn)
    requires x.state != T.Completed && ReturnR(cfg, x).state == T.Completed
    ensures ReturnR(cfg, x) == ContinueR(cfg, x)
  {
    if EventR(0, x).Some? && PubR(x).decision != Undecided {
      if PubR(x).decision == Rejected {
        RejectedNeverCompletes(cfg, x);
      } else if PubR(x).drain {
        DrainedNeverCompletes(cfg, x);
      }
    }
  }

  lemma ReturnClaimsHeard(cfg: Config, x: Turn)
    requires x.state != T.Completed && ReturnR(cfg, x).state == T.Completed && x.speak
    ensures ReturnR(cfg, x) == Complete(x, PlayedText(x.audio)) && PlayedText(x.audio) != ""
  {
    OnlyPlainReturnCompletes(cfg, x);
    if !x.r.RReplyPub? { NoCompletionElsewhere(cfg, x); }
    ReplyClaimsHeard(cfg, x);
  }

  /** A move that completes a spoken turn claims exactly the heard text, and that is not empty. */
  lemma CompletionClaimsHeard(cfg: Config, id: nat, x: Turn, m: Move, started: bool, v: Verdict, n: Note)
    requires TurnOk(cfg, x, started, v, n)
    requires var out := LocalStep(cfg, id, x, m);
             x.state != T.Completed && out.turn.state == T.Completed && Spoken(out.turn)
    ensures ClaimedText(LocalStep(cfg, id, x, m).turn, v) == PlayedText(x.audio) != ""
    ensures LocalStep(cfg, id, x, m).event == None
  {
    NoOtherCompletes(cfg, id, x, m);
    if m.ResumeR? {
      OnlyPlainReturnCompletes(cfg, x);
      if !x.r.RReplyPub? { NoCompletionElsewhere(cfg, x); }
      ReturnClaimsHeardActive(cfg, x, started, v, n);
    } else {
      AwakeClaimsHeard(x, v);
    }
  }

  lemma AwakeClaimsHeard(x: Turn, v: Verdict)
    requires x.state != T.Completed && x.f.FYield? && Awakened(x).state == T.Completed
    requires !x.r.RCompletePub? && !x.r.RCommit?
    ensures ClaimedText(Awakened(x), v) == PlayedText(x.audio) != ""
  {
  }

  /** A reply completes only an active turn, whose speech mode it leaves alone. */
  lemma ReplyIsActive(cfg: Config, x: Turn)
    requires x.state != T.Completed && x.r.RReplyPub? && ContinueR(cfg, x).state == T.Completed
    ensures T.IsActive(x.state)
    ensures var y := ContinueR(cfg, x); y.speak == x.speak && y.f == x.f
  {
    if x.r.streaming {
      assert x.r == RReplyPub(x.r.pub, x.r.reply, true);
    } else {
      assert x.r == RReplyPub(x.r.pub, x.r.reply, false);
    }
  }

  lemma ActiveHasNoFinisher(cfg: Config, x: Turn, started: bool, v: Verdict, n: Note)
    requires TurnOk(cfg, x, started, v, n) && T.IsActive(x.state)
    ensures x.f == FNone
  {
  }

  lemma ReturnClaimsHeardActive(cfg: Config, x: Turn, started: bool, v: Verdict, n: Note)
    requires TurnOk(cfg, x, started, v, n) && x.r.RReplyPub?
    requires x.state != T.Completed && ReturnR(cfg, x).state == T.Completed && Spoken(ReturnR(cfg, x))
    ensures ClaimedText(ReturnR(cfg, x), v) == PlayedText(x.audio) != ""
  {
    OnlyPlainReturnCompletes(cfg, x);
    ReplyIsActive(cfg, x);
    ActiveHasNoFinisher(cfg, x, started, v, n);
    ReturnClaimsHeard(cfg, x);
  }

  predicate SameClaim(x: Turn, v: Verdict, y: Turn, w: Verdict) {
    y.state == T.Completed ==> ClaimedText(y, w) == ClaimedText(x, v) && Spoken(y) == Spoken(x)
  }

  lemma LedgerKeepsClaim(cfg: Config, id: nat, x: Turn, accept: bool, started: bool, v: Verdict, n: Note)
    requires TurnOk(cfg, x, started, v, n) && x.state == T.Completed
    ensures var out := DecideR(id, x, accept); SameClaim(x, v, out.turn, JudgeMaybe(v, out.event))
  {
  }

  lemma NoticeKeepsClaim(cfg: Config, id: nat, x: Turn, accept: bool, started: bool, v: Verdict, n: Note)
    requires TurnOk(cfg, x, started, v, n) && x.state == T.Completed
    ensures var out := DecideF(id, x, accept); SameClaim(x, v, out.turn, JudgeMaybe(v, out.event))
  {
  }

  lemma RejectKeepsClaim(cfg: Config, x: Turn, started: bool, v: Verdict, n: Note)
    requires TurnOk(cfg, x, started, v, n) && x.state == T.Completed
    requires EventR(0, x).Some? && PubR(x).decision == Rejected
    ensures SameClaim(x, v, ReturnR(cfg, x), v)
  {
  }

  lemma DrainKeepsClaim(cfg: Config, x: Turn, started: bool, v: Verdict, n: Note)
    requires TurnOk(cfg, x, started, v, n) && x.state == T.Completed
    requires EventR(0, x).Some? && PubR(x) == Pub(Accepted, true)
    ensures SameClaim(x, v, ReturnR(cfg, x), v)
  {
  }

  lemma ContinueKeepsClaim(cfg: Config, x: Turn, started: bool, v: Verdict, n: Note)
    requires TurnOk(cfg, x, started, v, n) && x.state == T.Completed
    requires EventR(0, x).Some? && PubR(x) == Pub(Accepted, false)
    ensures SameClaim(x, v, ContinueR(cfg, x), v)
  {
  }

  lemma ReturnKeepsClaim(cfg: Config, id: nat, x: Turn, started: bool, v: Verdict, n: Note)
    requires TurnOk(cfg, x, started, v, n) && x.state == T.Completed
    ensures SameClaim(x, v, ReturnR(cfg, x), v)
  {
    if EventR(0, x).Some? && PubR(x).decision != Undecided {
      if PubR(x).decision == Rejected {
        RejectKeepsClaim(cfg, x, started, v, n);
      } else if PubR(x).drain {
        DrainKeepsClaim(cfg, x, started, v, n);
      } else {
        ContinueKeepsClaim(cfg, x, started, v, n);
      }
    }
  }

  lemma FinisherKeepsClaim(cfg: Config, id: nat, x: Turn, started: bool, v: Verdict, n: Note)
    requires TurnOk(cfg, x, started, v, n) && x.state == T.Completed
    ensures SameClaim(x, v, ReturnF(cfg, id, x).turn, v)
  {
  }

  lemma CancelKeepsClaim(cfg: Config, x: Turn, started: bool, v: Verdict, n: Note)
    requires TurnOk(cfg, x, started, v, n) && x.state == T.Completed
    ensures SameClaim(x, v, CancelledR(x), v)
  {
  }

  lemma ReplyKeepsClaim(cfg: Config, x: Turn, m: Move, started: bool, v: Verdict, n: Note)
    requires TurnOk(cfg, x, started, v, n) && x.state == T.Completed
    ensures SameClaim(x, v, ReplyMove(cfg, x, m), v)
  {
  }

  lemma SpeechKeepsClaim(cfg: Config, x: Turn, m: Move, started: bool, v: Verdict, n: Note)
    requires TurnOk(cfg, x, started, v, n) && x.state == T.Completed
    ensures SameClaim(x, v, SpeechMove(x, m), v)
  {
  }

  lemma WorkKeepsClaim(cfg: Config, x: Turn, m: Move, started: bool, v: Verdict, n: Note)
    requires TurnOk(cfg, x, started, v, n) && x.state == T.Completed
    ensures SameClaim(x, v, SpeechMove(ReplyMove(cfg, x, m), m), v)
  {
    var y := ReplyMove(cfg, x, m);
    ReplyKeepsClaim(cfg, x, m, started, v, n);
    ReplyKeeps(cfg, x, m, started, v, n);
    WorkDoesNotComplete(cfg, y, m);
    if y.state == T.Completed { SpeechKeepsClaim(cfg, y, m, started, v, n); }
  }

  lemma CommitKeepsClaim(cfg: Config, id: nat, x: Turn, m: Move, started: bool, v: Verdict, n: Note)
    requires TurnOk(cfg, x, started, v, n) && x.state == T.Completed
    requires m.CommitRuns? || m.CommitReturns? || m.Interrupt? || m.ProvidersStopped? || m.Awake?
    ensures SameClaim(x, v, LocalStep(cfg, id, x, m).turn, v) && LocalStep(cfg, id, x, m).event == None
  {
  }

  /** A completed turn keeps its claimed text while it stays completed. */
  lemma ClaimIsStable(cfg: Config, id: nat, x: Turn, m: Move, started: bool, v: Verdict, n: Note)
    requires TurnOk(cfg, x, started, v, n) && x.state == T.Completed
    ensures var out := LocalStep(cfg, id, x, m); SameClaim(x, v, out.turn, JudgeMaybe(v, out.event))
  {
    if m.LedgerR? || m.LedgerF? {
      LedgerKeepsClaim(cfg, id, x, m.accept, started, v, n);
      NoticeKeepsClaim(cfg, id, x, m.accept, started, v, n);
    } else if m.ResumeR? {
      ReturnKeepsClaim(cfg, id, x, started, v, n);
    } else if m.ResumeF? || m.CancelR? {
      FinisherKeepsClaim(cfg, id, x, started, v, n);
      CancelKeepsClaim(cfg, x, started, v, n);
    } else if m.CommitRuns? || m.CommitReturns? || m.Interrupt? || m.ProvidersStopped? || m.Awake? {
      CommitKeepsClaim(cfg, id, x, m, started, v, n);
    } else {
      WorkKeepsClaim(cfg, x, m, started, v, n);
    }
  }

  ghost predicate ClaimsHeard(cfg: Config, actions: seq<Action>) {
    var s := Run(cfg, actions);
    forall id | id in s.turns && s.turns[id].state == T.Completed && Spoken(s.turns[id]) ::
      HeardInRun(cfg, actions, id, ClaimedText(s.turns[id], VerdictOf(s.ledger, id)))
  }

  /** A step of a completed turn keeps its claim. */
  lemma {:induction false} ClaimKept(cfg: Config, s: Sys, id: nat, m: Move)
    requires SysOk(cfg, s) && Enabled(s, Step(id, m)) && s.turns[id].state == T.Completed
    ensures var t := Exec(cfg, s, Step(id, m));
            id in t.turns && SameClaim(s.turns[id], VerdictOf(s.ledger, id), t.turns[id], VerdictOf(t.ledger, id))
  {
    var x, v, n := s.turns[id], VerdictOf(s.ledger, id), NoteOf(s.history, id);
    var out := LocalStep(cfg, id, x, m);
    MoveFrame(cfg, id, x, m);
    if out.event.Some? { LedgerGrows(s.ledger, out.event.value, id); }
    ClaimIsStable(cfg, id, x, m, HasStart(s.ledger, id), v, n);
  }

  /** A step that completes a spoken turn claims what was heard. */
  lemma {:induction false} ClaimMade(cfg: Config, s: Sys, id: nat, m: Move)
    requires SysOk(cfg, s) && Enabled(s, Step(id, m)) && s.turns[id].state != T.Completed
    requires var out := LocalStep(cfg, id, s.turns[id], m).turn; out.state == T.Completed && Spoken(out)
    ensures var t := Exec(cfg, s, Step(id, m));
            && id in t.turns && t.turns[id] == LocalStep(cfg, id, s.turns[id], m).turn
            && ClaimedText(t.turns[id], VerdictOf(t.ledger, id)) == PlayedText(s.turns[id].audio)
    ensures AnyPlayed(s.turns[id].audio)
  {
    var x, v, n := s.turns[id], VerdictOf(s.ledger, id), NoteOf(s.history, id);
    CompletionClaimsHeard(cfg, id, x, m, HasStart(s.ledger, id), v, n);
    TextNeedsPlayback(x.audio);
  }

  lemma {:induction false} ClaimStep(cfg: Config, actions: seq<Action>, a: Action, id: nat)
    requires ClaimsHeard(cfg, actions)
    requires var t := Run(cfg, actions + [a]);
             id in t.turns && t.turns[id].state == T.Completed && Spoken(t.turns[id])
    ensures var t := Run(cfg, actions + [a]);
            HeardInRun(cfg, actions + [a], id, ClaimedText(t.turns[id], VerdictOf(t.ledger, id)))
  {
    var all := actions + [a];
    assert all[..|actions|] == actions;
    var s := Run(cfg, actions);
    assert Run(cfg, all) == Exec(cfg, s, a);
    RunOk(cfg, actions);
    var text := ClaimedText(Exec(cfg, s, a).turns[id], VerdictOf(Exec(cfg, s, a).ledger, id));
    if Enabled(s, a) && a.Step? && a.id == id {
      if s.turns[id].state == T.Completed {
        ClaimKept(cfg, s, id, a.move);
        HeardExtends(cfg, actions, a, id, text);
      } else {
        ClaimMade(cfg, s, id, a.move);
        assert all[..|actions| + 1] == all;
        assert HeardAt(cfg, all, |actions|, id, text);
      }
    } else {
      ClaimElsewhere(cfg, s, a, id);
      HeardExtends(cfg, actions, a, id, text);
    }
  }

  lemma {:induction false} ClaimElsewhere(cfg: Config, s: Sys, a: Action, id: nat)
    requires SysOk(cfg, s) && !(Enabled(s, a) && a.Step? && a.id == id)
    requires id in Exec(cfg, s, a).turns && Exec(cfg, s, a).turns[id].state == T.Completed
    ensures id in s.turns && s.turns[id] == Exec(cfg, s, a).turns[id]
    ensures VerdictOf(Exec(cfg, s, a).ledger, id) == VerdictOf(s.ledger, id)
  {
    if Enabled(s, a) && a.Step? {
      var out := LocalStep(cfg, a.id, s.turns[a.id], a.move);
      MoveFrame(cfg, a.id, s.turns[a.id], a.move);
      if out.event.Some? { LedgerGrows(s.ledger, out.event.value, id); }
    }
  }

  lemma {:induction false} ClaimsStep(cfg: Config, actions: seq<Action>, a: Action)
    requires ClaimsHeard(cfg, actions)
    ensures ClaimsHeard(cfg, actions + [a])
  {
    var t := Run(cfg, actions + [a]);
    forall id | id in t.turns && t.turns[id].state == T.Completed && Spoken(t.turns[id])
      ensures HeardInRun(cfg, actions + [a], id, ClaimedText(t.turns[id], VerdictOf(t.ledger, id)))
    {
      ClaimStep(cfg, actions, a, id);
    }
  }

  lemma {:induction false} ClaimsHeardInRun(cfg: Config, actions: seq<Action>)
    ensures ClaimsHeard(cfg, actions)
  {
    if actions != [] {
      var init, a := actions[..|actions| - 1], actions[|actions| - 1];
      ClaimsHeardInRun(cfg, init);
      ClaimsStep(cfg, init, a);
      assert init + [a] == actions;
    }
  }

  /**
   The text in every history entry of a spoken or interrupted turn is exactly what playback had
   confirmed when the turn became completed, and some audio had been confirmed by then.
   */
  lemma {:induction false} HistoryIsWhatWasHeard(cfg: Config, actions: seq<Action>, e: Entry)
    requires e in Run(cfg, actions).history
    ensures e.turn in Run(cfg, actions).turns
    ensures Spoken(Run(cfg, actions).turns[e.turn]) ==> HeardInRun(cfg, actions, e.turn, e.text)
  {
    var s := Run(cfg, actions);
    RunOk(cfg, actions);
    ClaimsHeardInRun(cfg, actions);
    FilterHas(s.history, (d: Entry) => d.turn == e.turn, e);
    NoteMeaning(s.history, e.turn);
    EntryIsClaim(cfg, s.turns[e.turn], HasStart(s.ledger, e.turn), VerdictOf(s.ledger, e.turn),
                 NoteOf(s.history, e.turn));
  }

  lemma {:induction false} FilterHas(history: seq<Entry>, p: Entry -> bool, e: Entry)
    requires e in history && p(e)
    ensures e in Filter(history, p)
  {
    if history[|history| - 1] != e {
      assert history == history[..|history| - 1] + [history[|history| - 1]];
      FilterHas(history[..|history| - 1], p, e);
    }
  }

  lemma EntryIsClaim(cfg: Config, x: Turn, started: bool, v: Verdict, n: Note)
    requires TurnOk(cfg, x, started, v, n) && n.Noted?
    ensures x.state == T.Completed && ClaimedText(x, v) == n.text
  {
  }
}
