/** The invariant of one turn and of the whole pipeline, kept by every move of every task. */
module VoiceTurnSafety {
  import opened Std
  import T = Turns
  import opened Playback
  import opened VoiceTurn

  // ── The invariant of one turn ───────────────────────────────────────

  predicate Working(r: Response) {
    !r.RCompletePub? && !r.RCommit? && !r.RFailPub? && !r.RCancelPub? && !r.RDone?
  }

  /** Where an active turn's response task may be, by lifecycle state. */
  predicate Placed(s: T.TurnState, r: Response) {
    match r
    case RStart(_) => s == T.Started
    case RAsr => s == T.AsrProcessing
    case RAsrPub(_) => s == T.AsrProcessing
    case RGenerate => s == T.LlmThinking
    case RPrepare => s == T.LlmThinking
    case RReplyPub(_, _, streaming) => s == T.TtsSynthesizing || (streaming && s == T.Playing)
    case _ => s == T.TtsSynthesizing || s == T.Playing
  }

  predicate Notifying(f: Finisher) { f.FStopping? || f.FNoticePub? || f.FYield? }

  /** What the ledger says about a turn, and what the history says about it. */
  datatype Verdict = Open | Failed | Done(user: string, text: string, interrupted: bool) | Repeated
  datatype Note = Absent | Noted(user: string, text: string) | Doubled

  predicate IsTerminal(e: Event) { e.CompletedEv? || e.FailedEv? }

  function Judge(v: Verdict, e: Event): Verdict {
    if !IsTerminal(e) then v
    else if v != Open then Repeated
    else if e.FailedEv? then Failed else Done(e.user, e.text, e.interrupted)
  }

  function Write(n: Note, e: Entry): Note {
    if n == Absent then Noted(e.user, e.text) else Doubled
  }

  function DoneIf(accepted: bool, x: Turn, text: string, interrupted: bool): Verdict {
    if accepted then Done(x.userText, text, interrupted) else Open
  }

  function FailedIf(accepted: bool): Verdict { if accepted then Failed else Open }

  function NotedIf(cfg: Config, x: Turn, text: string, added: bool): Note {
    if added && cfg.hasRuntime then Noted(x.userText, text) else Absent
  }

  predicate FailedByResponse(x: Turn, v: Verdict) {
    x.f == FNone &&
    if x.r.RDone? then v == FailedIf(!x.refused)
    else (if x.state == T.Error then x.r.RFailPub? else x.r.RCancelPub?)
         && v == FailedIf(x.r.pub.decision == Accepted)
         && x.refused == (x.r.pub.decision == Rejected)
  }

  predicate FailedByFinisher(x: Turn, v: Verdict) {
    (Working(x.r) || x.r.RDone?) &&
    if x.f.FDone? then v == FailedIf(!x.refused)
    else x.f.FFailPub?
         && v == FailedIf(x.f.pub.decision == Accepted)
         && x.refused == (x.f.pub.decision == Rejected)
  }

  predicate CompletedByResponse(cfg: Config, x: Turn, v: Verdict, n: Note) {
    && x.f == FNone && !x.refused
    && match x.r
       case RCompletePub(p, text) => v == DoneIf(p.decision == Accepted, x, text, false) && n == Absent
       case RCommit(text, added) => v == DoneIf(true, x, text, false) && n == NotedIf(cfg, x, text, added)
       case RDone => v.Done? && v == DoneIf(true, x, v.text, false) && n == NotedIf(cfg, x, v.text, true)
       case _ => false
  }

  predicate CompletedByFinisher(cfg: Config, x: Turn, v: Verdict, n: Note) {
    && (Working(x.r) || x.r.RDone?) && !x.refused
    && !x.r.RStart? && !x.r.RAsr?
    && match x.f
       case FCompletePub(p, text) => text != "" && v == DoneIf(p.decision == Accepted, x, text, true) && n == Absent
       case FDone => v.Done? && v == DoneIf(true, x, v.text, true) && n == NotedIf(cfg, x, v.text, true)
       case _ => false
  }

  /**
   The invariant of one turn: at every point at most one task owns its terminal event, and what
   ledger and history already hold is determined by how far that task has come.
   */
  predicate TurnOk(cfg: Config, x: Turn, started: bool, v: Verdict, n: Note) {
    && (x.r.RStart? ==> started == (x.r.pub.decision == Accepted))
    && (!x.r.RStart? && !x.r.RDone? ==> started)
    && (x.r.RStart? || x.r.RAsr? ==> x.audio == Silent)
    && match x.state
       case Error => n == Absent && (FailedByResponse(x, v) || FailedByFinisher(x, v))
       case Cancelled => n == Absent && FailedByResponse(x, v)
       case Completed => CompletedByResponse(cfg, x, v, n) || CompletedByFinisher(cfg, x, v, n)
       case Interrupted =>
         && v == Open && n == Absent && !x.refused
         && if x.f == FNone then x.r.RDone? && !started
            else Notifying(x.f) && (Working(x.r) || x.r.RDone?)
       case _ =>
         && v == Open && n == Absent && !x.refused && x.f == FNone
         && if x.r.RDone? then !started else Working(x.r) && Placed(x.state, x.r)
  }

  function Starts(started: bool, e: Option<Event>): bool { started || (e.Some? && e.value.StartedEv?) }

  function JudgeMaybe(v: Verdict, e: Option<Event>): Verdict { if e.Some? then Judge(v, e.value) else v }

  function WriteMaybe(n: Note, e: Option<Entry>): Note { if e.Some? then Write(n, e.value) else n }

  predicate ResultOk(cfg: Config, out: Result, started: bool, v: Verdict, n: Note) {
    TurnOk(cfg, out.turn, Starts(started, out.event), JudgeMaybe(v, out.event), WriteMaybe(n, out.entry))
  }

  lemma LedgerKeepsStart(cfg: Config, id: nat, x: Turn, started: bool, v: Verdict, n: Note, accept: bool)
    requires TurnOk(cfg, x, started, v, n) && x.r.RStart?
    ensures ResultOk(cfg, DecideR(id, x, accept), started, v, n)
  {
  }

  /** Nothing of the turn changes. */
  lemma StillKeeps(cfg: Config, x: Turn, started: bool, v: Verdict, n: Note)
    requires TurnOk(cfg, x, started, v, n)
    ensures ResultOk(cfg, Quiet(x), started, v, n)
  {
  }

  /** The response task waits at the same place, as far as the lifecycle is concerned. */
  predicate SamePlace(a: Response, b: Response) {
    && Working(a) && Working(b) && !a.RStart? && !b.RStart?
    && (a.RAsr? <==> b.RAsr?) && (a.RAsrPub? <==> b.RAsrPub?) && (a.RGenerate? <==> b.RGenerate?)
    && (a.RPrepare? <==> b.RPrepare?) && (a.RReplyPub? <==> b.RReplyPub?)
    && (a.RReplyPub? && b.RReplyPub? ==> a.streaming == b.streaming)
  }

  lemma SamePlaceKeeps(cfg: Config, x: Turn, r: Response, started: bool, v: Verdict, n: Note)
    requires TurnOk(cfg, x, started, v, n) && SamePlace(x.r, r)
    ensures TurnOk(cfg, x.(r := r), started, v, n)
  {
  }

  /** The ledger's decision about a progress event only marks the publish. */
  lemma DecisionMarks(id: nat, x: Turn, accept: bool)
    requires x.r.RAsrPub? || x.r.RReplyPub? || x.r.RSynthPub? || x.r.RPlayedPub?
    ensures var out := DecideR(id, x, accept);
            && out.turn == x.(r := out.turn.r) && SamePlace(x.r, out.turn.r)
            && (out.event == None || out.event == Some(ProgressEv(id))) && out.entry == None
  {
  }

  lemma LedgerKeepsWorking(cfg: Config, id: nat, x: Turn, started: bool, v: Verdict, n: Note, accept: bool)
    requires TurnOk(cfg, x, started, v, n) && Working(x.r) && !x.r.RStart?
    ensures ResultOk(cfg, DecideR(id, x, accept), started, v, n)
  {
    if x.r.RAsrPub? || x.r.RReplyPub? || x.r.RSynthPub? || x.r.RPlayedPub? {
      DecisionMarks(id, x, accept);
      SamePlaceKeeps(cfg, x, DecideR(id, x, accept).turn.r, started, v, n);
    } else {
      StillKeeps(cfg, x, started, v, n);
    }
  }

  lemma LedgerKeepsCompletion(cfg: Config, id: nat, x: Turn, started: bool, v: Verdict, n: Note, accept: bool)
    requires TurnOk(cfg, x, started, v, n) && x.r.RCompletePub?
    ensures ResultOk(cfg, DecideR(id, x, accept), started, v, n)
  {
  }

  lemma LedgerKeepsFailure(cfg: Config, id: nat, x: Turn, started: bool, v: Verdict, n: Note, accept: bool)
    requires TurnOk(cfg, x, started, v, n) && (x.r.RFailPub? || x.r.RCancelPub?)
    ensures ResultOk(cfg, DecideR(id, x, accept), started, v, n)
  {
  }

  lemma LedgerKeepsEnd(cfg: Config, id: nat, x: Turn, started: bool, v: Verdict, n: Note, accept: bool)
    requires TurnOk(cfg, x, started, v, n) && !Working(x.r)
    ensures ResultOk(cfg, DecideR(id, x, accept), started, v, n)
  {
    if x.r.RCompletePub? {
      LedgerKeepsCompletion(cfg, id, x, started, v, n, accept);
    } else if x.r.RFailPub? || x.r.RCancelPub? {
      LedgerKeepsFailure(cfg, id, x, started, v, n, accept);
    } else {
      StillKeeps(cfg, x, started, v, n);
    }
  }

  lemma LedgerKeepsInterrupted(cfg: Config, id: nat, x: Turn, started: bool, v: Verdict, n: Note, accept: bool)
    requires TurnOk(cfg, x, started, v, n) && x.f.FCompletePub?
    ensures ResultOk(cfg, DecideF(id, x, accept), started, v, n)
  {
  }

  lemma LedgerKeepsNotice(cfg: Config, id: nat, x: Turn, started: bool, v: Verdict, n: Note, accept: bool)
    requires TurnOk(cfg, x, started, v, n) && (x.f.FNoticePub? || x.f.FFailPub?)
    ensures ResultOk(cfg, DecideF(id, x, accept), started, v, n)
  {
  }

  lemma LedgerKeepsF(cfg: Config, id: nat, x: Turn, started: bool, v: Verdict, n: Note, accept: bool)
    requires TurnOk(cfg, x, started, v, n)
    ensures ResultOk(cfg, DecideF(id, x, accept), started, v, n)
  {
    if x.f.FCompletePub? {
      LedgerKeepsInterrupted(cfg, id, x, started, v, n, accept);
    } else if x.f.FNoticePub? || x.f.FFailPub? {
      LedgerKeepsNotice(cfg, id, x, started, v, n, accept);
    } else {
      StillKeeps(cfg, x, started, v, n);
    }
  }

  lemma FailKeeps(cfg: Config, x: Turn, started: bool, v: Verdict, n: Note)
    requires TurnOk(cfg, x, started, v, n) && Working(x.r) && started
    ensures TurnOk(cfg, FailR(x, false), started, v, n)
  {
  }

  lemma CancelledKeeps(cfg: Config, x: Turn, started: bool, v: Verdict, n: Note)
    requires TurnOk(cfg, x, started, v, n) && Working(x.r) && started
    ensures TurnOk(cfg, Cancelled(x), started, v, n)
  {
  }

  lemma ThinkingKeeps(cfg: Config, x: Turn, started: bool, v: Verdict, n: Note, r: Response)
    requires TurnOk(cfg, x, started, v, n) && started && (x.r.RStart? || x.r.RAsrPub?) && (r.RPrepare? || r.RGenerate?)
    ensures TurnOk(cfg, x.(state := Try(x.state, T.LlmThinking), r := r), started, v, n)
  {
  }

  lemma RespondKeeps(cfg: Config, x: Turn, started: bool, v: Verdict, n: Note)
    requires TurnOk(cfg, x, started, v, n) && started && (x.r.RStart? || x.r.RAsrPub?)
    ensures TurnOk(cfg, Respond(cfg, x), started, v, n)
  {
    if !cfg.hasModel {
      FailKeeps(cfg, x, started, v, n);
    } else {
      ThinkingKeeps(cfg, x, started, v, n, if x.speak && cfg.hasTts && cfg.hasOutput then RPrepare else RGenerate);
    }
  }

  lemma ContinueStart(cfg: Config, x: Turn, v: Verdict, n: Note)
    requires TurnOk(cfg, x, true, v, n) && x.r.RStart?
    ensures TurnOk(cfg, ContinueR(cfg, x), true, v, n)
  {
    if !x.voice {
      RespondKeeps(cfg, x.(userText := x.input), true, v, n);
    } else if !cfg.hasAsr {
      FailKeeps(cfg, x, true, v, n);
    }
  }

  lemma ContinueReply(cfg: Config, x: Turn, v: Verdict, n: Note)
    requires TurnOk(cfg, x, true, v, n) && x.r.RReplyPub?
    ensures TurnOk(cfg, ContinueR(cfg, x), true, v, n)
  {
    FailKeeps(cfg, x, true, v, n);
  }

  lemma ContinueSynthesized(cfg: Config, x: Turn, v: Verdict, n: Note)
    requires TurnOk(cfg, x, true, v, n) && x.r.RSynthPub?
    ensures TurnOk(cfg, ContinueR(cfg, x), true, v, n)
  {
  }

  lemma ContinuePlayed(cfg: Config, x: Turn, v: Verdict, n: Note)
    requires TurnOk(cfg, x, true, v, n) && x.r.RPlayedPub?
    ensures TurnOk(cfg, ContinueR(cfg, x), true, v, n)
  {
  }

  lemma ContinueEnd(cfg: Config, x: Turn, v: Verdict, n: Note)
    requires TurnOk(cfg, x, true, v, n) && (x.r.RCompletePub? || x.r.RFailPub? || x.r.RCancelPub?)
    requires x.r.pub.decision == Accepted
    ensures TurnOk(cfg, ContinueR(cfg, x), true, v, n)
  {
  }

  lemma DrainKeeps(cfg: Config, x: Turn, v: Verdict, n: Note)
    requires TurnOk(cfg, x, true, v, n) && EventR(0, x).Some?
    requires PubR(x) == Pub(Accepted, true)
    ensures TurnOk(cfg, ReturnR(cfg, x), true, v, n)
  {
    if Working(x.r) { CancelledKeeps(cfg, x, true, v, n); }
  }

  lemma RejectKeeps(cfg: Config, x: Turn, started: bool, v: Verdict, n: Note)
    requires TurnOk(cfg, x, started, v, n) && EventR(0, x).Some?
    requires PubR(x).decision == Rejected
    ensures TurnOk(cfg, ReturnR(cfg, x), started, v, n)
  {
    if Working(x.r) && !x.r.RStart? { FailKeeps(cfg, x, started, v, n); }
  }

  lemma ContinueKeeps(cfg: Config, x: Turn, v: Verdict, n: Note)
    requires TurnOk(cfg, x, true, v, n) && EventR(0, x).Some? && PubR(x).decision == Accepted
    ensures TurnOk(cfg, ContinueR(cfg, x), true, v, n)
  {
    if x.r.RStart? {
      ContinueStart(cfg, x, v, n);
    } else if x.r.RAsrPub? {
      RespondKeeps(cfg, x, true, v, n);
    } else if x.r.RReplyPub? {
      ContinueReply(cfg, x, v, n);
    } else if x.r.RSynthPub? {
      ContinueSynthesized(cfg, x, v, n);
    } else if x.r.RPlayedPub? {
      ContinuePlayed(cfg, x, v, n);
    } else {
      ContinueEnd(cfg, x, v, n);
    }
  }

  /** An accepted publish means that the turn has started. */
  lemma AcceptedHasStarted(cfg: Config, x: Turn, started: bool, v: Verdict, n: Note)
    requires TurnOk(cfg, x, started, v, n) && EventR(0, x).Some? && PubR(x).decision == Accepted
    ensures started
  {
  }

  lemma ReturnKeepsR(cfg: Config, x: Turn, started: bool, v: Verdict, n: Note)
    requires TurnOk(cfg, x, started, v, n)
    ensures TurnOk(cfg, ReturnR(cfg, x), started, v, n)
  {
    if EventR(0, x).Some? && PubR(x).decision != Undecided {
      if PubR(x).decision == Rejected {
        RejectKeeps(cfg, x, started, v, n);
      } else {
        AcceptedHasStarted(cfg, x, started, v, n);
        if PubR(x).drain { DrainKeeps(cfg, x, v, n); } else { ContinueKeeps(cfg, x, v, n); }
      }
    }
  }

  lemma NoticeFails(cfg: Config, x: Turn, started: bool, v: Verdict, n: Note)
    requires TurnOk(cfg, x, started, v, n) && (x.f.FNoticePub? || x.f.FYield?)
    ensures TurnOk(cfg, FailF(x, false, true), started, v, n)
  {
  }

  lemma CompletionFails(cfg: Config, x: Turn, started: bool, v: Verdict, n: Note)
    requires TurnOk(cfg, x, started, v, n) && x.f.FCompletePub? && x.f.pub.decision == Rejected
    ensures TurnOk(cfg, FailF(x, true, false), started, v, n)
  {
  }

  lemma NoticeReturns(cfg: Config, id: nat, x: Turn, started: bool, v: Verdict, n: Note)
    requires TurnOk(cfg, x, started, v, n) && x.f.FNoticePub?
    ensures ResultOk(cfg, ReturnF(cfg, id, x), started, v, n)
  {
    NoticeFails(cfg, x, started, v, n);
  }

  lemma InterruptedCompletionReturns(cfg: Config, id: nat, x: Turn, started: bool, v: Verdict, n: Note)
    requires TurnOk(cfg, x, started, v, n) && x.f.FCompletePub?
    ensures ResultOk(cfg, ReturnF(cfg, id, x), started, v, n)
  {
    if x.f.pub.decision == Rejected { CompletionFails(cfg, x, started, v, n); }
  }

  lemma FailureReturns(cfg: Config, id: nat, x: Turn, started: bool, v: Verdict, n: Note)
    requires TurnOk(cfg, x, started, v, n) && x.f.FFailPub?
    ensures ResultOk(cfg, ReturnF(cfg, id, x), started, v, n)
  {
  }

  lemma ReturnKeepsF(cfg: Config, id: nat, x: Turn, started: bool, v: Verdict, n: Note)
    requires TurnOk(cfg, x, started, v, n)
    ensures ResultOk(cfg, ReturnF(cfg, id, x), started, v, n)
  {
    if x.f.FNoticePub? {
      NoticeReturns(cfg, id, x, started, v, n);
    } else if x.f.FCompletePub? {
      InterruptedCompletionReturns(cfg, id, x, started, v, n);
    } else if x.f.FFailPub? {
      FailureReturns(cfg, id, x, started, v, n);
    } else {
      StillKeeps(cfg, x, started, v, n);
    }
  }

  lemma SilentIsSilent()
    ensures PlayedText(Silent) == ""
  {
  }

  lemma AwakeKeeps(cfg: Config, x: Turn, started: bool, v: Verdict, n: Note)
    requires TurnOk(cfg, x, started, v, n) && x.f.FYield?
    ensures TurnOk(cfg, Awakened(x), started, v, n)
  {
    SilentIsSilent();
  }

  lemma AsrKeeps(cfg: Config, x: Turn, m: Move, started: bool, v: Verdict, n: Note)
    requires TurnOk(cfg, x, started, v, n) && (m.AsrFails? || m.AsrSilent? || m.AsrHears?)
    ensures TurnOk(cfg, ReplyMove(cfg, x, m), started, v, n)
  {
  }

  lemma GenerateKeeps(cfg: Config, x: Turn, m: Move, started: bool, v: Verdict, n: Note)
    requires TurnOk(cfg, x, started, v, n) && (m.GenerateFails? || m.Generated?)
    ensures TurnOk(cfg, ReplyMove(cfg, x, m), started, v, n)
  {
    if started && x.r.RGenerate? && m.GenerateFails? { FailKeeps(cfg, x, started, v, n); }
  }

  lemma PrepareKeeps(cfg: Config, x: Turn, m: Move, started: bool, v: Verdict, n: Note)
    requires TurnOk(cfg, x, started, v, n) && (m.PrepareFails? || m.Prepared?)
    ensures TurnOk(cfg, ReplyMove(cfg, x, m), started, v, n)
  {
    if started && x.r.RPrepare? && m.PrepareFails? { FailKeeps(cfg, x, started, v, n); }
  }

  lemma ReplyKeeps(cfg: Config, x: Turn, m: Move, started: bool, v: Verdict, n: Note)
    requires TurnOk(cfg, x, started, v, n)
    ensures TurnOk(cfg, ReplyMove(cfg, x, m), started, v, n)
  {
    if m.AsrFails? || m.AsrSilent? || m.AsrHears? {
      AsrKeeps(cfg, x, m, started, v, n);
    } else if m.GenerateFails? || m.Generated? {
      GenerateKeeps(cfg, x, m, started, v, n);
    } else if m.PrepareFails? || m.Prepared? {
      PrepareKeeps(cfg, x, m, started, v, n);
    }
  }

  lemma ChunkKeeps(cfg: Config, x: Turn, c: Chunk, started: bool, v: Verdict, n: Note)
    requires TurnOk(cfg, x, started, v, n)
    ensures TurnOk(cfg, SpeechMove(x, ChunkArrives(c)), started, v, n)
  {
  }

  lemma PlaybackKeeps(cfg: Config, x: Turn, ms: int, stopped: bool, started: bool, v: Verdict, n: Note)
    requires TurnOk(cfg, x, started, v, n)
    ensures TurnOk(cfg, SpeechMove(x, PlaybackDone(ms, stopped)), started, v, n)
  {
  }

  lemma PhraseKeeps(cfg: Config, x: Turn, m: Move, started: bool, v: Verdict, n: Note)
    requires TurnOk(cfg, x, started, v, n) && (m.NextPhrase? || m.PhraseEnds?)
    ensures TurnOk(cfg, SpeechMove(x, m), started, v, n)
  {
  }

  lemma SpeechEndKeeps(cfg: Config, x: Turn, m: Move, started: bool, v: Verdict, n: Note)
    requires TurnOk(cfg, x, started, v, n) && (m.SpeechFails? || m.SpeechEnds?)
    ensures TurnOk(cfg, SpeechMove(x, m), started, v, n)
  {
    if started && Working(x.r) && m.SpeechFails? { FailKeeps(cfg, x, started, v, n); }
  }

  lemma SpeechKeeps(cfg: Config, x: Turn, m: Move, started: bool, v: Verdict, n: Note)
    requires TurnOk(cfg, x, started, v, n)
    ensures TurnOk(cfg, SpeechMove(x, m), started, v, n)
  {
    if m.ChunkArrives? {
      ChunkKeeps(cfg, x, m.chunk, started, v, n);
    } else if m.PlaybackDone? {
      PlaybackKeeps(cfg, x, m.playedMs, m.stopped, started, v, n);
    } else if m.NextPhrase? || m.PhraseEnds? {
      PhraseKeeps(cfg, x, m, started, v, n);
    } else if m.SpeechFails? || m.SpeechEnds? {
      SpeechEndKeeps(cfg, x, m, started, v, n);
    }
  }

  lemma CancelKeeps(cfg: Config, x: Turn, started: bool, v: Verdict, n: Note)
    requires TurnOk(cfg, x, started, v, n)
    ensures TurnOk(cfg, CancelledR(x), started, v, n)
  {
    if EventR(0, x).Some? {
      DrainedKeeps(cfg, x, started, v, n);
    } else if Working(x.r) && started {
      CancelledKeeps(cfg, x, started, v, n);
    }
  }

  /** A cancellation while a publish is awaited only marks the publish. */
  lemma DrainedKeeps(cfg: Config, x: Turn, started: bool, v: Verdict, n: Note)
    requires TurnOk(cfg, x, started, v, n) && EventR(0, x).Some?
    ensures TurnOk(cfg, CancelledR(x), started, v, n)
  {
  }

  lemma CommitRunKeeps(cfg: Config, id: nat, x: Turn, started: bool, v: Verdict, n: Note)
    requires TurnOk(cfg, x, started, v, n)
    ensures ResultOk(cfg, LocalStep(cfg, id, x, CommitRuns), started, v, n)
  {
  }

  lemma CommitReturnKeeps(cfg: Config, id: nat, x: Turn, started: bool, v: Verdict, n: Note)
    requires TurnOk(cfg, x, started, v, n)
    ensures ResultOk(cfg, LocalStep(cfg, id, x, CommitReturns), started, v, n)
  {
  }

  lemma InterruptKeeps(cfg: Config, id: nat, x: Turn, started: bool, v: Verdict, n: Note)
    requires TurnOk(cfg, x, started, v, n)
    ensures ResultOk(cfg, LocalStep(cfg, id, x, Interrupt), started, v, n)
  {
  }

  lemma StoppedKeeps(cfg: Config, id: nat, x: Turn, started: bool, v: Verdict, n: Note)
    requires TurnOk(cfg, x, started, v, n)
    ensures ResultOk(cfg, LocalStep(cfg, id, x, ProvidersStopped), started, v, n)
  {
  }

  /** A decision of the ledger, and its return to the task that waits for it. */
  lemma PublishKeeps(cfg: Config, id: nat, x: Turn, m: Move, started: bool, v: Verdict, n: Note)
    requires TurnOk(cfg, x, started, v, n) && (m.LedgerR? || m.LedgerF? || m.ResumeR? || m.ResumeF?)
    ensures ResultOk(cfg, LocalStep(cfg, id, x, m), started, v, n)
  {
    match m
    case LedgerR(accept) =>
      if x.r.RStart? { LedgerKeepsStart(cfg, id, x, started, v, n, accept); }
      else if Working(x.r) { LedgerKeepsWorking(cfg, id, x, started, v, n, accept); }
      else { LedgerKeepsEnd(cfg, id, x, started, v, n, accept); }
    case LedgerF(accept) => LedgerKeepsF(cfg, id, x, started, v, n, accept);
    case ResumeR =>
      ReturnKeepsR(cfg, x, started, v, n);
      StillKeeps(cfg, ReturnR(cfg, x), started, v, n);
    case ResumeF => ReturnKeepsF(cfg, id, x, started, v, n);
  }

  lemma WakeKeeps(cfg: Config, id: nat, x: Turn, started: bool, v: Verdict, n: Note)
    requires TurnOk(cfg, x, started, v, n)
    ensures ResultOk(cfg, LocalStep(cfg, id, x, Awake), started, v, n)
  {
    if x.f.FYield? {
      AwakeKeeps(cfg, x, started, v, n);
      StillKeeps(cfg, Awakened(x), started, v, n);
    } else {
      StillKeeps(cfg, x, started, v, n);
    }
  }

  /** A cancellation, the commit, an interruption and what follows it. */
  lemma ControlKeeps(cfg: Config, id: nat, x: Turn, m: Move, started: bool, v: Verdict, n: Note)
    requires TurnOk(cfg, x, started, v, n)
    requires m.CancelR? || m.CommitRuns? || m.CommitReturns? || m.Interrupt? || m.ProvidersStopped? || m.Awake?
    ensures ResultOk(cfg, LocalStep(cfg, id, x, m), started, v, n)
  {
    match m
    case CancelR =>
      CancelKeeps(cfg, x, started, v, n);
      StillKeeps(cfg, CancelledR(x), started, v, n);
    case CommitRuns => CommitRunKeeps(cfg, id, x, started, v, n);
    case CommitReturns => CommitReturnKeeps(cfg, id, x, started, v, n);
    case Interrupt => InterruptKeeps(cfg, id, x, started, v, n);
    case ProvidersStopped => StoppedKeeps(cfg, id, x, started, v, n);
    case Awake => WakeKeeps(cfg, id, x, started, v, n);
  }

  /** Recognition, generation, synthesis and playback. */
  lemma WorkKeeps(cfg: Config, x: Turn, m: Move, started: bool, v: Verdict, n: Note)
    requires TurnOk(cfg, x, started, v, n)
    ensures ResultOk(cfg, Quiet(SpeechMove(ReplyMove(cfg, x, m), m)), started, v, n)
  {
    ReplyKeeps(cfg, x, m, started, v, n);
    SpeechKeeps(cfg, ReplyMove(cfg, x, m), m, started, v, n);
    StillKeeps(cfg, SpeechMove(ReplyMove(cfg, x, m), m), started, v, n);
  }

  /** Every move of either task keeps the invariant of its turn. */
  lemma MoveKeeps(cfg: Config, id: nat, x: Turn, m: Move, started: bool, v: Verdict, n: Note)
    requires TurnOk(cfg, x, started, v, n)
    ensures ResultOk(cfg, LocalStep(cfg, id, x, m), started, v, n)
  {
    if m.LedgerR? || m.LedgerF? || m.ResumeR? || m.ResumeF? {
      PublishKeeps(cfg, id, x, m, started, v, n);
    } else if m.CancelR? || m.CommitRuns? || m.CommitReturns? || m.Interrupt? || m.ProvidersStopped? || m.Awake? {
      ControlKeeps(cfg, id, x, m, started, v, n);
    } else {
      WorkKeeps(cfg, x, m, started, v, n);
    }
  }

  predicate Stays(x: Turn, y: Turn) {
    && (T.IsActive(y.state) ==> T.IsActive(x.state))
    && (x.r == RDone ==> y.r == RDone)
  }

  lemma ReturnFrame(cfg: Config, x: Turn)
    ensures Stays(x, ReturnR(cfg, x))
  {
    if EventR(0, x).Some? && PubR(x) == Pub(Accepted, false) {
      match x.r {
        case RStart(_) =>
        case RAsrPub(_) =>
        case RReplyPub(_, _, _) =>
        case _ =>
      }
    }
  }

  predicate Framed(id: nat, x: Turn, out: Result) {
    && Stays(x, out.turn)
    && (out.event.Some? ==> out.event.value.turn == id)
    && (out.entry.Some? ==> out.entry.value.turn == id)
  }

  lemma LedgerFrame(cfg: Config, id: nat, x: Turn, accept: bool)
    ensures Framed(id, x, DecideR(id, x, accept))
    ensures Framed(id, x, DecideF(id, x, accept))
  {
  }

  lemma ReplyFrame(cfg: Config, x: Turn, m: Move)
    ensures Stays(x, ReplyMove(cfg, x, m))
  {
  }

  lemma SpeechFrame(x: Turn, m: Move)
    ensures Stays(x, SpeechMove(x, m))
  {
  }

  lemma FinisherFrame(cfg: Config, id: nat, x: Turn)
    ensures Framed(id, x, ReturnF(cfg, id, x))
  {
  }

  lemma WakeFrame(x: Turn)
    ensures Stays(x, Awakened(x))
  {
  }

  lemma CancelFrame(x: Turn)
    ensures Stays(x, CancelledR(x))
  {
  }

  predicate NotCompleting(x: Turn, y: Turn) { y.state == T.Completed ==> x.state == T.Completed }

  lemma LedgerDoesNotComplete(id: nat, x: Turn, accept: bool)
    ensures NotCompleting(x, DecideR(id, x, accept).turn) && NotCompleting(x, DecideF(id, x, accept).turn)
  {
  }

  lemma ReturnDoesNotComplete(cfg: Config, id: nat, x: Turn)
    ensures NotCompleting(x, ReturnF(cfg, id, x).turn)
  {
  }

  lemma CancelDoesNotComplete(x: Turn)
    ensures NotCompleting(x, CancelledR(x))
  {
  }

  lemma WorkDoesNotComplete(cfg: Config, x: Turn, m: Move)
    ensures NotCompleting(x, ReplyMove(cfg, x, m)) && NotCompleting(x, SpeechMove(x, m))
  {
  }

  /**
   Apart from the return of a publish to the response task and the wake-up of the finisher, no move completes a
   turn.
   */
  lemma NoOtherCompletes(cfg: Config, id: nat, x: Turn, m: Move)
    ensures m != ResumeR && !(m == Awake && x.f == FYield) ==> NotCompleting(x, LocalStep(cfg, id, x, m).turn)
  {
    if m.LedgerR? || m.LedgerF? {
      LedgerDoesNotComplete(id, x, m.accept);
    } else if m.ResumeF? {
      ReturnDoesNotComplete(cfg, id, x);
    } else if m.CancelR? {
      CancelDoesNotComplete(x);
    } else if m.ResumeR? || m.Awake? || m.CommitRuns? || m.CommitReturns? || m.Interrupt? || m.ProvidersStopped? {
    } else {
      WorkDoesNotComplete(cfg, x, m);
      WorkDoesNotComplete(cfg, ReplyMove(cfg, x, m), m);
    }
  }

  /** Inactive turns stay inactive, a finished response task stays finished, and outputs name their turn. */
  lemma MoveFrame(cfg: Config, id: nat, x: Turn, m: Move)
    ensures Framed(id, x, LocalStep(cfg, id, x, m))
  {
    if m.LedgerR? || m.LedgerF? {
      LedgerFrame(cfg, id, x, m.accept);
    } else if m.ResumeR? {
      ReturnFrame(cfg, x);
    } else if m.ResumeF? {
      FinisherFrame(cfg, id, x);
    } else if m.Awake? {
      WakeFrame(x);
    } else if m.CancelR? {
      CancelFrame(x);
    } else if m.CommitRuns? || m.CommitReturns? || m.Interrupt? || m.ProvidersStopped? {
    } else {
      ReplyFrame(cfg, x, m);
      SpeechFrame(ReplyMove(cfg, x, m), m);
    }
  }

  // ── The pipeline ────────────────────────────────────────────────────

  function VerdictOf(ledger: seq<Event>, id: nat): Verdict {
    if ledger == [] then Open
    else
      var v := VerdictOf(ledger[..|ledger| - 1], id);
      if ledger[|ledger| - 1].turn == id then Judge(v, ledger[|ledger| - 1]) else v
  }

  function NoteOf(history: seq<Entry>, id: nat): Note {
    if history == [] then Absent
    else
      var n := NoteOf(history[..|history| - 1], id);
      if history[|history| - 1].turn == id then Write(n, history[|history| - 1]) else n
  }

  predicate HasStart(ledger: seq<Event>, id: nat) { StartedEv(id) in ledger }

  ghost predicate SysOk(cfg: Config, s: Sys) {
    && (forall id | id in s.turns ::
          TurnOk(cfg, s.turns[id], HasStart(s.ledger, id), VerdictOf(s.ledger, id), NoteOf(s.history, id)))
    && (forall e | e in s.ledger :: e.turn in s.turns)
    && (forall e | e in s.history :: e.turn in s.turns)
    && (forall id | id in s.turns && T.IsActive(s.turns[id].state) :: s.current == Some(id))
    && (forall a, b | a in s.turns && b in s.turns && s.turns[a].r != RDone && s.turns[b].r != RDone :: a == b)
  }

  lemma {:induction false} LedgerGrows(ledger: seq<Event>, e: Event, id: nat)
    ensures VerdictOf(ledger + [e], id) == if e.turn == id then Judge(VerdictOf(ledger, id), e)
            else VerdictOf(ledger, id)
    ensures HasStart(ledger + [e], id) == (HasStart(ledger, id) || e == StartedEv(id))
  {
    assert (ledger + [e])[..|ledger|] == ledger;
  }

  lemma {:induction false} HistoryGrows(history: seq<Entry>, e: Entry, id: nat)
    ensures NoteOf(history + [e], id) == if e.turn == id then Write(NoteOf(history, id), e) else NoteOf(history, id)
  {
    assert (history + [e])[..|history|] == history;
  }

  /** What one move leaves of the invariant of any turn. */
  lemma {:induction false} TurnAfterStep(cfg: Config, s: Sys, id: nat, m: Move, i: nat)
    requires SysOk(cfg, s) && Enabled(s, Step(id, m)) && i in s.turns
    ensures var t := Exec(cfg, s, Step(id, m));
            i in t.turns
            && TurnOk(cfg, t.turns[i], HasStart(t.ledger, i), VerdictOf(t.ledger, i), NoteOf(t.history, i))
  {
    var x := s.turns[id];
    var out := LocalStep(cfg, id, x, m);
    MoveFrame(cfg, id, x, m);
    MoveKeeps(cfg, id, x, m, HasStart(s.ledger, id), VerdictOf(s.ledger, id), NoteOf(s.history, id));
    if out.event.Some? { LedgerGrows(s.ledger, out.event.value, i); }
    if out.entry.Some? { HistoryGrows(s.history, out.entry.value, i); }
  }

  lemma StepKeeps(cfg: Config, s: Sys, id: nat, m: Move)
    requires SysOk(cfg, s) && Enabled(s, Step(id, m))
    ensures SysOk(cfg, Exec(cfg, s, Step(id, m)))
  {
    var t := Exec(cfg, s, Step(id, m));
    MoveFrame(cfg, id, s.turns[id], m);
    forall i | i in t.turns
      ensures TurnOk(cfg, t.turns[i], HasStart(t.ledger, i), VerdictOf(t.ledger, i), NoteOf(t.history, i))
    {
      TurnAfterStep(cfg, s, id, m, i);
    }
  }

  lemma {:induction false} SilentTurn(ledger: seq<Event>, history: seq<Entry>, id: nat)
    requires forall e | e in ledger :: e.turn != id
    requires forall e | e in history :: e.turn != id
    ensures VerdictOf(ledger, id) == Open && NoteOf(history, id) == Absent
  {
    if ledger != [] { SilentTurn(ledger[..|ledger| - 1], history, id); }
    else if history != [] { SilentTurn(ledger, history[..|history| - 1], id); }
  }

  lemma NewTurnOk(cfg: Config, voice: bool, speak: bool, input: string)
    ensures TurnOk(cfg, NewTurn(voice, speak, input), false, Open, Absent)
  {
  }

  lemma DisplacedOk(cfg: Config, x: Turn, started: bool, v: Verdict, n: Note)
    requires TurnOk(cfg, x, started, v, n) && x.r == RDone && T.IsActive(x.state)
    ensures TurnOk(cfg, x.(state := T.Interrupted), started, v, n)
  {
  }

  lemma {:induction false} BeginTurnsOk(cfg: Config, s: Sys, a: Action, i: nat)
    requires SysOk(cfg, s) && a.Begin? && Enabled(s, a) && i in Exec(cfg, s, a).turns
    ensures TurnOk(cfg, Exec(cfg, s, a).turns[i], HasStart(s.ledger, i), VerdictOf(s.ledger, i), NoteOf(s.history, i))
  {
    if i == a.id {
      SilentTurn(s.ledger, s.history, i);
      NewTurnOk(cfg, a.voice, a.speak, a.input);
    } else if T.IsActive(s.turns[i].state) {
      DisplacedOk(cfg, s.turns[i], HasStart(s.ledger, i), VerdictOf(s.ledger, i), NoteOf(s.history, i));
    }
  }

  /** Only the new turn is active and has a task to run. */
  lemma BeginLeavesOne(cfg: Config, s: Sys, a: Action, i: nat)
    requires SysOk(cfg, s) && a.Begin? && Enabled(s, a) && i in Exec(cfg, s, a).turns && i != a.id
    ensures !T.IsActive(Exec(cfg, s, a).turns[i].state) && Exec(cfg, s, a).turns[i].r == RDone
  {
  }

  lemma BeginKeeps(cfg: Config, s: Sys, a: Action)
    requires SysOk(cfg, s) && a.Begin? && Enabled(s, a)
    ensures SysOk(cfg, Exec(cfg, s, a))
  {
    forall i | i in Exec(cfg, s, a).turns && i != a.id
      ensures !T.IsActive(Exec(cfg, s, a).turns[i].state) && Exec(cfg, s, a).turns[i].r == RDone
    {
      BeginLeavesOne(cfg, s, a, i);
    }
    var t := Exec(cfg, s, a);
    forall i | i in t.turns
      ensures TurnOk(cfg, t.turns[i], HasStart(t.ledger, i), VerdictOf(t.ledger, i), NoteOf(t.history, i))
    {
      BeginTurnsOk(cfg, s, a, i);
    }
  }

  /** The invariant holds after every run. */
  lemma {:induction false} RunOk(cfg: Config, actions: seq<Action>)
    ensures SysOk(cfg, Run(cfg, actions))
  {
    if actions != [] {
      RunOk(cfg, actions[..|actions| - 1]);
      var s, a := Run(cfg, actions[..|actions| - 1]), actions[|actions| - 1];
      if Enabled(s, a) {
        if a.Begin? { BeginKeeps(cfg, s, a); } else { StepKeeps(cfg, s, a.id, a.move); }
      }
    }
  }
}
