/**
 The voice turn protocol as a step relation. A response task and, after a barge-in, a
 finisher task work on the same turn record; each move below is the code between two
 suspension points of one task. Suspended outcomes (recognition, generation, synthesis,
 playback, cancellation, acceptance or refusal by the ledger) are parameters of the moves,
 so every interleaving and every outcome is a sequence of moves.
 */
module VoiceTurn {
  import opened Std
  import T = Turns
  import opened Playback

  datatype Config = Config(hasAsr: bool, hasModel: bool, hasTts: bool, hasOutput: bool, hasRuntime: bool)

  datatype Event =
    | StartedEv(turn: nat)
    | ProgressEv(turn: nat)
    | InterruptedEv(turn: nat)
    | CompletedEv(turn: nat, user: string, text: string, interrupted: bool)
    | FailedEv(turn: nat)

  datatype Entry = Entry(turn: nat, user: string, text: string)

  // ── Tasks ───────────────────────────────────────────────────────────

  datatype Decision = Undecided | Accepted | Rejected

  /**
   A publish in flight. `drain` is set by a cancellation: the publish is still awaited, then the cancellation is
   raised.
   */
  datatype Pub = Pub(decision: Decision, drain: bool)

  const Fresh := Pub(Undecided, false)

  /** A phrase being synthesized: its text, its index and time bases, and whether nothing of it was played yet. */
  datatype Phrase = Phrase(text: string, base: int, baseMs: int, first: bool)

  /** Where the response task is suspended. */
  datatype Response =
    | RStart(pub: Pub)                                    // publishing the start of the turn
    | RAsr                                                // transcribing
    | RAsrPub(pub: Pub)
    | RGenerate                                           // whole-reply generation
    | RPrepare                                            // preparing a reply stream
    | RSpeech(phrase: Option<Phrase>)                     // waiting for text or for synthesized audio
    | RSynthPub(pub: Pub, speaking: Phrase, index: int)
    | RPlay(speaking: Phrase, index: int)                 // playback of one segment
    | RPlayedPub(pub: Pub, speaking: Phrase, stopped: bool)
    | RReplyPub(pub: Pub, reply: string, streaming: bool)
    | RCompletePub(pub: Pub, text: string)                // publishing the completed event
    | RCommit(text: string, added: bool)                  // history commit after an accepted completion
    | RFailPub(pub: Pub)                                  // publishing a failed event
    | RCancelPub(pub: Pub)                                // publishing the failed event of a cancellation
    | RDone

  /** Where the interruption finisher is suspended. */
  datatype Finisher =
    | FNone
    | FStopping                                           // cancelling providers and playback
    | FNoticePub(pub: Pub)                                // publishing the interruption
    | FYield                                              // one scheduling turn
    | FCompletePub(pub: Pub, text: string)
    | FFailPub(pub: Pub)
    | FDone

  datatype Turn = Turn(
    voice: bool,
    speak: bool,
    input: string,
    state: T.TurnState,
    r: Response,
    f: Finisher,
    audio: TurnAudio,
    userText: string,
    refused: bool)                                        // the ledger refused a failed event of this turn

  // ── Moves of one turn ───────────────────────────────────────────────

  datatype Move =
    | LedgerR(accept: bool) | LedgerF(accept: bool)       // the ledger decides a pending publish
    | ResumeR | ResumeF                                   // a decided publish returns to its task
    | CancelR                                             // a cancellation reaches the response task
    | AsrFails | AsrSilent | AsrHears(heard: string)
    | GenerateFails | Generated(reply: string)
    | PrepareFails | Prepared
    | NextPhrase(phrase: string) | ChunkArrives(chunk: Chunk) | PhraseEnds
    | PlaybackDone(playedMs: int, stopped: bool)
    | SpeechFails | SpeechEnds(full: string)
    | CommitRuns | CommitReturns
    | Interrupt | ProvidersStopped | Awake

  /** The new turn record, the event the move persists, and the history entry it adds. */
  datatype Result = Result(turn: Turn, event: Option<Event>, entry: Option<Entry>)

  function Quiet(x: Turn): Result { Result(x, None, None) }

  function Try(s: T.TurnState, to: T.TurnState): T.TurnState {
    if T.CanTransition(s, to) then to else s
  }

  function FailR(x: Turn, allowCompleted: bool): Turn {
    if T.CanFail(x.state, allowCompleted, false) then x.(state := T.Error, r := RFailPub(Fresh)) else x.(r := RDone)
  }

  function FailF(x: Turn, allowCompleted: bool, allowInterrupted: bool): Turn {
    if T.CanFail(x.state, allowCompleted, allowInterrupted) then x.(state := T.Error, f := FFailPub(Fresh))
    else x.(f := FDone)
  }

  /** The outer handler of a cancelled response task. */
  function Cancelled(x: Turn): Turn {
    if T.IsActive(x.state) then x.(state := Try(x.state, T.Cancelled), r := RCancelPub(Fresh)) else x.(r := RDone)
  }

  function Respond(cfg: Config, x: Turn): Turn {
    if !cfg.hasModel then FailR(x, false)
    else
      var y := x.(state := Try(x.state, T.LlmThinking));
      y.(r := if x.speak && cfg.hasTts && cfg.hasOutput then RPrepare else RGenerate)
  }

  function Complete(x: Turn, text: string): Turn {
    if T.CanTransition(x.state, T.Completed)
    then x.(state := T.Completed, r := RCompletePub(Fresh, text))
    else x.(r := RDone)
  }

  /** The event that the response task's pending publish carries. */
  function EventR(id: nat, x: Turn): Option<Event> {
    match x.r
    case RStart(_) => Some(StartedEv(id))
    case RAsrPub(_) => Some(ProgressEv(id))
    case RSynthPub(_, _, _) => Some(ProgressEv(id))
    case RPlayedPub(_, _, _) => Some(ProgressEv(id))
    case RReplyPub(_, _, _) => Some(ProgressEv(id))
    case RCompletePub(_, text) => Some(CompletedEv(id, x.userText, text, false))
    case RFailPub(_) => Some(FailedEv(id))
    case RCancelPub(_) => Some(FailedEv(id))
    case _ => None
  }

  function EventF(id: nat, x: Turn): Option<Event> {
    match x.f
    case FNoticePub(_) => Some(InterruptedEv(id))
    case FCompletePub(_, text) => Some(CompletedEv(id, x.userText, text, true))
    case FFailPub(_) => Some(FailedEv(id))
    case _ => None
  }

  function PubR(x: Turn): Pub
    requires EventR(0, x).Some?
  {
    x.r.pub
  }

  /** The pending publish of the response task with a new mark. */
  function Marked(r: Response, pub: Pub): Response {
    match r
    case RStart(_) => RStart(pub)
    case RAsrPub(_) => RAsrPub(pub)
    case RSynthPub(_, speaking, index) => RSynthPub(pub, speaking, index)
    case RPlayedPub(_, speaking, stopped) => RPlayedPub(pub, speaking, stopped)
    case RReplyPub(_, reply, streaming) => RReplyPub(pub, reply, streaming)
    case RCompletePub(_, text) => RCompletePub(pub, text)
    case RFailPub(_) => RFailPub(pub)
    case RCancelPub(_) => RCancelPub(pub)
    case _ => r
  }

  function DecideR(id: nat, x: Turn, accept: bool): Result {
    if EventR(id, x).None? || PubR(x).decision != Undecided then Quiet(x)
    else
      var pub := PubR(x).(decision := if accept then Accepted else Rejected);
      var refused := x.refused || (!accept && EventR(id, x).value.FailedEv?);
      Result(x.(r := Marked(x.r, pub), refused := refused), if accept then EventR(id, x) else None, None)
  }

  function DecideF(id: nat, x: Turn, accept: bool): Result {
    if EventF(id, x).None? || x.f.pub.decision != Undecided then Quiet(x)
    else
      var pub := x.f.pub.(decision := if accept then Accepted else Rejected);
      var refused := x.refused || (!accept && EventF(id, x).value.FailedEv?);
      Result(x.(f := x.f.(pub := pub), refused := refused), if accept then EventF(id, x) else None, None)
  }

  /** The response task continues after a publish that was accepted without a cancellation. */
  ghost function ContinueR(cfg: Config, x: Turn): Turn {
    match x.r
    case RStart(_) =>
      if !x.voice then Respond(cfg, x.(userText := x.input))
      else if !cfg.hasAsr then FailR(x, false)
      else x.(state := Try(x.state, T.AsrProcessing), r := RAsr)
    case RAsrPub(_) => Respond(cfg, x)
    case RSynthPub(_, phrase, index) =>
      if !T.IsActive(x.state) then x.(r := RSpeech(None))
      else if phrase.first then
        if x.state == T.TtsSynthesizing then
          x.(state := Try(x.state, T.Playing), r := RPlay(phrase.(first := false), index))
        else if x.state != T.Playing then x.(r := RSpeech(None))
        else x.(r := RPlay(phrase.(first := false), index))
      else x.(r := RPlay(phrase, index))
    case RPlayedPub(_, phrase, stopped) =>
      x.(r := RSpeech(if stopped then None else Some(phrase)))
    case RReplyPub(_, reply, true) =>
      if !T.IsActive(x.state) then x.(r := RDone)
      else if PlayedText(x.audio) == "" then FailR(x, false)
      else Complete(x, PlayedText(x.audio))
    case RReplyPub(_, reply, false) =>
      if x.state == T.Interrupted then x.(r := RDone)
      else if x.speak then FailR(x, false)      // no synthesis or no output: nothing can be communicated
      else Complete(x, reply)
    case RCompletePub(_, text) => x.(r := RCommit(text, false))
    case _ => x.(r := RDone)
  }

  ghost function ReturnR(cfg: Config, x: Turn): Turn {
    if EventR(0, x).None? || PubR(x).decision == Undecided then x
    else if PubR(x).decision == Rejected then
      match x.r
      case RStart(_) => x.(r := RDone)
      case RCompletePub(_, _) => FailR(x, true)
      case RFailPub(_) => x.(r := RDone)
      case RCancelPub(_) => x.(r := RDone)
      case _ => FailR(x, false)
    else if PubR(x).drain then
      match x.r
      case RCompletePub(_, text) => x.(r := RCommit(text, false))
      case RCancelPub(_) => x.(r := RDone)
      case _ => Cancelled(x)
    else ContinueR(cfg, x)
  }

  function CancelledR(x: Turn): Turn {
    if EventR(0, x).Some? then (if PubR(x).drain then x else x.(r := Marked(x.r, PubR(x).(drain := true))))
    else if x.r.RCommit? || x.r.RDone? then x
    else Cancelled(x)
  }

  ghost function ReturnF(cfg: Config, id: nat, x: Turn): Result {
    if EventF(id, x).None? || x.f.pub.decision == Undecided then Quiet(x)
    else
      match x.f
      case FNoticePub(p) =>
        Quiet(if p.decision == Rejected then FailF(x, false, true) else x.(f := FYield))
      case FCompletePub(p, text) =>
        if p.decision == Rejected then Quiet(FailF(x, true, false))
        else Result(x.(f := FDone), None, if cfg.hasRuntime && text != "" then Some(Entry(id, x.userText, text))
                    else None)
      case _ => Quiet(x.(f := FDone))
  }

  ghost function Awakened(x: Turn): Turn {
    var text := PlayedText(x.audio);
    if text == "" then FailF(x, false, true)
    else if T.CanTransition(x.state, T.Completed) then x.(state := T.Completed, f := FCompletePub(Fresh, text))
    else FailF(x, false, true)
  }

  ghost function SpeechMove(x: Turn, m: Move): Turn {
    match m
    case NextPhrase(text) =>
      if x.r == RSpeech(None) then
        x.(r := RSpeech(Some(Phrase(text, NextIndex(x.audio.records), TotalDuration(x.audio.records), true))))
      else x
    case ChunkArrives(c) =>
      if x.r.RSpeech? && x.r.phrase.Some? then
        var phrase := x.r.phrase.value;
        if !T.IsActive(x.state) then x.(r := RSpeech(None))
        else
          var d := c.(text := if c.text == "" && phrase.first then phrase.text else c.text);
          x.(audio := Recorded(x.audio, RebasedRecord(d, phrase.base, phrase.baseMs)),
             r := RSynthPub(Fresh, phrase, phrase.base + c.index))
      else x
    case PhraseEnds => if x.r.RSpeech? then x.(r := RSpeech(None)) else x
    case PlaybackDone(ms, stopped) =>
      if x.r.RPlay? then
        x.(audio := Confirmed(x.audio, x.r.index, ms, stopped), r := RPlayedPub(Fresh, x.r.speaking, stopped))
      else x
    case SpeechFails => if x.r.RSpeech? || x.r.RPlay? then FailR(x, false) else x
    case SpeechEnds(full) =>
      if x.r != RSpeech(None) then x
      else if !T.IsActive(x.state) then x.(r := RDone)
      else x.(r := RReplyPub(Fresh, full, true))
    case _ => x
  }

  function ReplyMove(cfg: Config, x: Turn, m: Move): Turn {
    match m
    case AsrFails => if x.r.RAsr? then FailR(x, false) else x
    case AsrSilent =>
      if !x.r.RAsr? then x else if !T.IsActive(x.state) then x.(r := RDone) else FailR(x, false)
    case AsrHears(heard) =>
      if !x.r.RAsr? then x
      else if !T.IsActive(x.state) then x.(r := RDone)
      else x.(userText := heard, r := RAsrPub(Fresh))
    case GenerateFails => if x.r.RGenerate? then FailR(x, false) else x
    case Generated(reply) =>
      if !x.r.RGenerate? then x
      else if !T.IsActive(x.state) then x.(r := RDone)
      else x.(state := Try(x.state, T.TtsSynthesizing), r := RReplyPub(Fresh, reply, false))
    case PrepareFails => if x.r.RPrepare? then FailR(x, false) else x
    case Prepared =>
      if !x.r.RPrepare? then x
      else if T.CanTransition(x.state, T.TtsSynthesizing) then x.(state := T.TtsSynthesizing, r := RSpeech(None))
      else x.(r := RDone)
    case _ => x
  }

  ghost function LocalStep(cfg: Config, id: nat, x: Turn, m: Move): Result {
    match m
    case LedgerR(accept) => DecideR(id, x, accept)
    case LedgerF(accept) => DecideF(id, x, accept)
    case ResumeR => Quiet(ReturnR(cfg, x))
    case ResumeF => ReturnF(cfg, id, x)
    case CancelR => Quiet(CancelledR(x))
    case CommitRuns =>
      if x.r.RCommit? && !x.r.added then
        Result(x.(r := x.r.(added := true)), None, if cfg.hasRuntime then Some(Entry(id, x.userText, x.r.text))
               else None)
      else Quiet(x)
    case CommitReturns => Quiet(if x.r.RCommit? && x.r.added then x.(r := RDone) else x)
    case Interrupt => Quiet(if T.IsActive(x.state) then x.(state := T.Interrupted, f := FStopping) else x)
    case ProvidersStopped => Quiet(if x.f.FStopping? then x.(f := FNoticePub(Fresh)) else x)
    case Awake => Quiet(if x.f.FYield? then Awakened(x) else x)
    case _ => Quiet(SpeechMove(ReplyMove(cfg, x, m), m))
  }

  // ── The pipeline: all turns, one ledger, one history ────────────────

  datatype Sys = Sys(turns: map<nat, Turn>, current: Option<nat>, ledger: seq<Event>, history: seq<Entry>)

  const Idle := Sys(map[], None, [], [])

  datatype Action =
    | Begin(id: nat, voice: bool, speak: bool, input: string)
    | Step(id: nat, move: Move)

  function NewTurn(voice: bool, speak: bool, input: string): Turn {
    Turn(voice, voice || speak, if voice then "" else input, T.Started, RStart(Fresh), FNone, Silent, "", false)
  }

  /**
   A turn record that is still active when the next turn begins is marked interrupted; no finisher is started for
   it.
   */
  function Displaced(turns: map<nat, Turn>, current: Option<nat>): map<nat, Turn> {
    if current.Some? && current.value in turns && T.IsActive(turns[current.value].state)
    then turns[current.value := turns[current.value].(state := T.Interrupted)] else turns
  }

  /**
   Whether an action can happen: turns begin one at a time under the turn lock, with a new identifier, and only the
   current turn is interrupted.
   */
  ghost predicate Enabled(s: Sys, a: Action) {
    match a
    case Begin(id, _, _, _) => id !in s.turns && forall t | t in s.turns :: s.turns[t].r == RDone
    case Step(id, m) => id in s.turns && (m == Interrupt ==> s.current == Some(id))
  }

  ghost function Exec(cfg: Config, s: Sys, a: Action): Sys {
    if !Enabled(s, a) then s
    else
      match a
      case Begin(id, voice, speak, input) =>
        s.(turns := Displaced(s.turns, s.current)[id := NewTurn(voice, speak, input)], current := Some(id))
      case Step(id, m) =>
        var out := LocalStep(cfg, id, s.turns[id], m);
        Sys(s.turns[id := out.turn], s.current,
            if out.event.Some? then s.ledger + [out.event.value] else s.ledger,
            if out.entry.Some? then s.history + [out.entry.value] else s.history)
  }

  ghost function Run(cfg: Config, actions: seq<Action>): Sys {
    if actions == [] then Idle else Exec(cfg, Run(cfg, actions[..|actions| - 1]), actions[|actions| - 1])
  }
}
