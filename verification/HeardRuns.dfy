/**
 Heard text along the runs of the voice pipeline: as long as the chunks of a turn arrive in order, no move of
 any task takes anything back from what its user has heard.
 */
module HeardRuns {
  import opened Std
  import T = Turns
  import opened Playback
  import opened VoiceTurn
  import opened HeardText

  /** The record that an arriving chunk becomes. */
  function Arriving(phrase: Phrase, c: Chunk): Record {
    RebasedRecord(c.(text := if c.text == "" && phrase.first then phrase.text else c.text), phrase.base, phrase.baseMs)
  }

  /** The record carries alignment under a new index, and continues the timeline in order. */
  ghost predicate InOrderArrival(a: TurnAudio, r: Record) {
    && r.alignment != [] && (forall e | e in a.records :: e.index != r.index)
    && Timeline(a) <= Timeline(Recorded(a, r)) && InOrder(Timeline(Recorded(a, r)))
  }

  /** What is asked of the provider and of the output at a move of the turn. */
  ghost predicate OrderlyMove(x: Turn, m: Move) {
    match m
    case ChunkArrives(c) =>
      x.r.RSpeech? && x.r.phrase.Some? && T.IsActive(x.state) ==> InOrderArrival(x.audio, Arriving(x.r.phrase.value, c))
    case PlaybackDone(ms, _) => ms >= 0
    case _ => true
  }

  predicate Unplayed(records: seq<Record>, index: int) {
    forall r | r in records && r.index == index :: r.playedMs == 0
  }

  /** The segment that is published or played has not been confirmed yet. */
  predicate Waiting(x: Turn) {
    && (x.r.RSynthPub? ==> Unplayed(x.audio.records, x.r.index))
    && (x.r.RPlay? ==> Unplayed(x.audio.records, x.r.index))
  }

  ghost predicate AudioOk(x: Turn) { (Aligned(x.audio) || x.audio == Silent) && Waiting(x) }

  /** The index and time bases of the phrase that is being spoken. */
  function BasesOf(r: Response): Option<(int, int)> {
    match r
    case RSpeech(Some(p)) => Some((p.base, p.baseMs))
    case RSynthPub(_, p, _) => Some((p.base, p.baseMs))
    case RPlay(p, _) => Some((p.base, p.baseMs))
    case RPlayedPub(_, p, _) => Some((p.base, p.baseMs))
    case _ => None
  }

  /** A move that leaves the audio, the phrase and what is waiting for playback as they were, or drops them. */
  predicate SameAudio(x: Turn, y: Turn) {
    && y.audio == x.audio
    && (BasesOf(y.r).Some? ==> BasesOf(y.r) == BasesOf(x.r))
    && (y.r.RSynthPub? ==> x.r.RSynthPub? && y.r.index == x.r.index)
    && (y.r.RPlay? ==> (x.r.RSynthPub? || x.r.RPlay?) && y.r.index == x.r.index)
  }

  lemma FailSameAudio(x: Turn, a: bool, b: bool)
    ensures SameAudio(x, FailR(x, a)) && SameAudio(x, FailF(x, a, b)) && SameAudio(x, Cancelled(x))
  {
  }

  lemma RespondSameAudio(cfg: Config, x: Turn, text: string)
    ensures SameAudio(x, Respond(cfg, x)) && SameAudio(x, Complete(x, text))
  {
  }

  lemma SegmentSameAudio(cfg: Config, x: Turn)
    requires x.r.RSynthPub? || x.r.RPlayedPub?
    ensures SameAudio(x, ContinueR(cfg, x))
  {
  }

  lemma ReplySentSameAudio(cfg: Config, x: Turn)
    requires x.r.RReplyPub?
    ensures SameAudio(x, ContinueR(cfg, x))
  {
    FailSameAudio(x, false, false);
    if x.r.streaming {
      RespondSameAudio(cfg, x, PlayedText(x.audio));
    } else {
      RespondSameAudio(cfg, x, x.r.reply);
    }
  }

  lemma StartSameAudio(cfg: Config, x: Turn)
    requires x.r.RStart? || x.r.RAsrPub?
    ensures SameAudio(x, ContinueR(cfg, x))
  {
    FailSameAudio(x, false, false);
    RespondSameAudio(cfg, x, "");
    RespondSameAudio(cfg, x.(userText := x.input), "");
  }

  lemma ContinueSameAudio(cfg: Config, x: Turn)
    ensures SameAudio(x, ContinueR(cfg, x))
  {
    if x.r.RStart? || x.r.RAsrPub? {
      StartSameAudio(cfg, x);
    } else if x.r.RSynthPub? || x.r.RPlayedPub? {
      SegmentSameAudio(cfg, x);
    } else if x.r.RReplyPub? {
      ReplySentSameAudio(cfg, x);
    }
  }

  lemma RejectSameAudio(cfg: Config, x: Turn)
    requires EventR(0, x).Some? && PubR(x).decision == Rejected
    ensures SameAudio(x, ReturnR(cfg, x))
  {
    FailSameAudio(x, true, false);
    FailSameAudio(x, false, false);
  }

  lemma DrainSameAudio(cfg: Config, x: Turn)
    requires EventR(0, x).Some? && PubR(x) == Pub(Accepted, true)
    ensures SameAudio(x, ReturnR(cfg, x))
  {
    FailSameAudio(x, false, false);
  }

  lemma ReturnSameAudio(cfg: Config, x: Turn)
    ensures SameAudio(x, ReturnR(cfg, x))
  {
    if EventR(0, x).Some? && PubR(x).decision != Undecided {
      if PubR(x).decision == Rejected {
        RejectSameAudio(cfg, x);
      } else if PubR(x).drain {
        DrainSameAudio(cfg, x);
      } else {
        ContinueSameAudio(cfg, x);
      }
    }
  }

  lemma NoticeReturns(cfg: Config, id: nat, x: Turn)
    requires x.f.FNoticePub?
    ensures SameAudio(x, ReturnF(cfg, id, x).turn)
  {
    FailSameAudio(x, false, true);
  }

  lemma CompletionReturns(cfg: Config, id: nat, x: Turn)
    requires x.f.FCompletePub?
    ensures SameAudio(x, ReturnF(cfg, id, x).turn)
  {
    FailSameAudio(x, true, false);
  }

  lemma FinisherSameAudio(cfg: Config, id: nat, x: Turn)
    ensures SameAudio(x, ReturnF(cfg, id, x).turn)
  {
    if x.f.FNoticePub? {
      NoticeReturns(cfg, id, x);
    } else if x.f.FCompletePub? {
      CompletionReturns(cfg, id, x);
    }
  }

  lemma AwakeSameAudio(x: Turn)
    ensures SameAudio(x, Awakened(x))
  {
    FailSameAudio(x, false, true);
  }

  lemma LedgerSameAudio(id: nat, x: Turn, accept: bool)
    ensures SameAudio(x, DecideR(id, x, accept).turn)
  {
  }

  lemma NoticeSameAudio(id: nat, x: Turn, accept: bool)
    ensures SameAudio(x, DecideF(id, x, accept).turn)
  {
  }

  lemma CancelSameAudio(x: Turn)
    ensures SameAudio(x, CancelledR(x))
  {
  }

  lemma AsrSameAudio(cfg: Config, x: Turn, m: Move)
    requires m.AsrFails? || m.AsrSilent? || m.AsrHears?
    ensures SameAudio(x, ReplyMove(cfg, x, m))
  {
  }

  lemma ReplySameAudio(cfg: Config, x: Turn, m: Move)
    ensures SameAudio(x, ReplyMove(cfg, x, m))
            && (m.ChunkArrives? || m.PlaybackDone? || m.NextPhrase? ==> ReplyMove(cfg, x, m) == x)
  {
    if m.AsrFails? || m.AsrSilent? || m.AsrHears? { AsrSameAudio(cfg, x, m); }
  }

  lemma SpeechSameAudio(x: Turn, m: Move)
    requires !m.ChunkArrives? && !m.PlaybackDone? && !m.NextPhrase?
    ensures SameAudio(x, SpeechMove(x, m))
  {
  }

  /** A new phrase takes its bases from the audio so far. */
  lemma PhraseMove(cfg: Config, id: nat, x: Turn, text: string)
    ensures var y := LocalStep(cfg, id, x, NextPhrase(text)).turn;
            if x.r == RSpeech(None) then
              y.audio == x.audio && y.r.RSpeech?
              && BasesOf(y.r) == Some((NextIndex(x.audio.records), TotalDuration(x.audio.records)))
            else y == x
  {
  }

  lemma CommitSameAudio(cfg: Config, id: nat, x: Turn, m: Move)
    requires m.CommitRuns? || m.CommitReturns? || m.Interrupt? || m.ProvidersStopped?
    ensures SameAudio(x, LocalStep(cfg, id, x, m).turn)
  {
  }

  lemma WorkSameAudio(cfg: Config, x: Turn, m: Move)
    requires !m.ChunkArrives? && !m.PlaybackDone? && !m.NextPhrase?
    ensures SameAudio(x, SpeechMove(ReplyMove(cfg, x, m), m))
  {
    ReplySameAudio(cfg, x, m);
    SpeechSameAudio(ReplyMove(cfg, x, m), m);
  }

  lemma QuietMove(cfg: Config, id: nat, x: Turn, m: Move)
    requires !m.ChunkArrives? && !m.PlaybackDone? && !m.NextPhrase?
    ensures SameAudio(x, LocalStep(cfg, id, x, m).turn)
  {
    match m
    case LedgerR(accept) => LedgerSameAudio(id, x, accept);
    case LedgerF(accept) => NoticeSameAudio(id, x, accept);
    case CancelR => CancelSameAudio(x);
    case ResumeR => ReturnSameAudio(cfg, x);
    case ResumeF => FinisherSameAudio(cfg, id, x);
    case Awake => AwakeSameAudio(x);
    case CommitRuns => CommitSameAudio(cfg, id, x, m);
    case CommitReturns => CommitSameAudio(cfg, id, x, m);
    case Interrupt => CommitSameAudio(cfg, id, x, m);
    case ProvidersStopped => CommitSameAudio(cfg, id, x, m);
    case _ => WorkSameAudio(cfg, x, m);
  }

  /** Recording a chunk that arrives in order takes nothing back. */
  lemma ArrivalHears(a: TurnAudio, r: Record)
    requires (Aligned(a) || a == Silent) && InOrderArrival(a, r) && r.playedMs == 0
    ensures Aligned(Recorded(a, r)) && Hears(a, Recorded(a, r)) && Unplayed(Recorded(a, r).records, r.index)
  {
    var b := Recorded(a, r);
    LastReach(a.records, r);
    assert r.alignment[0] in r.alignment && r.alignment[0].chunkSeq in b.snapshots;
    InOrderIsAligned(b, Timeline(b));
    HeardGrows(a, b);
  }

  /** What an arriving chunk does to the turn. */
  lemma ChunkRecorded(x: Turn, c: Chunk)
    requires x.r.RSpeech? && x.r.phrase.Some? && T.IsActive(x.state)
    ensures var y, r := SpeechMove(x, ChunkArrives(c)), Arriving(x.r.phrase.value, c);
            y.audio == Recorded(x.audio, r) && y.r.RSynthPub? && y.r.index == r.index && r.playedMs == 0
  {
  }

  lemma ChunkIgnored(x: Turn, c: Chunk)
    requires !(x.r.RSpeech? && x.r.phrase.Some? && T.IsActive(x.state))
    ensures SameAudio(x, SpeechMove(x, ChunkArrives(c)))
  {
  }

  lemma ChunkMove(cfg: Config, id: nat, x: Turn, c: Chunk)
    requires AudioOk(x) && OrderlyMove(x, ChunkArrives(c))
    ensures var y := LocalStep(cfg, id, x, ChunkArrives(c)).turn; AudioOk(y) && Hears(x.audio, y.audio)
  {
    ReplySameAudio(cfg, x, ChunkArrives(c));
    assert LocalStep(cfg, id, x, ChunkArrives(c)).turn == SpeechMove(x, ChunkArrives(c));
    if x.r.RSpeech? && x.r.phrase.Some? && T.IsActive(x.state) {
      ChunkRecorded(x, c);
      ArrivalHears(x.audio, Arriving(x.r.phrase.value, c));
    } else {
      ChunkIgnored(x, c);
    }
  }

  /** What the end of playback does to the turn. */
  lemma ChunkPlayed(x: Turn, ms: int, stopped: bool)
    requires x.r.RPlay?
    ensures var y := SpeechMove(x, PlaybackDone(ms, stopped));
            y.audio == Confirmed(x.audio, x.r.index, ms, stopped) && y.r.RPlayedPub? && BasesOf(y.r) == BasesOf(x.r)
  {
  }

  /** Confirming a segment that was not confirmed before takes nothing back. */
  lemma ConfirmHears(a: TurnAudio, index: int, ms: int, stopped: bool)
    requires (Aligned(a) || a == Silent) && Unplayed(a.records, index) && ms >= 0
    ensures var b := Confirmed(a, index, ms, stopped); (Aligned(b) || b == Silent) && Hears(a, b)
  {
    if Aligned(a) { ConfirmExtends(a, index, ms, stopped); }
  }

  lemma PlaybackMove(cfg: Config, id: nat, x: Turn, ms: int, stopped: bool)
    requires AudioOk(x) && ms >= 0
    ensures var y := LocalStep(cfg, id, x, PlaybackDone(ms, stopped)).turn; AudioOk(y) && Hears(x.audio, y.audio)
  {
    ReplySameAudio(cfg, x, PlaybackDone(ms, stopped));
    if x.r.RPlay? {
      ChunkPlayed(x, ms, stopped);
      ConfirmHears(x.audio, x.r.index, ms, stopped);
    } else {
      assert SpeechMove(x, PlaybackDone(ms, stopped)) == x;
    }
  }

  /** No orderly move of either task takes anything back from what was heard. */
  lemma MoveHears(cfg: Config, id: nat, x: Turn, m: Move)
    requires AudioOk(x) && OrderlyMove(x, m)
    ensures var y := LocalStep(cfg, id, x, m).turn; AudioOk(y) && Hears(x.audio, y.audio)
  {
    match m
    case ChunkArrives(c) => ChunkMove(cfg, id, x, c);
    case PlaybackDone(ms, stopped) => PlaybackMove(cfg, id, x, ms, stopped);
    case NextPhrase(text) => PhraseMove(cfg, id, x, text);
    case _ => QuietMove(cfg, id, x, m);
  }

  /** Every move of this turn in the run was orderly. */
  ghost predicate Orderly(cfg: Config, actions: seq<Action>, id: nat) {
    actions == [] ||
    (var before, a := Run(cfg, actions[..|actions| - 1]), actions[|actions| - 1];
     && Orderly(cfg, actions[..|actions| - 1], id)
     && (a.Step? && a.id == id && id in before.turns ==> OrderlyMove(before.turns[id], a.move)))
  }

  lemma ActionHears(cfg: Config, s: Sys, a: Action, id: nat)
    requires id in s.turns ==> AudioOk(s.turns[id])
    requires a.Step? && a.id == id && id in s.turns ==> OrderlyMove(s.turns[id], a.move)
    ensures var t := Exec(cfg, s, a);
            && (id in t.turns ==> AudioOk(t.turns[id]))
            && (id in s.turns ==> id in t.turns && Hears(s.turns[id].audio, t.turns[id].audio))
  {
    if Enabled(s, a) && a.Step? && a.id == id { MoveHears(cfg, id, s.turns[id], a.move); }
  }

  lemma {:induction false} RunAudioOk(cfg: Config, actions: seq<Action>, id: nat)
    requires Orderly(cfg, actions, id)
    ensures id in Run(cfg, actions).turns ==> AudioOk(Run(cfg, actions).turns[id])
  {
    if actions != [] {
      var front, a := actions[..|actions| - 1], actions[|actions| - 1];
      RunAudioOk(cfg, front, id);
      ActionHears(cfg, Run(cfg, front), a, id);
    }
  }

  /**
   In every run of the pipeline in which the chunks of a turn arrive in order: what its user has heard at any
   moment is a beginning of what has been heard at every later one, whatever the tasks do in between.
   */
  lemma {:induction false} HeardGrowsInRun(cfg: Config, actions: seq<Action>, id: nat, k: nat)
    requires Orderly(cfg, actions, id) && k <= |actions| && id in Run(cfg, actions[..k]).turns
    ensures id in Run(cfg, actions).turns
    ensures Hears(Run(cfg, actions[..k]).turns[id].audio, Run(cfg, actions).turns[id].audio)
    decreases |actions|
  {
    if k == |actions| {
      assert actions[..k] == actions;
    } else {
      var front, a := actions[..|actions| - 1], actions[|actions| - 1];
      assert front[..k] == actions[..k];
      HeardGrowsInRun(cfg, front, id, k);
      RunAudioOk(cfg, front, id);
      ActionHears(cfg, Run(cfg, front), a, id);
      HearsOn(Run(cfg, actions[..k]).turns[id].audio, Run(cfg, front).turns[id].audio,
              Run(cfg, actions).turns[id].audio);
    }
  }

  // ── Aligned phrases arrive in order ─────────────────────────────────

  lemma RecordedLine(a: TurnAudio, c: Chunk, d: Chunk, base: int, baseMs: int)
    requires d == c.(text := d.text)
    ensures Timeline(Recorded(a, RebasedRecord(d, base, baseMs))) == Timeline(SpeakChunk(a, c, base, baseMs))
  {
    assert Recorded(a, RebasedRecord(d, base, baseMs)).snapshots == SpeakChunk(a, c, base, baseMs).snapshots;
  }

  lemma NewIndex(before: TurnAudio, chunks: seq<Chunk>, j: nat)
    requires Between(before) && AlignedPhrase(chunks) && j < |chunks|
    ensures forall e | e in After(before, chunks, j).records :: e.index != NextIndex(before.records) + chunks[j].index
  {
    assert chunks[..j + 1][..j] == chunks[..j];
    PrefixOk(chunks, j);
    PrefixOk(chunks, j + 1);
    PhraseKeeps(before, chunks[..j], TotalDuration(before.records));
    NewIndexUnused(before, After(before, chunks, j), chunks[..j + 1]);
  }

  lemma NextLine(before: TurnAudio, chunks: seq<Chunk>, j: nat)
    requires Between(before) && AlignedPhrase(chunks) && j < |chunks|
    ensures var next := SpeakChunk(After(before, chunks, j), chunks[j], NextIndex(before.records),
                                   TotalDuration(before.records));
            Timeline(After(before, chunks, j)) <= Timeline(next) && InOrder(Timeline(next))
  {
    assert chunks[..j + 1][..j] == chunks[..j];
    LinesNest(before, chunks, j);
    InsidePhrase(before, chunks, j + 1);
  }

  /** The next chunk of a phrase that is aligned in its own numbers and times arrives in order. */
  lemma PhraseArrivesInOrder(before: TurnAudio, chunks: seq<Chunk>, j: nat, text: string, first: bool)
    requires Between(before) && AlignedPhrase(chunks) && j < |chunks|
    ensures var phrase := Phrase(text, NextIndex(before.records), TotalDuration(before.records), first);
            InOrderArrival(After(before, chunks, j), Arriving(phrase, chunks[j]))
  {
    var base, baseMs, c := NextIndex(before.records), TotalDuration(before.records), chunks[j];
    var d := c.(text := if c.text == "" && first then text else c.text);
    assert c in chunks && RebaseAll(c.alignment, base, baseMs) != [];
    RecordedLine(After(before, chunks, j), c, d, base, baseMs);
    NextLine(before, chunks, j);
    NewIndex(before, chunks, j);
    assert Arriving(Phrase(text, base, baseMs, first), c) == RebasedRecord(d, base, baseMs);
  }
}
