/**
 Runs of the voice pipeline whose phrases are aligned in the numbers and times of their provider: every chunk of
 such a run arrives in order, so nothing that was heard is ever taken back.
 */
module HeardAligned {
  import opened Std
  import T = Turns
  import opened Playback
  import opened VoiceTurn
  import opened HeardText
  import opened HeardRuns

  // ── What playback does not change ───────────────────────────────────

  predicate SameRecord(r: Record, e: Record) {
    r.index == e.index && r.durationMs == e.durationMs && r.alignment == e.alignment
  }

  /** The same segments with the same alignments, whatever was played of them. */
  predicate SameShape(a: TurnAudio, b: TurnAudio) {
    && a.snapshots == b.snapshots && |a.records| == |b.records|
    && forall i | 0 <= i < |a.records| :: SameRecord(a.records[i], b.records[i])
  }

  lemma {:induction false} SameSums(p: seq<Record>, q: seq<Record>)
    requires |p| == |q| && forall i | 0 <= i < |p| :: SameRecord(p[i], q[i])
    ensures NextIndex(p) == NextIndex(q) && TotalDuration(p) == TotalDuration(q)
  {
    if p != [] {
      var n := |p| - 1;
      assert forall i | 0 <= i < n :: SameRecord(p[..n][i], q[..n][i]);
      SameSums(p[..n], q[..n]);
      assert SameRecord(p[n], q[n]);
    }
  }

  lemma SameIsBetween(a: TurnAudio, b: TurnAudio)
    requires SameShape(a, b) && Between(b)
    ensures Between(a)
  {
    SameSums(a.records, b.records);
    forall r | r in a.records ensures r.alignment != [] && 0 <= r.index < NextIndex(a.records) {
      var i :| 0 <= i < |a.records| && a.records[i] == r;
      assert SameRecord(a.records[i], b.records[i]) && b.records[i] in b.records;
    }
    assert Timeline(a) == Timeline(b);
  }

  lemma SameArrival(a: TurnAudio, b: TurnAudio, r: Record)
    requires SameShape(a, b) && InOrderArrival(b, r)
    ensures InOrderArrival(a, r)
  {
    forall e | e in a.records ensures e.index != r.index {
      var i :| 0 <= i < |a.records| && a.records[i] == e;
      assert SameRecord(a.records[i], b.records[i]) && b.records[i] in b.records;
    }
    assert Timeline(a) == Timeline(b) && Timeline(Recorded(a, r)) == Timeline(Recorded(b, r));
  }

  lemma SameWithMore(a: TurnAudio, b: TurnAudio, r: Record, e: Record)
    requires SameShape(a, b) && SameRecord(r, e)
    ensures SameShape(Recorded(a, r), Recorded(b, e))
  {
    var p, q := a.records + [r], b.records + [e];
    forall i | 0 <= i < |p| ensures SameRecord(p[i], q[i]) {
      if i < |a.records| { assert SameRecord(a.records[i], b.records[i]); }
    }
  }

  lemma SameConfirmed(a: TurnAudio, b: TurnAudio, index: int, ms: int, stopped: bool)
    requires SameShape(a, b)
    ensures SameShape(Confirmed(a, index, ms, stopped), b)
  {
    var c := Confirmed(a, index, ms, stopped);
    forall i | 0 <= i < |c.records| ensures SameRecord(c.records[i], b.records[i]) {
      assert SameRecord(a.records[i], b.records[i]);
    }
  }

  // ── The phrases of a run ────────────────────────────────────────────

  /** Whether a chunk that arrives now is recorded. */
  predicate Records(x: Turn) { x.r.RSpeech? && x.r.phrase.Some? && T.IsActive(x.state) }

  /** The chunk as its provider numbers it; what is played of it is decided later. */
  function Received(c: Chunk): Chunk { c.(playedMs := 0) }

  /** The chunks recorded so far, phrase by phrase, after one more move. */
  function PhrasesAfter(x: Turn, m: Move, ps: seq<seq<Chunk>>): seq<seq<Chunk>> {
    match m
    case NextPhrase(_) => if x.r == RSpeech(None) then ps + [[]] else ps
    case ChunkArrives(c) =>
      if Records(x) && ps != [] then ps[..|ps| - 1] + [ps[|ps| - 1] + [Received(c)]] else ps
    case _ => ps
  }

  ghost function PhrasesOf(cfg: Config, actions: seq<Action>, id: nat): seq<seq<Chunk>> {
    if actions == [] then []
    else
      var front, a := actions[..|actions| - 1], actions[|actions| - 1];
      var ps, s := PhrasesOf(cfg, front, id), Run(cfg, front);
      if a.Step? && a.id == id && id in s.turns && Enabled(s, a) then PhrasesAfter(s.turns[id], a.move, ps) else ps
  }

  /** The phrase is complete, and aligned. */
  ghost predicate Whole(p: seq<Chunk>) { AlignedPhrase(p) && ChunkDuration(p) >= 0 }

  /** What there is of the phrase is a beginning of an aligned one. */
  ghost predicate Begun(p: seq<Chunk>) { exists full :: p <= full && AlignedPhrase(full) }

  /** All phrases but the last are complete; the last may still be arriving. */
  ghost predicate PhrasesAligned(ps: seq<seq<Chunk>>) {
    ps == [] || ((forall k | 0 <= k < |ps| - 1 :: Whole(ps[k])) && Begun(ps[|ps| - 1]))
  }

  /** No phrase gets worse: what is aligned now was so before the move. */
  lemma AlignedBefore(x: Turn, m: Move, ps: seq<seq<Chunk>>)
    requires PhrasesAligned(PhrasesAfter(x, m, ps))
    ensures PhrasesAligned(ps)
  {
    var after := PhrasesAfter(x, m, ps);
    if after != ps && ps != [] {
      var last := ps[|ps| - 1];
      if m.NextPhrase? {
        assert after[|ps| - 1] == last && Whole(last);
        assert last <= last;
      } else {
        var full :| after[|ps| - 1] <= full && AlignedPhrase(full);
        assert last <= full;
      }
      forall k | 0 <= k < |ps| - 1 ensures Whole(ps[k]) { assert after[k] == ps[k]; }
    }
  }

  // ── What a run has spoken ───────────────────────────────────────────

  /** The audio of the turn is that of earlier complete phrases and of the chunks of the last one. */
  ghost predicate SpeaksFrom(x: Turn, before: TurnAudio, got: seq<Chunk>) {
    && Between(before) && SameShape(x.audio, After(before, got, |got|))
    && (BasesOf(x.r).Some? ==> BasesOf(x.r) == Some((NextIndex(before.records), TotalDuration(before.records))))
  }

  ghost predicate SpeaksOn(x: Turn, got: seq<Chunk>) { exists before :: SpeaksFrom(x, before, got) }

  ghost predicate Speaks(x: Turn, ps: seq<seq<Chunk>>) {
    if ps == [] then x.audio == Silent && BasesOf(x.r).None? else SpeaksOn(x, ps[|ps| - 1])
  }

  lemma QuietSpeaks(x: Turn, y: Turn, ps: seq<seq<Chunk>>)
    requires Speaks(x, ps) && SameAudio(x, y)
    ensures Speaks(y, ps)
  {
    if ps != [] {
      var before :| SpeaksFrom(x, before, ps[|ps| - 1]);
      assert SpeaksFrom(y, before, ps[|ps| - 1]);
    }
  }

  lemma SilentIsBetween()
    ensures Between(Silent)
  {
    PhrasesAreBetween([]);
  }

  /** The audio after a complete phrase is one between phrases. */
  lemma WholeIsBetween(x: Turn, before: TurnAudio, p: seq<Chunk>)
    requires SpeaksFrom(x, before, p) && Whole(p)
    ensures Between(x.audio)
  {
    PhraseKeepsBetween(before, p);
    AfterEnds(before, p);
    SameIsBetween(x.audio, After(before, p, |p|));
  }

  lemma PhraseSpeaks(cfg: Config, id: nat, x: Turn, text: string, ps: seq<seq<Chunk>>)
    requires Speaks(x, ps) && x.r == RSpeech(None) && PhrasesAligned(ps + [[]])
    ensures Speaks(LocalStep(cfg, id, x, NextPhrase(text)).turn, ps + [[]])
  {
    var y := LocalStep(cfg, id, x, NextPhrase(text)).turn;
    PhraseMove(cfg, id, x, text);
    if ps == [] {
      SilentIsBetween();
    } else {
      assert (ps + [[]])[|ps| - 1] == ps[|ps| - 1] && Whole(ps[|ps| - 1]);
      var before :| SpeaksFrom(x, before, ps[|ps| - 1]);
      WholeIsBetween(x, before, ps[|ps| - 1]);
    }
    AfterEnds(x.audio, []);
    assert SpeaksFrom(y, x.audio, []);
  }

  lemma ArrivingShape(phrase: Phrase, c: Chunk)
    ensures Arriving(phrase, c) == Arriving(phrase, Received(c))
    ensures SameRecord(Arriving(phrase, c), RebasedRecord(Received(c), phrase.base, phrase.baseMs))
  {
  }

  /** The phrase stands on what was spoken before it, and the chunk is its next one. */
  ghost predicate NextChunk(a: TurnAudio, before: TurnAudio, full: seq<Chunk>, j: nat, phrase: Phrase, c: Chunk) {
    && Between(before) && AlignedPhrase(full) && j < |full| && full[j] == Received(c)
    && SameShape(a, After(before, full, j))
    && phrase.base == NextIndex(before.records) && phrase.baseMs == TotalDuration(before.records)
  }

  lemma NextInOrder(a: TurnAudio, before: TurnAudio, full: seq<Chunk>, j: nat, phrase: Phrase, c: Chunk)
    requires NextChunk(a, before, full, j, phrase, c)
    ensures InOrderArrival(a, Arriving(phrase, c))
  {
    assert phrase == Phrase(phrase.text, NextIndex(before.records), TotalDuration(before.records), phrase.first);
    PhraseArrivesInOrder(before, full, j, phrase.text, phrase.first);
    ArrivingShape(phrase, c);
    SameArrival(a, After(before, full, j), Arriving(phrase, c));
  }

  lemma NextKeepsShape(a: TurnAudio, before: TurnAudio, full: seq<Chunk>, j: nat, phrase: Phrase, c: Chunk)
    requires NextChunk(a, before, full, j, phrase, c)
    ensures SameShape(Recorded(a, Arriving(phrase, c)), After(before, full, j + 1))
  {
    var more := RebasedRecord(full[j], phrase.base, phrase.baseMs);
    ArrivingShape(phrase, c);
    NextShape(before, full, j, phrase);
    SameWithMore(a, After(before, full, j), Arriving(phrase, c), more);
    SameTwice(Recorded(a, Arriving(phrase, c)), Recorded(After(before, full, j), more), After(before, full, j + 1));
  }

  lemma AfterPrefix(before: TurnAudio, full: seq<Chunk>, got: seq<Chunk>)
    requires got <= full
    ensures After(before, got, |got|) == After(before, full, |got|)
  {
    assert got[..|got|] == full[..|got|];
  }

  lemma NextOfPhrase(x: Turn, before: TurnAudio, got: seq<Chunk>, c: Chunk, full: seq<Chunk>)
    requires SpeaksFrom(x, before, got) && Records(x) && got + [Received(c)] <= full && AlignedPhrase(full)
    ensures NextChunk(x.audio, before, full, |got|, x.r.phrase.value, c)
  {
    AfterPrefix(before, full, got);
    assert full[|got|] == (got + [Received(c)])[|got|];
    assert BasesOf(x.r) == Some((x.r.phrase.value.base, x.r.phrase.value.baseMs));
  }

  /** One more chunk of a phrase that is aligned arrives in order, and is the next of that phrase. */
  lemma ChunkInOrder(x: Turn, before: TurnAudio, got: seq<Chunk>, c: Chunk)
    requires SpeaksFrom(x, before, got) && Records(x) && Begun(got + [Received(c)])
    ensures InOrderArrival(x.audio, Arriving(x.r.phrase.value, c))
    ensures SameShape(Recorded(x.audio, Arriving(x.r.phrase.value, c)), After(before, got + [Received(c)], |got| + 1))
  {
    var full :| got + [Received(c)] <= full && AlignedPhrase(full);
    NextOfPhrase(x, before, got, c, full);
    NextInOrder(x.audio, before, full, |got|, x.r.phrase.value, c);
    NextKeepsShape(x.audio, before, full, |got|, x.r.phrase.value, c);
    AfterPrefix(before, full, got + [Received(c)]);
  }

  lemma SameTwice(a: TurnAudio, b: TurnAudio, c: TurnAudio)
    requires SameShape(a, b) && SameShape(b, c)
    ensures SameShape(a, c)
  {
    forall i | 0 <= i < |a.records| ensures SameRecord(a.records[i], c.records[i]) {
      assert SameRecord(a.records[i], b.records[i]) && SameRecord(b.records[i], c.records[i]);
    }
  }

  lemma NextSnapshots(before: TurnAudio, chunks: seq<Chunk>, j: nat)
    requires j < |chunks|
    ensures var r := RebasedRecord(chunks[j], NextIndex(before.records), TotalDuration(before.records));
            After(before, chunks, j + 1).snapshots == Recorded(After(before, chunks, j), r).snapshots
  {
    var base, baseMs := NextIndex(before.records), TotalDuration(before.records);
    assert chunks[..j + 1][..j] == chunks[..j];
    ChunkSnapshots(After(before, chunks, j), chunks[j], base, baseMs);
  }

  lemma SameAppended(p: seq<Record>, r: Record, e: Record)
    requires SameRecord(r, e)
    ensures forall i | 0 <= i < |p| + 1 :: SameRecord((p + [r])[i], (p + [e])[i])
  {
  }

  /** Recording the next chunk gives the shape that speaking it gives. */
  lemma NextShape(before: TurnAudio, chunks: seq<Chunk>, j: nat, phrase: Phrase)
    requires Between(before) && AlignedPhrase(chunks) && j < |chunks|
    requires phrase.base == NextIndex(before.records) && phrase.baseMs == TotalDuration(before.records)
    ensures SameShape(Recorded(After(before, chunks, j), RebasedRecord(chunks[j], phrase.base, phrase.baseMs)),
                      After(before, chunks, j + 1))
  {
    var c, a := chunks[j], After(before, chunks, j);
    var r := RebasedRecord(c, phrase.base, phrase.baseMs);
    NextRecord(before, chunks, j);
    NextSnapshots(before, chunks, j);
    SameAppended(a.records, r, Confirm(r, c.playedMs, c.interrupted));
    assert Recorded(a, r).records == a.records + [r];
  }

  lemma ChunkBases(x: Turn, c: Chunk)
    requires Records(x)
    ensures BasesOf(SpeechMove(x, ChunkArrives(c)).r) == BasesOf(x.r)
  {
  }

  /** A recorded chunk is the next one of the phrase that is being spoken. */
  lemma RecordedSpeaks(x: Turn, got: seq<Chunk>, c: Chunk)
    requires SpeaksOn(x, got) && Records(x) && Begun(got + [Received(c)])
    ensures InOrderArrival(x.audio, Arriving(x.r.phrase.value, c))
    ensures SpeaksOn(SpeechMove(x, ChunkArrives(c)), got + [Received(c)])
  {
    var y := SpeechMove(x, ChunkArrives(c));
    var before :| SpeaksFrom(x, before, got);
    ChunkInOrder(x, before, got, c);
    ChunkRecorded(x, c);
    ChunkBases(x, c);
    assert SpeaksFrom(y, before, got + [Received(c)]);
  }

  lemma ChunkSpeaks(cfg: Config, id: nat, x: Turn, c: Chunk, ps: seq<seq<Chunk>>)
    requires Speaks(x, ps) && PhrasesAligned(PhrasesAfter(x, ChunkArrives(c), ps))
    ensures OrderlyMove(x, ChunkArrives(c))
    ensures Speaks(LocalStep(cfg, id, x, ChunkArrives(c)).turn, PhrasesAfter(x, ChunkArrives(c), ps))
  {
    ReplySameAudio(cfg, x, ChunkArrives(c));
    if Records(x) {
      assert BasesOf(x.r).Some? && ps != [];
      RecordedSpeaks(x, ps[|ps| - 1], c);
    } else {
      ChunkIgnored(x, c);
      QuietSpeaks(x, SpeechMove(x, ChunkArrives(c)), ps);
    }
  }

  lemma PlayedSpeaks(x: Turn, got: seq<Chunk>, ms: int, stopped: bool)
    requires SpeaksOn(x, got) && x.r.RPlay?
    ensures SpeaksOn(SpeechMove(x, PlaybackDone(ms, stopped)), got)
  {
    var y := SpeechMove(x, PlaybackDone(ms, stopped));
    var before :| SpeaksFrom(x, before, got);
    SameConfirmed(x.audio, After(before, got, |got|), x.r.index, ms, stopped);
    ChunkPlayed(x, ms, stopped);
    assert SpeaksFrom(y, before, got);
  }

  lemma PlaybackSpeaks(cfg: Config, id: nat, x: Turn, ms: int, stopped: bool, ps: seq<seq<Chunk>>)
    requires Speaks(x, ps)
    ensures Speaks(LocalStep(cfg, id, x, PlaybackDone(ms, stopped)).turn, ps)
  {
    ReplySameAudio(cfg, x, PlaybackDone(ms, stopped));
    if x.r.RPlay? {
      assert BasesOf(x.r).Some? && ps != [];
      PlayedSpeaks(x, ps[|ps| - 1], ms, stopped);
    }
  }

  /** Every move of a turn whose phrases are aligned is orderly, but for the length of what is played. */
  lemma MoveSpeaks(cfg: Config, id: nat, x: Turn, m: Move, ps: seq<seq<Chunk>>)
    requires Speaks(x, ps) && PhrasesAligned(PhrasesAfter(x, m, ps))
    ensures m.PlaybackDone? || OrderlyMove(x, m)
    ensures Speaks(LocalStep(cfg, id, x, m).turn, PhrasesAfter(x, m, ps))
  {
    match m
    case ChunkArrives(c) => ChunkSpeaks(cfg, id, x, c, ps);
    case PlaybackDone(ms, stopped) => PlaybackSpeaks(cfg, id, x, ms, stopped, ps);
    case NextPhrase(text) => NextPhraseSpeaks(cfg, id, x, text, ps);
    case _ => OtherMoveSpeaks(cfg, id, x, m, ps);
  }

  lemma NextPhraseSpeaks(cfg: Config, id: nat, x: Turn, text: string, ps: seq<seq<Chunk>>)
    requires Speaks(x, ps) && PhrasesAligned(PhrasesAfter(x, NextPhrase(text), ps))
    ensures Speaks(LocalStep(cfg, id, x, NextPhrase(text)).turn, PhrasesAfter(x, NextPhrase(text), ps))
  {
    PhraseMove(cfg, id, x, text);
    if x.r == RSpeech(None) { PhraseSpeaks(cfg, id, x, text, ps); }
  }

  lemma OtherMoveSpeaks(cfg: Config, id: nat, x: Turn, m: Move, ps: seq<seq<Chunk>>)
    requires Speaks(x, ps) && !m.ChunkArrives? && !m.PlaybackDone? && !m.NextPhrase?
    ensures Speaks(LocalStep(cfg, id, x, m).turn, ps)
  {
    QuietMove(cfg, id, x, m);
    QuietSpeaks(x, LocalStep(cfg, id, x, m).turn, ps);
  }

  // ── Whole runs ──────────────────────────────────────────────────────

  /** The output never reports a negative length of what it played of this turn. */
  predicate LengthsOk(actions: seq<Action>, id: nat) {
    forall a | a in actions && a.Step? && a.id == id && a.move.PlaybackDone? :: a.move.playedMs >= 0
  }

  lemma {:induction false} RunSpeaks(cfg: Config, actions: seq<Action>, id: nat)
    requires PhrasesAligned(PhrasesOf(cfg, actions, id)) && LengthsOk(actions, id)
    ensures Orderly(cfg, actions, id)
    ensures if id in Run(cfg, actions).turns then Speaks(Run(cfg, actions).turns[id], PhrasesOf(cfg, actions, id))
            else PhrasesOf(cfg, actions, id) == []
  {
    if actions != [] {
      var front, a := actions[..|actions| - 1], actions[|actions| - 1];
      var s, ps := Run(cfg, front), PhrasesOf(cfg, front, id);
      assert forall b | b in front :: b in actions;
      assert a in actions;
      if a.Step? && a.id == id && id in s.turns && Enabled(s, a) {
        AlignedBefore(s.turns[id], a.move, ps);
        RunSpeaks(cfg, front, id);
        MoveSpeaks(cfg, id, s.turns[id], a.move, ps);
      } else {
        RunSpeaks(cfg, front, id);
        StandsStill(cfg, s, a, id, ps);
      }
    }
  }

  /** An action that is not a move of this turn, or cannot happen, changes nothing it has spoken. */
  lemma StandsStill(cfg: Config, s: Sys, a: Action, id: nat, ps: seq<seq<Chunk>>)
    requires !(a.Step? && a.id == id && id in s.turns && Enabled(s, a))
    requires if id in s.turns then Speaks(s.turns[id], ps) else ps == []
    ensures var t := Exec(cfg, s, a); if id in t.turns then Speaks(t.turns[id], ps) else ps == []
  {
    var t := Exec(cfg, s, a);
    if id in s.turns && id in t.turns {
      assert SameAudio(s.turns[id], t.turns[id]);
      QuietSpeaks(s.turns[id], t.turns[id], ps);
    }
  }

  /**
   In every run of the pipeline in which each phrase of a turn is aligned in its provider's own numbers and times,
   or was begun as such: what its user has heard at any moment is a beginning of what is heard at every later one.
   */
  lemma {:induction false} AlignedRunOnlyGrows(cfg: Config, actions: seq<Action>, id: nat, k: nat)
    requires PhrasesAligned(PhrasesOf(cfg, actions, id)) && LengthsOk(actions, id)
    requires k <= |actions| && id in Run(cfg, actions[..k]).turns
    ensures id in Run(cfg, actions).turns
    ensures Hears(Run(cfg, actions[..k]).turns[id].audio, Run(cfg, actions).turns[id].audio)
  {
    RunSpeaks(cfg, actions, id);
    HeardGrowsInRun(cfg, actions, id, k);
  }
}
