/**
 Playback confirmation: which synthesized audio of a turn was heard, and the text that the
 confirmed playback stands for.
 */
module Playback {
  import opened Std

  datatype Segment = Segment(text: string, startMs: int, endMs: int, chunkSeq: int)

  datatype Record = Record(
    index: int,
    durationMs: int,
    playedMs: int,
    interrupted: bool,
    fraction: real,
    text: string,
    startMs: int,
    alignment: seq<Segment>)

  /** Everything the protocol keeps for one turn. */
  datatype TurnAudio = TurnAudio(records: seq<Record>, snapshots: map<int, seq<Segment>>)

  const Silent := TurnAudio([], map[])

  // ── Stable sorting by an integer key ────────────────────────────────

  datatype Keyed = Keyed(key: int, text: string)

  ghost predicate Ordered(s: seq<Keyed>) {
    forall i, j :: 0 <= i < j < |s| ==> s[i].key <= s[j].key
  }

  function Insert(s: seq<Keyed>, x: Keyed): (r: seq<Keyed>)
    ensures |r| == |s| + 1
  {
    if s == [] || s[|s| - 1].key <= x.key then s + [x] else Insert(s[..|s| - 1], x) + [s[|s| - 1]]
  }

  function StableSort(s: seq<Keyed>): seq<Keyed> {
    if s == [] then [] else Insert(StableSort(s[..|s| - 1]), s[|s| - 1])
  }

  function WithKey(s: seq<Keyed>, k: int): seq<Keyed> { Filter(s, (e: Keyed) => e.key == k) }

  lemma {:induction false} InsertOrdered(s: seq<Keyed>, x: Keyed, top: int)
    requires Ordered(s)
    requires x.key <= top && forall e | e in s :: e.key <= top
    ensures Ordered(Insert(s, x))
    ensures forall e | e in Insert(s, x) :: e.key <= top
  {
    if s != [] && s[|s| - 1].key > x.key {
      var last := s[|s| - 1];
      InsertOrdered(s[..|s| - 1], x, last.key);
      var r := Insert(s[..|s| - 1], x);
      forall i, j | 0 <= i < j < |r| + 1 ensures (r + [last])[i].key <= (r + [last])[j].key {
        assert r[i] in r;
      }
    }
  }

  lemma {:induction false} InsertMultiset(s: seq<Keyed>, x: Keyed)
    ensures multiset(Insert(s, x)) == multiset(s) + multiset{x}
  {
    if s != [] && s[|s| - 1].key > x.key {
      InsertMultiset(s[..|s| - 1], x);
      assert s == s[..|s| - 1] + [s[|s| - 1]];
    }
  }

  lemma {:induction false} InsertStable(s: seq<Keyed>, x: Keyed, p: Keyed -> bool)
    requires forall e | e in s && e.key > x.key :: !(p(e) && p(x))
    ensures Filter(Insert(s, x), p) == Filter(s, p) + (if p(x) then [x] else [])
  {
    if s == [] || s[|s| - 1].key <= x.key {
      assert (s + [x])[..|s|] == s;
    } else {
      var init, last := s[..|s| - 1], s[|s| - 1];
      InsertStable(init, x, p);
      assert last in s;
      assert (Insert(init, x) + [last])[..|Insert(init, x)|] == Insert(init, x);
    }
  }

  lemma {:induction false} SortIsOrdered(s: seq<Keyed>, top: int)
    requires forall e | e in s :: e.key <= top
    ensures Ordered(StableSort(s))
    ensures forall e | e in StableSort(s) :: e.key <= top
  {
    if s != [] {
      SortIsOrdered(s[..|s| - 1], top);
      assert s[|s| - 1] in s;
      InsertOrdered(StableSort(s[..|s| - 1]), s[|s| - 1], top);
    }
  }

  lemma {:induction false} SortPermutes(s: seq<Keyed>)
    ensures multiset(StableSort(s)) == multiset(s)
  {
    if s != [] {
      SortPermutes(s[..|s| - 1]);
      InsertMultiset(StableSort(s[..|s| - 1]), s[|s| - 1]);
      assert s == s[..|s| - 1] + [s[|s| - 1]];
    }
  }

  lemma {:induction false} SortIsStable(s: seq<Keyed>, k: int)
    ensures WithKey(StableSort(s), k) == WithKey(s, k)
  {
    if s != [] {
      SortIsStable(s[..|s| - 1], k);
      InsertStable(StableSort(s[..|s| - 1]), s[|s| - 1], (e: Keyed) => e.key == k);
    }
  }

  function TopKey(s: seq<Keyed>): (top: int)
    ensures forall e | e in s :: e.key <= top
  {
    if s == [] then 0
    else
      assert s == s[..|s| - 1] + [s[|s| - 1]];
      Max(TopKey(s[..|s| - 1]), s[|s| - 1].key)
  }

  /** The sort orders by key, loses and invents nothing, and keeps equal keys in their given order. */
  lemma {:induction false} StableSortSpec(s: seq<Keyed>)
    ensures Ordered(StableSort(s))
    ensures multiset(StableSort(s)) == multiset(s)
    ensures forall k :: WithKey(StableSort(s), k) == WithKey(s, k)
  {
    SortIsOrdered(s, TopKey(s));
    SortPermutes(s);
    forall k ensures WithKey(StableSort(s), k) == WithKey(s, k) {
      SortIsStable(s, k);
    }
  }

  lemma {:induction false} SortOfOrdered(s: seq<Keyed>)
    requires Ordered(s)
    ensures StableSort(s) == s
  {
    if s != [] {
      SortOfOrdered(s[..|s| - 1]);
      assert s == s[..|s| - 1] + [s[|s| - 1]];
    }
  }

  function Join(s: seq<Keyed>): string {
    if s == [] then "" else Join(s[..|s| - 1]) + s[|s| - 1].text
  }

  lemma {:induction false} JoinConcat(a: seq<Keyed>, b: seq<Keyed>)
    ensures Join(a + b) == Join(a) + Join(b)
  {
    if b == [] {
      assert a + b == a;
    } else {
      assert (a + b)[..|a + b| - 1] == a + b[..|b| - 1];
      JoinConcat(a, b[..|b| - 1]);
    }
  }

  // ── The text that was heard ─────────────────────────────────────────

  function JoinSegments(s: seq<Segment>): string {
    if s == [] then "" else JoinSegments(s[..|s| - 1]) + s[|s| - 1].text
  }

  function EffectiveText(r: Record): string {
    if r.alignment != [] && r.playedMs > 0 then
      JoinSegments(Filter(r.alignment, (s: Segment) => s.endMs <= r.startMs + r.playedMs))
    else if !r.interrupted && r.fraction >= 0.95 then r.text
    else if r.fraction > 0.8 then r.text
    else
      var count := (|r.text| as real * r.fraction).Floor;
      if 0 < count <= |r.text| then r.text[..count]
      else if count > 0 then r.text else "[interrupted]"
  }

  function Played(records: seq<Record>): seq<Record> {
    Filter(records, (r: Record) => r.playedMs > 0)
  }

  /** The latest instant of the turn's timeline that playback reached. */
  function PlayedUntil(played: seq<Record>): int
    requires played != []
  {
    var last := played[|played| - 1];
    var reach := last.startMs + last.playedMs;
    if |played| == 1 then reach else Max(PlayedUntil(played[..|played| - 1]), reach)
  }

  function Line(snapshots: map<int, seq<Segment>>, keys: seq<int>): seq<Segment>
    requires forall i :: 0 <= i < |keys| ==> keys[i] in snapshots
  {
    if keys == [] then [] else snapshots[keys[0]] + Line(snapshots, keys[1..])
  }

  /** All aligned segments of the turn, in chunk order. */
  ghost function Timeline(a: TurnAudio): seq<Segment> {
    SortedKeysSpec(a.snapshots.Keys);
    Line(a.snapshots, SortedKeys(a.snapshots.Keys))
  }

  function SegmentKeyed(s: seq<Segment>): seq<Keyed> {
    seq(|s|, i requires 0 <= i < |s| => Keyed(s[i].startMs, s[i].text))
  }

  /** Heard records that carry text but no alignment. */
  function LooseKeyed(played: seq<Record>): seq<Keyed> {
    var loose := Filter(played, (r: Record) => r.alignment == [] && r.text != "");
    seq(|loose|, i requires 0 <= i < |loose| => Keyed(loose[i].startMs, EffectiveText(loose[i])))
  }

  function HeardSegments(line: seq<Segment>, until: int): seq<Segment> {
    Filter(line, (s: Segment) => s.endMs <= until)
  }

  /** The text communicated in a turn. */
  ghost function PlayedText(a: TurnAudio): string {
    var played := Played(a.records);
    if played != [] && a.snapshots != map[] then
      Join(StableSort(SegmentKeyed(HeardSegments(Timeline(a), PlayedUntil(played))) + LooseKeyed(played)))
    else
      Join(StableSort(seq(|played|, i requires 0 <= i < |played| => Keyed(played[i].index, EffectiveText(played[i])))))
  }

  predicate AnyPlayed(a: TurnAudio) {
    exists r :: r in a.records && r.playedMs > 0
  }

  lemma {:induction false} FilterMember<T>(s: seq<T>, p: T -> bool, x: T)
    ensures x in Filter(s, p) <==> x in s && p(x)
  {
    if s != [] {
      FilterMember(s[..|s| - 1], p, x);
      assert s == s[..|s| - 1] + [s[|s| - 1]];
    }
  }

  /** Non-empty communicated text implies that some audio was confirmed as played. */
  lemma TextNeedsPlayback(a: TurnAudio)
    requires PlayedText(a) != ""
    ensures AnyPlayed(a)
  {
    var played := Played(a.records);
    if played != [] {
      FilterMember(a.records, (r: Record) => r.playedMs > 0, played[0]);
    }
  }

  // ── Updates ─────────────────────────────────────────────────────────

  function ByChunk(alignment: seq<Segment>): map<int, seq<Segment>> {
    var numbers := set s | s in alignment :: s.chunkSeq;
    map k | k in numbers :: Filter(alignment, (s: Segment) => s.chunkSeq == k)
  }

  function Recorded(a: TurnAudio, r: Record): TurnAudio {
    TurnAudio(a.records + [r], a.snapshots + ByChunk(r.alignment))
  }

  function Fraction(playedMs: int, durationMs: int): real {
    var f := if durationMs > 0 then playedMs as real / durationMs as real else 1.0;
    if f < 0.0 then 0.0 else if f > 1.0 then 1.0 else f
  }

  function Confirm(r: Record, playedMs: int, interrupted: bool): Record {
    r.(playedMs := playedMs, interrupted := interrupted, fraction := Fraction(playedMs, r.durationMs))
  }

  /** Position of the first record with the given segment index, or the number of records. */
  function Find(records: seq<Record>, index: int): (i: nat)
    ensures i <= |records|
    ensures i < |records| ==> records[i].index == index
    ensures forall j :: 0 <= j < i ==> records[j].index != index
  {
    if records == [] then 0
    else if records[0].index == index then 0
    else 1 + Find(records[1..], index)
  }

  function Confirmed(a: TurnAudio, index: int, playedMs: int, interrupted: bool): TurnAudio {
    var i := Find(a.records, index);
    if i == |a.records| then a
    else a.(records := a.records[i := Confirm(a.records[i], playedMs, interrupted)])
  }

  function NextIndex(records: seq<Record>): int {
    if records == [] then 0 else Max(NextIndex(records[..|records| - 1]), records[|records| - 1].index + 1)
  }

  function TotalDuration(records: seq<Record>): int {
    if records == [] then 0 else TotalDuration(records[..|records| - 1]) + records[|records| - 1].durationMs
  }

  function Of(turns: map<string, TurnAudio>, id: string): TurnAudio {
    if id in turns then turns[id] else Silent
  }

  class AudioConfirmationProtocol {
    var turns: map<string, TurnAudio>

    constructor ()
      ensures turns == map[]
    {
      turns := map[];
    }

    /** Records that synthesis produced one audio segment. */
    method RecordSynthesis(id: string, index: int, durationMs: int, text: string, startMs: int, alignment: seq<Segment>)
      modifies this
      ensures turns == old(turns)[id := Recorded(Of(old(turns), id),
                                          Record(index, durationMs, 0, false, 1.0, text, startMs, alignment))]
    {
      var record := Record(index, durationMs, 0, false, 1.0, text, startMs, alignment);
      turns := turns[id := Recorded(Of(turns, id), record)];
    }

    /** Updates the first record with this index; an unknown segment changes nothing. */
    method ConfirmPlayed(id: string, index: int, playedMs: int, interrupted: bool) returns (found: Option<Record>)
      modifies this
      ensures found.None? <==> forall r | r in Of(old(turns), id).records :: r.index != index
      ensures found.Some? ==> found.value in Of(turns, id).records && found.value.index == index
                              && found.value.playedMs == playedMs
      ensures Of(turns, id) == Confirmed(Of(old(turns), id), index, playedMs, interrupted)
      ensures forall other | other != id :: Of(turns, other) == Of(old(turns), other)
    {
      var audio := Of(turns, id);
      var i := 0;
      while i < |audio.records|
        invariant 0 <= i <= |audio.records|
        invariant turns == old(turns) && audio == Of(turns, id)
        invariant forall j :: 0 <= j < i ==> audio.records[j].index != index
      {
        if audio.records[i].index == index {
          var updated := Confirm(audio.records[i], playedMs, interrupted);
          turns := turns[id := audio.(records := audio.records[i := updated])];
          assert i == Find(audio.records, index);
          assert updated == Of(turns, id).records[i];
          return Some(updated);
        }
        i := i + 1;
      }
      found := None;
    }
  }

  // ── Aligned turns: the heard text is a growing prefix ───────────────

  /** Chunks carry alignment whose times do not go backwards in chunk order. */
  ghost predicate Aligned(a: TurnAudio) {
    && a.snapshots != map[]
    && (forall r | r in a.records :: r.alignment != [])
    && (var line := Timeline(a); forall i, j :: 0 <= i < j < |line| ==>
          line[i].startMs <= line[j].startMs && line[i].endMs <= line[j].endMs)
  }

  function HeardCount(line: seq<Segment>, until: int): (n: nat)
    ensures n <= |line|
  {
    if line == [] then 0
    else HeardCount(line[..|line| - 1], until) + (if line[|line| - 1].endMs <= until then 1 else 0)
  }

  lemma {:induction false} HeardIsTake(line: seq<Segment>, until: int)
    requires forall i, j :: 0 <= i < j < |line| ==> line[i].endMs <= line[j].endMs
    ensures HeardSegments(line, until) == line[..HeardCount(line, until)]
    ensures HeardCount(line, until) == |line| <==> line == [] || line[|line| - 1].endMs <= until
  {
    if line != [] {
      var init, last := line[..|line| - 1], line[|line| - 1];
      HeardIsTake(init, until);
      if last.endMs <= until {
        assert init == [] || init[|init| - 1].endMs <= until;
        assert init[..HeardCount(init, until)] == init;
        assert line == init + [last];
      }
    }
  }

  lemma {:induction false} HeardCountMonotone(line: seq<Segment>, a: int, b: int)
    requires a <= b
    ensures HeardCount(line, a) <= HeardCount(line, b)
  {
    if line != [] { HeardCountMonotone(line[..|line| - 1], a, b); }
  }

  lemma {:induction false} FilterNone<T>(s: seq<T>, p: T -> bool)
    requires forall x | x in s :: !p(x)
    ensures Filter(s, p) == []
  {
    if s != [] { FilterNone(s[..|s| - 1], p); }
  }

  lemma {:induction false} JoinOfSegments(s: seq<Segment>)
    ensures Join(SegmentKeyed(s)) == JoinSegments(s)
  {
    if s != [] {
      JoinOfSegments(s[..|s| - 1]);
      assert SegmentKeyed(s)[..|s| - 1] == SegmentKeyed(s[..|s| - 1]);
    }
  }

  lemma {:induction false} JoinSegmentsConcat(a: seq<Segment>, b: seq<Segment>)
    ensures JoinSegments(a + b) == JoinSegments(a) + JoinSegments(b)
  {
    if b == [] {
      assert a + b == a;
    } else {
      assert (a + b)[..|a + b| - 1] == a + b[..|b| - 1];
      JoinSegmentsConcat(a, b[..|b| - 1]);
    }
  }

  /** On an aligned turn the heard text is the text of the first heard segments of the timeline. */
  lemma AlignedTextIsTake(a: TurnAudio)
    requires Aligned(a) && Played(a.records) != []
    ensures var until := PlayedUntil(Played(a.records));
            PlayedText(a) == JoinSegments(Timeline(a)[..HeardCount(Timeline(a), until)])
  {
    var played, line := Played(a.records), Timeline(a);
    var until := PlayedUntil(played);
    HeardIsTake(line, until);
    var heard := line[..HeardCount(line, until)];
    forall r | r in played ensures !(r.alignment == [] && r.text != "") {
      FilterMember(a.records, (r: Record) => r.playedMs > 0, r);
    }
    FilterNone(played, (r: Record) => r.alignment == [] && r.text != "");
    assert SegmentKeyed(heard) + LooseKeyed(played) == SegmentKeyed(heard);
    SortOfOrdered(SegmentKeyed(heard));
    JoinOfSegments(heard);
  }

  lemma {:induction false} TakeIsPrefix(line: seq<Segment>, until: int)
    requires forall i, j :: 0 <= i < j < |line| ==> line[i].endMs <= line[j].endMs
    ensures JoinSegments(line[..HeardCount(line, until)]) <= JoinSegments(line)
    ensures line != [] && line[|line| - 1].endMs <= until ==> line[..HeardCount(line, until)] == line
  {
    var n := HeardCount(line, until);
    HeardIsTake(line, until);
    JoinSegmentsConcat(line[..n], line[n..]);
    assert line[..n] + line[n..] == line;
  }

  /** The heard text is a prefix of the aligned text, and all of it once playback reached the end. */
  lemma HeardIsPrefix(a: TurnAudio)
    requires Aligned(a)
    ensures PlayedText(a) <= JoinSegments(Timeline(a))
    ensures Played(a.records) != [] && Timeline(a) != []
            && Timeline(a)[|Timeline(a)| - 1].endMs <= PlayedUntil(Played(a.records))
            ==> PlayedText(a) == JoinSegments(Timeline(a))
  {
    if Played(a.records) != [] {
      AlignedTextIsTake(a);
      TakeIsPrefix(Timeline(a), PlayedUntil(Played(a.records)));
    }
  }

  lemma LastReach(init: seq<Record>, last: Record)
    ensures Played(init + [last]) == if last.playedMs > 0 then Played(init) + [last] else Played(init)
    ensures last.playedMs > 0 ==>
              PlayedUntil(Played(init + [last]))
              == if Played(init) == [] then last.startMs + last.playedMs
                 else Max(PlayedUntil(Played(init)), last.startMs + last.playedMs)
  {
    assert (init + [last])[..|init|] == init;
    if last.playedMs > 0 {
      assert (Played(init) + [last])[..|Played(init)|] == Played(init);
    }
  }

  ghost predicate ReachesFurther(p: seq<Record>, q: seq<Record>) {
    Played(p) != [] ==> Played(q) != [] && PlayedUntil(Played(p)) <= PlayedUntil(Played(q))
  }

  lemma LastUpdateReaches(init: seq<Record>, last: Record, r: Record)
    requires r.startMs == last.startMs && r.playedMs >= last.playedMs
    ensures ReachesFurther(init + [last], init + [r])
  {
    LastReach(init, last);
    LastReach(init, r);
  }

  lemma SameLastReaches(p: seq<Record>, q: seq<Record>, last: Record)
    requires ReachesFurther(p, q)
    ensures ReachesFurther(p + [last], q + [last])
  {
    LastReach(p, last);
    LastReach(q, last);
  }

  lemma {:induction false} UpdateExtendsReach(records: seq<Record>, i: nat, r: Record)
    requires i < |records|
    requires r.startMs == records[i].startMs && r.playedMs >= records[i].playedMs
    ensures ReachesFurther(records, records[i := r])
  {
    var init, last := records[..|records| - 1], records[|records| - 1];
    assert records == init + [last];
    if i == |records| - 1 {
      LastUpdateReaches(init, last, r);
      assert records[i := r] == init + [r];
    } else {
      UpdateExtendsReach(init, i, r);
      SameLastReaches(init, init[i := r], last);
      assert records[i := r] == init[i := r] + [last];
    }
  }

  lemma {:induction false} TakesNest(line: seq<Segment>, a: int, b: int)
    requires a <= b
    ensures JoinSegments(line[..HeardCount(line, a)]) <= JoinSegments(line[..HeardCount(line, b)])
  {
    var m, n := HeardCount(line, a), HeardCount(line, b);
    HeardCountMonotone(line, a, b);
    JoinSegmentsConcat(line[..m], line[m..n]);
    assert line[..m] + line[m..n] == line[..n];
  }

  /** Confirming more playback of a segment only extends the heard text. */
  lemma ConfirmExtends(a: TurnAudio, index: int, playedMs: int, interrupted: bool)
    requires Aligned(a)
    requires forall r | r in a.records && r.index == index :: r.playedMs <= playedMs
    ensures Aligned(Confirmed(a, index, playedMs, interrupted))
    ensures PlayedText(a) <= PlayedText(Confirmed(a, index, playedMs, interrupted))
  {
    var b := Confirmed(a, index, playedMs, interrupted);
    var i := Find(a.records, index);
    if i < |a.records| {
      var r := Confirm(a.records[i], playedMs, interrupted);
      assert a.records[i] in a.records;
      assert r.alignment != [];
      assert forall e | e in b.records :: e == r || e in a.records;
      assert Timeline(b) == Timeline(a);
      if Played(a.records) != [] {
        UpdateExtendsReach(a.records, i, r);
        AlignedTextIsTake(a);
        AlignedTextIsTake(b);
        TakesNest(Timeline(a), PlayedUntil(Played(a.records)), PlayedUntil(Played(b.records)));
      }
    }
  }

  // ── Phrases: rebasing of indices, chunk numbers and times ───────────

  const CHUNK_SPAN := 1_000_000_000

  /** One synthesized chunk as the provider numbers it inside its phrase, with its playback outcome. */
  datatype Chunk = Chunk(
    index: int, durationMs: int, text: string, startMs: int, alignment: seq<Segment>,
    playedMs: int, interrupted: bool)

  function Rebase(s: Segment, base: int, baseMs: int): Segment {
    Segment(s.text, s.startMs + baseMs, s.endMs + baseMs, base * CHUNK_SPAN + s.chunkSeq)
  }

  function RebaseAll(s: seq<Segment>, base: int, baseMs: int): seq<Segment> {
    seq(|s|, i requires 0 <= i < |s| => Rebase(s[i], base, baseMs))
  }

  function RebasedRecord(c: Chunk, base: int, baseMs: int): Record {
    Record(base + c.index, c.durationMs, 0, false, 1.0, c.text, baseMs + c.startMs,
           RebaseAll(c.alignment, base, baseMs))
  }

  /** Records one chunk and then confirms its playback. */
  function SpeakChunk(a: TurnAudio, c: Chunk, base: int, baseMs: int): TurnAudio {
    Confirmed(Recorded(a, RebasedRecord(c, base, baseMs)), base + c.index, c.playedMs, c.interrupted)
  }

  /** Speaks the chunks of one phrase whose bases were fixed when it began. */
  function SpeakChunks(a: TurnAudio, chunks: seq<Chunk>, base: int, baseMs: int): TurnAudio {
    if chunks == [] then a
    else SpeakChunk(SpeakChunks(a, chunks[..|chunks| - 1], base, baseMs), chunks[|chunks| - 1], base, baseMs)
  }

  function SpeakPhrases(phrases: seq<seq<Chunk>>): TurnAudio {
    if phrases == [] then Silent
    else
      var before := SpeakPhrases(phrases[..|phrases| - 1]);
      SpeakChunks(before, phrases[|phrases| - 1], NextIndex(before.records), TotalDuration(before.records))
  }

  /** What the provider promises inside one phrase. */
  ghost predicate PhraseOk(chunks: seq<Chunk>) {
    && (forall c | c in chunks :: c.index >= 0)
    && (forall i, j :: 0 <= i < j < |chunks| ==> chunks[i].index != chunks[j].index)
    && (forall c | c in chunks :: forall s | s in c.alignment :: 0 <= s.chunkSeq < CHUNK_SPAN)
  }

  ghost predicate DistinctIndices(records: seq<Record>) {
    forall i, j :: 0 <= i < j < |records| ==> records[i].index != records[j].index
  }

  /** Later segment indices and chunk numbers lie above every recorded one. */
  ghost predicate Bounded(a: TurnAudio) {
    && (forall r | r in a.records :: 0 <= r.index < NextIndex(a.records))
    && (forall k | k in a.snapshots :: 0 <= k < NextIndex(a.records) * CHUNK_SPAN)
  }

  lemma {:induction false} NextIndexOfUpdate(records: seq<Record>, i: nat, r: Record)
    requires i < |records| && r.index == records[i].index && r.durationMs == records[i].durationMs
    ensures NextIndex(records[i := r]) == NextIndex(records)
    ensures TotalDuration(records[i := r]) == TotalDuration(records)
  {
    if i == |records| - 1 {
      assert records[i := r][..i] == records[..i];
    } else {
      assert records[i := r][..|records| - 1] == records[..|records| - 1][i := r];
      NextIndexOfUpdate(records[..|records| - 1], i, r);
    }
  }

  lemma {:induction false} NextIndexBounds(records: seq<Record>)
    ensures NextIndex(records) >= 0
    ensures forall r | r in records :: r.index < NextIndex(records)
  {
    if records != [] {
      NextIndexBounds(records[..|records| - 1]);
      assert records == records[..|records| - 1] + [records[|records| - 1]];
    }
  }

  /** A confirmation with an index no other record has reaches the record just added, and only it. */
  lemma ConfirmHitsNewest(a: TurnAudio, r: Record, playedMs: int, interrupted: bool)
    requires forall e | e in a.records :: e.index != r.index
    ensures Confirmed(Recorded(a, r), r.index, playedMs, interrupted).records
            == a.records + [Confirm(r, playedMs, interrupted)]
  {
    var all := a.records + [r];
    assert all[|a.records|].index == r.index;
    assert forall i | 0 <= i < |a.records| :: all[i] in a.records;
  }

  lemma SpeakChunkAppends(a: TurnAudio, c: Chunk, base: int, baseMs: int)
    requires forall e | e in a.records :: e.index != base + c.index
    ensures SpeakChunk(a, c, base, baseMs).records
            == a.records + [Confirm(RebasedRecord(c, base, baseMs), c.playedMs, c.interrupted)]
    ensures SpeakChunk(a, c, base, baseMs).snapshots == a.snapshots + ByChunk(RebaseAll(c.alignment, base, baseMs))
  {
    ConfirmHitsNewest(a, RebasedRecord(c, base, baseMs), c.playedMs, c.interrupted);
  }

  /** The records of the chunks follow those of before, with their indices moved. */
  predicate RecordsFollow(before: seq<Record>, records: seq<Record>, chunks: seq<Chunk>, base: int) {
    && |records| == |before| + |chunks| && records[..|before|] == before
    && forall i :: 0 <= i < |chunks| ==> records[|before| + i].index == base + chunks[i].index
  }

  /** Older snapshots stay, and new ones stand under the numbers of the phrase. */
  predicate SnapshotsFollow(before: map<int, seq<Segment>>, after: map<int, seq<Segment>>, base: int) {
    && (forall k | k in before :: k in after && after[k] == before[k])
    && (forall k | k in after && k !in before :: base * CHUNK_SPAN <= k < (base + 1) * CHUNK_SPAN)
  }

  predicate PhraseInvariant(before: TurnAudio, a: TurnAudio, chunks: seq<Chunk>, base: int) {
    && RecordsFollow(before.records, a.records, chunks, base)
    && SnapshotsFollow(before.snapshots, a.snapshots, base)
    && (a.snapshots != before.snapshots ==> chunks != [])
  }

  lemma ChunkKeys(c: Chunk, base: int, baseMs: int, k: int)
    requires forall s | s in c.alignment :: 0 <= s.chunkSeq < CHUNK_SPAN
    requires k in ByChunk(RebaseAll(c.alignment, base, baseMs))
    ensures base * CHUNK_SPAN <= k < (base + 1) * CHUNK_SPAN
  {
    var all := RebaseAll(c.alignment, base, baseMs);
    var s :| s in all && s.chunkSeq == k;
    var i :| 0 <= i < |all| && all[i] == s;
    assert c.alignment[i] in c.alignment;
  }

  lemma NewIndexUnused(before: TurnAudio, a: TurnAudio, chunks: seq<Chunk>)
    requires Bounded(before) && PhraseOk(chunks) && chunks != []
    requires PhraseInvariant(before, a, chunks[..|chunks| - 1], NextIndex(before.records))
    ensures forall e | e in a.records :: e.index != NextIndex(before.records) + chunks[|chunks| - 1].index
  {
    var base, n := NextIndex(before.records), |before.records|;
    var last := chunks[|chunks| - 1];
    assert last in chunks;
    forall e | e in a.records ensures e.index != base + last.index {
      var i :| 0 <= i < |a.records| && a.records[i] == e;
      if i < n {
        assert a.records[..n][i] == e;
        assert e in before.records;
      } else {
        assert a.records[n + (i - n)].index == base + chunks[..|chunks| - 1][i - n].index;
        assert chunks[i - n].index != last.index;
      }
    }
  }

  /** The next chunk of a phrase adds its record after those of the chunks before it. */
  lemma PhraseStepRecords(before: TurnAudio, a: TurnAudio, chunks: seq<Chunk>, baseMs: int)
    requires Bounded(before) && PhraseOk(chunks) && chunks != []
    requires PhraseInvariant(before, a, chunks[..|chunks| - 1], NextIndex(before.records))
    ensures var base := NextIndex(before.records);
            RecordsFollow(before.records, SpeakChunk(a, chunks[|chunks| - 1], base, baseMs).records, chunks, base)
  {
    var base, c := NextIndex(before.records), chunks[|chunks| - 1];
    NewIndexUnused(before, a, chunks);
    SpeakChunkAppends(a, c, base, baseMs);
    var b := SpeakChunk(a, c, base, baseMs);
    assert b.records[..|before.records|] == a.records[..|before.records|];
    forall i | 0 <= i < |chunks| ensures b.records[|before.records| + i].index == base + chunks[i].index {
      if i < |chunks| - 1 {
        assert b.records[|before.records| + i] == a.records[|before.records| + i];
        assert chunks[..|chunks| - 1][i] == chunks[i];
      }
    }
  }

  /** The next chunk of a phrase leaves older snapshots alone, and adds its own under the numbers of the phrase. */
  lemma PhraseStepSnapshots(before: TurnAudio, a: TurnAudio, chunks: seq<Chunk>, baseMs: int)
    requires Bounded(before) && PhraseOk(chunks) && chunks != []
    requires PhraseInvariant(before, a, chunks[..|chunks| - 1], NextIndex(before.records))
    ensures var base := NextIndex(before.records);
            SnapshotsFollow(before.snapshots, SpeakChunk(a, chunks[|chunks| - 1], base, baseMs).snapshots, base)
  {
    var base, c := NextIndex(before.records), chunks[|chunks| - 1];
    assert c in chunks;
    NewIndexUnused(before, a, chunks);
    SpeakChunkAppends(a, c, base, baseMs);
    forall k | k in ByChunk(RebaseAll(c.alignment, base, baseMs))
      ensures base * CHUNK_SPAN <= k < (base + 1) * CHUNK_SPAN && k !in before.snapshots
    {
      ChunkKeys(c, base, baseMs, k);
    }
  }

  lemma PhraseStep(before: TurnAudio, a: TurnAudio, chunks: seq<Chunk>, baseMs: int)
    requires Bounded(before) && PhraseOk(chunks) && chunks != []
    requires PhraseInvariant(before, a, chunks[..|chunks| - 1], NextIndex(before.records))
    ensures PhraseInvariant(before, SpeakChunk(a, chunks[|chunks| - 1], NextIndex(before.records), baseMs),
                            chunks, NextIndex(before.records))
  {
    PhraseStepRecords(before, a, chunks, baseMs);
    PhraseStepSnapshots(before, a, chunks, baseMs);
  }

  lemma {:induction false} PhraseKeeps(before: TurnAudio, chunks: seq<Chunk>, baseMs: int)
    requires Bounded(before) && PhraseOk(chunks)
    ensures var base := NextIndex(before.records);
            PhraseInvariant(before, SpeakChunks(before, chunks, base, baseMs), chunks, base)
  {
    if chunks != [] {
      assert forall e | e in chunks[..|chunks| - 1] :: e in chunks;
      PhraseKeeps(before, chunks[..|chunks| - 1], baseMs);
      PhraseStep(before, SpeakChunks(before, chunks[..|chunks| - 1], NextIndex(before.records), baseMs), chunks,
                 baseMs);
    }
  }

  lemma IndicesAfterPhrase(before: TurnAudio, after: TurnAudio, chunks: seq<Chunk>, i: nat)
    requires Bounded(before) && PhraseOk(chunks) && i < |after.records|
    requires PhraseInvariant(before, after, chunks, NextIndex(before.records))
    ensures var n := |before.records|;
            if i < n then after.records[i] == before.records[i]
              && 0 <= after.records[i].index < NextIndex(before.records)
            else after.records[i].index == NextIndex(before.records) + chunks[i - n].index >= NextIndex(before.records)
  {
    var n := |before.records|;
    if i < n {
      assert after.records[..n][i] == before.records[i];
      assert before.records[i] in before.records;
    } else {
      assert after.records[n + (i - n)].index == NextIndex(before.records) + chunks[i - n].index;
      assert chunks[i - n] in chunks;
    }
  }

  lemma StillDistinct(before: TurnAudio, after: TurnAudio, chunks: seq<Chunk>)
    requires Bounded(before) && DistinctIndices(before.records) && PhraseOk(chunks)
    requires PhraseInvariant(before, after, chunks, NextIndex(before.records))
    ensures DistinctIndices(after.records)
  {
    forall i, j | 0 <= i < j < |after.records| ensures after.records[i].index != after.records[j].index {
      IndicesAfterPhrase(before, after, chunks, i);
      IndicesAfterPhrase(before, after, chunks, j);
    }
  }

  lemma StillBounded(before: TurnAudio, after: TurnAudio, chunks: seq<Chunk>)
    requires Bounded(before) && PhraseOk(chunks)
    requires PhraseInvariant(before, after, chunks, NextIndex(before.records))
    ensures Bounded(after)
  {
    NextIndexBounds(after.records);
    NextIndexBounds(before.records);
    forall r | r in after.records ensures r.index >= 0 {
      var i :| 0 <= i < |after.records| && after.records[i] == r;
      IndicesAfterPhrase(before, after, chunks, i);
    }
    if chunks != [] {
      IndicesAfterPhrase(before, after, chunks, |before.records|);
      assert after.records[|before.records|] in after.records;
    } else {
      assert after.records == before.records;
    }
  }

  /** Chunk numbers of `after` that `before` lacks lie above all those of `before`, which are kept. */
  ghost predicate ChunksAppended(before: TurnAudio, after: TurnAudio) {
    && (forall k | k in before.snapshots :: k in after.snapshots && after.snapshots[k] == before.snapshots[k])
    && (forall k, n | k in before.snapshots && n in after.snapshots && n !in before.snapshots :: k < n)
  }

  /**
   Over any number of phrases, segment indices stay unique, so every confirmation reached its own
   record; and chunk numbers of a later phrase lie above those of all earlier phrases.
   */
  lemma {:induction false} PhrasesNeverCollide(phrases: seq<seq<Chunk>>)
    requires forall p | p in phrases :: PhraseOk(p)
    ensures DistinctIndices(SpeakPhrases(phrases).records) && Bounded(SpeakPhrases(phrases))
    ensures phrases != [] ==> ChunksAppended(SpeakPhrases(phrases[..|phrases| - 1]), SpeakPhrases(phrases))
  {
    if phrases != [] {
      var before := SpeakPhrases(phrases[..|phrases| - 1]);
      var chunks := phrases[|phrases| - 1];
      assert forall p | p in phrases[..|phrases| - 1] :: p in phrases;
      PhrasesNeverCollide(phrases[..|phrases| - 1]);
      PhraseKeeps(before, chunks, TotalDuration(before.records));
      StillDistinct(before, SpeakPhrases(phrases), chunks);
      StillBounded(before, SpeakPhrases(phrases), chunks);
    }
  }

  /** Inside a phrase the provider's chunks follow each other without gaps. */
  ghost predicate Gapless(chunks: seq<Chunk>) {
    chunks == [] ||
    (Gapless(chunks[..|chunks| - 1]) && chunks[|chunks| - 1].startMs == ChunkDuration(chunks[..|chunks| - 1]))
  }

  function ChunkDuration(chunks: seq<Chunk>): int {
    if chunks == [] then 0 else ChunkDuration(chunks[..|chunks| - 1]) + chunks[|chunks| - 1].durationMs
  }

  ghost predicate GaplessTurn(records: seq<Record>) {
    records == [] ||
    (GaplessTurn(records[..|records| - 1]) && records[|records| - 1].startMs == TotalDuration(records[..|records| - 1]))
  }

  lemma {:induction false} GaplessMore(records: seq<Record>, r: Record)
    requires GaplessTurn(records) && r.startMs == TotalDuration(records)
    ensures GaplessTurn(records + [r]) && TotalDuration(records + [r]) == TotalDuration(records) + r.durationMs
  {
    assert (records + [r])[..|records|] == records;
  }

  lemma ChunkTimes(a: TurnAudio, c: Chunk, base: int, baseMs: int)
    requires GaplessTurn(a.records) && TotalDuration(a.records) == baseMs + c.startMs
    requires forall e | e in a.records :: e.index != base + c.index
    ensures var b := SpeakChunk(a, c, base, baseMs);
            GaplessTurn(b.records) && TotalDuration(b.records) == TotalDuration(a.records) + c.durationMs
  {
    SpeakChunkAppends(a, c, base, baseMs);
    GaplessMore(a.records, Confirm(RebasedRecord(c, base, baseMs), c.playedMs, c.interrupted));
  }

  /** The next index of a phrase is one that none of its earlier records has. */
  lemma {:induction false} FreshIndex(before: TurnAudio, chunks: seq<Chunk>, baseMs: int)
    requires Bounded(before) && PhraseOk(chunks) && chunks != []
    ensures var base := NextIndex(before.records);
            forall e | e in SpeakChunks(before, chunks[..|chunks| - 1], base, baseMs).records ::
              e.index != base + chunks[|chunks| - 1].index
  {
    var init := chunks[..|chunks| - 1];
    assert forall e | e in init :: e in chunks;
    PhraseKeeps(before, init, baseMs);
    NewIndexUnused(before, SpeakChunks(before, init, NextIndex(before.records), baseMs), chunks);
  }

  lemma {:induction false} PhraseTimes(before: TurnAudio, chunks: seq<Chunk>)
    requires Bounded(before) && PhraseOk(chunks)
    requires Gapless(chunks) && GaplessTurn(before.records)
    ensures var after := SpeakChunks(before, chunks, NextIndex(before.records), TotalDuration(before.records));
            && GaplessTurn(after.records)
            && TotalDuration(after.records) == TotalDuration(before.records) + ChunkDuration(chunks)
  {
    if chunks != [] {
      var base, baseMs := NextIndex(before.records), TotalDuration(before.records);
      var init, c := chunks[..|chunks| - 1], chunks[|chunks| - 1];
      assert forall e | e in init :: e in chunks;
      PhraseTimes(before, init);
      FreshIndex(before, chunks, baseMs);
      assert c.startMs == ChunkDuration(init);
      ChunkTimes(SpeakChunks(before, init, base, baseMs), c, base, baseMs);
    }
  }

  /** Rebased start times make the whole turn one gapless timeline when each phrase is gapless. */
  lemma {:induction false} PhrasesShareOneTimeline(phrases: seq<seq<Chunk>>)
    requires forall p | p in phrases :: PhraseOk(p) && Gapless(p)
    ensures GaplessTurn(SpeakPhrases(phrases).records)
  {
    if phrases != [] {
      var init := phrases[..|phrases| - 1];
      PhrasesShareOneTimeline(init);
      PhrasesNeverCollide(init);
      PhraseTimes(SpeakPhrases(init), phrases[|phrases| - 1]);
    }
  }
}
