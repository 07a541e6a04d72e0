/**
 The text heard over a whole spoken turn: the alignments that a provider numbers and times inside each of
 its phrases become, rebased, one aligned timeline of the turn, and the heard text only ever grows.
 */
module HeardText {
  import opened Std
  import opened Playback

  // ── Sorted keys ─────────────────────────────────────────────────────

  predicate Increasing(s: seq<int>) { forall i, j | 0 <= i < j < |s| :: s[i] < s[j] }

  lemma FrontWithin(p: seq<int>, q: seq<int>, last: int)
    requires Increasing(p + [last]) && forall k | k in p + [last] :: k in q + [last]
    ensures Increasing(p) && forall k | k in p :: k in q
  {
    forall i, j | 0 <= i < j < |p| ensures p[i] < p[j] { assert (p + [last])[i] < (p + [last])[j]; }
    forall k | k in p ensures k in q {
      var i :| 0 <= i < |p| && p[i] == k;
      assert (p + [last])[i] < (p + [last])[|p|];
      assert k in p + [last];
    }
  }

  lemma SameLast(s: seq<int>, t: seq<int>)
    requires s != [] && t != [] && Increasing(s) && Increasing(t)
    requires (forall k | k in s :: k in t) && forall k | k in t :: k in s
    ensures s[|s| - 1] == t[|t| - 1]
  {
    var m, n := |s| - 1, |t| - 1;
    assert s[m] in s && t[n] in t;
    var i :| 0 <= i < |t| && t[i] == s[m];
    var j :| 0 <= j < |s| && s[j] == t[n];
    assert t[i] <= t[n] && s[j] <= s[m];
  }

  lemma {:induction false} IncreasingUnique(s: seq<int>, t: seq<int>)
    requires Increasing(s) && Increasing(t) && (forall k | k in s :: k in t) && (forall k | k in t :: k in s)
    ensures s == t
  {
    assert (s != [] ==> s[0] in s) && (t != [] ==> t[0] in t);
    if s != [] && t != [] {
      var p, q, last := s[..|s| - 1], t[..|t| - 1], s[|s| - 1];
      SameLast(s, t);
      assert s == p + [last] && t == q + [last];
      FrontWithin(p, q, last);
      FrontWithin(q, p, last);
      IncreasingUnique(p, q);
    }
  }

  lemma {:induction false} SortedUnion(a: set<int>, b: set<int>)
    requires forall x, y | x in a && y in b :: x < y
    ensures SortedKeys(a + b) == SortedKeys(a) + SortedKeys(b)
  {
    SortedKeysSpec(a);
    SortedKeysSpec(b);
    SortedKeysSpec(a + b);
    var s := SortedKeys(a) + SortedKeys(b);
    forall i, j | 0 <= i < j < |s| ensures s[i] < s[j] {
      if i < |SortedKeys(a)| <= j { assert s[i] in SortedKeys(a) && s[j] in SortedKeys(b); }
    }
    IncreasingUnique(SortedKeys(a + b), s);
  }

  function ShiftKeys(keys: seq<int>, shift: int): seq<int> {
    seq(|keys|, i requires 0 <= i < |keys| => shift + keys[i])
  }

  function ShiftSet(a: set<int>, shift: int): set<int> { set k | k in a :: shift + k }

  lemma {:induction false} SortedShift(a: set<int>, b: set<int>, shift: int)
    requires b == ShiftSet(a, shift)
    ensures SortedKeys(b) == ShiftKeys(SortedKeys(a), shift)
  {
    SortedKeysSpec(a);
    SortedKeysSpec(b);
    var keys := SortedKeys(a);
    var s := ShiftKeys(keys, shift);
    forall k | k in SortedKeys(b) ensures k in s {
      var l :| l in a && shift + l == k;
      var i :| 0 <= i < |keys| && keys[i] == l;
      assert s[i] == k;
    }
    forall k | k in s ensures k in SortedKeys(b) {
      var i :| 0 <= i < |s| && s[i] == k;
      assert keys[i] in keys;
    }
    IncreasingUnique(SortedKeys(b), s);
  }

  // ── Tables of alignments ────────────────────────────────────────────

  type Table = map<int, seq<Segment>>

  ghost function LineOf(t: Table): seq<Segment> {
    SortedKeysSpec(t.Keys);
    Line(t, SortedKeys(t.Keys))
  }

  predicate Holds(t: Table, keys: seq<int>) { forall i | 0 <= i < |keys| :: keys[i] in t }

  lemma {:induction false} LineConcat(t: Table, a: seq<int>, b: seq<int>)
    requires Holds(t, a) && Holds(t, b)
    ensures Holds(t, a + b) && Line(t, a + b) == Line(t, a) + Line(t, b)
  {
    if a == [] {
      assert a + b == b;
    } else {
      assert (a + b)[1..] == a[1..] + b;
      LineConcat(t, a[1..], b);
    }
  }

  lemma {:induction false} LineSame(t: Table, u: Table, keys: seq<int>)
    requires Holds(t, keys) && Holds(u, keys) && forall i | 0 <= i < |keys| :: t[keys[i]] == u[keys[i]]
    ensures Line(t, keys) == Line(u, keys)
  {
    if keys != [] {
      assert forall i | 0 <= i < |keys[1..]| :: keys[1..][i] == keys[i + 1];
      LineSame(t, u, keys[1..]);
    }
  }

  lemma KeysHeld(t: Table)
    ensures Holds(t, SortedKeys(t.Keys))
    ensures forall k :: k in SortedKeys(t.Keys) <==> k in t
  {
    SortedKeysSpec(t.Keys);
    forall i | 0 <= i < |SortedKeys(t.Keys)|
      ensures SortedKeys(t.Keys)[i] in t
    {
      assert SortedKeys(t.Keys)[i] in SortedKeys(t.Keys);
    }
  }

  /** A table whose numbers all lie above those of another one continues its line. */
  lemma LineOfUnion(t: Table, u: Table)
    requires forall k, n | k in t && n in u :: k < n
    ensures LineOf(t + u) == LineOf(t) + LineOf(u)
  {
    KeysHeld(t);
    KeysHeld(u);
    SortedUnion(t.Keys, u.Keys);
    var a, b := SortedKeys(t.Keys), SortedKeys(u.Keys);
    assert (t + u).Keys == t.Keys + u.Keys;
    assert forall i | 0 <= i < |a| :: a[i] in t && a[i] !in u;
    assert Holds(t + u, a) && Holds(t + u, b);
    LineConcat(t + u, a, b);
    LineSame(t + u, t, a);
    LineSame(t + u, u, b);
  }

  /** The alignments under a number of the phrase stand, moved, under the rebased number. */
  predicate MovesTo(t: Table, u: Table, k: int, base: int, baseMs: int) {
    k in t ==> base * CHUNK_SPAN + k in u && u[base * CHUNK_SPAN + k] == RebaseAll(t[k], base, baseMs)
  }

  /** The second table is the first with every number and every time moved. */
  ghost predicate Moved(t: Table, u: Table, base: int, baseMs: int) {
    (forall k :: MovesTo(t, u, k, base, baseMs)) && u.Keys == ShiftSet(t.Keys, base * CHUNK_SPAN)
  }

  lemma RebaseConcat(a: seq<Segment>, b: seq<Segment>, base: int, baseMs: int)
    ensures RebaseAll(a + b, base, baseMs) == RebaseAll(a, base, baseMs) + RebaseAll(b, base, baseMs)
  {
  }

  lemma {:induction false} LineMoved(t: Table, u: Table, keys: seq<int>, base: int, baseMs: int)
    requires Holds(t, keys) && Moved(t, u, base, baseMs)
    ensures var moved := ShiftKeys(keys, base * CHUNK_SPAN);
            Holds(u, moved) && Line(u, moved) == RebaseAll(Line(t, keys), base, baseMs)
  {
    var moved := ShiftKeys(keys, base * CHUNK_SPAN);
    forall i | 0 <= i < |moved| ensures moved[i] in u { assert MovesTo(t, u, keys[i], base, baseMs); }
    if keys != [] {
      assert MovesTo(t, u, keys[0], base, baseMs);
      assert moved[1..] == ShiftKeys(keys[1..], base * CHUNK_SPAN);
      LineMoved(t, u, keys[1..], base, baseMs);
      RebaseConcat(t[keys[0]], Line(t, keys[1..]), base, baseMs);
    }
  }

  lemma LineOfMoved(t: Table, u: Table, base: int, baseMs: int)
    requires Moved(t, u, base, baseMs)
    ensures LineOf(u) == RebaseAll(LineOf(t), base, baseMs)
  {
    KeysHeld(t);
    SortedShift(t.Keys, u.Keys, base * CHUNK_SPAN);
    LineMoved(t, u, SortedKeys(t.Keys), base, baseMs);
  }

  // ── One phrase ──────────────────────────────────────────────────────

  /** The alignments of a phrase as its provider numbers them: a repeated number replaces the earlier one. */
  function PhraseTable(chunks: seq<Chunk>): Table {
    if chunks == [] then map[] else PhraseTable(chunks[..|chunks| - 1]) + ByChunk(chunks[|chunks| - 1].alignment)
  }

  function Numbered(s: seq<Segment>, k: int): seq<Segment> { Filter(s, (e: Segment) => e.chunkSeq == k) }

  lemma {:induction false} FilterMoved(s: seq<Segment>, k: int, base: int, baseMs: int)
    ensures Numbered(RebaseAll(s, base, baseMs), base * CHUNK_SPAN + k) == RebaseAll(Numbered(s, k), base, baseMs)
  {
    if s != [] {
      var n := |s| - 1;
      FilterMoved(s[..n], k, base, baseMs);
      assert RebaseAll(s, base, baseMs)[..n] == RebaseAll(s[..n], base, baseMs);
      RebaseConcat(Numbered(s[..n], k), [s[n]], base, baseMs);
      assert RebaseAll([s[n]], base, baseMs) == [Rebase(s[n], base, baseMs)];
      assert RebaseAll([], base, baseMs) == [];
    }
  }

  function Numbers(s: seq<Segment>): set<int> { set e | e in s :: e.chunkSeq }

  lemma {:induction false} NumbersMoved(s: seq<Segment>, base: int, baseMs: int)
    ensures Numbers(RebaseAll(s, base, baseMs)) == ShiftSet(Numbers(s), base * CHUNK_SPAN)
  {
    if s != [] {
      var n := |s| - 1;
      NumbersMoved(s[..n], base, baseMs);
      var all := RebaseAll(s, base, baseMs);
      assert all == RebaseAll(s[..n], base, baseMs) + [Rebase(s[n], base, baseMs)];
      assert s == s[..n] + [s[n]];
      assert Numbers(s) == Numbers(s[..n]) + {s[n].chunkSeq};
      assert Numbers(all) == Numbers(RebaseAll(s[..n], base, baseMs)) + {base * CHUNK_SPAN + s[n].chunkSeq};
    }
  }

  lemma ByChunkAt(s: seq<Segment>, k: int)
    ensures k in ByChunk(s) <==> k in Numbers(s)
    ensures k in ByChunk(s) ==> ByChunk(s)[k] == Numbered(s, k)
  {
  }

  lemma ByChunkMoved(s: seq<Segment>, base: int, baseMs: int)
    ensures Moved(ByChunk(s), ByChunk(RebaseAll(s, base, baseMs)), base, baseMs)
  {
    var all := RebaseAll(s, base, baseMs);
    var t, u := ByChunk(s), ByChunk(all);
    NumbersMoved(s, base, baseMs);
    assert t.Keys == Numbers(s) && u.Keys == Numbers(all);
    forall k ensures MovesTo(t, u, k, base, baseMs) {
      ByChunkAt(s, k);
      ByChunkAt(all, base * CHUNK_SPAN + k);
      FilterMoved(s, k, base, baseMs);
    }
  }

  lemma MovedUnion(t: Table, u: Table, t': Table, u': Table, base: int, baseMs: int)
    requires Moved(t, u, base, baseMs) && Moved(t', u', base, baseMs)
    ensures Moved(t + t', u + u', base, baseMs)
  {
    var shift := base * CHUNK_SPAN;
    forall k ensures MovesTo(t + t', u + u', k, base, baseMs) {
      assert MovesTo(t, u, k, base, baseMs) && MovesTo(t', u', k, base, baseMs);
      if shift + k in u' {
        var l :| l in t' && shift + l == shift + k;
      }
    }
    assert (u + u').Keys == u.Keys + u'.Keys && (t + t').Keys == t.Keys + t'.Keys;
  }

  /** What a phrase adds to the alignments of the turn. */
  function Added(chunks: seq<Chunk>, base: int, baseMs: int): Table {
    if chunks == [] then map[]
    else Added(chunks[..|chunks| - 1], base, baseMs) + ByChunk(RebaseAll(chunks[|chunks| - 1].alignment, base, baseMs))
  }

  lemma {:induction false} AddedIsMoved(chunks: seq<Chunk>, base: int, baseMs: int)
    ensures Moved(PhraseTable(chunks), Added(chunks, base, baseMs), base, baseMs)
  {
    if chunks != [] {
      var front, c := chunks[..|chunks| - 1], chunks[|chunks| - 1];
      AddedIsMoved(front, base, baseMs);
      ByChunkMoved(c.alignment, base, baseMs);
      MovedUnion(PhraseTable(front), Added(front, base, baseMs),
                 ByChunk(c.alignment), ByChunk(RebaseAll(c.alignment, base, baseMs)), base, baseMs);
    }
  }

  lemma ChunkSnapshots(a: TurnAudio, c: Chunk, base: int, baseMs: int)
    ensures SpeakChunk(a, c, base, baseMs).snapshots == a.snapshots + ByChunk(RebaseAll(c.alignment, base, baseMs))
  {
  }

  lemma UnionTwice(t: Table, u: Table, v: Table)
    ensures (t + u) + v == t + (u + v)
  {
  }

  lemma {:induction false} PhraseSnapshots(before: TurnAudio, chunks: seq<Chunk>, base: int, baseMs: int)
    ensures SpeakChunks(before, chunks, base, baseMs).snapshots == before.snapshots + Added(chunks, base, baseMs)
  {
    if chunks != [] {
      var front, c := chunks[..|chunks| - 1], chunks[|chunks| - 1];
      PhraseSnapshots(before, front, base, baseMs);
      ChunkSnapshots(SpeakChunks(before, front, base, baseMs), c, base, baseMs);
      UnionTwice(before.snapshots, Added(front, base, baseMs), ByChunk(RebaseAll(c.alignment, base, baseMs)));
    }
  }

  lemma {:induction false} PhraseNumbers(chunks: seq<Chunk>, k: int)
    requires PhraseOk(chunks) && k in PhraseTable(chunks)
    ensures 0 <= k < CHUNK_SPAN
  {
    var front, c := chunks[..|chunks| - 1], chunks[|chunks| - 1];
    assert c in chunks;
    if k in ByChunk(c.alignment) {
      var s :| s in c.alignment && s.chunkSeq == k;
    } else {
      assert forall d | d in front :: d in chunks;
      PhraseNumbers(front, k);
    }
  }

  /** The timeline of a turn grows, with each phrase, by the phrase's own timeline, rebased. */
  lemma {:induction false} PhraseTimeline(before: TurnAudio, chunks: seq<Chunk>, baseMs: int)
    requires Bounded(before) && PhraseOk(chunks)
    ensures var base := NextIndex(before.records);
            Timeline(SpeakChunks(before, chunks, base, baseMs))
            == Timeline(before) + RebaseAll(LineOf(PhraseTable(chunks)), base, baseMs)
  {
    var base := NextIndex(before.records);
    var added := Added(chunks, base, baseMs);
    AddedIsMoved(chunks, base, baseMs);
    PhraseSnapshots(before, chunks, base, baseMs);
    forall k, n | k in before.snapshots && n in added ensures k < n {
      var l :| l in PhraseTable(chunks) && base * CHUNK_SPAN + l == n;
      PhraseNumbers(chunks, l);
    }
    LineOfUnion(before.snapshots, added);
    LineOfMoved(PhraseTable(chunks), added, base, baseMs);
  }

  // ── Hearing more ────────────────────────────────────────────────────

  /** Times do not go backwards along the line. */
  predicate InOrder(line: seq<Segment>) {
    forall i, j | 0 <= i < j < |line| :: line[i].startMs <= line[j].startMs && line[i].endMs <= line[j].endMs
  }

  predicate Within(line: seq<Segment>, low: int, high: int) {
    forall s | s in line :: low <= s.startMs <= high && low <= s.endMs <= high
  }

  lemma {:induction false} CountOfPrefix(line: seq<Segment>, n: nat, until: int)
    requires n <= |line|
    ensures HeardCount(line[..n], until) <= HeardCount(line, until)
  {
    if n < |line| {
      assert line[..|line| - 1][..n] == line[..n];
      CountOfPrefix(line[..|line| - 1], n, until);
    } else {
      assert line[..n] == line;
    }
  }

  lemma {:induction false} LongerTake(line: seq<Segment>, more: seq<Segment>, from: int, until: int)
    requires line <= more && from <= until
    ensures JoinSegments(line[..HeardCount(line, from)]) <= JoinSegments(more[..HeardCount(more, until)])
  {
    var k, m := HeardCount(line, from), HeardCount(more, until);
    assert more[..|line|] == line;
    CountOfPrefix(more, |line|, from);
    HeardCountMonotone(more, from, until);
    assert line[..k] == more[..k];
    LongerJoin(more, k, m);
  }

  lemma LongerJoin(line: seq<Segment>, k: nat, m: nat)
    requires k <= m <= |line|
    ensures JoinSegments(line[..k]) <= JoinSegments(line[..m])
  {
    JoinSegmentsConcat(line[..k], line[k..m]);
    assert line[..k] + line[k..m] == line[..m];
  }

  /** More of one timeline, heard up to a later moment, says at least as much. */
  lemma HeardGrows(a: TurnAudio, b: TurnAudio)
    requires Aligned(a) || Played(a.records) == []
    requires Aligned(b) && Timeline(a) <= Timeline(b) && ReachesFurther(a.records, b.records)
    ensures PlayedText(a) <= PlayedText(b)
  {
    if Played(a.records) != [] {
      AlignedTextIsTake(a);
      AlignedTextIsTake(b);
      LongerTake(Timeline(a), Timeline(b), PlayedUntil(Played(a.records)), PlayedUntil(Played(b.records)));
    } else {
      NothingHeard(a);
    }
  }

  lemma NothingHeard(a: TurnAudio)
    requires Played(a.records) == []
    ensures PlayedText(a) == ""
  {
  }

  // ── A whole spoken turn ─────────────────────────────────────────────

  /** The provider's alignments of a phrase only ever grow at their end. */
  ghost predicate Growing(chunks: seq<Chunk>) {
    chunks == [] ||
    (Growing(chunks[..|chunks| - 1]) && LineOf(PhraseTable(chunks[..|chunks| - 1])) <= LineOf(PhraseTable(chunks)))
  }

  /** What the provider promises of the alignments of one phrase, in its own numbers and times. */
  ghost predicate AlignedPhrase(chunks: seq<Chunk>) {
    && PhraseOk(chunks) && Growing(chunks)
    && (forall c | c in chunks :: c.alignment != [] && c.playedMs >= 0)
    && InOrder(LineOf(PhraseTable(chunks))) && Within(LineOf(PhraseTable(chunks)), 0, ChunkDuration(chunks))
  }

  /** A turn between two phrases: aligned so far, with every time inside the audio generated so far. */
  ghost predicate Between(a: TurnAudio) {
    && Bounded(a) && (forall r | r in a.records :: r.alignment != [])
    && (a.records == [] ==> a.snapshots == map[]) && (a.records != [] ==> a.snapshots != map[])
    && InOrder(Timeline(a)) && (forall s | s in Timeline(a) ::
                                s.startMs <= TotalDuration(a.records) && s.endMs <= TotalDuration(a.records))
  }

  lemma {:induction false} GrowingPrefix(chunks: seq<Chunk>, j: nat)
    requires Growing(chunks) && j <= |chunks|
    ensures Growing(chunks[..j]) && LineOf(PhraseTable(chunks[..j])) <= LineOf(PhraseTable(chunks))
    decreases |chunks|
  {
    var n := |chunks| - 1;
    if j == |chunks| {
      assert chunks[..j] == chunks;
    } else {
      GrowingPrefix(chunks[..n], j);
      assert chunks[..n][..j] == chunks[..j];
    }
  }

  lemma PrefixOk(chunks: seq<Chunk>, j: nat)
    requires PhraseOk(chunks) && j <= |chunks|
    ensures PhraseOk(chunks[..j])
  {
    assert forall c | c in chunks[..j] :: c in chunks;
  }

  /** One more chunk adds one record. */
  lemma {:induction false} ChunkAdds(before: TurnAudio, chunks: seq<Chunk>, baseMs: int)
    requires Bounded(before) && PhraseOk(chunks) && chunks != []
    ensures var base, c := NextIndex(before.records), chunks[|chunks| - 1];
            SpeakChunks(before, chunks, base, baseMs).records
            == SpeakChunks(before, chunks[..|chunks| - 1], base, baseMs).records
               + [Confirm(RebasedRecord(c, base, baseMs), c.playedMs, c.interrupted)]
  {
    var base, c := NextIndex(before.records), chunks[|chunks| - 1];
    var a := SpeakChunks(before, chunks[..|chunks| - 1], base, baseMs);
    PrefixOk(chunks, |chunks| - 1);
    PhraseKeeps(before, chunks[..|chunks| - 1], baseMs);
    NewIndexUnused(before, a, chunks);
    SpeakChunkAppends(a, c, base, baseMs);
  }

  /** One more record, and playback reaches at least as far. */
  lemma {:induction false} RecordAdds(records: seq<Record>, r: Record)
    requires r.playedMs >= 0
    ensures ReachesFurther(records, records + [r])
            && TotalDuration(records + [r]) == TotalDuration(records) + r.durationMs
  {
    LastReach(records, r);
    assert (records + [r])[..|records|] == records;
  }

  /** The records of a phrase all carry alignment, and its audio adds up. */
  lemma {:induction false} PhraseRecords(before: TurnAudio, chunks: seq<Chunk>, baseMs: int)
    requires Between(before) && PhraseOk(chunks) && forall c | c in chunks :: c.alignment != [] && c.playedMs >= 0
    ensures var after := SpeakChunks(before, chunks, NextIndex(before.records), baseMs);
            && (forall r | r in after.records :: r.alignment != [])
            && TotalDuration(after.records) == TotalDuration(before.records) + ChunkDuration(chunks)
            && |after.records| == |before.records| + |chunks|
  {
    if chunks != [] {
      var front, c := chunks[..|chunks| - 1], chunks[|chunks| - 1];
      assert c in chunks;
      PrefixOk(chunks, |chunks| - 1);
      assert forall d | d in front :: d in chunks;
      PhraseRecords(before, front, baseMs);
      ChunkAdds(before, chunks, baseMs);
      var base := NextIndex(before.records);
      RecordAdds(SpeakChunks(before, front, base, baseMs).records,
                 Confirm(RebasedRecord(c, base, baseMs), c.playedMs, c.interrupted));
    }
  }

  lemma PhraseLine(before: seq<Segment>, line: seq<Segment>, base: int, baseMs: int, duration: int)
    requires InOrder(before) && (forall s | s in before :: s.startMs <= baseMs && s.endMs <= baseMs)
    requires InOrder(line) && Within(line, 0, duration)
    ensures InOrder(before + RebaseAll(line, base, baseMs))
    ensures forall s | s in before + RebaseAll(line, base, baseMs) ::
              s.startMs <= baseMs + Max(0, duration) && s.endMs <= baseMs + Max(0, duration)
  {
    var moved := RebaseAll(line, base, baseMs);
    var all := before + moved;
    forall i | 0 <= i < |all|
      ensures if i < |before| then all[i].startMs <= baseMs && all[i].endMs <= baseMs
              else baseMs <= all[i].startMs <= baseMs + duration && baseMs <= all[i].endMs <= baseMs + duration
    {
      if i < |before| { assert before[i] in before; } else { assert line[i - |before|] in line; }
    }
  }

  lemma PrefixInOrder(line: seq<Segment>, whole: seq<Segment>, low: int, high: int)
    requires line <= whole && InOrder(whole) && Within(whole, low, high)
    ensures InOrder(line) && Within(line, low, high)
  {
    forall s | s in line ensures s in whole { }
  }

  lemma InOrderIsAligned(a: TurnAudio, line: seq<Segment>)
    requires a.snapshots != map[] && (forall r | r in a.records :: r.alignment != [])
    requires Timeline(a) == line && InOrder(line)
    ensures Aligned(a)
  {
  }

  /** Anywhere inside an aligned phrase the turn is aligned. */
  lemma {:induction false} InsidePhrase(before: TurnAudio, chunks: seq<Chunk>, j: nat)
    requires Between(before) && AlignedPhrase(chunks) && 0 < j <= |chunks|
    ensures var base, baseMs := NextIndex(before.records), TotalDuration(before.records);
            var a := SpeakChunks(before, chunks[..j], base, baseMs);
            && Aligned(a) && Timeline(before) <= Timeline(a)
            && Timeline(a) == Timeline(before) + RebaseAll(LineOf(PhraseTable(chunks[..j])), base, baseMs)
  {
    var base, baseMs := NextIndex(before.records), TotalDuration(before.records);
    var now := chunks[..j];
    var a, line := SpeakChunks(before, now, base, baseMs), LineOf(PhraseTable(now));
    PrefixOk(chunks, j);
    GrowingPrefix(chunks, j);
    assert forall c | c in now :: c in chunks;
    PhraseRecords(before, now, baseMs);
    PhraseTimeline(before, now, baseMs);
    PrefixInOrder(line, LineOf(PhraseTable(chunks)), 0, ChunkDuration(chunks));
    PhraseLine(Timeline(before), line, base, baseMs, ChunkDuration(chunks));
    SomeSnapshot(before, now, base, baseMs);
    InOrderIsAligned(a, Timeline(before) + RebaseAll(line, base, baseMs));
  }

  lemma {:induction false} SomeSnapshot(before: TurnAudio, chunks: seq<Chunk>, base: int, baseMs: int)
    requires chunks != [] && forall c | c in chunks :: c.alignment != []
    ensures SpeakChunks(before, chunks, base, baseMs).snapshots != map[]
  {
    var front, c := chunks[..|chunks| - 1], chunks[|chunks| - 1];
    assert c in chunks;
    var all := RebaseAll(c.alignment, base, baseMs);
    ChunkSnapshots(SpeakChunks(before, front, base, baseMs), c, base, baseMs);
    assert all[0] in all;
    assert all[0].chunkSeq in SpeakChunks(before, chunks, base, baseMs).snapshots;
  }

  /** The times of a phrase stay in order, and within the audio it adds. */
  lemma {:induction false} PhraseTimes(before: TurnAudio, chunks: seq<Chunk>)
    requires Between(before) && AlignedPhrase(chunks) && ChunkDuration(chunks) >= 0 && chunks != []
    ensures var a := SpeakChunks(before, chunks, NextIndex(before.records), TotalDuration(before.records));
            InOrder(Timeline(a)) && forall s | s in Timeline(a) ::
              s.startMs <= TotalDuration(a.records) && s.endMs <= TotalDuration(a.records)
  {
    var base, baseMs := NextIndex(before.records), TotalDuration(before.records);
    assert chunks[..|chunks|] == chunks;
    InsidePhrase(before, chunks, |chunks|);
    PhraseRecords(before, chunks, baseMs);
    PhraseLine(Timeline(before), LineOf(PhraseTable(chunks)), base, baseMs, ChunkDuration(chunks));
  }

  lemma {:induction false} PhraseKeepsBetween(before: TurnAudio, chunks: seq<Chunk>)
    requires Between(before) && AlignedPhrase(chunks) && ChunkDuration(chunks) >= 0
    ensures Between(SpeakChunks(before, chunks, NextIndex(before.records), TotalDuration(before.records)))
  {
    var base, baseMs := NextIndex(before.records), TotalDuration(before.records);
    var after := SpeakChunks(before, chunks, base, baseMs);
    if chunks != [] {
      PhraseTimes(before, chunks);
      PhraseRecords(before, chunks, baseMs);
      SomeSnapshot(before, chunks, base, baseMs);
      PhraseKeeps(before, chunks, baseMs);
      StillBounded(before, after, chunks);
    }
  }

  lemma AlignedBetween(a: TurnAudio)
    requires Between(a)
    ensures Aligned(a) || Played(a.records) == []
  {
    if a.records != [] { InOrderIsAligned(a, Timeline(a)); }
  }

  /** The turn after the first j chunks of its next phrase. */
  function After(before: TurnAudio, chunks: seq<Chunk>, j: nat): TurnAudio
    requires j <= |chunks|
  {
    SpeakChunks(before, chunks[..j], NextIndex(before.records), TotalDuration(before.records))
  }

  lemma RebasedPrefix(line: seq<Segment>, more: seq<Segment>, base: int, baseMs: int)
    requires line <= more
    ensures RebaseAll(line, base, baseMs) <= RebaseAll(more, base, baseMs)
  {
  }

  lemma LineAfter(before: TurnAudio, chunks: seq<Chunk>, j: nat)
    requires Between(before) && AlignedPhrase(chunks) && j <= |chunks|
    ensures Timeline(After(before, chunks, j)) ==
            Timeline(before)
            + RebaseAll(LineOf(PhraseTable(chunks[..j])), NextIndex(before.records), TotalDuration(before.records))
  {
    PrefixOk(chunks, j);
    PhraseTimeline(before, chunks[..j], TotalDuration(before.records));
  }

  lemma PrefixAfter<T>(s: seq<T>, a: seq<T>, b: seq<T>)
    requires a <= b
    ensures s + a <= s + b
  {
  }

  lemma {:induction false} PhraseLinesNest(chunks: seq<Chunk>, j: nat)
    requires Growing(chunks) && j < |chunks|
    ensures LineOf(PhraseTable(chunks[..j])) <= LineOf(PhraseTable(chunks[..j + 1]))
  {
    GrowingPrefix(chunks, j + 1);
    assert chunks[..j + 1][..j] == chunks[..j];
  }

  lemma LinesNest(before: TurnAudio, chunks: seq<Chunk>, j: nat)
    requires Between(before) && AlignedPhrase(chunks) && j < |chunks|
    ensures Timeline(After(before, chunks, j)) <= Timeline(After(before, chunks, j + 1))
  {
    var base, baseMs := NextIndex(before.records), TotalDuration(before.records);
    var line, more := LineOf(PhraseTable(chunks[..j])), LineOf(PhraseTable(chunks[..j + 1]));
    LineAfter(before, chunks, j);
    LineAfter(before, chunks, j + 1);
    PhraseLinesNest(chunks, j);
    RebasedPrefix(line, more, base, baseMs);
    PrefixAfter(Timeline(before), RebaseAll(line, base, baseMs), RebaseAll(more, base, baseMs));
  }

  /** Speaking the next chunk of a phrase adds one record. */
  lemma NextRecord(before: TurnAudio, chunks: seq<Chunk>, j: nat)
    requires Between(before) && AlignedPhrase(chunks) && j < |chunks|
    ensures var r := RebasedRecord(chunks[j], NextIndex(before.records), TotalDuration(before.records));
            After(before, chunks, j + 1).records
            == After(before, chunks, j).records + [Confirm(r, chunks[j].playedMs, chunks[j].interrupted)]
  {
    assert chunks[..j + 1][..j] == chunks[..j];
    PrefixOk(chunks, j + 1);
    ChunkAdds(before, chunks[..j + 1], TotalDuration(before.records));
  }

  lemma ReachesOn(before: TurnAudio, chunks: seq<Chunk>, j: nat)
    requires Between(before) && AlignedPhrase(chunks) && j < |chunks|
    ensures ReachesFurther(After(before, chunks, j).records, After(before, chunks, j + 1).records)
  {
    var c, base, baseMs := chunks[j], NextIndex(before.records), TotalDuration(before.records);
    assert c in chunks;
    NextRecord(before, chunks, j);
    RecordAdds(After(before, chunks, j).records, Confirm(RebasedRecord(c, base, baseMs), c.playedMs, c.interrupted));
  }

  lemma AlignedAfter(before: TurnAudio, chunks: seq<Chunk>, j: nat)
    requires Between(before) && AlignedPhrase(chunks) && j <= |chunks|
    ensures Aligned(After(before, chunks, j)) || Played(After(before, chunks, j).records) == []
    ensures j > 0 ==> Aligned(After(before, chunks, j))
  {
    if j > 0 {
      InsidePhrase(before, chunks, j);
    } else {
      assert chunks[..0] == [];
      AlignedBetween(before);
    }
  }

  /** What the second turn lets hear begins with what the first one does. */
  ghost predicate Hears(a: TurnAudio, b: TurnAudio) { PlayedText(a) <= PlayedText(b) }

  lemma HearsOn(a: TurnAudio, b: TurnAudio, c: TurnAudio)
    requires Hears(a, b) && Hears(b, c)
    ensures Hears(a, c)
  {
  }

  /** Each further chunk of a phrase leaves the heard text as it is, or longer. */
  lemma ChunkHeard(before: TurnAudio, chunks: seq<Chunk>, j: nat)
    requires Between(before) && AlignedPhrase(chunks) && j < |chunks|
    ensures Hears(After(before, chunks, j), After(before, chunks, j + 1))
  {
    LinesNest(before, chunks, j);
    ReachesOn(before, chunks, j);
    AlignedAfter(before, chunks, j);
    AlignedAfter(before, chunks, j + 1);
    HeardGrows(After(before, chunks, j), After(before, chunks, j + 1));
  }

  lemma {:induction false} PrefixChain(f: nat -> string, i: nat, j: nat)
    requires i <= j && forall k: nat | i <= k < j :: f(k) <= f(k + 1)
    ensures f(i) <= f(j)
    decreases j
  {
    if i < j { PrefixChain(f, i, j - 1); }
  }

  /** If every chunk leaves the heard text as it is, or longer, so does every stretch of them. */
  lemma {:induction false} HeardAlong(before: TurnAudio, chunks: seq<Chunk>, i: nat, j: nat)
    requires i <= j <= |chunks|
    requires forall k: nat | k < |chunks| :: Hears(After(before, chunks, k), After(before, chunks, k + 1))
    ensures Hears(After(before, chunks, i), After(before, chunks, j))
  {
    var f := (k: nat) => if k <= |chunks| then PlayedText(After(before, chunks, k)) else "";
    PrefixChain(f, i, j);
  }

  lemma {:induction false} PhraseHeard(before: TurnAudio, chunks: seq<Chunk>, i: nat, j: nat)
    requires Between(before) && AlignedPhrase(chunks) && i <= j <= |chunks|
    ensures Hears(After(before, chunks, i), After(before, chunks, j))
  {
    forall k: nat | k < |chunks| ensures Hears(After(before, chunks, k), After(before, chunks, k + 1)) {
      ChunkHeard(before, chunks, k);
    }
    HeardAlong(before, chunks, i, j);
  }

  /** The phrases of a turn: each aligned in its own numbers and times, with audio of some length. */
  ghost predicate AlignedPhrases(phrases: seq<seq<Chunk>>) {
    forall p | p in phrases :: AlignedPhrase(p) && ChunkDuration(p) >= 0
  }

  lemma {:induction false} PhrasesAreBetween(phrases: seq<seq<Chunk>>)
    requires AlignedPhrases(phrases)
    ensures Between(SpeakPhrases(phrases))
  {
    if phrases == [] {
      KeysHeld(map[]);
      assert Timeline(Silent) == [] by { assert SortedKeys({}) == []; }
    } else {
      var front, p := phrases[..|phrases| - 1], phrases[|phrases| - 1];
      assert p in phrases && forall q | q in front :: q in phrases;
      PhrasesAreBetween(front);
      PhraseKeepsBetween(SpeakPhrases(front), p);
    }
  }

  /** Phrases that are aligned by themselves make, rebased, an aligned turn, at every chunk of every phrase. */
  lemma {:induction false} PhrasesAlignTurn(phrases: seq<seq<Chunk>>, chunks: seq<Chunk>, j: nat)
    requires AlignedPhrases(phrases) && AlignedPhrase(chunks) && j <= |chunks|
    ensures var a := After(SpeakPhrases(phrases), chunks, j); Aligned(a) || a.records == []
  {
    PhrasesAreBetween(phrases);
    var before := SpeakPhrases(phrases);
    if j > 0 {
      InsidePhrase(before, chunks, j);
    } else {
      assert chunks[..0] == [];
      if before.records != [] { InOrderIsAligned(before, Timeline(before)); }
    }
  }

  lemma {:induction false} AfterEnds(before: TurnAudio, chunks: seq<Chunk>)
    ensures After(before, chunks, 0) == before
    ensures After(before, chunks, |chunks|)
            == SpeakChunks(before, chunks, NextIndex(before.records), TotalDuration(before.records))
  {
    assert chunks[..0] == [] && chunks[..|chunks|] == chunks;
  }

  /** Every later phrase lets hear at least as much. */
  lemma {:induction false} LaterPhrasesHear(phrases: seq<seq<Chunk>>, k: nat)
    requires AlignedPhrases(phrases) && k <= |phrases|
    ensures Hears(SpeakPhrases(phrases[..k]), SpeakPhrases(phrases))
    decreases |phrases|
  {
    if k == |phrases| {
      assert phrases[..k] == phrases;
    } else {
      var front, p := phrases[..|phrases| - 1], phrases[|phrases| - 1];
      assert p in phrases && forall q | q in front :: q in phrases;
      assert front[..k] == phrases[..k];
      LaterPhrasesHear(front, k);
      PhrasesAreBetween(front);
      PhraseHeard(SpeakPhrases(front), p, 0, |p|);
      AfterEnds(SpeakPhrases(front), p);
      HearsOn(SpeakPhrases(phrases[..k]), SpeakPhrases(front), SpeakPhrases(phrases));
    }
  }

  lemma {:induction false} InPhraseHears(before: TurnAudio, chunks: seq<Chunk>, j: nat)
    requires Between(before) && AlignedPhrase(chunks) && j <= |chunks|
    ensures Hears(before, After(before, chunks, j))
    ensures Hears(After(before, chunks, j),
                  SpeakChunks(before, chunks, NextIndex(before.records), TotalDuration(before.records)))
  {
    PhraseHeard(before, chunks, 0, j);
    PhraseHeard(before, chunks, j, |chunks|);
    AfterEnds(before, chunks);
  }

  lemma {:induction false} SpeakMore(front: seq<seq<Chunk>>, p: seq<Chunk>)
    ensures var before := SpeakPhrases(front);
            SpeakPhrases(front + [p])
            == SpeakChunks(before, p, NextIndex(before.records), TotalDuration(before.records))
  {
    assert (front + [p])[..|front|] == front;
  }

  lemma {:induction false} NextPhrase(phrases: seq<seq<Chunk>>, k: nat)
    requires k < |phrases|
    ensures var before := SpeakPhrases(phrases[..k]);
            SpeakPhrases(phrases[..k + 1])
            == SpeakChunks(before, phrases[k], NextIndex(before.records), TotalDuration(before.records))
  {
    SpeakMore(phrases[..k], phrases[k]);
    assert phrases[..k + 1] == phrases[..k] + [phrases[k]];
  }

  /**
   Over a whole spoken turn the heard text only grows: from the end of any phrase, through every chunk of the
   next, to the end of every later phrase.
   */
  lemma {:induction false} HeardOnlyGrows(phrases: seq<seq<Chunk>>, k: nat, j: nat)
    requires AlignedPhrases(phrases) && k < |phrases| && j <= |phrases[k]|
    ensures Hears(SpeakPhrases(phrases[..k]), After(SpeakPhrases(phrases[..k]), phrases[k], j))
    ensures Hears(After(SpeakPhrases(phrases[..k]), phrases[k], j), SpeakPhrases(phrases))
  {
    NextPhrase(phrases, k);
    assert phrases[k] in phrases && forall q | q in phrases[..k] :: q in phrases;
    PhrasesAreBetween(phrases[..k]);
    InPhraseHears(SpeakPhrases(phrases[..k]), phrases[k], j);
    LaterPhrasesHear(phrases, k + 1);
    HearsOn(After(SpeakPhrases(phrases[..k]), phrases[k], j), SpeakPhrases(phrases[..k + 1]), SpeakPhrases(phrases));
  }
}
