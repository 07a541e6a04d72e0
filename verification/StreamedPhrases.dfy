/**
 What the streamed synthesis promises to playback: the chunks of one stream, taken as one phrase, have numbers of
 their own, follow each other without gaps as far as durations agree, and are aligned when snapshots only append.
 */
module StreamedPhrases {
  import opened Std
  import S = TtsStream
  import opened Playback
  import opened HeardText

  // ── A stream as a phrase ────────────────────────────────────────────

  function SegmentsOf(timings: seq<S.Timing>, number: int): seq<Segment> {
    seq(|timings|, i requires 0 <= i < |timings| =>
      Segment(timings[i].text, timings[i].start, timings[i].stop, number))
  }

  function AsTable(a: S.Alignments): Table { map k: int | k in a :: SegmentsOf(a[k], k) }

  /** The alignment a chunk carries: all snapshots so far, in the order of their numbers. */
  ghost function LineFor(a: S.Alignments): seq<Segment> { LineOf(AsTable(a)) }

  /** A chunk as playback records it; `length` is the duration that is recorded for its audio. */
  ghost function AsChunk(c: S.Chunk, length: S.Duration): Chunk {
    Chunk(c.index, length(c.audio), if c.text.Some? then c.text.value else "", c.start, LineFor(c.alignment), 0, false)
  }

  ghost function AsPhrase(chunks: seq<S.Chunk>, length: S.Duration): seq<Chunk> {
    if chunks == [] then []
    else AsPhrase(chunks[..|chunks| - 1], length) + [AsChunk(chunks[|chunks| - 1], length)]
  }

  lemma {:induction false} AsPhraseAt(chunks: seq<S.Chunk>, length: S.Duration, k: nat)
    requires k < |chunks|
    ensures |AsPhrase(chunks, length)| == |chunks| && AsPhrase(chunks, length)[k] == AsChunk(chunks[k], length)
  {
    var n := |chunks| - 1;
    if n > 0 { AsPhraseAt(chunks[..n], length, if k < n then k else 0); }
  }

  lemma {:induction false} AsPhraseLength(chunks: seq<S.Chunk>, length: S.Duration)
    ensures |AsPhrase(chunks, length)| == |chunks|
  {
    if chunks != [] { AsPhraseLength(chunks[..|chunks| - 1], length); }
  }

  // ── Time ────────────────────────────────────────────────────────────

  lemma {:induction false} PhraseDuration(chunks: seq<S.Chunk>, parts: seq<S.Bytes>, length: S.Duration)
    requires |chunks| == |parts| && forall k | 0 <= k < |chunks| :: chunks[k].audio == parts[k]
    ensures ChunkDuration(AsPhrase(chunks, length)) == S.Total(length, parts)
  {
    if chunks != [] {
      var n := |chunks| - 1;
      PhraseDuration(chunks[..n], parts[..n], length);
    }
  }

  /** Every stretch of audio but the last is recorded with the length by which the next one was placed. */
  predicate SameLengths(ms: S.Duration, length: S.Duration, parts: seq<S.Bytes>) {
    forall k | 0 <= k < |parts| - 1 :: length(parts[k]) == ms(parts[k])
  }

  lemma {:induction false} SameTotals(ms: S.Duration, length: S.Duration, parts: seq<S.Bytes>)
    requires forall k | 0 <= k < |parts| :: length(parts[k]) == ms(parts[k])
    ensures S.Total(length, parts) == S.Total(ms, parts)
  {
    if parts != [] { SameTotals(ms, length, parts[..|parts| - 1]); }
  }

  lemma {:induction false} LastOfPhrase(chunks: seq<S.Chunk>, length: S.Duration)
    requires chunks != []
    ensures Gapless(AsPhrase(chunks, length)) <==>
            Gapless(AsPhrase(chunks[..|chunks| - 1], length))
            && chunks[|chunks| - 1].start == ChunkDuration(AsPhrase(chunks[..|chunks| - 1], length))
  {
    var front, last := AsPhrase(chunks[..|chunks| - 1], length), AsChunk(chunks[|chunks| - 1], length);
    ConcatLast(front, [last]);
    assert AsPhrase(chunks, length) == front + [last];
  }

  /** Chunks that are numbered and placed one after the other. */
  predicate Placed(ms: S.Duration, chunks: seq<S.Chunk>, parts: seq<S.Bytes>) {
    |chunks| == |parts| && forall k | 0 <= k < |chunks| :: S.ChunkOk(ms, chunks[k], k, parts)
  }

  lemma PlacedFront(ms: S.Duration, chunks: seq<S.Chunk>, parts: seq<S.Bytes>)
    requires chunks != [] && Placed(ms, chunks, parts)
    ensures Placed(ms, chunks[..|chunks| - 1], parts[..|parts| - 1])
    ensures chunks[|chunks| - 1].start == S.Total(ms, parts[..|parts| - 1])
  {
    var n := |chunks| - 1;
    forall k | 0 <= k < n ensures S.ChunkOk(ms, chunks[..n][k], k, parts[..n]) {
      assert S.ChunkOk(ms, chunks[k], k, parts) && parts[..n][..k] == parts[..k];
    }
    assert S.ChunkOk(ms, chunks[n], n, parts);
  }

  lemma {:induction false} GaplessWhen(ms: S.Duration, length: S.Duration, chunks: seq<S.Chunk>, parts: seq<S.Bytes>)
    requires Placed(ms, chunks, parts)
    ensures Gapless(AsPhrase(chunks, length)) <==> SameLengths(ms, length, parts)
  {
    if chunks != [] {
      var n := |chunks| - 1;
      PlacedFront(ms, chunks, parts);
      GaplessWhen(ms, length, chunks[..n], parts[..n]);
      PlacedDuration(ms, chunks[..n], parts[..n], length);
      LastOfPhrase(chunks, length);
      LastGap(ms, length, parts);
    }
  }

  lemma {:induction false} PlacedDuration(ms: S.Duration, chunks: seq<S.Chunk>, parts: seq<S.Bytes>, length: S.Duration)
    requires Placed(ms, chunks, parts)
    ensures ChunkDuration(AsPhrase(chunks, length)) == S.Total(length, parts)
  {
    forall k | 0 <= k < |chunks| ensures chunks[k].audio == parts[k] { assert S.ChunkOk(ms, chunks[k], k, parts); }
    PhraseDuration(chunks, parts, length);
  }

  /** The last stretch begins where the recorded lengths end exactly when the length before it agrees as well. */
  lemma LastGap(ms: S.Duration, length: S.Duration, parts: seq<S.Bytes>)
    requires parts != []
    ensures var front := parts[..|parts| - 1];
            SameLengths(ms, length, front) && S.Total(length, front) == S.Total(ms, front)
            <==> SameLengths(ms, length, parts)
  {
    var front := parts[..|parts| - 1];
    if front != [] && SameLengths(ms, length, front) {
      var m := |front| - 1;
      SameTotals(ms, length, front[..m]);
    }
  }

  /**
   The phrase of a stream has no gaps exactly when the recorded lengths are those by which the stream placed its
   chunks.
   */
  lemma {:induction false} StreamIsGaplessIff(ms: S.Duration, length: S.Duration, requests: seq<S.Request>)
    requires requests != [] && S.Streamed(ms, requests, |requests|).Some?
    ensures Gapless(AsPhrase(S.Streamed(ms, requests, |requests|).value.chunks, length))
            <==> SameLengths(ms, length, S.AllAudio(requests, |requests|))
  {
    S.StreamAddsUp(ms, requests);
    GaplessWhen(ms, length, S.Streamed(ms, requests, |requests|).value.chunks, S.AllAudio(requests, |requests|));
  }

  // ── Numbers ─────────────────────────────────────────────────────────

  /** Every number of the table is one a phrase may use. */
  predicate SmallNumbers(a: S.Alignments) { forall k | k in a :: k < CHUNK_SPAN }

  predicate FlowNumbers(f: S.Flow) { SmallNumbers(f.table) && forall c | c in f.chunks :: SmallNumbers(c.alignment) }

  lemma {:induction false} EventNumbers(ms: S.Duration, f: S.Flow, events: seq<S.Event>, base: nat, numberBase: nat)
    requires FlowNumbers(f) && S.Numbered(events) && numberBase + S.NUMBERS_PER_REQUEST <= CHUNK_SPAN
    requires S.OnEvents(ms, f, events, base, numberBase).Some?
    ensures FlowNumbers(S.OnEvents(ms, f, events, base, numberBase).value)
  {
    if events != [] {
      var front, e := events[..|events| - 1], events[|events| - 1];
      assert e in events && forall d | d in front :: d in events;
      EventNumbers(ms, f, front, base, numberBase);
      OneEventNumbers(ms, S.OnEvents(ms, f, front, base, numberBase).value, e, base, numberBase);
    }
  }

  lemma ReleaseNumbers(f: S.Flow, isFinal: bool, text: Option<string>)
    requires FlowNumbers(f)
    ensures FlowNumbers(S.Release(f, isFinal, text))
  {
  }

  lemma OneEventNumbers(ms: S.Duration, f: S.Flow, e: S.Event, base: nat, numberBase: nat)
    requires FlowNumbers(f) && numberBase + S.NUMBERS_PER_REQUEST <= CHUNK_SPAN
    requires e.snapshot.Some? ==> e.snapshot.value.number < S.NUMBERS_PER_REQUEST
    requires S.OnEvent(ms, f, e, base, numberBase).Some?
    ensures FlowNumbers(S.OnEvent(ms, f, e, base, numberBase).value)
  {
    var g := f.(table := S.Aligned(f.table, e, base, numberBase).value);
    assert FlowNumbers(g);
    ReleaseNumbers(g, false, None);
  }

  lemma {:induction false} StreamNumbers(ms: S.Duration, requests: seq<S.Request>, n: nat)
    requires n <= |requests| <= 1000 && S.Streamed(ms, requests, n).Some? && S.AllNumbered(requests)
    ensures FlowNumbers(S.Streamed(ms, requests, n).value)
  {
    if n > 0 {
      var f, q := S.Streamed(ms, requests, n - 1).value, requests[n - 1];
      StreamNumbers(ms, requests, n - 1);
      assert q in requests;
      EventNumbers(ms, f, q.events, f.offset, S.NumberBase(n - 1));
      ReleaseNumbers(S.OnEvents(ms, f, q.events, f.offset, S.NumberBase(n - 1)).value, n == |requests|, Some(q.text));
    }
  }

  /** Every segment of a table carries the number it stands under. */
  predicate Labelled(t: Table) { forall k, s | k in t && s in t[k] :: s.chunkSeq == k }

  lemma AsTableLabelled(a: S.Alignments)
    ensures Labelled(AsTable(a))
  {
  }

  /** Each segment of a line stands under a number of the line. */
  lemma {:induction false} LineMembers(t: Table, keys: seq<int>, s: Segment)
    requires Holds(t, keys) && Labelled(t) && s in Line(t, keys)
    ensures s.chunkSeq in keys && s.chunkSeq in t
  {
    if s in t[keys[0]] {
      assert s.chunkSeq == keys[0];
    } else {
      assert forall i | 0 <= i < |keys[1..]| :: keys[1..][i] == keys[i + 1];
      LineMembers(t, keys[1..], s);
    }
  }

  lemma LineNumbers(a: S.Alignments, s: Segment)
    requires s in LineFor(a)
    ensures s.chunkSeq in a && 0 <= s.chunkSeq
  {
    KeysHeld(AsTable(a));
    AsTableLabelled(a);
    LineMembers(AsTable(a), SortedKeys(AsTable(a).Keys), s);
  }

  lemma {:induction false} ChunkNumbers(chunks: seq<S.Chunk>, length: S.Duration, c: Chunk, s: Segment)
    requires (forall d | d in chunks :: SmallNumbers(d.alignment)) && c in AsPhrase(chunks, length) && s in c.alignment
    ensures 0 <= s.chunkSeq < CHUNK_SPAN
  {
    var phrase := AsPhrase(chunks, length);
    AsPhraseLength(chunks, length);
    var k :| 0 <= k < |phrase| && phrase[k] == c;
    AsPhraseAt(chunks, length, k);
    assert chunks[k] in chunks;
    LineNumbers(chunks[k].alignment, s);
  }

  /** The chunks of a stream of at most a thousand requests have indices and numbers of their own. */
  lemma {:induction false} StreamIsPhrase(ms: S.Duration, length: S.Duration, requests: seq<S.Request>)
    requires 0 < |requests| <= 1000 && S.AllNumbered(requests) && S.Streamed(ms, requests, |requests|).Some?
    ensures PhraseOk(AsPhrase(S.Streamed(ms, requests, |requests|).value.chunks, length))
  {
    var chunks := S.Streamed(ms, requests, |requests|).value.chunks;
    S.StreamAddsUp(ms, requests);
    StreamNumbers(ms, requests, |requests|);
    forall k | 0 <= k < |chunks| ensures chunks[k].index == k {
      assert S.ChunkOk(ms, chunks[k], k, S.AllAudio(requests, |requests|));
    }
    ChunksArePhrase(chunks, length);
  }

  lemma {:induction false} ChunksArePhrase(chunks: seq<S.Chunk>, length: S.Duration)
    requires (forall c | c in chunks :: SmallNumbers(c.alignment))
             && forall k | 0 <= k < |chunks| :: chunks[k].index == k
    ensures PhraseOk(AsPhrase(chunks, length))
  {
    var phrase := AsPhrase(chunks, length);
    AsPhraseLength(chunks, length);
    forall k | 0 <= k < |phrase| ensures phrase[k].index == k { AsPhraseAt(chunks, length, k); }
    forall c | c in phrase ensures c.index >= 0 && forall s | s in c.alignment :: 0 <= s.chunkSeq < CHUNK_SPAN {
      forall s | s in c.alignment ensures 0 <= s.chunkSeq < CHUNK_SPAN { ChunkNumbers(chunks, length, c, s); }
    }
  }

  // ── Alignment ───────────────────────────────────────────────────────

  /** The numbers never go down along the line. */
  predicate ByNumber(line: seq<Segment>) {
    forall i, j | 0 <= i < j < |line| :: line[i].chunkSeq <= line[j].chunkSeq
  }

  lemma SingleLine(k: int, b: seq<Segment>)
    ensures LineOf(map[k := b]) == b
  {
    var t: Table := map[k := b];
    SortedKeysSpec({k});
    IncreasingUnique(SortedKeys({k}), [k]);
    assert t.Keys == {k};
    assert Line(t, [k]) == t[k] + Line(t, [k][1..]);
  }

  /** Where the last number of a line begins. */
  lemma {:induction false} LastNumberFrom(line: seq<Segment>) returns (j: nat)
    requires line != [] && ByNumber(line)
    ensures j < |line|
    ensures forall i | 0 <= i < j :: line[i].chunkSeq < line[|line| - 1].chunkSeq
    ensures forall i | j <= i < |line| :: line[i].chunkSeq == line[|line| - 1].chunkSeq
  {
    var n := |line| - 1;
    if n == 0 || line[n - 1].chunkSeq < line[n].chunkSeq {
      j := n;
    } else {
      j := LastNumberFrom(line[..n]);
    }
  }

  lemma {:induction false} NumberedConcat(a: seq<Segment>, b: seq<Segment>, k: int)
    ensures Numbered(a + b, k) == Numbered(a, k) + Numbered(b, k)
  {
    FilterConcat(a, b, (e: Segment) => e.chunkSeq == k);
  }

  lemma {:induction false} AllNumbered(b: seq<Segment>, k: int)
    requires forall s | s in b :: s.chunkSeq == k
    ensures Numbered(b, k) == b
  {
    if b != [] {
      assert b == b[..|b| - 1] + [b[|b| - 1]];
      AllNumbered(b[..|b| - 1], k);
    }
  }

  lemma {:induction false} NoneNumbered(a: seq<Segment>, k: int)
    requires forall s | s in a :: s.chunkSeq != k
    ensures Numbered(a, k) == []
  {
    if a != [] { NoneNumbered(a[..|a| - 1], k); }
  }

  lemma NumbersConcat(a: seq<Segment>, b: seq<Segment>, n: int)
    ensures n in Numbers(a + b) <==> n in Numbers(a) || n in Numbers(b)
  {
    forall s | s in a || s in b ensures s in a + b { }
  }

  lemma NumbersAlike(b: seq<Segment>, k: int, n: int)
    requires b != [] && forall s | s in b :: s.chunkSeq == k
    ensures n in Numbers(b) <==> n == k
  {
    assert b[0] in b;
  }

  /** Grouping a line whose last stretch has a number of its own. */
  lemma {:induction false} GroupLast(a: seq<Segment>, b: seq<Segment>, k: int)
    requires b != [] && (forall s | s in a :: s.chunkSeq < k) && (forall s | s in b :: s.chunkSeq == k)
    ensures ByChunk(a + b) == ByChunk(a) + map[k := b]
  {
    var t, u := ByChunk(a + b), ByChunk(a) + map[k := b];
    forall n ensures n in t <==> n in u {
      ByChunkAt(a + b, n);
      ByChunkAt(a, n);
      NumbersConcat(a, b, n);
      NumbersAlike(b, k, n);
    }
    forall n | n in t ensures t[n] == u[n] { GroupAt(a, b, k, n); }
  }

  lemma {:induction false} GroupAt(a: seq<Segment>, b: seq<Segment>, k: int, n: int)
    requires b != [] && (forall s | s in a :: s.chunkSeq < k) && (forall s | s in b :: s.chunkSeq == k)
    requires n in ByChunk(a + b) && (n in ByChunk(a) || n == k)
    ensures ByChunk(a + b)[n] == if n == k then b else ByChunk(a)[n]
  {
    ByChunkAt(a + b, n);
    ByChunkAt(a, n);
    NumberedConcat(a, b, n);
    if n == k { AllNumbered(b, k); NoneNumbered(a, k); } else { NoneNumbered(b, n); }
  }

  /** Grouping a line by number and lining it up again gives it back. */
  lemma {:induction false} LineOfGroups(line: seq<Segment>)
    requires ByNumber(line)
    ensures LineOf(ByChunk(line)) == line
    decreases |line|
  {
    if line == [] {
      KeysHeld(map[]);
      assert ByChunk(line) == map[] && SortedKeys({}) == [];
    } else {
      var j := LastNumberFrom(line);
      var a, b, k := line[..j], line[j..], line[|line| - 1].chunkSeq;
      assert line == a + b;
      GroupLast(a, b, k);
      LineOfGroups(a);
      forall n | n in ByChunk(a) ensures n < k { ByChunkAt(a, n); }
      LineOfUnion(ByChunk(a), map[k := b]);
      SingleLine(k, b);
    }
  }

  lemma {:induction false} LineByNumber(t: Table, keys: seq<int>)
    requires Holds(t, keys) && Labelled(t) && Increasing(keys)
    ensures ByNumber(Line(t, keys))
  {
    if keys != [] {
      var a, b := t[keys[0]], Line(t, keys[1..]);
      assert forall i | 0 <= i < |keys[1..]| :: keys[1..][i] == keys[i + 1];
      LineByNumber(t, keys[1..]);
      var line := a + b;
      forall i, j | 0 <= i < j < |line| ensures line[i].chunkSeq <= line[j].chunkSeq {
        if i < |a| { assert a[i] in a && a[i].chunkSeq == keys[0]; }
        if j < |a| {
          assert a[j] in a && a[j].chunkSeq == keys[0];
        } else {
          LineMembers(t, keys[1..], b[j - |a|]);
        }
      }
    }
  }

  lemma LineForByNumber(a: S.Alignments)
    ensures ByNumber(LineFor(a))
  {
    KeysHeld(AsTable(a));
    AsTableLabelled(a);
    SortedKeysSpec(AsTable(a).Keys);
    LineByNumber(AsTable(a), SortedKeys(AsTable(a).Keys));
  }

  /** Along the chunks the alignment only ever grows at its end. */
  ghost predicate NestedLines(chunks: seq<S.Chunk>) {
    |chunks| <= 1 ||
    (NestedLines(chunks[..|chunks| - 1])
     && LineFor(chunks[|chunks| - 2].alignment) <= LineFor(chunks[|chunks| - 1].alignment))
  }

  lemma PrefixNumbers(line: seq<Segment>, more: seq<Segment>, n: int)
    requires line <= more && n in Numbers(line)
    ensures n in Numbers(more)
  {
    var s :| s in line && s.chunkSeq == n;
    assert s in more;
  }

  lemma GroupsOfPrefix(line: seq<Segment>, more: seq<Segment>)
    requires line <= more
    ensures ByChunk(line) + ByChunk(more) == ByChunk(more)
  {
    forall n | n in ByChunk(line) ensures n in ByChunk(more) {
      ByChunkAt(line, n);
      PrefixNumbers(line, more, n);
      ByChunkAt(more, n);
    }
  }

  /** What a phrase has received by its last chunk is what that chunk carries. */
  lemma {:induction false} TableOfPhrase(chunks: seq<S.Chunk>, length: S.Duration)
    requires chunks != [] && NestedLines(chunks)
    ensures PhraseTable(AsPhrase(chunks, length)) == ByChunk(LineFor(chunks[|chunks| - 1].alignment))
  {
    var n := |chunks| - 1;
    var phrase := AsPhrase(chunks, length);
    assert phrase[..|phrase| - 1] == AsPhrase(chunks[..n], length);
    if n == 0 {
      assert chunks[..0] == [] && AsPhrase(chunks[..0], length) == [];
    } else {
      TableOfPhrase(chunks[..n], length);
      GroupsOfPrefix(LineFor(chunks[n - 1].alignment), LineFor(chunks[n].alignment));
    }
  }

  lemma {:induction false} LineOfPhrase(chunks: seq<S.Chunk>, length: S.Duration)
    requires chunks != [] && NestedLines(chunks)
    ensures LineOf(PhraseTable(AsPhrase(chunks, length))) == LineFor(chunks[|chunks| - 1].alignment)
  {
    TableOfPhrase(chunks, length);
    LineForByNumber(chunks[|chunks| - 1].alignment);
    LineOfGroups(LineFor(chunks[|chunks| - 1].alignment));
  }

  lemma {:induction false} NestedIsGrowing(chunks: seq<S.Chunk>, length: S.Duration)
    requires NestedLines(chunks)
    ensures Growing(AsPhrase(chunks, length))
  {
    if chunks != [] {
      var n := |chunks| - 1;
      var phrase := AsPhrase(chunks, length);
      assert phrase[..|phrase| - 1] == AsPhrase(chunks[..n], length);
      NestedIsGrowing(chunks[..n], length);
      LineOfPhrase(chunks, length);
      if n == 0 {
        assert AsPhrase(chunks[..0], length) == [];
        EmptyLine();
      } else {
        LineOfPhrase(chunks[..n], length);
      }
    }
  }

  lemma EmptyLine()
    ensures LineOf(map[]) == []
  {
    KeysHeld(map[]);
    assert SortedKeys({}) == [];
  }

  // ── Snapshots that only append ──────────────────────────────────────

  /** The timings come under the highest number so far, and continue what stands there. */
  predicate AppendsOnly(table: S.Alignments, key: nat, timings: seq<S.Timing>) {
    (forall k | k in table :: k <= key) && (key in table ==> table[key] <= timings)
  }

  /** A line ends with what stands under its highest number. */
  lemma HighestLine(table: S.Alignments, key: nat)
    requires key in table && forall k | k in table :: k <= key
    ensures LineFor(table) == LineFor(table - {key}) + SegmentsOf(table[key], key)
  {
    var t, u := AsTable(table - {key}), map[key as int := SegmentsOf(table[key], key)];
    LineOfUnion(t, u);
    SingleLine(key, SegmentsOf(table[key], key));
    assert AsTable(table) == t + u;
  }

  lemma MoreSegments(timings: seq<S.Timing>, more: seq<S.Timing>, key: nat)
    requires timings <= more
    ensures SegmentsOf(timings, key) <= SegmentsOf(more, key)
  {
  }

  lemma AppendedLine(table: S.Alignments, key: nat, timings: seq<S.Timing>)
    requires AppendsOnly(table, key, timings)
    ensures LineFor(table) <= LineFor(table[key := timings])
  {
    var after := table[key := timings];
    HighestLine(after, key);
    assert after - {key} == table - {key};
    if key in table {
      HighestLine(table, key);
      MoreSegments(table[key], timings, key);
    } else {
      assert table - {key} == table;
    }
  }

  /** The snapshot of the event, if it has one, only appends. */
  predicate EventAppends(table: S.Alignments, e: S.Event, base: nat, numberBase: nat) {
    e.snapshot.Some? ==>
      var s := e.snapshot.value;
      AppendsOnly(table, numberBase + s.number, S.ShiftAll(s.timings, base + s.offset))
  }

  /** So does every snapshot of the events that is reached. */
  predicate EventsAppend(ms: S.Duration, f: S.Flow, events: seq<S.Event>, base: nat, numberBase: nat) {
    forall k | 0 <= k < |events| ::
      var before := S.OnEvents(ms, f, events[..k], base, numberBase);
      before.Some? ==> EventAppends(before.value.table, events[k], base, numberBase)
  }

  /** Every snapshot of the first n requests only appends. */
  predicate StreamAppends(ms: S.Duration, requests: seq<S.Request>, n: nat)
    requires n <= |requests|
  {
    forall k: nat | k < n ::
      var before := S.Streamed(ms, requests, k);
      before.Some? ==> EventsAppend(ms, before.value, requests[k].events, before.value.offset, S.NumberBase(k))
  }

  ghost predicate FlowNests(f: S.Flow) {
    && NestedLines(f.chunks)
    && (f.chunks != [] ==> LineFor(f.chunks[|f.chunks| - 1].alignment) <= LineFor(f.table))
  }

  lemma ReleaseNests(f: S.Flow, isFinal: bool, text: Option<string>)
    requires FlowNests(f)
    ensures FlowNests(S.Release(f, isFinal, text))
  {
    var g := S.Release(f, isFinal, text);
    if f.pending.Some? { assert g.chunks[..|g.chunks| - 1] == f.chunks; }
  }

  lemma TableNests(f: S.Flow, table: S.Alignments)
    requires FlowNests(f) && LineFor(f.table) <= LineFor(table)
    ensures FlowNests(f.(table := table))
  {
  }

  lemma SnapshotNests(f: S.Flow, e: S.Event, base: nat, numberBase: nat)
    requires FlowNests(f) && EventAppends(f.table, e, base, numberBase)
    requires S.Aligned(f.table, e, base, numberBase).Some?
    ensures FlowNests(f.(table := S.Aligned(f.table, e, base, numberBase).value))
  {
    var table := S.Aligned(f.table, e, base, numberBase).value;
    if e.snapshot.Some? {
      var s := e.snapshot.value;
      var timings := S.ShiftAll(s.timings, base + s.offset);
      AppendedLine(f.table, numberBase + s.number, timings);
      assert table == f.table[numberBase + s.number := timings];
    } else {
      assert table == f.table;
    }
    TableNests(f, table);
  }

  lemma EventNests(ms: S.Duration, f: S.Flow, e: S.Event, base: nat, numberBase: nat)
    requires FlowNests(f) && EventAppends(f.table, e, base, numberBase)
    requires S.OnEvent(ms, f, e, base, numberBase).Some?
    ensures FlowNests(S.OnEvent(ms, f, e, base, numberBase).value)
  {
    var g := f.(table := S.Aligned(f.table, e, base, numberBase).value);
    SnapshotNests(f, e, base, numberBase);
    ReleaseNests(g, false, None);
    if e.audio != [] {
      var r := S.Release(g, false, None);
      PendingNests(r, Some((e.audio, g.offset)), g.offset + ms(e.audio));
    }
  }

  lemma PendingNests(f: S.Flow, pending: Option<(S.Bytes, nat)>, offset: nat)
    requires FlowNests(f)
    ensures FlowNests(f.(pending := pending, offset := offset))
  {
  }

  lemma EventsAppendFront(ms: S.Duration, f: S.Flow, events: seq<S.Event>, base: nat, numberBase: nat)
    requires EventsAppend(ms, f, events, base, numberBase) && events != []
    ensures EventsAppend(ms, f, events[..|events| - 1], base, numberBase)
  {
    var front := events[..|events| - 1];
    forall k | 0 <= k < |front| ensures
        var before := S.OnEvents(ms, f, front[..k], base, numberBase);
        before.Some? ==> EventAppends(before.value.table, front[k], base, numberBase)
    {
      assert front[..k] == events[..k] && front[k] == events[k];
    }
  }

  lemma {:induction false} EventsNest(ms: S.Duration, f: S.Flow, events: seq<S.Event>, base: nat, numberBase: nat)
    requires FlowNests(f) && EventsAppend(ms, f, events, base, numberBase)
    requires S.OnEvents(ms, f, events, base, numberBase).Some?
    ensures FlowNests(S.OnEvents(ms, f, events, base, numberBase).value)
  {
    if events != [] {
      var front, e := events[..|events| - 1], events[|events| - 1];
      EventsAppendFront(ms, f, events, base, numberBase);
      EventsNest(ms, f, front, base, numberBase);
      EventNests(ms, S.OnEvents(ms, f, front, base, numberBase).value, e, base, numberBase);
    }
  }

  lemma {:induction false} AppendsBefore(ms: S.Duration, requests: seq<S.Request>, n: nat, f: S.Flow)
    requires 0 < n <= |requests| && StreamAppends(ms, requests, n) && S.Streamed(ms, requests, n - 1) == Some(f)
    ensures EventsAppend(ms, f, requests[n - 1].events, f.offset, S.NumberBase(n - 1))
  {
  }

  lemma {:induction false} LastRequest(ms: S.Duration, requests: seq<S.Request>, n: nat, f: S.Flow, g: S.Flow)
    returns (h: S.Flow)
    requires 0 < n <= |requests| && S.Streamed(ms, requests, n - 1) == Some(f) && S.Streamed(ms, requests, n) == Some(g)
    ensures S.OnEvents(ms, f, requests[n - 1].events, f.offset, S.NumberBase(n - 1)) == Some(h)
    ensures g == S.Release(h, n == |requests|, Some(requests[n - 1].text))
  {
    h := S.OnEvents(ms, f, requests[n - 1].events, f.offset, S.NumberBase(n - 1)).value;
  }

  lemma {:induction false} RequestNests(ms: S.Duration, requests: seq<S.Request>, n: nat, f: S.Flow, g: S.Flow)
    requires 0 < n <= |requests| && StreamAppends(ms, requests, n) && FlowNests(f)
    requires S.Streamed(ms, requests, n - 1) == Some(f) && S.Streamed(ms, requests, n) == Some(g)
    ensures FlowNests(g)
  {
    AppendsBefore(ms, requests, n, f);
    var h := LastRequest(ms, requests, n, f, g);
    EventsNest(ms, f, requests[n - 1].events, f.offset, S.NumberBase(n - 1));
    ReleaseNests(h, n == |requests|, Some(requests[n - 1].text));
  }

  lemma {:induction false} StreamNests(ms: S.Duration, requests: seq<S.Request>, n: nat, f: S.Flow)
    requires n <= |requests| && S.Streamed(ms, requests, n) == Some(f) && StreamAppends(ms, requests, n)
    ensures FlowNests(f)
  {
    if n > 0 {
      var before := S.Streamed(ms, requests, n - 1).value;
      StreamNests(ms, requests, n - 1, before);
      RequestNests(ms, requests, n, before, f);
    }
  }

  lemma {:induction false} AllCarry(chunks: seq<S.Chunk>, k: nat)
    requires NestedLines(chunks) && k < |chunks| && LineFor(chunks[0].alignment) != []
    ensures LineFor(chunks[k].alignment) != []
  {
    var n := |chunks| - 1;
    if k < n {
      AllCarry(chunks[..n], k);
    } else if n > 0 {
      AllCarry(chunks[..n], n - 1);
    }
  }

  /**
   A stream whose snapshots only append is an aligned phrase, when its first chunk carries alignment and the times
   are in order and within the audio.
   */
  lemma {:induction false} StreamIsAligned(ms: S.Duration, length: S.Duration, requests: seq<S.Request>)
    requires 0 < |requests| <= 1000 && S.AllNumbered(requests) && S.Streamed(ms, requests, |requests|).Some?
    requires StreamAppends(ms, requests, |requests|)
    requires var chunks := S.Streamed(ms, requests, |requests|).value.chunks;
             chunks != [] ==>
               var line := LineFor(chunks[|chunks| - 1].alignment);
               && LineFor(chunks[0].alignment) != []
               && InOrder(line) && Within(line, 0, S.Total(length, S.AllAudio(requests, |requests|)))
    ensures AlignedPhrase(AsPhrase(S.Streamed(ms, requests, |requests|).value.chunks, length))
  {
    var chunks, parts := S.Streamed(ms, requests, |requests|).value.chunks, S.AllAudio(requests, |requests|);
    var phrase := AsPhrase(chunks, length);
    StreamIsPhrase(ms, length, requests);
    StreamNests(ms, requests, |requests|, S.Streamed(ms, requests, |requests|).value);
    NestedIsGrowing(chunks, length);
    S.StreamAddsUp(ms, requests);
    PlacedDuration(ms, chunks, parts, length);
    CarriesAlignment(chunks, length);
    if chunks != [] { LineOfPhrase(chunks, length); } else { EmptyLine(); }
  }

  lemma {:induction false} CarriesAlignment(chunks: seq<S.Chunk>, length: S.Duration)
    requires NestedLines(chunks) && (chunks != [] ==> LineFor(chunks[0].alignment) != [])
    ensures forall c | c in AsPhrase(chunks, length) :: c.alignment != [] && c.playedMs >= 0
  {
    var phrase := AsPhrase(chunks, length);
    AsPhraseLength(chunks, length);
    forall c | c in phrase ensures c.alignment != [] && c.playedMs >= 0 {
      var k :| 0 <= k < |phrase| && phrase[k] == c;
      AsPhraseAt(chunks, length, k);
      AllCarry(chunks, k);
    }
  }
}
