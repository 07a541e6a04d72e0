/**
 The streamed synthesis: several requests, each with its events, become one numbered sequence of audio
 chunks on one timeline. `ms` is the duration of a stretch of audio, rounded by the source.
 */
module TtsStream {
  import opened Std

  type Bytes = seq<nat>

  type Duration = Bytes -> nat

  datatype Timing = Timing(text: string, start: int, stop: int)

  /** An alignment as received: its chunk number and offset within the request. */
  datatype Snapshot = Snapshot(number: nat, offset: int, timings: seq<Timing>)

  datatype Event = Event(audio: Bytes, snapshot: Option<Snapshot>)

  datatype Request = Request(text: string, events: seq<Event>)

  /** Alignments by chunk number; the source lists them in increasing order of the number. */
  type Alignments = map<nat, seq<Timing>>

  datatype Chunk = Chunk(audio: Bytes, index: nat, start: nat, isFinal: bool, text: Option<string>,
                         alignment: Alignments)

  const NUMBERS_PER_REQUEST: nat := 1_000_000

  /** The numbers of the k-th request start here. */
  function NumberBase(k: nat): nat { k * NUMBERS_PER_REQUEST }

  function Shifted(t: Timing, base: int): Timing { t.(start := base + t.start, stop := base + t.stop) }

  function ShiftAll(timings: seq<Timing>, base: int): seq<Timing> {
    if timings == [] then [] else ShiftAll(timings[..|timings| - 1], base) + [Shifted(timings[|timings| - 1], base)]
  }

  predicate TimesValid(timings: seq<Timing>) { forall t | t in timings :: 0 <= t.start <= t.stop }

  /** The alignments after an event; none when its times are invalid. */
  function Aligned(table: Alignments, e: Event, base: nat, numberBase: nat): Option<Alignments> {
    if e.snapshot.None? then Some(table)
    else
      var s := e.snapshot.value;
      var timings := ShiftAll(s.timings, base + s.offset);
      if TimesValid(timings) then Some(table[numberBase + s.number := timings]) else None
  }

  /** A chunk waits until the next one arrives, so that the last one of a request can carry its text. */
  datatype Flow = Flow(chunks: seq<Chunk>, pending: Option<(Bytes, nat)>, offset: nat, table: Alignments)

  function Release(f: Flow, isFinal: bool, text: Option<string>): Flow {
    if f.pending.None? then f
    else
      f.(chunks := f.chunks + [Chunk(f.pending.value.0, |f.chunks|, f.pending.value.1, isFinal, text, f.table)],
         pending := None)
  }

  function OnEvent(ms: Duration, f: Flow, e: Event, base: nat, numberBase: nat): Option<Flow> {
    var table := Aligned(f.table, e, base, numberBase);
    if table.None? then None
    else
      var g := f.(table := table.value);
      if e.audio == [] then Some(g)
      else Some(Release(g, false, None).(pending := Some((e.audio, g.offset)), offset := g.offset + ms(e.audio)))
  }

  function OnEvents(ms: Duration, f: Flow, events: seq<Event>, base: nat, numberBase: nat): Option<Flow> {
    if events == [] then Some(f)
    else
      var before := OnEvents(ms, f, events[..|events| - 1], base, numberBase);
      if before.None? then None else OnEvent(ms, before.value, events[|events| - 1], base, numberBase)
  }

  /** One request: an empty one is an error. */
  function OnRequest(ms: Duration, f: Flow, r: Request, number: nat, isLast: bool): Option<Flow> {
    var after := OnEvents(ms, f, r.events, f.offset, NumberBase(number));
    if after.None? || after.value.pending.None? then None else Some(Release(after.value, isLast, Some(r.text)))
  }

  function Streamed(ms: Duration, requests: seq<Request>, n: nat): Option<Flow>
    requires n <= |requests|
  {
    if n == 0 then Some(Flow([], None, 0, map[]))
    else
      var before := Streamed(ms, requests, n - 1);
      if before.None? then None else OnRequest(ms, before.value, requests[n - 1], n - 1, n == |requests|)
  }

  /** The event loop of one request. */
  method StreamEvents(ms: Duration, start: Flow, events: seq<Event>, base: nat,
                      numberBase: nat) returns (r: Option<Flow>)
    ensures r == OnEvents(ms, start, events, base, numberBase)
  {
    var chunks, pending, table := start.chunks, start.pending, start.table;
    var offset: nat := start.offset;
    for j := 0 to |events|
      invariant OnEvents(ms, start, events[..j], base, numberBase) == Some(Flow(chunks, pending, offset, table))
    {
      var e := events[j];
      assert events[..j + 1][..j] == events[..j];
      var aligned := Aligned(table, e, base, numberBase);
      if aligned.None? {
        FailsForGood(ms, start, events, j + 1, base, numberBase);
        return None;
      }
      table := aligned.value;
      if e.audio == [] { continue; }
      if pending.Some? {
        chunks := chunks + [Chunk(pending.value.0, |chunks|, pending.value.1, false, None, table)];
      }
      pending := Some((e.audio, offset));
      offset := offset + ms(e.audio);
    }
    assert events[..|events|] == events;
    r := Some(Flow(chunks, pending, offset, table));
  }

  /** A cancellation, noticed in the k-th request after some of its events: nothing that still waits is delivered. */
  datatype Cut = Cut(request: nat, events: nat)

  function EventsBefore(r: Request, cut: Cut): seq<Event> { r.events[..Min(cut.events, |r.events|)] }

  /** The chunks of a stream; with a cancellation, those that were delivered before it was noticed. */
  function Delivered(ms: Duration, requests: seq<Request>, cut: Option<Cut>): Option<seq<Chunk>> {
    if cut.None? || cut.value.request >= |requests| then
      var flow := Streamed(ms, requests, |requests|);
      if flow.None? then None else Some(flow.value.chunks)
    else
      var k := cut.value.request;
      var before := Streamed(ms, requests, k);
      if before.None? then None
      else
        var after := OnEvents(ms, before.value, EventsBefore(requests[k], cut.value), before.value.offset,
                              NumberBase(k));
        if after.None? then None else Some(after.value.chunks)
  }

  lemma {:induction false} StreamStep(ms: Duration, requests: seq<Request>, n: nat, f: Flow)
    requires n < |requests| && Streamed(ms, requests, n) == Some(f)
    ensures Streamed(ms, requests, n + 1) == OnRequest(ms, f, requests[n], n, n + 1 == |requests|)
  {
  }

  method SynthesizeStream(ms: Duration, requests: seq<Request>, cut: Option<Cut>) returns (ok: bool, chunks: seq<Chunk>)
    requires requests != []
    ensures ok == Delivered(ms, requests, cut).Some?
    ensures ok ==> chunks == Delivered(ms, requests, cut).value
  {
    var flow := Flow([], None, 0, map[]);
    for i := 0 to |requests|
      invariant Streamed(ms, requests, i) == Some(flow)
      invariant cut.Some? ==> i <= cut.value.request || |requests| <= cut.value.request
    {
      StreamStep(ms, requests, i, flow);
      var last := cut.Some? && cut.value.request == i;
      var events := if last then EventsBefore(requests[i], cut.value) else requests[i].events;
      var after := StreamEvents(ms, flow, events, flow.offset, NumberBase(i));
      if last { return after.Some?, if after.Some? then after.value.chunks else flow.chunks; }
      if after.None? || after.value.pending.None? {
        StreamStays(ms, requests, i + 1, cut);
        return false, flow.chunks;
      }
      flow := Release(after.value, i == |requests| - 1, Some(requests[i].text));
    }
    return true, flow.chunks;
  }

  lemma {:induction false} StreamStays(ms: Duration, requests: seq<Request>, n: nat, cut: Option<Cut>)
    requires n <= |requests| && Streamed(ms, requests, n).None?
             && (cut.Some? ==> n <= cut.value.request || |requests| <= cut.value.request)
    ensures Delivered(ms, requests, cut).None?
  {
    StreamFails(ms, requests, n, |requests|);
    if cut.Some? && cut.value.request < |requests| { StreamFails(ms, requests, n, cut.value.request); }
  }

  lemma {:induction false} FailsForGood(ms: Duration, f: Flow, events: seq<Event>, j: nat, base: nat, numberBase: nat)
    requires j <= |events| && OnEvents(ms, f, events[..j], base, numberBase).None?
    ensures OnEvents(ms, f, events, base, numberBase).None?
  {
    if j < |events| {
      assert events[..|events| - 1][..j] == events[..j];
      FailsForGood(ms, f, events[..|events| - 1], j, base, numberBase);
    } else {
      assert events[..j] == events;
    }
  }

  lemma {:induction false} StreamFails(ms: Duration, requests: seq<Request>, n: nat, m: nat)
    requires n <= m <= |requests| && Streamed(ms, requests, n).None?
    ensures Streamed(ms, requests, m).None?
    decreases m - n
  {
    if n < m { StreamFails(ms, requests, n, m - 1); }
  }

  // ── What the stream adds up to ──────────────────────────────────────

  function Total(ms: Duration, parts: seq<Bytes>): nat {
    if parts == [] then 0 else Total(ms, parts[..|parts| - 1]) + ms(parts[|parts| - 1])
  }

  function IfAny(audio: Bytes): seq<Bytes> { if audio == [] then [] else [audio] }

  /** The audio of the events, in order; an event without audio contributes nothing. */
  function Audio(events: seq<Event>): seq<Bytes> {
    if events == [] then []
    else Audio(events[..|events| - 1]) + IfAny(events[|events| - 1].audio)
  }

  function AllAudio(requests: seq<Request>, n: nat): seq<Bytes>
    requires n <= |requests|
  {
    if n == 0 then [] else AllAudio(requests, n - 1) + Audio(requests[n - 1].events)
  }

  function Texts(chunks: seq<Chunk>): seq<string> {
    if chunks == [] then []
    else
      var c := chunks[|chunks| - 1];
      Texts(chunks[..|chunks| - 1]) + (if c.text.Some? then [c.text.value] else [])
  }

  function RequestTexts(requests: seq<Request>, n: nat): seq<string>
    requires n <= |requests|
  {
    if n == 0 then [] else RequestTexts(requests, n - 1) + [requests[n - 1].text]
  }

  /** The k-th chunk is the k-th stretch of audio, and starts where the ones before it end. */
  predicate ChunkOk(ms: Duration, c: Chunk, k: nat, parts: seq<Bytes>)
    requires k < |parts|
  {
    c.audio == parts[k] && c.index == k && c.start == Total(ms, parts[..k])
  }

  ghost predicate FlowOk(ms: Duration, f: Flow, parts: seq<Bytes>) {
    && |f.chunks| + (if f.pending.Some? then 1 else 0) == |parts|
    && f.offset == Total(ms, parts)
    && (forall k | 0 <= k < |f.chunks| :: ChunkOk(ms, f.chunks[k], k, parts))
    && (f.pending.Some? ==>
          f.pending.value == (parts[|parts| - 1], Total(ms, parts[..|parts| - 1])))
  }

  lemma ReleaseOk(ms: Duration, f: Flow, parts: seq<Bytes>, isFinal: bool, text: Option<string>)
    requires FlowOk(ms, f, parts)
    ensures FlowOk(ms, Release(f, isFinal, text), parts)
    ensures Texts(Release(f, isFinal, text).chunks) ==
            if f.pending.Some? && text.Some? then Texts(f.chunks) + [text.value] else Texts(f.chunks)
  {
    if f.pending.Some? {
      var g := Release(f, isFinal, text);
      assert g.chunks[..|f.chunks|] == f.chunks;
    }
  }

  lemma ArriveOk(ms: Duration, f: Flow, parts: seq<Bytes>, audio: Bytes)
    requires FlowOk(ms, f, parts) && f.pending.None?
    ensures FlowOk(ms, f.(pending := Some((audio, f.offset)), offset := f.offset + ms(audio)), parts + [audio])
  {
    var all := parts + [audio];
    assert all[..|parts|] == parts;
    forall k | 0 <= k < |f.chunks| ensures ChunkOk(ms, f.chunks[k], k, all) { assert all[..k] == parts[..k]; }
  }

  lemma EventOk(ms: Duration, g: Flow, parts: seq<Bytes>, e: Event, base: nat, numberBase: nat)
    requires FlowOk(ms, g, parts) && OnEvent(ms, g, e, base, numberBase).Some?
    ensures var h := OnEvent(ms, g, e, base, numberBase).value;
            && FlowOk(ms, h, parts + IfAny(e.audio)) && Texts(h.chunks) == Texts(g.chunks)
            && (h.pending.Some? <==> g.pending.Some? || e.audio != [])
  {
    var h := g.(table := Aligned(g.table, e, base, numberBase).value);
    if e.audio == [] {
      assert parts + [] == parts;
    } else {
      ReleaseOk(ms, h, parts, false, None);
      ArriveOk(ms, Release(h, false, None), parts, e.audio);
    }
  }

  lemma {:induction false} EventsOk(ms: Duration, f: Flow, parts: seq<Bytes>, events: seq<Event>, base: nat,
                                    numberBase: nat)
    requires FlowOk(ms, f, parts) && f.pending.None? && OnEvents(ms, f, events, base, numberBase).Some?
    ensures var g := OnEvents(ms, f, events, base, numberBase).value;
            && FlowOk(ms, g, parts + Audio(events)) && Texts(g.chunks) == Texts(f.chunks)
            && (g.pending.Some? <==> Audio(events) != [])
  {
    if events == [] {
      assert parts + [] == parts;
    } else {
      var before, e := events[..|events| - 1], events[|events| - 1];
      var sofar := parts + Audio(before);
      assert parts + Audio(events) == sofar + IfAny(e.audio);
      EventsOk(ms, f, parts, before, base, numberBase);
      EventOk(ms, OnEvents(ms, f, before, base, numberBase).value, sofar, e, base, numberBase);
    }
  }

  lemma RequestOk(ms: Duration, f: Flow, parts: seq<Bytes>, r: Request, number: nat, isLast: bool)
    requires FlowOk(ms, f, parts) && f.pending.None? && OnRequest(ms, f, r, number, isLast).Some?
    ensures var g := OnRequest(ms, f, r, number, isLast).value;
            FlowOk(ms, g, parts + Audio(r.events)) && g.pending.None? && Texts(g.chunks) == Texts(f.chunks) + [r.text]
  {
    EventsOk(ms, f, parts, r.events, f.offset, NumberBase(number));
    ReleaseOk(ms, OnEvents(ms, f, r.events, f.offset, NumberBase(number)).value, parts + Audio(r.events),
              isLast, Some(r.text));
  }

  lemma {:induction false} StreamOk(ms: Duration, requests: seq<Request>, n: nat)
    requires n <= |requests| && Streamed(ms, requests, n).Some?
    ensures var f := Streamed(ms, requests, n).value;
            && FlowOk(ms, f, AllAudio(requests, n)) && f.pending.None?
            && Texts(f.chunks) == RequestTexts(requests, n)
  {
    if n > 0 {
      StreamOk(ms, requests, n - 1);
      RequestOk(ms, Streamed(ms, requests, n - 1).value, AllAudio(requests, n - 1), requests[n - 1], n - 1,
                n == |requests|);
    }
  }

  lemma {:induction false} OnlyLastIsFinal(ms: Duration, requests: seq<Request>, n: nat)
    requires n <= |requests| && Streamed(ms, requests, n).Some?
    ensures var chunks := Streamed(ms, requests, n).value.chunks;
            forall k | 0 <= k < |chunks| :: chunks[k].isFinal <==> n == |requests| && k == |chunks| - 1
  {
    if n > 0 {
      OnlyLastIsFinal(ms, requests, n - 1);
      var f := Streamed(ms, requests, n - 1).value;
      NoneFinal(ms, f, requests[n - 1].events, f.offset, NumberBase(n - 1));
    }
  }

  lemma {:induction false} NoneFinal(ms: Duration, f: Flow, events: seq<Event>, base: nat, numberBase: nat)
    requires (forall c | c in f.chunks :: !c.isFinal) && OnEvents(ms, f, events, base, numberBase).Some?
    ensures forall c | c in OnEvents(ms, f, events, base, numberBase).value.chunks :: !c.isFinal
  {
    if events != [] { NoneFinal(ms, f, events[..|events| - 1], base, numberBase); }
  }

  /**
   A stream that does not fail delivers every stretch of audio of every request exactly once and in order,
   numbered from 0, each starting where the audio before it ends; exactly one chunk per request carries
   its text, in order, and exactly the last chunk is final.
   */
  lemma {:induction false} StreamAddsUp(ms: Duration, requests: seq<Request>)
    requires requests != [] && Streamed(ms, requests, |requests|).Some?
    ensures var chunks, parts := Streamed(ms, requests, |requests|).value.chunks, AllAudio(requests, |requests|);
            && |chunks| == |parts|
            && (forall k | 0 <= k < |chunks| ::
                ChunkOk(ms, chunks[k], k, parts) && (chunks[k].isFinal <==> k == |chunks| - 1))
            && Texts(chunks) == RequestTexts(requests, |requests|)
  {
    StreamOk(ms, requests, |requests|);
    OnlyLastIsFinal(ms, requests, |requests|);
  }

  // ── Cancellation ────────────────────────────────────────────────────

  lemma {:induction false} EventsExtend(ms: Duration, f: Flow, events: seq<Event>, j: nat, base: nat, numberBase: nat)
    requires j <= |events| && OnEvents(ms, f, events, base, numberBase).Some?
    ensures OnEvents(ms, f, events[..j], base, numberBase).Some?
    ensures f.chunks <= OnEvents(ms, f, events[..j], base, numberBase).value.chunks
                     <= OnEvents(ms, f, events, base, numberBase).value.chunks
  {
    if events == [] {
      assert events[..j] == [];
    } else {
      var n := |events| - 1;
      if j == |events| {
        assert events[..j] == events;
        EventsExtend(ms, f, events[..n], n, base, numberBase);
        assert events[..n][..n] == events[..n];
      } else {
        EventsExtend(ms, f, events[..n], j, base, numberBase);
        assert events[..n][..j] == events[..j];
      }
    }
  }

  lemma {:induction false} StreamExtends(ms: Duration, requests: seq<Request>, n: nat, m: nat)
    requires n <= m <= |requests| && Streamed(ms, requests, m).Some?
    ensures Streamed(ms, requests, n).Some?
    ensures Streamed(ms, requests, n).value.chunks <= Streamed(ms, requests, m).value.chunks
    decreases m - n
  {
    if n < m {
      StreamExtends(ms, requests, n, m - 1);
      var f, r := Streamed(ms, requests, m - 1).value, requests[m - 1];
      EventsExtend(ms, f, r.events, |r.events|, f.offset, NumberBase(m - 1));
      assert r.events[..|r.events|] == r.events;
    }
  }

  lemma PrefixOn<T>(a: seq<T>, b: seq<T>, c: seq<T>)
    requires a <= b && b <= c
    ensures a <= c
  {
  }

  /** A request that is broken off has delivered a beginning of what it delivers when it is not. */
  lemma {:induction false} BrokenOffRequest(ms: Duration, f: Flow, r: Request, number: nat, isLast: bool, j: nat)
    requires OnRequest(ms, f, r, number, isLast).Some? && j <= |r.events|
    ensures var after := OnEvents(ms, f, r.events[..j], f.offset, NumberBase(number));
            after.Some? && after.value.chunks <= OnRequest(ms, f, r, number, isLast).value.chunks
  {
    EventsExtend(ms, f, r.events, j, f.offset, NumberBase(number));
  }

  /**
   A stream that is cancelled anywhere delivers a beginning of what it would have delivered, and no failure of its
   own.
   */
  lemma {:induction false} CancelledIsPrefix(ms: Duration, requests: seq<Request>, cut: Cut)
    requires Streamed(ms, requests, |requests|).Some?
    ensures Delivered(ms, requests, Some(cut)).Some?
    ensures Delivered(ms, requests, Some(cut)).value <= Streamed(ms, requests, |requests|).value.chunks
  {
    var k := cut.request;
    if k < |requests| {
      StreamExtends(ms, requests, k, |requests|);
      StreamExtends(ms, requests, k + 1, |requests|);
      var f, r := Streamed(ms, requests, k).value, requests[k];
      BrokenOffRequest(ms, f, r, k, k + 1 == |requests|, Min(cut.events, |r.events|));
      PrefixOn(Delivered(ms, requests, Some(cut)).value, Streamed(ms, requests, k + 1).value.chunks,
               Streamed(ms, requests, |requests|).value.chunks);
    }
  }

  // ── When the stream fails ───────────────────────────────────────────

  /** The alignments of every request have valid times, and every request has audio. */
  predicate Healthy(ms: Duration, requests: seq<Request>, n: nat)
    requires n <= |requests|
  {
    n == 0 || (Healthy(ms, requests, n - 1) && HealthyRequest(ms, requests, n - 1))
  }

  predicate HealthyRequest(ms: Duration, requests: seq<Request>, k: nat)
    requires k < |requests|
  {
    Audio(requests[k].events) != [] && ValidTimes(requests[k].events, Total(ms, AllAudio(requests, k)))
  }

  predicate ValidTimes(events: seq<Event>, base: nat) {
    forall e | e in events && e.snapshot.Some? ::
      TimesValid(ShiftAll(e.snapshot.value.timings, base + e.snapshot.value.offset))
  }

  lemma {:induction false} EventsSucceedIff(ms: Duration, f: Flow, events: seq<Event>, base: nat, numberBase: nat)
    ensures OnEvents(ms, f, events, base, numberBase).Some? <==> ValidTimes(events, base)
  {
    if events != [] {
      EventsSucceedIff(ms, f, events[..|events| - 1], base, numberBase);
      assert events == events[..|events| - 1] + [events[|events| - 1]];
    }
  }

  /**
   It fails exactly when some alignment's times, moved to its request's start, are invalid, or a request has no
   audio.
   */
  lemma {:induction false} SucceedsIff(ms: Duration, requests: seq<Request>, n: nat)
    requires n <= |requests|
    ensures Streamed(ms, requests, n).Some? <==> Healthy(ms, requests, n)
  {
    if n > 0 {
      SucceedsIff(ms, requests, n - 1);
      assert Healthy(ms, requests, n) <==> Healthy(ms, requests, n - 1) && HealthyRequest(ms, requests, n - 1);
      if Streamed(ms, requests, n - 1).Some? {
        RequestSucceedsIff(ms, requests, n);
      } else {
        StreamFails(ms, requests, n - 1, n);
      }
    }
  }

  lemma RequestSucceedsIff(ms: Duration, requests: seq<Request>, n: nat)
    requires 0 < n <= |requests| && Streamed(ms, requests, n - 1).Some?
    ensures Streamed(ms, requests, n).Some? <==> HealthyRequest(ms, requests, n - 1)
  {
    StreamOk(ms, requests, n - 1);
    var f, r := Streamed(ms, requests, n - 1).value, requests[n - 1];
    var parts, numberBase := AllAudio(requests, n - 1), NumberBase(n - 1);
    EventsSucceedIff(ms, f, r.events, f.offset, numberBase);
    if OnEvents(ms, f, r.events, f.offset, numberBase).Some? {
      EventsOk(ms, f, parts, r.events, f.offset, numberBase);
    }
  }

  // ── Whose alignment it is ───────────────────────────────────────────

  predicate Numbered(events: seq<Event>) {
    forall e | e in events && e.snapshot.Some? :: e.snapshot.value.number < NUMBERS_PER_REQUEST
  }

  /** The last alignment a request received under a number. */
  function LastSnapshot(events: seq<Event>, number: nat): Option<Snapshot> {
    if events == [] then None
    else
      var s := events[|events| - 1].snapshot;
      if s.Some? && s.value.number == number then s else LastSnapshot(events[..|events| - 1], number)
  }

  predicate SameAt(a: Alignments, b: Alignments, key: nat) {
    (key in a <==> key in b) && (key in a && key in b ==> a[key] == b[key])
  }

  predicate HoldsAt(table: Alignments, key: nat, s: Snapshot, base: nat) {
    key in table && table[key] == ShiftAll(s.timings, base + s.offset)
  }

  function Received(events: seq<Event>, numberBase: nat, key: nat): Option<Snapshot> {
    if numberBase <= key < numberBase + NUMBERS_PER_REQUEST then LastSnapshot(events, key - numberBase) else None
  }

  lemma EventTable(ms: Duration, f: Flow, e: Event, base: nat, numberBase: nat, key: nat)
    requires OnEvent(ms, f, e, base, numberBase).Some?
    ensures var t := OnEvent(ms, f, e, base, numberBase).value.table;
            if e.snapshot.Some? && key == numberBase + e.snapshot.value.number
            then HoldsAt(t, key, e.snapshot.value, base) else SameAt(f.table, t, key)
  {
    var table := Aligned(f.table, e, base, numberBase).value;
    assert OnEvent(ms, f, e, base, numberBase).value.table == table;
  }

  lemma {:induction false} EventsTable(ms: Duration, f: Flow, events: seq<Event>, base: nat, numberBase: nat, key: nat)
    requires Numbered(events) && OnEvents(ms, f, events, base, numberBase).Some?
    ensures var t, s := OnEvents(ms, f, events, base, numberBase).value.table, Received(events, numberBase, key);
            if s.Some? then HoldsAt(t, key, s.value, base) else SameAt(f.table, t, key)
  {
    if events != [] {
      var before, e := events[..|events| - 1], events[|events| - 1];
      assert e in events;
      forall d | d in before ensures d in events { }
      EventsTable(ms, f, before, base, numberBase, key);
      EventTable(ms, OnEvents(ms, f, before, base, numberBase).value, e, base, numberBase, key);
    }
  }

  lemma KeysApart(r: nat, number: nat, k: nat)
    requires number < NUMBERS_PER_REQUEST
    ensures r != k ==> !(NumberBase(k) <= NumberBase(r) + number < NumberBase(k) + NUMBERS_PER_REQUEST)
  {
    if r < k {
      assert (r + 1) * NUMBERS_PER_REQUEST <= k * NUMBERS_PER_REQUEST;
    } else if k < r {
      assert (k + 1) * NUMBERS_PER_REQUEST <= r * NUMBERS_PER_REQUEST;
    }
  }

  predicate AllNumbered(requests: seq<Request>) { forall r | r in requests :: Numbered(r.events) }

  /** What the table should hold under a request's number, once n requests are done. */
  function Owed(requests: seq<Request>, n: nat, r: nat, number: nat): Option<Snapshot> {
    if r < n <= |requests| then LastSnapshot(requests[r].events, number) else None
  }

  predicate TableSays(table: Alignments, key: nat, s: Option<Snapshot>, base: nat) {
    if s.Some? then HoldsAt(table, key, s.value, base) else key !in table
  }

  lemma {:induction false} RequestTable(ms: Duration, f: Flow, q: Request, k: nat, isLast: bool, r: nat, number: nat)
    requires Numbered(q.events) && OnRequest(ms, f, q, k, isLast).Some? && number < NUMBERS_PER_REQUEST
    ensures var t := OnRequest(ms, f, q, k, isLast).value.table;
            && (r != k ==> SameAt(f.table, t, NumberBase(r) + number))
            && (r == k && NumberBase(r) + number !in f.table ==>
                  TableSays(t, NumberBase(r) + number, LastSnapshot(q.events, number), f.offset))
  {
    EventsTable(ms, f, q.events, f.offset, NumberBase(k), NumberBase(r) + number);
    KeysApart(r, number, k);
  }

  /**
   Alignments of different requests never replace each other: under each request's own number the table
   holds the last alignment that request received, moved to where the request's audio starts, and nothing else.
   */
  lemma {:induction false} AlignmentsStayApart(ms: Duration, requests: seq<Request>, n: nat, r: nat, number: nat)
    requires n <= |requests| && Streamed(ms, requests, n).Some? && AllNumbered(requests)
    requires r < |requests| && number < NUMBERS_PER_REQUEST
    ensures TableSays(Streamed(ms, requests, n).value.table, NumberBase(r) + number, Owed(requests, n, r, number),
                      Total(ms, AllAudio(requests, r)))
  {
    if n > 0 {
      AlignmentsStayApart(ms, requests, n - 1, r, number);
      StreamOk(ms, requests, n - 1);
      var f, q := Streamed(ms, requests, n - 1).value, requests[n - 1];
      assert q in requests;
      StreamStep(ms, requests, n - 1, f);
      RequestTable(ms, f, q, n - 1, n == |requests|, r, number);
      assert f.offset == Total(ms, AllAudio(requests, n - 1));
      assert r != n - 1 ==> Owed(requests, n, r, number) == Owed(requests, n - 1, r, number);
    }
  }
}
