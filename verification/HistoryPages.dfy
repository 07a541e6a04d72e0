/**
 Paged conversation views projected from the ledger. The ledger is given in time order; a query returns
 the newest events first, equal times in reverse ledger order. One look at the ledger is made of batches,
 each of which may find a longer ledger than the one before. A cursor is the data it encodes.
 */
module HistoryPages {
  import opened Std

  datatype Event = Event(id: nat, session: string, at: int, userText: string, companionText: string)

  const BATCH: nat := 500
  const MAX_EVENTS: nat := 20_000

  function Rev<T>(s: seq<T>): (r: seq<T>)
    ensures |r| == |s|
  {
    if s == [] then [] else [s[|s| - 1]] + Rev(s[..|s| - 1])
  }

  predicate Since(e: Event, seen: Option<int>) { seen.Some? ==> e.at >= seen.value }

  /** The rows of a query with an optional lower bound, oldest first. */
  function Matching(ledger: seq<Event>, seen: Option<int>): seq<Event> {
    if ledger == [] then []
    else Matching(ledger[..|ledger| - 1], seen)
         + (if Since(ledger[|ledger| - 1], seen) then [ledger[|ledger| - 1]] else [])
  }

  function Slice<T>(s: seq<T>, offset: nat, limit: nat): seq<T> {
    if offset >= |s| then [] else s[offset..Min(|s|, offset + limit)]
  }

  function First<T>(s: seq<T>, n: nat): seq<T> { if |s| <= n then s else s[..n] }

  /** The part of the ledger a projection is made of: the newest matching rows, up to the limit. */
  function Fetched(ledger: seq<Event>, seen: Option<int>): seq<Event> { LastOf(Matching(ledger, seen), MAX_EVENTS) }

  lemma {:induction false} RevAt<T>(s: seq<T>, k: nat)
    requires k < |s|
    ensures Rev(s)[k] == s[|s| - 1 - k]
  {
    if k > 0 { RevAt(s[..|s| - 1], k - 1); }
  }

  lemma {:induction false} FirstOfRev<T>(s: seq<T>, n: nat)
    ensures First(Rev(s), n) == Rev(LastOf(s, n))
  {
    var last := LastOf(s, n);
    forall k | 0 <= k < |last| ensures First(Rev(s), n)[k] == Rev(last)[k] {
      RevAt(s, k);
      RevAt(last, k);
    }
  }

  lemma {:induction false} RevRev<T>(s: seq<T>)
    ensures Rev(Rev(s)) == s
  {
    forall k | 0 <= k < |s| ensures Rev(Rev(s))[k] == s[k] {
      RevAt(Rev(s), k);
      RevAt(s, |s| - 1 - k);
    }
  }

  // ── One look at the ledger, batch by batch ──────────────────────────

  /** The ledger as the k-th batch finds it, and the newest-first answer to its query. */
  type Views = nat -> seq<Event>

  function Answers(views: Views, seen: Option<int>): Views { (k: nat) => Rev(Matching(views(k), seen)) }

  function BatchAt(rows: seq<Event>, offset: nat): seq<Event> {
    if offset >= MAX_EVENTS then [] else Slice(rows, offset, Min(BATCH, MAX_EVENTS - offset))
  }

  /** The batches from the k-th on, added to what was gathered, until one is not full or the limit is reached. */
  function Batched(answers: Views, k: nat, gathered: seq<Event>): seq<Event>
    decreases MAX_EVENTS - |gathered|
  {
    if |gathered| >= MAX_EVENTS then gathered
    else
      var batch := BatchAt(answers(k), |gathered|);
      if |batch| < BATCH then gathered + batch else Batched(answers, k + 1, gathered + batch)
  }

  function Look(views: Views, seen: Option<int>): seq<Event> { Batched(Answers(views, seen), 0, []) }

  method CompletedEvents(views: Views, seen: Option<int>) returns (events: seq<Event>)
    ensures events == Look(views, seen)
  {
    ghost var answers := Answers(views, seen);
    events := [];
    var offset, k := 0, 0;
    while offset < MAX_EVENTS
      invariant offset == |events| && Look(views, seen) == Batched(answers, k, events)
      decreases MAX_EVENTS - offset
    {
      var batch := BatchAt(Rev(Matching(views(k), seen)), offset);
      events := events + batch;
      if |batch| < BATCH { return; }
      offset, k := offset + |batch|, k + 1;
    }
  }

  /** A batch that finds these rows takes the next stretch of them. */
  lemma BatchTakes(rows: seq<Event>, k: nat, offset: nat)
    requires offset == k * BATCH && offset < MAX_EVENTS && offset <= |rows|
    ensures var batch := BatchAt(rows, offset);
            if |rows| < offset + BATCH then |batch| < BATCH && rows[..offset] + batch == rows
            else |batch| == BATCH && rows[..offset] + batch == rows[..(k + 1) * BATCH] && (k + 1) * BATCH <= MAX_EVENTS
  {
  }

  /** Every batch that is read finds these rows. */
  ghost predicate Steady(answers: Views, rows: seq<Event>) {
    forall k: nat | k * BATCH < MAX_EVENTS && k * BATCH <= |rows| :: answers(k) == rows
  }

  lemma {:induction false} SteadyBatches(answers: Views, rows: seq<Event>, k: nat, offset: nat)
    requires Steady(answers, rows) && offset == k * BATCH && offset <= MAX_EVENTS && offset <= |rows|
    ensures Batched(answers, k, rows[..offset]) == First(rows, MAX_EVENTS)
    decreases MAX_EVENTS - offset
  {
    if offset < MAX_EVENTS {
      assert answers(k) == rows;
      BatchTakes(rows, k, offset);
      if |rows| >= offset + BATCH { SteadyBatches(answers, rows, k + 1, (k + 1) * BATCH); }
    }
  }

  ghost predicate SteadyBefore(answers: Views, rows: seq<Event>, k: nat) { forall j: nat | j < k :: answers(j) == rows }

  /** The batches from the i-th up to the k-th add up to these rows. */
  lemma {:induction false} BatchesBefore(answers: Views, rows: seq<Event>, i: nat, k: nat)
    requires i <= k && k * BATCH < MAX_EVENTS && k * BATCH <= |rows| && SteadyBefore(answers, rows, k)
    ensures Batched(answers, i, rows[..i * BATCH]) == Batched(answers, k, rows[..k * BATCH])
    decreases k - i
  {
    if i < k {
      assert answers(i) == rows;
      BatchTakes(rows, i, i * BATCH);
      BatchesBefore(answers, rows, i + 1, k);
    }
  }

  lemma {:induction false} BatchedExtends(answers: Views, k: nat, gathered: seq<Event>)
    ensures gathered <= Batched(answers, k, gathered)
    decreases MAX_EVENTS - |gathered|
  {
    if |gathered| < MAX_EVENTS {
      var batch := BatchAt(answers(k), |gathered|);
      if |batch| >= BATCH { BatchedExtends(answers, k + 1, gathered + batch); }
    }
  }

  lemma SteadyRows(views: Views, seen: Option<int>)
    ensures forall ledger | SteadyViews(views, ledger, seen) :: Rev(Look(views, seen)) == Fetched(ledger, seen)
  {
    forall ledger | SteadyViews(views, ledger, seen) ensures Rev(Look(views, seen)) == Fetched(ledger, seen) {
      BatchesAreFetched(views, ledger, seen);
      RevRev(Fetched(ledger, seen));
    }
  }

  predicate DistinctIds(events: seq<Event>) { forall i, j | 0 <= i < j < |events| :: events[i].id != events[j].id }

  /** A longer ledger shows another row at the same place of the answer. */
  lemma {:induction false} OtherRow(m: seq<Event>, later: seq<Event>, offset: nat)
    requires m < later && DistinctIds(later) && offset <= |m|
    ensures offset < |m| ==> Rev(later)[offset] != Rev(m)[offset]
  {
    RevAt(later, offset);
    if offset < |m| {
      RevAt(m, offset);
      assert Rev(m)[offset] == later[|m| - 1 - offset];
    }
  }

  lemma {:induction false} LateBatch(answers: Views, k: nat, gathered: seq<Event>)
    requires |gathered| < MAX_EVENTS && |gathered| < |answers(k)|
    ensures var b, n := Batched(answers, k, gathered), |gathered|; |b| > n && b[n] == answers(k)[n]
  {
    var batch := BatchAt(answers(k), |gathered|);
    assert batch[0] == answers(k)[|gathered|] == (gathered + batch)[|gathered|];
    if |batch| >= BATCH { BatchedExtends(answers, k + 1, gathered + batch); }
  }

  /** The first batch that finds more events repeats a row, or returns one row too many. */
  lemma {:induction false} LateEventShows(views: Views, seen: Option<int>, k: nat, offset: nat)
    requires offset == k * BATCH && offset < MAX_EVENTS && offset <= |Matching(views(0), seen)|
    requires SteadyBefore(Answers(views, seen), Rev(Matching(views(0), seen)), k)
    requires Matching(views(0), seen) < Matching(views(k), seen) && DistinctIds(Matching(views(k), seen))
    ensures Look(views, seen) != First(Rev(Matching(views(0), seen)), MAX_EVENTS)
  {
    var m, later := Matching(views(0), seen), Matching(views(k), seen);
    var answers := Answers(views, seen);
    assert Rev(m)[..0] == [];
    BatchesBefore(answers, Rev(m), 0, k);
    OtherRow(m, later, offset);
    LateBatch(answers, k, Rev(m)[..offset]);
    assert Look(views, seen)[offset] == Rev(later)[offset];
  }

  /** No batch that is read finds more matching events than this ledger holds. */
  ghost predicate SteadyViews(views: Views, ledger: seq<Event>, seen: Option<int>) {
    Steady(Answers(views, seen), Rev(Matching(ledger, seen)))
  }

  /**
   While the matching events stay the same, the batches add up to the newest of them, newest first, up to the limit.
   */
  lemma BatchesAreFetched(views: Views, ledger: seq<Event>, seen: Option<int>)
    requires SteadyViews(views, ledger, seen)
    ensures Look(views, seen) == Rev(Fetched(ledger, seen))
  {
    assert Rev(Matching(ledger, seen))[..0] == [];
    SteadyBatches(Answers(views, seen), Rev(Matching(ledger, seen)), 0, 0);
    FirstOfRev(Matching(ledger, seen), MAX_EVENTS);
  }

  /**
   When events may be recorded between the batches of one look: it yields the newest matching events of the
   ledger it started with, each once, exactly when no batch that is read finds more of them than the first did.
   */
  lemma {:induction false} BatchesAgreeIff(views: Views, seen: Option<int>)
    requires forall k: nat ::
               Matching(views(0), seen) <= Matching(views(k), seen) && DistinctIds(Matching(views(k), seen))
    ensures Look(views, seen) == Rev(Fetched(views(0), seen)) <==> SteadyViews(views, views(0), seen)
  {
    if SteadyViews(views, views(0), seen) {
      BatchesAreFetched(views, views(0), seen);
    } else {
      UnsteadyShows(views, seen);
      FirstOfRev(Matching(views(0), seen), MAX_EVENTS);
    }
  }

  lemma {:induction false} UnsteadyShows(views: Views, seen: Option<int>)
    requires forall k: nat ::
               Matching(views(0), seen) <= Matching(views(k), seen) && DistinctIds(Matching(views(k), seen))
    requires !SteadyViews(views, views(0), seen)
    ensures Look(views, seen) != First(Rev(Matching(views(0), seen)), MAX_EVENTS)
  {
    var m, answers := Matching(views(0), seen), Answers(views, seen);
    var k: nat :| k * BATCH < MAX_EVENTS && k * BATCH <= |m| && answers(k) != Rev(m);
    var first := FirstLate(answers, Rev(m), k);
    var later := Matching(views(first), seen);
    assert m <= later && DistinctIds(later) && m != later;
    assert first * BATCH <= k * BATCH;
    LateEventShows(views, seen, first, first * BATCH);
  }

  lemma {:induction false} FirstLate(answers: Views, rows: seq<Event>, k: nat) returns (first: nat)
    requires answers(k) != rows
    ensures first <= k && answers(first) != rows && SteadyBefore(answers, rows, first)
    decreases k
  {
    if j: nat :| j < k && answers(j) != rows {
      first := FirstLate(answers, rows, j);
    } else {
      first := k;
    }
  }

  /** A full batch of events, and one more that is recorded before the second batch is read. */
  lemma LateEventRepeats()
    ensures var ledger := seq(BATCH, i requires 0 <= i < BATCH => Event(i, "s", i, "", ""));
            var views: Views := (k: nat) => if k == 0 then ledger else ledger + [Event(BATCH, "s", BATCH, "", "")];
            Look(views, None) != Rev(Fetched(ledger, None))
  {
    var ledger := seq(BATCH, i requires 0 <= i < BATCH => Event(i, "s", i, "", ""));
    var later := ledger + [Event(BATCH, "s", BATCH, "", "")];
    var views: Views := (k: nat) => if k == 0 then ledger else later;
    AllMatch(ledger);
    AllMatch(later);
    FirstOfRev(ledger, MAX_EVENTS);
    LateEventShows(views, None, 1, BATCH);
  }

  // ── Turns of one session ────────────────────────────────────────────

  datatype Cursor = Cursor(snapshot: int, offset: nat, seen: Option<int>)

  datatype Page = Page(turns: seq<Event>, next: Option<Cursor>)

  predicate Shown(e: Event, session: string, snapshot: int, seen: Option<int>) {
    e.at <= snapshot && (seen.Some? ==> e.at > seen.value) && e.session == session
  }

  /** What one look at the ledger shows, oldest first. */
  function Projection(ledger: seq<Event>, session: string, snapshot: int, seen: Option<int>): seq<Event> {
    if ledger == [] then []
    else Projection(ledger[..|ledger| - 1], session, snapshot, seen)
         + (if Shown(ledger[|ledger| - 1], session, snapshot, seen) then [ledger[|ledger| - 1]] else [])
  }

  function Latest(ledger: seq<Event>, now: int): int { if ledger == [] then now else ledger[|ledger| - 1].at }

  function SeenOf(cursor: Option<Cursor>): Option<int> { if cursor.Some? then cursor.value.seen else None }

  /** The page for a cursor, from the rows that were fetched, oldest first. */
  function PageFrom(rows: seq<Event>, session: string, cursor: Option<Cursor>, limit: nat, now: int): Page {
    var snapshot := if cursor.Some? then cursor.value.snapshot else Latest(rows, now);
    var turns := Projection(rows, session, snapshot, SeenOf(cursor));
    var offset := if cursor.Some? then cursor.value.offset else 0;
    var page := Slice(turns, offset, limit);
    Page(page, if offset + |page| < |turns| && page != [] then Some(Cursor(snapshot, 0, Some(page[|page| - 1].at)))
         else None)
  }

  /** The page for a cursor when the ledger does not change while it is read. */
  function PageOf(ledger: seq<Event>, session: string, cursor: Option<Cursor>, limit: nat, now: int): Page {
    PageFrom(Fetched(ledger, SeenOf(cursor)), session, cursor, limit, now)
  }

  /** The lower bound of the query never hides a row the page would show. */
  lemma {:induction false} BoundIsHarmless(ledger: seq<Event>, session: string, snapshot: int, seen: Option<int>)
    ensures Projection(Matching(ledger, seen), session, snapshot, seen) == Projection(ledger, session, snapshot, seen)
  {
    if ledger != [] {
      var n := |ledger| - 1;
      BoundIsHarmless(ledger[..n], session, snapshot, seen);
      var m := Matching(ledger[..n], seen);
      if Since(ledger[n], seen) {
        assert (m + [ledger[n]])[..|m|] == m;
      } else {
        assert Matching(ledger, seen) == m;
      }
    }
  }

  /** The loop over the fetched events, from the oldest to the newest. */
  method ShownTurns(events: seq<Event>, ghost rows: seq<Event>, session: string, snapshot: int, seen: Option<int>)
    returns (turns: seq<Event>)
    requires events == Rev(rows)
    ensures turns == Projection(rows, session, snapshot, seen)
  {
    turns := [];
    var i := |events|;
    while i > 0
      invariant 0 <= i <= |events| && turns == Projection(rows[..|rows| - i], session, snapshot, seen)
    {
      i := i - 1;
      RevAt(rows, i);
      assert rows[..|rows| - i][..|rows| - i - 1] == rows[..|rows| - i - 1];
      var e := events[i];
      if e.at > snapshot || (seen.Some? && e.at <= seen.value) || e.session != session {
      } else {
        turns := turns + [e];
      }
    }
    assert rows[..|rows|] == rows;
  }

  /** The snapshot is the time of the newest event that was fetched. */
  lemma {:induction false} NewestFirst(events: seq<Event>, now: int)
    ensures Latest(Rev(events), now) == if events == [] then now else events[0].at
  {
    if events != [] { RevAt(events, |events| - 1); }
  }

  /** One page. The first page's snapshot is the time of the newest event it fetched. */
  method History(views: Views, session: string, cursor: Option<Cursor>, limit: nat, now: int) returns (page: Page)
    requires limit > 0
    ensures page == PageFrom(Rev(Look(views, SeenOf(cursor))), session, cursor, limit, now)
    ensures forall ledger | SteadyViews(views, ledger, SeenOf(cursor)) ::
            page == PageOf(ledger, session, cursor, limit, now)
  {
    var seen := if cursor.Some? then cursor.value.seen else None;
    var events := CompletedEvents(views, seen);
    NewestFirst(events, now);
    RevRev(events);
    var snapshot := if cursor.Some? then cursor.value.snapshot else if events != [] then events[0].at else now;
    var turns := ShownTurns(events, Rev(events), session, snapshot, seen);
    var offset := if cursor.Some? then cursor.value.offset else 0;
    var shown := Slice(turns, offset, limit);
    page := Page(shown, if offset + |shown| < |turns|
                 && shown != [] then Some(Cursor(snapshot, 0, Some(shown[|shown| - 1].at)))
                        else None);
    SteadyRows(views, seen);
  }

  /** A ledger within the limit is projected completely. */
  lemma {:induction false} AllFetched(ledger: seq<Event>, session: string, snapshot: int, seen: Option<int>)
    requires |ledger| <= MAX_EVENTS
    ensures Projection(Fetched(ledger, seen), session, snapshot, seen) == Projection(ledger, session, snapshot, seen)
    ensures Fetched(ledger, None) == ledger
  {
    MatchingSize(ledger, seen);
    BoundIsHarmless(ledger, session, snapshot, seen);
    AllMatch(ledger);
  }

  lemma {:induction false} MatchingSize(ledger: seq<Event>, seen: Option<int>)
    ensures |Matching(ledger, seen)| <= |ledger|
  {
    if ledger != [] { MatchingSize(ledger[..|ledger| - 1], seen); }
  }

  lemma {:induction false} AllMatch(ledger: seq<Event>)
    ensures Matching(ledger, None) == ledger
  {
    if ledger != [] { AllMatch(ledger[..|ledger| - 1]); }
  }

  // ── Following cursors ───────────────────────────────────────────────

  /** What is newer than the last row seen. */
  function After(turns: seq<Event>, seen: int): seq<Event> {
    if turns == [] then []
    else After(turns[..|turns| - 1], seen) + (if turns[|turns| - 1].at > seen then [turns[|turns| - 1]] else [])
  }

  predicate InOrder(turns: seq<Event>) {
    forall i, j | 0 <= i < j < |turns| :: turns[i].at <= turns[j].at
  }

  lemma {:induction false} AfterIsSuffix(turns: seq<Event>, k: nat)
    requires InOrder(turns) && 0 < k <= |turns|
    ensures |After(turns, turns[k - 1].at)| <= |turns| - k
    ensures After(turns, turns[k - 1].at) == turns[|turns| - |After(turns, turns[k - 1].at)|..]
    ensures |After(turns, turns[k - 1].at)| == |turns| - k <==> k == |turns| || turns[k].at > turns[k - 1].at
  {
    var n := |turns| - 1;
    var seen := turns[k - 1].at;
    if k == |turns| {
      NothingAfter(turns, seen);
    } else {
      AfterIsSuffix(turns[..n], k);
      var a := After(turns[..n], seen);
      assert turns[..n][k - 1] == turns[k - 1];
      if turns[n].at <= seen {
        NothingAfter(turns, seen);
      } else {
        assert turns[n - |a|..] == turns[..n][n - |a|..] + [turns[n]];
        assert k < n ==> turns[..n][k] == turns[k];
      }
    }
  }

  lemma {:induction false} NothingAfter(turns: seq<Event>, seen: int)
    requires forall e | e in turns :: e.at <= seen
    ensures After(turns, seen) == []
  {
    if turns != [] {
      assert turns[|turns| - 1] in turns;
      NothingAfter(turns[..|turns| - 1], seen);
    }
  }

  /** The pages one gets by always asking for what is newer than the last row. */
  function Walk(turns: seq<Event>, limit: nat): seq<seq<Event>>
    requires InOrder(turns) && limit > 0
    decreases |turns|
  {
    if |turns| <= limit then [turns]
    else
      AfterIsSuffix(turns, limit);
      [turns[..limit]] + Walk(After(turns, turns[limit - 1].at), limit)
  }

  /** No page ends between two rows of equal time. */
  predicate NoTieSplit(turns: seq<Event>, limit: nat)
    requires limit > 0
    decreases |turns|
  {
    |turns| <= limit || (turns[limit - 1].at < turns[limit].at && NoTieSplit(turns[limit..], limit))
  }

  lemma {:induction false} FlattenCons<T>(s: seq<T>, rest: seq<seq<T>>)
    ensures Flatten([s] + rest) == s + Flatten(rest)
  {
    FlattenConcat([s], rest);
    assert [s][..0] == [];
  }

  lemma {:induction false} WalkSize(turns: seq<Event>, limit: nat)
    requires InOrder(turns) && limit > 0
    ensures |Flatten(Walk(turns, limit))| <= |turns| && |Walk(turns, limit)| <= |turns| + 1
    decreases |turns|
  {
    if |turns| <= limit {
      FlattenCons(turns, []);
      assert [turns] + [] == [turns];
    } else {
      AfterIsSuffix(turns, limit);
      var rest := After(turns, turns[limit - 1].at);
      WalkSize(rest, limit);
      FlattenCons(turns[..limit], Walk(rest, limit));
    }
  }

  lemma WalkStep(turns: seq<Event>, limit: nat)
    requires InOrder(turns) && limit > 0 && |turns| > limit
    ensures var rest := After(turns, turns[limit - 1].at);
            && |rest| <= |turns| - limit && InOrder(rest)
            && Flatten(Walk(turns, limit)) == turns[..limit] + Flatten(Walk(rest, limit))
  {
    AfterIsSuffix(turns, limit);
    FlattenCons(turns[..limit], Walk(After(turns, turns[limit - 1].at), limit));
  }

  /** A page that ends inside a tie loses the rest of the tie. */
  lemma {:induction false} TieLoses(turns: seq<Event>, limit: nat)
    requires InOrder(turns) && 0 < limit < |turns| && turns[limit].at <= turns[limit - 1].at
    ensures |Flatten(Walk(turns, limit))| < |turns|
  {
    AfterIsSuffix(turns, limit);
    WalkStep(turns, limit);
    WalkSize(After(turns, turns[limit - 1].at), limit);
  }

  /** A page that ends between two times goes on with exactly what it has not shown. */
  lemma {:induction false} CleanPage(turns: seq<Event>, limit: nat)
    requires InOrder(turns) && 0 < limit < |turns| && turns[limit].at > turns[limit - 1].at
    ensures InOrder(turns[limit..])
    ensures Flatten(Walk(turns, limit)) == turns <==> Flatten(Walk(turns[limit..], limit)) == turns[limit..]
  {
    AfterIsSuffix(turns, limit);
    WalkStep(turns, limit);
    assert After(turns, turns[limit - 1].at) == turns[limit..];
    assert turns == turns[..limit] + turns[limit..];
    Cancel(turns[..limit], Flatten(Walk(turns[limit..], limit)), turns[limit..]);
  }

  /** The pages add up to everything, each row once and in order, exactly when no page boundary falls inside a tie. */
  lemma {:induction false} WalkIsCompleteIff(turns: seq<Event>, limit: nat)
    requires InOrder(turns) && limit > 0
    ensures Flatten(Walk(turns, limit)) == turns <==> NoTieSplit(turns, limit)
    decreases |turns|
  {
    if |turns| <= limit {
      FlattenCons(turns, []);
      assert [turns] + [] == [turns];
    } else if turns[limit].at > turns[limit - 1].at {
      CleanPage(turns, limit);
      WalkIsCompleteIff(turns[limit..], limit);
    } else {
      TieLoses(turns, limit);
    }
  }

  lemma Cancel<T>(a: seq<T>, b: seq<T>, c: seq<T>)
    ensures a + b == a + c <==> b == c
  {
    if a + b == a + c {
      assert (a + b)[|a|..] == b && (a + c)[|a|..] == c;
    }
  }

  predicate DistinctTimes(turns: seq<Event>) { forall i, j | 0 <= i < j < |turns| :: turns[i].at != turns[j].at }

  lemma {:induction false} DistinctTimesSuffice(turns: seq<Event>, limit: nat)
    requires InOrder(turns) && DistinctTimes(turns) && limit > 0
    ensures NoTieSplit(turns, limit)
    decreases |turns|
  {
    if |turns| > limit { DistinctTimesSuffice(turns[limit..], limit); }
  }

  /** A later ledger holds the earlier one and events newer than the snapshot. */
  predicate GrowsPast(ledger: seq<Event>, first: seq<Event>, snapshot: int) {
    first <= ledger && forall k | |first| <= k < |ledger| :: ledger[k].at > snapshot
  }

  lemma {:induction false} GrowthIsInvisible(ledger: seq<Event>, first: seq<Event>, session: string, snapshot: int,
                                             seen: Option<int>)
    requires GrowsPast(ledger, first, snapshot)
    ensures Projection(ledger, session, snapshot, seen) == Projection(first, session, snapshot, seen)
  {
    if |ledger| > |first| {
      GrowthIsInvisible(ledger[..|ledger| - 1], first, session, snapshot, seen);
    } else {
      assert ledger == first;
    }
  }

  lemma {:induction false} SeenIsAfter(ledger: seq<Event>, session: string, snapshot: int, seen: int)
    ensures Projection(ledger, session, snapshot, Some(seen))
            == After(Projection(ledger, session, snapshot, None), seen)
  {
    if ledger != [] {
      var n := |ledger| - 1;
      SeenIsAfter(ledger[..n], session, snapshot, seen);
      var p := Projection(ledger[..n], session, snapshot, None);
      if Shown(ledger[n], session, snapshot, None) {
        assert (p + [ledger[n]])[..|p|] == p;
      } else {
        assert Projection(ledger, session, snapshot, None) == p;
      }
    }
  }

  lemma {:induction false} ProjectionInOrder(ledger: seq<Event>, session: string, snapshot: int, seen: Option<int>)
    requires InOrder(ledger)
    ensures InOrder(Projection(ledger, session, snapshot, seen))
    ensures forall e | e in Projection(ledger, session, snapshot, seen) :: e in ledger
  {
    if ledger != [] {
      var n := |ledger| - 1;
      ProjectionInOrder(ledger[..n], session, snapshot, seen);
      var p := Projection(ledger[..n], session, snapshot, seen);
      forall e | e in p ensures e.at <= ledger[n].at && e in ledger {
        var k :| 0 <= k < n && ledger[..n][k] == e;
      }
      forall i | 0 <= i < |p| ensures p[i].at <= ledger[n].at { assert p[i] in p; }
    }
  }

  /** The pages a client gets, each from the ledger as it is at that moment. */
  function Follow(ledgers: seq<seq<Event>>, session: string, cursor: Option<Cursor>, limit: nat,
                  now: int): seq<seq<Event>> {
    if ledgers == [] then []
    else
      var page := PageOf(ledgers[0], session, cursor, limit, now);
      [page.turns] + (if page.next.Some? then Follow(ledgers[1..], session, page.next, limit, now) else [])
  }

  /** A page of the shown turns: the first ones, and a cursor exactly when there are more. */
  lemma {:induction false} PageIsFirst(ledger: seq<Event>, first: seq<Event>, session: string, cursor: Option<Cursor>,
                                       snapshot: int, limit: nat, now: int)
    requires GrowsPast(ledger, first, snapshot) && limit > 0 && |ledger| <= MAX_EVENTS
    requires cursor.Some? ==> cursor.value.snapshot == snapshot && cursor.value.offset == 0
    requires cursor.None? ==> ledger == first && snapshot == Latest(first, now)
    ensures var turns := Projection(first, session, snapshot, if cursor.Some? then cursor.value.seen else None);
            var page := PageOf(ledger, session, cursor, limit, now);
            if |turns| <= limit then page == Page(turns, None)
            else page == Page(turns[..limit], Some(Cursor(snapshot, 0, Some(turns[limit - 1].at))))
  {
    var seen := if cursor.Some? then cursor.value.seen else None;
    AllFetched(ledger, session, snapshot, seen);
    GrowthIsInvisible(ledger, first, session, snapshot, seen);
  }

  /** Following one page on. */
  lemma {:induction false} FollowOne(ledgers: seq<seq<Event>>, session: string, cursor: Option<Cursor>, limit: nat,
                                     now: int, page: Page)
    requires ledgers != [] && PageOf(ledgers[0], session, cursor, limit, now) == page
    ensures Follow(ledgers, session, cursor, limit, now) ==
            [page.turns] + (if page.next.Some? then Follow(ledgers[1..], session, page.next, limit, now) else [])
  {
  }

  lemma {:induction false} FollowIsWalk(ledgers: seq<seq<Event>>, first: seq<Event>, session: string, snapshot: int,
                                        seen: int, limit: nat, now: int)
    requires InOrder(first) && limit > 0
    requires forall l | l in ledgers :: GrowsPast(l, first, snapshot) && |l| <= MAX_EVENTS
    requires |ledgers| > |Projection(first, session, snapshot, Some(seen))|
    ensures InOrder(Projection(first, session, snapshot, Some(seen)))
    ensures Follow(ledgers, session, Some(Cursor(snapshot, 0, Some(seen))), limit, now)
            == Walk(Projection(first, session, snapshot, Some(seen)), limit)
    decreases |ledgers|
  {
    var cursor := Some(Cursor(snapshot, 0, Some(seen)));
    var turns := Projection(first, session, snapshot, Some(seen));
    PageIsFirst(ledgers[0], first, session, cursor, snapshot, limit, now);
    FollowOne(ledgers, session, cursor, limit, now, PageOf(ledgers[0], session, cursor, limit, now));
    ProjectionInOrder(first, session, snapshot, Some(seen));
    if |turns| <= limit {
      assert [turns] + [] == [turns];
    } else {
      NextTurns(first, session, snapshot, Some(seen), limit);
      AfterIsSuffix(turns, limit);
      FollowIsWalk(ledgers[1..], first, session, snapshot, turns[limit - 1].at, limit, now);
    }
  }

  /** What the next cursor shows is what comes after the last row of this page. */
  lemma NextTurns(first: seq<Event>, session: string, snapshot: int, seen: Option<int>, limit: nat)
    requires 0 < limit <= |Projection(first, session, snapshot, seen)|
    ensures var turns := Projection(first, session, snapshot, seen);
            Projection(first, session, snapshot, Some(turns[limit - 1].at)) == After(turns, turns[limit - 1].at)
  {
    var turns := Projection(first, session, snapshot, seen);
    var next := turns[limit - 1].at;
    SeenIsAfter(first, session, snapshot, next);
    if seen.Some? {
      SeenIsAfter(first, session, snapshot, seen.value);
      AfterMembers(Projection(first, session, snapshot, None), seen.value, turns[limit - 1]);
      AfterTwice(Projection(first, session, snapshot, None), seen.value, next);
    }
  }

  lemma {:induction false} AfterMembers(turns: seq<Event>, seen: int, e: Event)
    requires e in After(turns, seen)
    ensures e in turns && e.at > seen
  {
    if e in After(turns[..|turns| - 1], seen) { AfterMembers(turns[..|turns| - 1], seen, e); }
  }

  lemma {:induction false} AfterTwice(turns: seq<Event>, a: int, b: int)
    ensures a <= b ==> After(After(turns, a), b) == After(turns, b)
  {
    if turns != [] {
      var n := |turns| - 1;
      AfterTwice(turns[..n], a, b);
      var u := After(turns[..n], a);
      if turns[n].at > a {
        assert (u + [turns[n]])[..|u|] == u;
      } else {
        assert After(turns, a) == u;
      }
    }
  }

  /**
   From the first page to the last, while newer events keep arriving: the pages are those of the walk over
   the projection at the first page's snapshot, so they end, and they add up to that projection exactly when
   no page boundary falls between two turns of equal time (distinct times suffice).
   */
  lemma {:induction false} PagesAddUpIff(ledgers: seq<seq<Event>>, session: string, limit: nat, now: int)
    requires ledgers != [] && InOrder(ledgers[0]) && limit > 0
    requires forall l | l in ledgers :: GrowsPast(l, ledgers[0], Latest(ledgers[0], now)) && |l| <= MAX_EVENTS
    requires |ledgers| > |ledgers[0]|
    ensures var turns := Projection(ledgers[0], session, Latest(ledgers[0], now), None);
            InOrder(turns) && Follow(ledgers, session, None, limit, now) == Walk(turns, limit)
            && (Flatten(Follow(ledgers, session, None, limit, now)) == turns <==> NoTieSplit(turns, limit))
  {
    FollowStarts(ledgers, session, limit, now);
    WalkIsCompleteIff(Projection(ledgers[0], session, Latest(ledgers[0], now), None), limit);
  }

  /** Of two turns of equal time, pages of one turn show the first and never the second. */
  lemma {:induction false} TiedTurnIsLost(now: int)
    ensures var ledger := [Event(1, "s", 5, "a", "b"), Event(2, "s", 5, "c", "d")];
            Flatten(Follow([ledger, ledger, ledger], "s", None, 1, now)) != Projection(ledger, "s", 5, None)
  {
    var ledger := [Event(1, "s", 5, "a", "b"), Event(2, "s", 5, "c", "d")];
    assert ledger[..1] == [ledger[0]] && [ledger[0]][..0] == [];
    assert Projection([ledger[0]], "s", 5, None) == [ledger[0]] && Projection(ledger, "s", 5, None) == ledger;
    PagesAddUpIff([ledger, ledger, ledger], "s", 1, now);
  }

  lemma {:induction false} FollowStarts(ledgers: seq<seq<Event>>, session: string, limit: nat, now: int)
    requires ledgers != [] && InOrder(ledgers[0]) && limit > 0 && |ledgers| > |ledgers[0]|
    requires forall l | l in ledgers :: GrowsPast(l, ledgers[0], Latest(ledgers[0], now)) && |l| <= MAX_EVENTS
    ensures var turns := Projection(ledgers[0], session, Latest(ledgers[0], now), None);
            InOrder(turns) && Follow(ledgers, session, None, limit, now) == Walk(turns, limit)
  {
    var first, snapshot := ledgers[0], Latest(ledgers[0], now);
    var turns := Projection(first, session, snapshot, None);
    ProjectionInOrder(first, session, snapshot, None);
    ProjectionSize(first, session, snapshot);
    PageIsFirst(first, first, session, None, snapshot, limit, now);
    if |turns| <= limit {
      assert [turns] + [] == [turns];
    } else {
      NextTurns(first, session, snapshot, None, limit);
      AfterIsSuffix(turns, limit);
      FollowIsWalk(ledgers[1..], first, session, snapshot, turns[limit - 1].at, limit, now);
    }
  }

  lemma {:induction false} ProjectionSize(ledger: seq<Event>, session: string, snapshot: int)
    ensures |Projection(ledger, session, snapshot, None)| <= |ledger|
  {
    if ledger != [] { ProjectionSize(ledger[..|ledger| - 1], session, snapshot); }
  }

  // ── The list of sessions ────────────────────────────────────────────

  datatype Session = Session(id: string, title: string, updatedAt: int, count: nat, preview: string)

  const UNTITLED: string := "\U{672A}\U{547D}\U{540D}\U{4F1A}\U{8BDD}"

  predicate Printable(s: string) { forall c | c in s :: c as int >= 32 }

  function SafeId(id: string): string { if |id| > 128 || !Printable(id) then "" else id }

  function Lookup(rows: seq<Session>, id: string): (k: int)
    ensures -1 <= k < |rows| && (k >= 0 ==> rows[k].id == id)
  {
    if rows == [] then -1
    else if rows[|rows| - 1].id == id then |rows| - 1
    else Lookup(rows[..|rows| - 1], id)
  }

  /** One more, older event of the walk from the newest to the oldest. */
  function AddEvent(rows: seq<Session>, e: Event): seq<Session> {
    var id := SafeId(e.session);
    var k := Lookup(rows, id);
    if id == "" then rows
    else if k < 0 then
      rows + [Session(id, if e.userText == "" then UNTITLED
                      else First(e.userText, 28), e.at, 1, First(e.companionText, 96))]
    else
      var row := rows[k];
      rows[k := row.(title := if e.userText != "" then First(e.userText, 28) else row.title, count := row.count + 1)]
  }

  /** The sessions of a newest-first list of events. */
  function Sessions(events: seq<Event>): seq<Session> {
    if events == [] then [] else AddEvent(Sessions(events[..|events| - 1]), events[|events| - 1])
  }

  function VisibleAt(ledger: seq<Event>, snapshot: int): seq<Event> {
    if ledger == [] then []
    else VisibleAt(ledger[..|ledger| - 1], snapshot)
         + (if ledger[|ledger| - 1].at <= snapshot then [ledger[|ledger| - 1]] else [])
  }

  datatype SessionCursor = SessionCursor(snapshot: int, offset: nat)

  datatype SessionPage = SessionPage(sessions: seq<Session>, next: Option<SessionCursor>)

  /** The sessions visible at a snapshot, most recently active first. */
  function SessionsAt(ledger: seq<Event>, snapshot: int): seq<Session> { Sessions(Rev(VisibleAt(ledger, snapshot))) }

  function CutPage(rows: seq<Session>, snapshot: int, offset: nat, limit: nat): SessionPage {
    var page := Slice(rows, offset, limit);
    SessionPage(page, if offset + |page| < |rows| then Some(SessionCursor(snapshot, offset + |page|)) else None)
  }

  function SnapshotOf(ledger: seq<Event>, cursor: Option<SessionCursor>, now: int): int {
    if cursor.Some? then cursor.value.snapshot else Latest(ledger, now)
  }

  function OffsetOf(cursor: Option<SessionCursor>): nat { if cursor.Some? then cursor.value.offset else 0 }

  /** The page for a cursor, from the rows that were fetched, oldest first. */
  function SessionPageFrom(rows: seq<Event>, cursor: Option<SessionCursor>, limit: nat, now: int): SessionPage {
    var snapshot := SnapshotOf(rows, cursor, now);
    CutPage(SessionsAt(rows, snapshot), snapshot, OffsetOf(cursor), limit)
  }

  function SessionPageOf(ledger: seq<Event>, cursor: Option<SessionCursor>, limit: nat, now: int): SessionPage {
    SessionPageFrom(Fetched(ledger, None), cursor, limit, now)
  }

  lemma {:induction false} RevVisible(ledger: seq<Event>, snapshot: int)
    ensures VisibleAt(Rev(ledger), snapshot) == Rev(VisibleAt(ledger, snapshot))
  {
    if ledger != [] {
      var n := |ledger| - 1;
      RevVisible(ledger[..n], snapshot);
      VisibleConcat([ledger[n]], Rev(ledger[..n]), snapshot);
      var v := VisibleAt(ledger[..n], snapshot);
      assert VisibleAt([ledger[n]], snapshot) == if ledger[n].at <= snapshot then [ledger[n]] else [];
      if ledger[n].at <= snapshot {
        assert (v + [ledger[n]])[..|v|] == v;
      } else {
        assert VisibleAt(ledger, snapshot) == v;
      }
    }
  }

  lemma {:induction false} VisibleConcat(a: seq<Event>, b: seq<Event>, snapshot: int)
    ensures VisibleAt(a + b, snapshot) == VisibleAt(a, snapshot) + VisibleAt(b, snapshot)
  {
    if b == [] {
      assert a + b == a;
    } else {
      assert (a + b)[..|a + b| - 1] == a + b[..|b| - 1];
      VisibleConcat(a, b[..|b| - 1], snapshot);
    }
  }

  /** One loop over the events, newest first. */
  method GatherSessions(visible: seq<Event>) returns (rows: seq<Session>)
    ensures rows == Sessions(visible)
  {
    rows := [];
    for i := 0 to |visible|
      invariant rows == Sessions(visible[..i])
    {
      assert visible[..i + 1][..i] == visible[..i];
      rows := AddEvent(rows, visible[i]);
    }
    assert visible[..|visible|] == visible;
  }

  method ListSessions(views: Views, cursor: Option<SessionCursor>, limit: nat, now: int) returns (page: SessionPage)
    ensures page == SessionPageFrom(Rev(Look(views, None)), cursor, limit, now)
    ensures forall ledger | SteadyViews(views, ledger, None) :: page == SessionPageOf(ledger, cursor, limit, now)
  {
    var events := CompletedEvents(views, None);
    NewestFirst(events, now);
    RevRev(events);
    var snapshot := if cursor.Some? then cursor.value.snapshot else if events != [] then events[0].at else now;
    RevVisible(Rev(events), snapshot);
    var rows := GatherSessions(VisibleAt(events, snapshot));
    page := CutPage(rows, snapshot, OffsetOf(cursor), limit);
    assert snapshot == SnapshotOf(Rev(events), cursor, now) && rows == SessionsAt(Rev(events), snapshot);
    SteadyRows(views, None);
  }

  // ── What a session row says ─────────────────────────────────────────

  function CountOf(events: seq<Event>, id: string): nat {
    if events == [] then 0
    else CountOf(events[..|events| - 1], id) + (if SafeId(events[|events| - 1].session) == id then 1 else 0)
  }

  /** The user text that ends up as title: that of the oldest event of the session that has one. */
  function OldestText(events: seq<Event>, id: string): string {
    if events == [] then ""
    else if SafeId(events[|events| - 1].session) == id
      && events[|events| - 1].userText != "" then events[|events| - 1].userText
    else OldestText(events[..|events| - 1], id)
  }

  /** The newest event of the session, first in the list. */
  function NewestOf(events: seq<Event>, id: string): Option<Event> {
    if events == [] then None
    else
      var newer := NewestOf(events[..|events| - 1], id);
      if newer.Some? then newer
      else if SafeId(events[|events| - 1].session) == id then Some(events[|events| - 1]) else None
  }

  predicate RowSays(row: Session, events: seq<Event>, id: string) {
    && row.id == id && row.count == CountOf(events, id)
    && row.title == (if OldestText(events, id) == "" then UNTITLED else First(OldestText(events, id), 28))
    && NewestOf(events, id).Some? && row.updatedAt == NewestOf(events, id).value.at
    && row.preview == First(NewestOf(events, id).value.companionText, 96)
  }

  /**
   Each session with a usable id has exactly one row, counting its turns, titled by its first words, dated by its
   last turn.
   */
  lemma {:induction false} SessionRows(events: seq<Event>, id: string)
    requires id != ""
    ensures var rows := Sessions(events);
            && (Lookup(rows, id) >= 0 <==> CountOf(events, id) > 0)
            && Lookup(rows, id) < |rows|
            && (Lookup(rows, id) >= 0 ==> RowSays(rows[Lookup(rows, id)], events, id))
            && (Lookup(rows, id) < 0 ==> NewestOf(events, id).None? && OldestText(events, id) == "")
  {
    if events != [] {
      var n, e := |events| - 1, events[|events| - 1];
      SessionRows(events[..n], id);
      var before := Sessions(events[..n]);
      LookupAdd(before, e, id);
    }
  }

  lemma {:induction false} LookupAdd(rows: seq<Session>, e: Event, id: string)
    requires id != ""
    ensures var after := AddEvent(rows, e);
            && |rows| <= |after|
            && (Lookup(after, id) == if SafeId(e.session) == id && Lookup(rows, id) < 0 then |rows|
                else Lookup(rows, id))
            && (SafeId(e.session) != id && Lookup(rows, id) >= 0 ==>
                  Lookup(rows, id) < |rows| && after[Lookup(rows, id)] == rows[Lookup(rows, id)])
  {
    var k := Lookup(rows, SafeId(e.session));
    var after := AddEvent(rows, e);
    if SafeId(e.session) != "" {
      if k < 0 { LookupMore(rows, after[|rows|], id); } else { SameIds(rows, after, id); }
    }
  }

  lemma {:induction false} LookupMore(rows: seq<Session>, row: Session, id: string)
    ensures Lookup(rows + [row], id) == if row.id == id then |rows| else Lookup(rows, id)
  {
    assert (rows + [row])[..|rows|] == rows;
  }

  lemma {:induction false} SameIds(a: seq<Session>, b: seq<Session>, id: string)
    requires |a| == |b| && forall i | 0 <= i < |a| :: a[i].id == b[i].id
    ensures Lookup(a, id) == Lookup(b, id)
  {
    if a != [] { SameIds(a[..|a| - 1], b[..|b| - 1], id); }
  }

  // ── Paging through the sessions ─────────────────────────────────────

  /** The page that a ledger gives for a cursor. */
  type Pager = (seq<Event>, Option<SessionCursor>) -> SessionPage

  function FollowSessions(pager: Pager, ledgers: seq<seq<Event>>, cursor: Option<SessionCursor>): seq<seq<Session>> {
    if ledgers == [] then []
    else
      var page := pager(ledgers[0], cursor);
      [page.sessions] + (if page.next.Some? then FollowSessions(pager, ledgers[1..], page.next) else [])
  }

  function SessionPager(limit: nat, now: int): Pager {
    (ledger: seq<Event>, cursor: Option<SessionCursor>) => SessionPageOf(ledger, cursor, limit, now)
  }

  lemma {:induction false} GrowthHidden(ledger: seq<Event>, first: seq<Event>, snapshot: int)
    requires GrowsPast(ledger, first, snapshot)
    ensures VisibleAt(ledger, snapshot) == VisibleAt(first, snapshot)
  {
    if |ledger| > |first| {
      GrowthHidden(ledger[..|ledger| - 1], first, snapshot);
    } else {
      assert ledger == first;
    }
  }

  /** The ledger, at this snapshot, is projected to these rows. */
  predicate ShownAs(ledger: seq<Event>, snapshot: int, rows: seq<Session>) {
    SessionsAt(Fetched(ledger, None), snapshot) == rows
  }

  lemma GrownIsShownAs(ledger: seq<Event>, first: seq<Event>, snapshot: int)
    requires GrowsPast(ledger, first, snapshot) && |ledger| <= MAX_EVENTS
    ensures ShownAs(ledger, snapshot, SessionsAt(first, snapshot))
  {
    GrowthHidden(ledger, first, snapshot);
    AllFetched(ledger, "", snapshot, None);
  }

  /** Cutting rows into pages from an offset on. */
  function RowPages(rows: seq<Session>, offset: nat, limit: nat): seq<seq<Session>>
    requires offset <= |rows| && limit > 0
    decreases |rows| - offset
  {
    if offset + limit < |rows| then [rows[offset..offset + limit]] + RowPages(rows, offset + limit, limit)
    else [rows[offset..]]
  }

  lemma {:induction false} RowPagesAddUp(rows: seq<Session>, offset: nat, limit: nat)
    requires offset <= |rows| && limit > 0
    ensures Flatten(RowPages(rows, offset, limit)) == rows[offset..]
    decreases |rows| - offset
  {
    if offset + limit < |rows| {
      RowPagesAddUp(rows, offset + limit, limit);
      FlattenCons(rows[offset..offset + limit], RowPages(rows, offset + limit, limit));
    } else {
      FlattenCons(rows[offset..], []);
      assert [rows[offset..]] + [] == [rows[offset..]];
    }
  }

  lemma CutPageIs(rows: seq<Session>, snapshot: int, offset: nat, limit: nat)
    requires limit > 0 && offset <= |rows|
    ensures CutPage(rows, snapshot, offset, limit) ==
            if offset + limit < |rows| then
              SessionPage(rows[offset..offset + limit], Some(SessionCursor(snapshot, offset + limit)))
            else SessionPage(rows[offset..], None)
  {
  }

  /** At this snapshot, every ledger gives the pages of these rows. */
  ghost predicate PagesRows(pager: Pager, ledgers: seq<seq<Event>>, rows: seq<Session>, snapshot: int, limit: nat) {
    forall l, offset: nat | l in ledgers ::
      pager(l, Some(SessionCursor(snapshot, offset))) == CutPage(rows, snapshot, offset, limit)
  }

  lemma {:induction false} FollowStep(pager: Pager, ledgers: seq<seq<Event>>, cursor: Option<SessionCursor>,
                                      page: SessionPage)
    requires ledgers != [] && pager(ledgers[0], cursor) == page
    ensures FollowSessions(pager, ledgers, cursor) ==
            if page.next.Some? then [page.sessions] + FollowSessions(pager, ledgers[1..], page.next)
            else [page.sessions]
  {
  }

  lemma {:induction false} FollowFrom(pager: Pager, ledgers: seq<seq<Event>>, rows: seq<Session>, snapshot: int,
                                      offset: nat, limit: nat)
    requires limit > 0 && PagesRows(pager, ledgers, rows, snapshot, limit) && offset <= |rows|
             && |ledgers| > |rows| - offset
    ensures FollowSessions(pager, ledgers, Some(SessionCursor(snapshot, offset))) == RowPages(rows, offset, limit)
    decreases |ledgers|
  {
    assert ledgers[0] in ledgers && forall l | l in ledgers[1..] :: l in ledgers;
    CutPageIs(rows, snapshot, offset, limit);
    FollowStep(pager, ledgers, Some(SessionCursor(snapshot, offset)), CutPage(rows, snapshot, offset, limit));
    RowPagesStep(rows, offset, limit);
    if offset + limit < |rows| { FollowFrom(pager, ledgers[1..], rows, snapshot, offset + limit, limit); }
  }

  lemma RowPagesStep(rows: seq<Session>, offset: nat, limit: nat)
    requires offset <= |rows| && limit > 0
    ensures RowPages(rows, offset, limit) ==
            if offset + limit < |rows| then [rows[offset..offset + limit]] + RowPages(rows, offset + limit, limit)
            else [rows[offset..]]
  {
  }

  lemma GrownPagesRows(ledgers: seq<seq<Event>>, first: seq<Event>, snapshot: int, limit: nat, now: int)
    requires forall l | l in ledgers :: GrowsPast(l, first, snapshot) && |l| <= MAX_EVENTS
    ensures PagesRows(SessionPager(limit, now), ledgers, SessionsAt(first, snapshot), snapshot, limit)
  {
    forall l, offset: nat | l in ledgers
      ensures SessionPager(limit, now)(l, Some(SessionCursor(snapshot, offset)))
              == CutPage(SessionsAt(first, snapshot), snapshot, offset, limit)
    {
      GrownIsShownAs(l, first, snapshot);
    }
  }

  /** The session pages add up to the sessions visible at the first page's snapshot, whatever is appended meanwhile. */
  lemma {:induction false} SessionPagesAddUp(ledgers: seq<seq<Event>>, limit: nat, now: int)
    requires ledgers != [] && limit > 0
    requires forall l | l in ledgers :: GrowsPast(l, ledgers[0], Latest(ledgers[0], now)) && |l| <= MAX_EVENTS
    requires |ledgers| > |SessionsAt(ledgers[0], Latest(ledgers[0], now))|
    ensures Flatten(FollowSessions(SessionPager(limit, now), ledgers, None))
            == SessionsAt(ledgers[0], Latest(ledgers[0], now))
  {
    var first, snapshot, pager := ledgers[0], Latest(ledgers[0], now), SessionPager(limit, now);
    var rows, start := SessionsAt(first, snapshot), SessionCursor(snapshot, 0);
    GrownPagesRows(ledgers, first, snapshot, limit, now);
    AllFetched(first, "", snapshot, None);
    assert pager(first, None) == pager(first, Some(start));
    assert FollowSessions(pager, ledgers, None) == FollowSessions(pager, ledgers, Some(start));
    FollowFrom(pager, ledgers, rows, snapshot, 0, limit);
    RowPagesAddUp(rows, 0, limit);
    assert rows[0..] == rows;
  }
}
