/**
 The event ledger and the tables derived from it. `MemoryStore` is the object whose tables the operations
 change in place; the functions on `Tables` say what each operation leaves. A column that stores a JSON
 list of event ids is the list itself, and searching it for a quoted id is membership.
 */
module MemoryTables {
  import opened Std

  datatype Event = Event(id: nat, isTurn: bool, isCompleted: bool, occurredAt: int, userText: string)

  /** A stored fact version: open while `to` is absent. */
  datatype Fact = Fact(id: nat, key: string, value: string, from: int, to: Option<int>, sources: seq<nat>)

  /** A fact as a caller hands it over. */
  datatype Draft = Draft(
    id: nat, key: string, value: string, validFrom: Option<int>, validTo: Option<int>, sources: seq<nat>)

  /** An episode with its turn ids, or a reflection with its source events. */
  datatype Derived = Derived(id: nat, refs: seq<nat>)

  datatype Tables = Tables(events: seq<Event>, facts: seq<Fact>, episodes: seq<Derived>, reflections: seq<Derived>)

  const Empty := Tables([], [], [], [])

  function EventIds(events: seq<Event>): set<nat> { set e | e in events :: e.id }

  function Ids(eids: seq<nat>): (ids: set<nat>)
    ensures forall e :: e in ids <==> e in eids
  {
    if eids == [] then {}
    else
      assert eids == eids[..|eids| - 1] + [eids[|eids| - 1]];
      Ids(eids[..|eids| - 1]) + {eids[|eids| - 1]}
  }

  function FactRefs(f: Fact): seq<nat> { f.sources }

  function DerivedRefs(r: Derived): seq<nat> { r.refs }

  // ── Fact versions ───────────────────────────────────────────────────

  /** The update statement: every open version of the key ends now. */
  function CloseOpen(facts: seq<Fact>, key: string, now: int): (r: seq<Fact>)
    ensures |r| == |facts|
  {
    if facts == [] then []
    else
      var f := facts[|facts| - 1];
      CloseOpen(facts[..|facts| - 1], key, now) + [if f.key == key && f.to.None? then f.(to := Some(now)) else f]
  }

  function NewVersion(d: Draft, later: int): Fact {
    Fact(d.id, d.key, d.value, if d.validFrom.Some? then d.validFrom.value else later, d.validTo, d.sources)
  }

  ghost predicate Taken(facts: seq<Fact>, id: nat) { exists f :: f in facts && f.id == id }

  /** The clock is read twice: once for the closing, once for the new version. */
  function Upserted(facts: seq<Fact>, d: Draft, now: int, later: int): seq<Fact> {
    CloseOpen(facts, d.key, now) + [NewVersion(d, later)]
  }

  // ── Forgetting ──────────────────────────────────────────────────────

  predicate Cites(refs: seq<nat>, gone: set<nat>) { exists e :: e in refs && e in gone }

  /** The rows that cite none of the given events, in their order. */
  function Keep<T>(rows: seq<T>, refs: T -> seq<nat>, gone: set<nat>): seq<T> {
    if rows == [] then []
    else
      var r := rows[|rows| - 1];
      Keep(rows[..|rows| - 1], refs, gone) + (if Cites(refs(r), gone) then [] else [r])
  }

  function KeepEvents(events: seq<Event>, gone: set<nat>): seq<Event> {
    if events == [] then []
    else
      var e := events[|events| - 1];
      KeepEvents(events[..|events| - 1], gone) + (if e.id in gone then [] else [e])
  }

  function Forgotten(t: Tables, gone: set<nat>): Tables {
    Tables(KeepEvents(t.events, gone), Keep(t.facts, FactRefs, gone),
           Keep(t.episodes, DerivedRefs, gone), Keep(t.reflections, DerivedRefs, gone))
  }

  lemma {:induction false} KeepSpec<T>(rows: seq<T>, refs: T -> seq<nat>, gone: set<nat>)
    ensures forall r :: r in Keep(rows, refs, gone) <==> r in rows && !Cites(refs(r), gone)
    ensures |Keep(rows, refs, gone)| <= |rows|
  {
    if rows != [] {
      KeepSpec(rows[..|rows| - 1], refs, gone);
      assert rows == rows[..|rows| - 1] + [rows[|rows| - 1]];
    }
  }

  lemma {:induction false} KeepConcat<T>(a: seq<T>, b: seq<T>, refs: T -> seq<nat>, gone: set<nat>)
    ensures Keep(a + b, refs, gone) == Keep(a, refs, gone) + Keep(b, refs, gone)
  {
    if b == [] {
      assert a + b == a;
    } else {
      assert (a + b)[..|a + b| - 1] == a + b[..|b| - 1];
      KeepConcat(a, b[..|b| - 1], refs, gone);
    }
  }

  /** Forgetting one event after others is forgetting them together. */
  lemma {:induction false} KeepTwice<T>(rows: seq<T>, refs: T -> seq<nat>, first: set<nat>, e: nat)
    ensures Keep(Keep(rows, refs, first), refs, {e}) == Keep(rows, refs, first + {e})
  {
    if rows != [] {
      var front, r := rows[..|rows| - 1], rows[|rows| - 1];
      KeepTwice(front, refs, first, e);
      var last := if Cites(refs(r), first) then [] else [r];
      KeepConcat(Keep(front, refs, first), last, refs, {e});
      CitesUnion(refs(r), first, {e});
      assert last != [] ==> last[..0] == [];
    }
  }

  lemma {:induction false} KeepStep<T>(rows: seq<T>, refs: T -> seq<nat>, first: set<nat>, e: nat)
    ensures Keep(Keep(rows, refs, first), refs, {e}) == Keep(rows, refs, first + {e})
    ensures |Keep(rows, refs, first + {e})| <= |Keep(rows, refs, first)|
  {
    KeepTwice(rows, refs, first, e);
    KeepSpec(Keep(rows, refs, first), refs, {e});
  }

  lemma CitesUnion(refs: seq<nat>, a: set<nat>, b: set<nat>)
    ensures Cites(refs, a + b) <==> Cites(refs, a) || Cites(refs, b)
  {
  }

  lemma {:induction false} KeepAll<T>(rows: seq<T>, refs: T -> seq<nat>)
    ensures Keep(rows, refs, {}) == rows
  {
    if rows != [] {
      KeepAll(rows[..|rows| - 1], refs);
    }
  }

  lemma {:induction false} KeepEventsSpec(events: seq<Event>, gone: set<nat>)
    ensures forall e :: e in KeepEvents(events, gone) <==> e in events && e.id !in gone
  {
    if events != [] {
      KeepEventsSpec(events[..|events| - 1], gone);
      assert events == events[..|events| - 1] + [events[|events| - 1]];
    }
  }

  lemma {:induction false} KeepEventsConcat(a: seq<Event>, b: seq<Event>, gone: set<nat>)
    ensures KeepEvents(a + b, gone) == KeepEvents(a, gone) + KeepEvents(b, gone)
  {
    if b == [] {
      assert a + b == a;
    } else {
      assert (a + b)[..|a + b| - 1] == a + b[..|b| - 1];
      KeepEventsConcat(a, b[..|b| - 1], gone);
    }
  }

  lemma {:induction false} KeepEventsTwice(events: seq<Event>, first: set<nat>, e: nat)
    ensures KeepEvents(KeepEvents(events, first), {e}) == KeepEvents(events, first + {e})
  {
    if events != [] {
      var front, r := events[..|events| - 1], events[|events| - 1];
      KeepEventsTwice(front, first, e);
      KeepEventsConcat(KeepEvents(front, first), if r.id in first then [] else [r], {e});
      assert [r][..0] == [];
    }
  }

  lemma {:induction false} KeepAllEvents(events: seq<Event>)
    ensures KeepEvents(events, {}) == events
  {
    if events != [] { KeepAllEvents(events[..|events| - 1]); }
  }

  // ── Consistency ─────────────────────────────────────────────────────

  /** How many references of a row, and of a table, name no ledger event. */
  function Missing(refs: seq<nat>, known: set<nat>): nat {
    if refs == [] then 0
    else Missing(refs[..|refs| - 1], known) + (if refs[|refs| - 1] in known then 0 else 1)
  }

  function Dangling<T>(rows: seq<T>, refs: T -> seq<nat>, known: set<nat>): nat {
    if rows == [] then 0
    else Dangling(rows[..|rows| - 1], refs, known) + Missing(refs(rows[|rows| - 1]), known)
  }

  ghost predicate Anchored<T>(rows: seq<T>, refs: T -> seq<nat>, known: set<nat>) {
    forall r, e | r in rows && e in refs(r) :: e in known
  }

  ghost predicate Consistent(t: Tables) {
    Anchored(t.facts, FactRefs, EventIds(t.events)) && Anchored(t.episodes, DerivedRefs, EventIds(t.events))
  }

  lemma {:induction false} MissingNone(refs: seq<nat>, known: set<nat>)
    ensures Missing(refs, known) == 0 <==> forall e | e in refs :: e in known
  {
    if refs != [] {
      MissingNone(refs[..|refs| - 1], known);
      assert refs == refs[..|refs| - 1] + [refs[|refs| - 1]];
    }
  }

  lemma {:induction false} DanglingNone<T>(rows: seq<T>, refs: T -> seq<nat>, known: set<nat>)
    ensures Dangling(rows, refs, known) == 0 <==> Anchored(rows, refs, known)
  {
    if rows != [] {
      DanglingNone(rows[..|rows| - 1], refs, known);
      MissingNone(refs(rows[|rows| - 1]), known);
      assert rows == rows[..|rows| - 1] + [rows[|rows| - 1]];
    }
  }

  class MemoryStore {
    var events: seq<Event>
    var facts: seq<Fact>
    var episodes: seq<Derived>
    var reflections: seq<Derived>

    ghost function View(): Tables reads this { Tables(events, facts, episodes, reflections) }

    constructor ()
      ensures View() == Empty
    {
      events, facts, episodes, reflections := [], [], [], [];
    }

    /** A ledger id can be used once. */
    method AppendEvent(e: Event) returns (ok: bool)
      modifies this`events
      ensures ok == (e.id !in EventIds(old(events)))
      ensures events == if ok then old(events) + [e] else old(events)
    {
      ok := e.id !in EventIds(events);
      if ok { events := events + [e]; }
    }

    /** When the fact id is taken the insertion fails, and the closing has already happened. */
    method UpsertFact(d: Draft, now: int, later: int) returns (ok: bool)
      modifies this`facts
      ensures ok == !Taken(old(facts), d.id)
      ensures facts == if ok then Upserted(old(facts), d, now, later) else CloseOpen(old(facts), d.key, now)
    {
      ok := true;
      var i := 0;
      while i < |facts|
        invariant 0 <= i <= |facts|
        invariant ok == forall k | 0 <= k < i :: facts[k].id != d.id
      {
        if facts[i].id == d.id { ok := false; }
        i := i + 1;
      }
      facts := CloseOpen(facts, d.key, now);
      if ok { facts := facts + [NewVersion(d, later)]; }
    }

    method CreateEpisode(r: Derived)
      modifies this`episodes
      ensures episodes == old(episodes) + [r]
    {
      episodes := episodes + [r];
    }

    /** One event after another, the rows citing it go. */
    method ForgetCiting(eids: seq<nat>) returns (count: nat)
      modifies this`facts, this`episodes, this`reflections
      ensures facts == Keep(old(facts), FactRefs, Ids(eids))
      ensures episodes == Keep(old(episodes), DerivedRefs, Ids(eids))
      ensures reflections == Keep(old(reflections), DerivedRefs, Ids(eids))
      ensures count == (|old(facts)| - |facts|) + (|old(episodes)| - |episodes|) + (|old(reflections)| - |reflections|)
    {
      count := 0;
      KeepAll(facts, FactRefs);
      KeepAll(episodes, DerivedRefs);
      KeepAll(reflections, DerivedRefs);
      for i := 0 to |eids|
        invariant facts == Keep(old(facts), FactRefs, Ids(eids[..i]))
        invariant episodes == Keep(old(episodes), DerivedRefs, Ids(eids[..i]))
        invariant reflections == Keep(old(reflections), DerivedRefs, Ids(eids[..i]))
        invariant count
                  == (|old(facts)| - |facts|) + (|old(episodes)| - |episodes|) + (|old(reflections)| - |reflections|)
      {
        var eid := eids[i];
        assert eids[..i + 1][..i] == eids[..i];
        KeepStep(old(facts), FactRefs, Ids(eids[..i]), eid);
        KeepStep(old(episodes), DerivedRefs, Ids(eids[..i]), eid);
        KeepStep(old(reflections), DerivedRefs, Ids(eids[..i]), eid);
        var facts', episodes' := Keep(facts, FactRefs, {eid}), Keep(episodes, DerivedRefs, {eid});
        var reflections' := Keep(reflections, DerivedRefs, {eid});
        count := count + (|facts| - |facts'|) + (|episodes| - |episodes'|) + (|reflections| - |reflections'|);
        facts, episodes, reflections := facts', episodes', reflections';
      }
      assert eids[..|eids|] == eids;
    }

    /** Deletes the citing rows, then the events; reports every deletion, present or not for the events. */
    method Forget(eids: seq<nat>) returns (count: nat)
      modifies this
      ensures View() == Forgotten(old(View()), Ids(eids))
      ensures count == |eids| + (|old(facts)| - |facts|) + (|old(episodes)| - |episodes|)
                       + (|old(reflections)| - |reflections|)
    {
      count := ForgetCiting(eids);
      ghost var cascade := count;
      KeepAllEvents(events);
      for i := 0 to |eids|
        invariant events == KeepEvents(old(events), Ids(eids[..i])) && count == cascade + i
        invariant facts == Keep(old(facts), FactRefs, Ids(eids))
        invariant episodes == Keep(old(episodes), DerivedRefs, Ids(eids))
        invariant reflections == Keep(old(reflections), DerivedRefs, Ids(eids))
      {
        assert eids[..i + 1][..i] == eids[..i];
        KeepEventsTwice(old(events), Ids(eids[..i]), eids[i]);
        events := KeepEvents(events, {eids[i]});
        count := count + 1;
      }
      assert eids[..|eids|] == eids;
    }

    /** One error for every reference of a fact or an episode to an event that is not in the ledger. */
    method VerifyConsistency() returns (errors: nat)
      ensures errors == Dangling(facts, FactRefs, EventIds(events)) + Dangling(episodes, DerivedRefs, EventIds(events))
      ensures errors == 0 <==> Consistent(View())
    {
      errors := 0;
      for i := 0 to |facts|
        invariant errors == Dangling(facts[..i], FactRefs, EventIds(events))
      {
        var refs := facts[i].sources;
        assert facts[..i + 1][..i] == facts[..i];
        for j := 0 to |refs|
          invariant errors == Dangling(facts[..i], FactRefs, EventIds(events)) + Missing(refs[..j], EventIds(events))
        {
          assert refs[..j + 1][..j] == refs[..j];
          if refs[j] !in EventIds(events) { errors := errors + 1; }
        }
        assert refs[..|refs|] == refs;
      }
      assert facts[..|facts|] == facts;
      for i := 0 to |episodes|
        invariant errors == Dangling(facts, FactRefs, EventIds(events))
                            + Dangling(episodes[..i], DerivedRefs, EventIds(events))
      {
        var refs := episodes[i].refs;
        assert episodes[..i + 1][..i] == episodes[..i];
        for j := 0 to |refs|
          invariant errors == Dangling(facts, FactRefs, EventIds(events))
                              + Dangling(episodes[..i], DerivedRefs, EventIds(events))
                                + Missing(refs[..j], EventIds(events))
        {
          assert refs[..j + 1][..j] == refs[..j];
          if refs[j] !in EventIds(events) { errors := errors + 1; }
        }
        assert refs[..|refs|] == refs;
      }
      assert episodes[..|episodes|] == episodes;
      DanglingNone(facts, FactRefs, EventIds(events));
      DanglingNone(episodes, DerivedRefs, EventIds(events));
    }
  }

  /** Forgetting removes exactly the asked events and every derived row that cites one of them. */
  lemma ForgetIsExact(t: Tables, gone: set<nat>)
    ensures var u := Forgotten(t, gone);
            && (forall e :: e in u.events <==> e in t.events && e.id !in gone)
            && (forall f :: f in u.facts <==> f in t.facts && !Cites(f.sources, gone))
            && (forall r :: r in u.episodes <==> r in t.episodes && !Cites(r.refs, gone))
            && (forall r :: r in u.reflections <==> r in t.reflections && !Cites(r.refs, gone))
  {
    KeepEventsSpec(t.events, gone);
    KeepSpec(t.facts, FactRefs, gone);
    KeepSpec(t.episodes, DerivedRefs, gone);
    KeepSpec(t.reflections, DerivedRefs, gone);
  }

  /** No surviving fact or episode is left pointing at a forgotten event. */
  lemma ForgetKeepsConsistent(t: Tables, gone: set<nat>)
    requires Consistent(t)
    ensures Consistent(Forgotten(t, gone))
  {
    var u := Forgotten(t, gone);
    ForgetIsExact(t, gone);
    forall f, e | f in u.facts && e in FactRefs(f) ensures e in EventIds(u.events) { Survives(t, gone, f.sources, e); }
    forall r, e | r in u.episodes && e in DerivedRefs(r)
      ensures e in EventIds(u.events)
    {
      Survives(t, gone, r.refs, e);
    }
  }

  lemma Survives(t: Tables, gone: set<nat>, refs: seq<nat>, e: nat)
    requires e in refs && e in EventIds(t.events) && !Cites(refs, gone)
    ensures e in EventIds(Forgotten(t, gone).events)
  {
    KeepEventsSpec(t.events, gone);
    var row :| row in t.events && row.id == e;
    assert row in KeepEvents(t.events, gone);
  }

  // ── Versions over a run ─────────────────────────────────────────────

  /** A version is a proper interval that began, and if closed ended, by the given time. */
  predicate WellTimed(f: Fact, clock: int) {
    f.from <= clock && (f.to.Some? ==> f.from <= f.to.value <= clock)
  }

  predicate EndedBy(facts: seq<Fact>, key: string, from: int) {
    forall f | f in facts && f.key == key :: f.to.Some? && f.to.value <= from
  }

  /** Each version starts no earlier than every older version of its key ended. */
  predicate Timeline(facts: seq<Fact>, clock: int) {
    facts == [] ||
    (var front, f := facts[..|facts| - 1], facts[|facts| - 1];
     Timeline(front, clock) && WellTimed(f, clock) && EndedBy(front, f.key, f.from))
  }

  lemma {:induction false} CloseOpenAt(facts: seq<Fact>, key: string, now: int, i: nat)
    requires i < |facts|
    ensures CloseOpen(facts, key, now)[i] ==
            if facts[i].key == key && facts[i].to.None? then facts[i].(to := Some(now)) else facts[i]
  {
    var n := |facts| - 1;
    if i < n { CloseOpenAt(facts[..n], key, now, i); }
  }

  /** An upsert changes earlier rows only by closing the open versions of its own key. */
  lemma UpsertOnlyCloses(facts: seq<Fact>, d: Draft, now: int, later: int, i: nat)
    requires i < |facts|
    ensures var u := Upserted(facts, d, now, later);
            && |u| == |facts| + 1 && u[|facts|] == NewVersion(d, later)
            && (u[i] == facts[i] || (facts[i].key == d.key && facts[i].to.None? && u[i] == facts[i].(to := Some(now))))
  {
    CloseOpenAt(facts, d.key, now, i);
  }

  lemma {:induction false} TimelineLater(facts: seq<Fact>, clock: int, later: int)
    requires Timeline(facts, clock) && clock <= later
    ensures Timeline(facts, later)
  {
    if facts != [] { TimelineLater(facts[..|facts| - 1], clock, later); }
  }

  lemma {:induction false} ClosedMembers(facts: seq<Fact>, key: string, now: int, f: Fact)
    requires f in CloseOpen(facts, key, now)
    ensures f in facts || (f.key == key && f.to == Some(now) && f.(to := None) in facts)
  {
    var u := CloseOpen(facts, key, now);
    var i :| 0 <= i < |u| && u[i] == f;
    CloseOpenAt(facts, key, now, i);
    if f != facts[i] { assert f.(to := None) == facts[i]; }
  }

  lemma {:induction false} CloseKeepsTimeline(facts: seq<Fact>, key: string, now: int)
    requires Timeline(facts, now)
    ensures Timeline(CloseOpen(facts, key, now), now)
    ensures forall f | f in CloseOpen(facts, key, now) && f.key == key :: f.to.Some? && f.to.value <= now
  {
    if facts != [] {
      var n := |facts| - 1;
      CloseKeepsTimeline(facts[..n], key, now);
      var u := CloseOpen(facts[..n], key, now);
      assert CloseOpen(facts, key, now)[..n] == u;
      forall f | f in u && f.key == facts[n].key ensures f.to.Some? && f.to.value <= facts[n].from {
        ClosedMembers(facts[..n], key, now, f);
      }
    }
  }

  lemma {:induction false} UpsertKeepsTimeline(facts: seq<Fact>, d: Draft, now: int, later: int)
    requires Timeline(facts, now) && d.validFrom.None? && d.validTo.None? && now <= later
    ensures Timeline(Upserted(facts, d, now, later), later)
  {
    CloseKeepsTimeline(facts, d.key, now);
    var u := CloseOpen(facts, d.key, now);
    assert Upserted(facts, d, now, later)[..|facts|] == u;
    TimelineLater(u, now, later);
  }

  lemma {:induction false} KeepKeepsTimeline(facts: seq<Fact>, gone: set<nat>, clock: int)
    requires Timeline(facts, clock)
    ensures Timeline(Keep(facts, FactRefs, gone), clock)
  {
    if facts != [] {
      var n := |facts| - 1;
      KeepKeepsTimeline(facts[..n], gone, clock);
      var u := Keep(facts[..n], FactRefs, gone);
      if Cites(FactRefs(facts[n]), gone) {
        assert Keep(facts, FactRefs, gone) == u;
      } else {
        assert Keep(facts, FactRefs, gone) == u + [facts[n]] && (u + [facts[n]])[..|u|] == u;
        assert EndedBy(u, facts[n].key, facts[n].from) by { KeepSpec(facts[..n], FactRefs, gone); }
      }
    }
  }

  datatype Op = Upsert(draft: Draft, now: int, later: int) | Drop(gone: set<nat>)

  function RunOps(ops: seq<Op>): seq<Fact> {
    if ops == [] then []
    else
      var facts := RunOps(ops[..|ops| - 1]);
      match ops[|ops| - 1]
      case Upsert(d, now, later) => Upserted(facts, d, now, later)
      case Drop(gone) => Keep(facts, FactRefs, gone)
  }

  /** The clock readings of the run never go back; no fact carries its own validity. */
  predicate Orderly(ops: seq<Op>, clock: int) {
    ops == [] ||
    match ops[|ops| - 1]
    case Upsert(d, now, later) =>
      d.validFrom.None? && d.validTo.None? && now <= later <= clock && Orderly(ops[..|ops| - 1], now)
    case Drop(_) => Orderly(ops[..|ops| - 1], clock)
  }

  lemma {:induction false} RunHasTimeline(ops: seq<Op>, clock: int)
    requires Orderly(ops, clock)
    ensures Timeline(RunOps(ops), clock)
  {
    if ops != [] {
      var before := ops[..|ops| - 1];
      match ops[|ops| - 1]
      case Upsert(d, now, later) =>
        RunHasTimeline(before, now);
        UpsertKeepsTimeline(RunOps(before), d, now, later);
        TimelineLater(Upserted(RunOps(before), d, now, later), later, clock);
      case Drop(gone) =>
        RunHasTimeline(before, clock);
        KeepKeepsTimeline(RunOps(before), gone, clock);
    }
  }

  lemma {:induction false} TimelinePair(facts: seq<Fact>, clock: int, i: nat, j: nat)
    requires Timeline(facts, clock) && i < j < |facts| && facts[i].key == facts[j].key
    ensures facts[i].to.Some? && facts[i].to.value <= facts[j].from
  {
    var n := |facts| - 1;
    if j < n {
      TimelinePair(facts[..n], clock, i, j);
    } else {
      assert facts[i] in facts[..n];
    }
  }

  /** Over every orderly run: two versions of a key never overlap, so at most one of them is open. */
  lemma {:induction false} VersionsNeverOverlap(ops: seq<Op>, clock: int, i: nat, j: nat)
    requires Orderly(ops, clock) && i < j < |RunOps(ops)| && RunOps(ops)[i].key == RunOps(ops)[j].key
    ensures var facts := RunOps(ops);
            facts[i].to.Some? && facts[i].from <= facts[i].to.value <= facts[j].from
  {
    RunHasTimeline(ops, clock);
    TimelinePair(RunOps(ops), clock, i, j);
    TimelineAt(RunOps(ops), clock, i);
  }

  lemma {:induction false} TimelineAt(facts: seq<Fact>, clock: int, i: nat)
    requires Timeline(facts, clock) && i < |facts|
    ensures WellTimed(facts[i], clock)
  {
    if i < |facts| - 1 { TimelineAt(facts[..|facts| - 1], clock, i); }
  }

  // ── Versions of any origin ──────────────────────────────────────────

  /** The version is valid at the given time. */
  predicate Covers(f: Fact, time: int) { f.from <= time && (f.to.Some? ==> time < f.to.value) }

  /** No time belongs to two versions of a key. */
  ghost predicate Disjoint(facts: seq<Fact>) {
    forall i, j, time | 0 <= i < j < |facts| && facts[i].key == facts[j].key ::
      !(Covers(facts[i], time) && Covers(facts[j], time))
  }

  /** Where a version ends once its key has been closed. */
  function EndBy(f: Fact, now: int): int { if f.to.Some? then f.to.value else now }

  /** A version that is valid at no time once its key has been closed. */
  predicate Void(f: Fact, now: int) { EndBy(f, now) <= f.from }

  /**
   The draft finds room beside what is stored of its key: each version of it is void, or ends by the
   draft's start, or starts at or after the draft's own end; or the draft itself is void.
   */
  ghost predicate HasRoom(facts: seq<Fact>, d: Draft, now: int, later: int) {
    var f := NewVersion(d, later);
    (f.to.Some? && f.to.value <= f.from) ||
    forall g | g in facts && g.key == d.key ::
      Void(g, now) || EndBy(g, now) <= f.from || (f.to.Some? && f.to.value <= g.from)
  }

  lemma OverlapIff(g: Fact, f: Fact, end: int)
    requires g.to == Some(end)
    ensures (exists time :: Covers(g, time) && Covers(f, time)) <==>
              !(end <= g.from || (f.to.Some? && f.to.value <= f.from) || end <= f.from
                || (f.to.Some? && f.to.value <= g.from))
  {
    var start := Max(g.from, f.from);
    if exists time :: Covers(g, time) && Covers(f, time) {
      var time :| Covers(g, time) && Covers(f, time);
    }
    assert Covers(g, start) && Covers(f, start) <==> start < end && (f.to.Some? ==> start < f.to.value);
  }

  lemma {:induction false} CloseKeepsDisjoint(facts: seq<Fact>, key: string, now: int)
    requires Disjoint(facts)
    ensures Disjoint(CloseOpen(facts, key, now))
  {
    var u := CloseOpen(facts, key, now);
    forall i, j, time | 0 <= i < j < |u| && u[i].key == u[j].key ensures !(Covers(u[i], time) && Covers(u[j], time)) {
      CloseOpenAt(facts, key, now, i);
      CloseOpenAt(facts, key, now, j);
      assert facts[i].key == facts[j].key;
      assert Covers(u[i], time) ==> Covers(facts[i], time);
      assert Covers(u[j], time) ==> Covers(facts[j], time);
    }
  }

  /** A closed version of the key and the new one share a time exactly when the draft has no room beside it. */
  lemma {:induction false} ClosedOverlapIff(facts: seq<Fact>, d: Draft, now: int, later: int, i: nat)
    requires i < |facts| && facts[i].key == d.key
    ensures var g, f := CloseOpen(facts, d.key, now)[i], NewVersion(d, later);
            && g.key == d.key
            && ((exists time :: Covers(g, time) && Covers(f, time)) <==>
                  !((f.to.Some? && f.to.value <= f.from) || Void(facts[i], now) || EndBy(facts[i], now) <= f.from
                    || (f.to.Some? && f.to.value <= facts[i].from)))
  {
    CloseOpenAt(facts, d.key, now, i);
    OverlapIff(CloseOpen(facts, d.key, now)[i], NewVersion(d, later), EndBy(facts[i], now));
  }

  /** An upsert of any draft keeps the versions of every key disjoint exactly when the draft has room. */
  lemma UpsertFitsIff(facts: seq<Fact>, d: Draft, now: int, later: int)
    requires Disjoint(facts)
    ensures Disjoint(Upserted(facts, d, now, later)) <==> HasRoom(facts, d, now, later)
  {
    var n, u, f := |facts|, Upserted(facts, d, now, later), NewVersion(d, later);
    assert u[..n] == CloseOpen(facts, d.key, now) && u[n] == f;
    CloseKeepsDisjoint(facts, d.key, now);
    if HasRoom(facts, d, now, later) {
      forall i, j, time | 0 <= i < j <= n && u[i].key == u[j].key ensures !(Covers(u[i], time) && Covers(u[j], time)) {
        if j < n {
          assert u[..n][i] == u[i] && u[..n][j] == u[j];
        } else {
          CloseOpenAt(facts, d.key, now, i);
          ClosedOverlapIff(facts, d, now, later, i);
          assert facts[i] in facts;
        }
      }
    } else {
      var g :| g in facts && g.key == d.key
               && !(Void(g, now) || EndBy(g, now) <= f.from || (f.to.Some? && f.to.value <= g.from));
      var i :| 0 <= i < n && facts[i] == g;
      ClosedOverlapIff(facts, d, now, later, i);
      var time :| Covers(u[..n][i], time) && Covers(f, time);
      assert u[i].key == u[n].key && Covers(u[i], time) && Covers(u[n], time);
    }
  }

  /**
   A draft without an end of its own has room exactly when it starts no earlier than every version that was ever
   valid ends.
   */
  lemma OpenDraftFitsIff(facts: seq<Fact>, d: Draft, now: int, later: int)
    requires Disjoint(facts) && d.validTo.None?
    ensures Disjoint(Upserted(facts, d, now, later)) <==>
              (forall g | g in facts && g.key == d.key && !Void(g, now) ::
                 EndBy(g, now) <= (if d.validFrom.Some? then d.validFrom.value else later))
  {
    UpsertFitsIff(facts, d, now, later);
  }

  /** A version that shares no time with those before it can follow any choice of them. */
  lemma DisjointAfter(facts: seq<Fact>, u: seq<Fact>)
    requires facts != [] && Disjoint(facts) && Disjoint(u) && forall e | e in u :: e in facts[..|facts| - 1]
    ensures Disjoint(u + [facts[|facts| - 1]])
  {
    var n := |facts| - 1;
    var v := u + [facts[n]];
    forall i, j, time | 0 <= i < j < |v| && v[i].key == v[j].key ensures !(Covers(v[i], time) && Covers(v[j], time)) {
      if j == |u| {
        assert v[i] == u[i] && u[i] in u;
        var k :| 0 <= k < n && facts[..n][k] == u[i];
        assert facts[k] == u[i];
      }
    }
  }

  lemma {:induction false} KeepKeepsDisjoint(facts: seq<Fact>, gone: set<nat>)
    requires Disjoint(facts)
    ensures Disjoint(Keep(facts, FactRefs, gone))
  {
    if facts != [] {
      var n := |facts| - 1;
      var u := Keep(facts[..n], FactRefs, gone);
      assert Disjoint(facts[..n]);
      KeepKeepsDisjoint(facts[..n], gone);
      KeepSpec(facts[..n], FactRefs, gone);
      if Cites(FactRefs(facts[n]), gone) {
        assert Keep(facts, FactRefs, gone) == u;
      } else {
        assert Keep(facts, FactRefs, gone) == u + [facts[n]];
        DisjointAfter(facts, u);
      }
    }
  }

  /** Every upsert of the run, whatever validity its fact brings, finds room in the table it meets. */
  ghost predicate AllHaveRoom(ops: seq<Op>) {
    ops == [] ||
    (AllHaveRoom(ops[..|ops| - 1]) &&
     (ops[|ops| - 1].Upsert? ==>
        var a := ops[|ops| - 1]; HasRoom(RunOps(ops[..|ops| - 1]), a.draft, a.now, a.later)))
  }

  /**
   Over every run of upserts and forgets, with any validities and any clock: versions of a key are disjoint
   throughout the run exactly when each upserted fact had room.
   */
  lemma {:induction false} AlwaysDisjointIff(ops: seq<Op>)
    ensures (forall k | 0 <= k <= |ops| :: Disjoint(RunOps(ops[..k]))) <==> AllHaveRoom(ops)
  {
    if ops == [] {
      assert forall k | 0 <= k <= |ops| :: ops[..k] == [];
    } else {
      var n := |ops| - 1;
      var before := ops[..n];
      AlwaysDisjointIff(before);
      assert forall k | 0 <= k <= n :: before[..k] == ops[..k];
      assert ops[..n + 1] == ops;
      assert before[..n] == before;
      if AllHaveRoom(before) { LastDisjointIff(ops); }
    }
  }

  lemma {:induction false} LastDisjointIff(ops: seq<Op>)
    requires ops != [] && Disjoint(RunOps(ops[..|ops| - 1]))
    ensures var a := ops[|ops| - 1];
            Disjoint(RunOps(ops)) <==> (a.Upsert? ==> HasRoom(RunOps(ops[..|ops| - 1]), a.draft, a.now, a.later))
  {
    var facts := RunOps(ops[..|ops| - 1]);
    match ops[|ops| - 1]
    case Upsert(d, now, later) => UpsertFitsIff(facts, d, now, later);
    case Drop(gone) => KeepKeepsDisjoint(facts, gone);
  }

  /** A fact that brings its own start can overlap the version it closes. */
  lemma BackdatedFactOverlaps()
    ensures var first := Draft(1, "identity", "a", None, None, [1]);
            var backdated := Draft(2, "identity", "b", Some(3), None, [2]);
            var facts := Upserted(Upserted([], first, 5, 5), backdated, 9, 9);
            facts[0].to == Some(9) && facts[1].from == 3 && Covers(facts[0], 6) && Covers(facts[1], 6)
  {
    var first := Draft(1, "identity", "a", None, None, [1]);
    var backdated := Draft(2, "identity", "b", Some(3), None, [2]);
    var facts := Upserted([], first, 5, 5);
    assert facts == [NewVersion(first, 5)];
    CloseOpenAt(facts, "identity", 9, 0);
    assert Upserted(facts, backdated, 9, 9)[1] == NewVersion(backdated, 9);
  }
}
