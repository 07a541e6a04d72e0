/**
 Facts derived live, turn by turn, against facts rebuilt from the ledger. The extractor is an unknown
 function from a text to the keys and values it states; fact ids and clock readings are arbitrary and
 need not agree between the two ways.
 */
module Replay {
  import opened Std
  import opened MemoryTables
  import Episodes

  /** One extracted statement and the event it came from. */
  datatype Write = Write(key: string, value: string, source: nat)

  datatype Stamp = Stamp(factId: nat, now: int, later: int)

  type Extractor = string -> seq<(string, string)>

  function WritesOf(pairs: seq<(string, string)>, source: nat): seq<Write> {
    if pairs == [] then []
    else WritesOf(pairs[..|pairs| - 1], source) + [Write(pairs[|pairs| - 1].0, pairs[|pairs| - 1].1, source)]
  }

  /** What the ledger states, in ledger order; a turn event without user text states nothing. */
  function Statements(extract: Extractor, events: seq<Event>): seq<Write> {
    if events == [] then []
    else
      var e := events[|events| - 1];
      Statements(extract, events[..|events| - 1])
      + (if e.isTurn && e.userText != "" then WritesOf(extract(e.userText), e.id) else [])
  }

  /**
   What became of a statement when it was said. An interrupted turn stores none of its statements; an exception
   ends the storing of a turn after some of them, with the failing one dropped or, when it failed between its
   two database statements, with the open version of its key closed and nothing new.
   */
  datatype Fate = Kept | Closed | Dropped

  /** The facts stored live; the k-th statement meets the k-th fate. */
  function StoreLive(ws: seq<Write>, fates: nat -> Fate, stamp: nat -> Stamp): seq<Fact> {
    if ws == [] then []
    else
      var n, w := |ws| - 1, ws[|ws| - 1];
      var before := StoreLive(ws[..n], fates, stamp);
      match fates(n)
      case Kept => Upserted(before, DraftOf(w, stamp(n)), stamp(n).now, stamp(n).later)
      case Closed => CloseOpen(before, w.key, stamp(n).now)
      case Dropped => before
  }

  function DraftOf(w: Write, stamp: Stamp): Draft { Draft(stamp.factId, w.key, w.value, None, None, [w.source]) }

  /** One upsert per statement, with any stamps. */
  function Store(ws: seq<Write>, stamp: nat -> Stamp): seq<Fact> {
    if ws == [] then []
    else
      var n, w := |ws| - 1, ws[|ws| - 1];
      Upserted(Store(ws[..n], stamp), DraftOf(w, stamp(n)), stamp(n).now, stamp(n).later)
  }

  /** What a reader sees: the value and sources of the open version of each key. */
  function OpenMap(facts: seq<Fact>): map<string, (string, seq<nat>)> {
    if facts == [] then map[]
    else
      var f := facts[|facts| - 1];
      if f.to.None? then OpenMap(facts[..|facts| - 1])[f.key := (f.value, f.sources)]
      else OpenMap(facts[..|facts| - 1])
  }

  function LastOn(ws: seq<Write>, key: string): Option<Write> {
    if ws == [] then None
    else if ws[|ws| - 1].key == key then Some(ws[|ws| - 1])
    else LastOn(ws[..|ws| - 1], key)
  }

  /** The last statement about each key. */
  function LastWrites(ws: seq<Write>): map<string, (string, seq<nat>)> {
    if ws == [] then map[]
    else LastWrites(ws[..|ws| - 1])[ws[|ws| - 1].key := (ws[|ws| - 1].value, [ws[|ws| - 1].source])]
  }

  // ── Stored facts are the last statements ────────────────────────────

  lemma {:induction false} ClosedAreGone(facts: seq<Fact>, key: string, now: int)
    ensures OpenMap(CloseOpen(facts, key, now)) == OpenMap(facts) - {key}
  {
    if facts != [] {
      ClosedAreGone(facts[..|facts| - 1], key, now);
      var u := CloseOpen(facts, key, now);
      assert u[..|u| - 1] == CloseOpen(facts[..|facts| - 1], key, now);
    }
  }

  lemma {:induction false} StoredIsLast(ws: seq<Write>, stamp: nat -> Stamp)
    ensures OpenMap(Store(ws, stamp)) == LastWrites(ws)
  {
    if ws != [] {
      var n, w := |ws| - 1, ws[|ws| - 1];
      StoredIsLast(ws[..n], stamp);
      var before := Store(ws[..n], stamp);
      ClosedAreGone(before, w.key, stamp(n).now);
      var u := Store(ws, stamp);
      assert u[..|u| - 1] == CloseOpen(before, w.key, stamp(n).now);
    }
  }

  lemma {:induction false} LastWritesAt(ws: seq<Write>, key: string)
    ensures key in LastWrites(ws) <==> LastOn(ws, key).Some?
    ensures LastOn(ws, key).Some? ==>
              var w := LastOn(ws, key).value;
              w in ws && w.key == key && LastWrites(ws)[key] == (w.value, [w.source])
  {
    if ws != [] { LastWritesAt(ws[..|ws| - 1], key); }
  }

  // ── Live against rebuilt ────────────────────────────────────────────

  /** The last statement about a key that had any effect live, and whether it was stored. */
  function LastEffect(ws: seq<Write>, fates: nat -> Fate, key: string): Option<(Write, bool)> {
    if ws == [] then None
    else
      var n := |ws| - 1;
      if ws[n].key == key && fates(n) != Dropped then Some((ws[n], fates(n) == Kept))
      else LastEffect(ws[..n], fates, key)
  }

  /** What a reader of the live facts sees. */
  function LiveMap(ws: seq<Write>, fates: nat -> Fate): map<string, (string, seq<nat>)> {
    if ws == [] then map[]
    else
      var n := |ws| - 1;
      var before := LiveMap(ws[..n], fates);
      match fates(n)
      case Kept => before[ws[n].key := (ws[n].value, [ws[n].source])]
      case Closed => before - {ws[n].key}
      case Dropped => before
  }

  lemma {:induction false} LiveIsLiveMap(ws: seq<Write>, fates: nat -> Fate, stamp: nat -> Stamp)
    ensures OpenMap(StoreLive(ws, fates, stamp)) == LiveMap(ws, fates)
  {
    if ws != [] {
      var n, w := |ws| - 1, ws[|ws| - 1];
      LiveIsLiveMap(ws[..n], fates, stamp);
      var before, u := StoreLive(ws[..n], fates, stamp), StoreLive(ws, fates, stamp);
      ClosedAreGone(before, w.key, stamp(n).now);
      if fates(n) == Kept { assert u[..|u| - 1] == CloseOpen(before, w.key, stamp(n).now); }
    }
  }

  lemma {:induction false} LiveMapAt(ws: seq<Write>, fates: nat -> Fate, key: string)
    ensures var e := LastEffect(ws, fates, key);
            && (e.Some? ==> e.value.0 in ws && e.value.0.key == key)
            && (key in LiveMap(ws, fates) <==> e.Some? && e.value.1)
            && (key in LiveMap(ws, fates) ==> LiveMap(ws, fates)[key] == (e.value.0.value, [e.value.0.source]))
  {
    if ws != [] { LiveMapAt(ws[..|ws| - 1], fates, key); }
  }

  /** The last effect on the key was a statement that was stored, and it says what the last statement of all says. */
  predicate SaidLive(ws: seq<Write>, fates: nat -> Fate, key: string) {
    var last, e := LastOn(ws, key), LastEffect(ws, fates, key);
    last.Some? ==>
      e.Some? && e.value.1 && e.value.0.value == last.value.value && e.value.0.source == last.value.source
  }

  predicate AllSaidLive(ws: seq<Write>, fates: nat -> Fate) { forall w | w in ws :: SaidLive(ws, fates, w.key) }

  lemma {:induction false} KeyAgreesIff(ws: seq<Write>, fates: nat -> Fate, key: string)
    ensures Agrees(LiveMap(ws, fates), LastWrites(ws), key) <==> SaidLive(ws, fates, key)
  {
    LiveMapAt(ws, fates, key);
    LastWritesAt(ws, key);
    EffectNeedsStatement(ws, fates, key);
    var last, e := LastOn(ws, key), LastEffect(ws, fates, key);
    if last.Some? && e.Some? {
      var a, b := [e.value.0.source], [last.value.source];
      assert a == b <==> a[0] == b[0];
    }
  }

  lemma {:induction false} EffectNeedsStatement(ws: seq<Write>, fates: nat -> Fate, key: string)
    ensures LastEffect(ws, fates, key).Some? ==> LastOn(ws, key).Some?
  {
    if ws != [] { EffectNeedsStatement(ws[..|ws| - 1], fates, key); }
  }

  lemma {:induction false} AgreeWhenSaid(ws: seq<Write>, fates: nat -> Fate)
    ensures LiveMap(ws, fates) == LastWrites(ws) <==> AllSaidLive(ws, fates)
  {
    if AllSaidLive(ws, fates) {
      forall key ensures Agrees(LiveMap(ws, fates), LastWrites(ws), key) {
        LastWritesAt(ws, key);
        KeyAgreesIff(ws, fates, key);
      }
      MapsAgree(LiveMap(ws, fates), LastWrites(ws));
    } else {
      var w :| w in ws && !SaidLive(ws, fates, w.key);
      KeyAgreesIff(ws, fates, w.key);
    }
  }

  /**
   The facts stored live and the facts a rebuild derives from the ledger show the same open versions exactly
   when, for each key, the last statement that had an effect live was stored and says what the last one in the
   ledger says. Each statement has its own fate: interrupted turns store nothing, and an exception may end the
   storing of a turn anywhere.
   */
  lemma {:induction false} ReplayEqualsLiveIff(extract: Extractor, events: seq<Event>, fates: nat -> Fate,
                                               live: nat -> Stamp, rebuilt: nat -> Stamp)
    ensures var ws := Statements(extract, events);
            OpenMap(StoreLive(ws, fates, live)) == OpenMap(Store(ws, rebuilt)) <==> AllSaidLive(ws, fates)
  {
    var ws := Statements(extract, events);
    LiveIsLiveMap(ws, fates, live);
    StoredIsLast(ws, rebuilt);
    AgreeWhenSaid(ws, fates);
  }

  lemma {:induction false} LastKept(ws: seq<Write>, fates: nat -> Fate, key: string)
    requires forall k | 0 <= k < |ws| :: fates(k) == Kept
    ensures SaidLive(ws, fates, key)
  {
    if ws != [] { LastKept(ws[..|ws| - 1], fates, key); }
  }

  /** In particular a run whose turns all stored all they stated, in ledger order, is reproduced by a rebuild. */
  lemma {:induction false} ReplayEqualsLive(extract: Extractor, events: seq<Event>, fates: nat -> Fate,
                                            live: nat -> Stamp, rebuilt: nat -> Stamp)
    requires forall k | 0 <= k < |Statements(extract, events)| :: fates(k) == Kept
    ensures var ws := Statements(extract, events);
            OpenMap(StoreLive(ws, fates, live)) == OpenMap(Store(ws, rebuilt))
  {
    var ws := Statements(extract, events);
    forall w | w in ws ensures SaidLive(ws, fates, w.key) { LastKept(ws, fates, w.key); }
    ReplayEqualsLiveIff(extract, events, fates, live, rebuilt);
  }

  /** An interrupted turn is in the ledger, and its statement is rebuilt although it was not stored. */
  lemma InterruptedTurnDiffers(live: nat -> Stamp, rebuilt: nat -> Stamp)
    ensures var extract: Extractor := (text: string) => [("name", text)];
            var ws := Statements(extract, [Event(1, true, true, 0, "Ann")]);
            "name" !in OpenMap(StoreLive(ws, _ => Dropped, live)) && "name" in OpenMap(Store(ws, rebuilt))
  {
    var extract: Extractor := (text: string) => [("name", text)];
    OneStatement(extract, Event(1, true, true, 0, "Ann"), "name", "Ann");
    var ws := Statements(extract, [Event(1, true, true, 0, "Ann")]);
    LiveIsLiveMap(ws, _ => Dropped, live);
    StoredIsLast(ws, rebuilt);
    assert ws[..0] == [];
  }

  /** A turn with one statement. */
  lemma OneStatement(extract: Extractor, e: Event, key: string, value: string)
    requires e.isTurn && e.userText != "" && extract(e.userText) == [(key, value)]
    ensures Statements(extract, [e]) == [Write(key, value, e.id)]
  {
    assert [e][..0] == [] && [(key, value)][..0] == [];
    assert WritesOf([(key, value)], e.id) == [Write(key, value, e.id)];
  }

  lemma {:induction false} WritesOfSource(pairs: seq<(string, string)>, source: nat)
    ensures forall w | w in WritesOf(pairs, source) :: w.source == source
  {
    if pairs != [] { WritesOfSource(pairs[..|pairs| - 1], source); }
  }

  lemma {:induction false} StatementSources(extract: Extractor, events: seq<Event>)
    ensures forall w | w in Statements(extract, events) :: w.source in EventIds(events)
  {
    if events != [] {
      var n := |events| - 1;
      StatementSources(extract, events[..n]);
      WritesOfSource(extract(events[n].userText), events[n].id);
      assert events == events[..n] + [events[n]];
      forall w | w in Statements(extract, events) ensures w.source in EventIds(events) {
        if w in Statements(extract, events[..n]) {
          var e :| e in events[..n] && e.id == w.source;
          assert e in events;
        } else {
          assert events[n] in events;
        }
      }
    }
  }

  // ── Forgetting, then rebuilding ─────────────────────────────────────

  /** At most one open version of a key, whatever the clock did. */
  predicate OneOpen(facts: seq<Fact>) {
    facts == [] ||
    (OneOpen(facts[..|facts| - 1])
     && (facts[|facts| - 1].to.None? ==>
           forall f | f in facts[..|facts| - 1] && f.key == facts[|facts| - 1].key :: f.to.Some?))
  }

  lemma {:induction false} CloseKeepsOneOpen(facts: seq<Fact>, key: string, now: int)
    requires OneOpen(facts)
    ensures OneOpen(CloseOpen(facts, key, now))
    ensures forall f | f in CloseOpen(facts, key, now) && f.key == key :: f.to.Some?
  {
    if facts != [] {
      var n := |facts| - 1;
      CloseKeepsOneOpen(facts[..n], key, now);
      var u := CloseOpen(facts[..n], key, now);
      assert CloseOpen(facts, key, now)[..n] == u;
      if facts[n].to.None? && facts[n].key != key {
        forall f | f in u && f.key == facts[n].key ensures f.to.Some? { ClosedMembers(facts[..n], key, now, f); }
      }
    }
  }

  lemma {:induction false} StoredOneOpen(ws: seq<Write>, stamp: nat -> Stamp)
    ensures OneOpen(Store(ws, stamp))
  {
    if ws != [] {
      var n, w := |ws| - 1, ws[|ws| - 1];
      StoredOneOpen(ws[..n], stamp);
      CloseKeepsOneOpen(Store(ws[..n], stamp), w.key, stamp(n).now);
      var u := Store(ws, stamp);
      assert u[..|u| - 1] == CloseOpen(Store(ws[..n], stamp), w.key, stamp(n).now);
    }
  }

  /** The open versions that cite none of the forgotten events. */
  function Uncited(m: map<string, (string, seq<nat>)>, gone: set<nat>): map<string, (string, seq<nat>)> {
    map key | key in m && !Cites(m[key].1, gone) :: m[key]
  }

  lemma {:induction false} OpenAreMembers(facts: seq<Fact>, key: string)
    requires key in OpenMap(facts)
    ensures exists f :: f in facts && f.key == key && f.to.None?
  {
    var n := |facts| - 1;
    if facts[n].to.None? && facts[n].key == key {
      assert facts[n] in facts;
    } else {
      OpenAreMembers(facts[..n], key);
    }
  }

  lemma {:induction false} KeepsLast(facts: seq<Fact>, gone: set<nat>)
    requires facts != []
    ensures var n := |facts| - 1;
            var u := Keep(facts[..n], FactRefs, gone);
            OpenMap(Keep(facts, FactRefs, gone)) ==
            if Cites(facts[n].sources, gone) || facts[n].to.Some? then OpenMap(u)
            else OpenMap(u)[facts[n].key := (facts[n].value, facts[n].sources)]
  {
    var f := facts[|facts| - 1];
    var u := Keep(facts[..|facts| - 1], FactRefs, gone);
    if Cites(FactRefs(f), gone) {
      assert u + [] == u;
    } else {
      assert (u + [f])[..|u|] == u;
    }
  }

  lemma {:induction false} OpensFresh(facts: seq<Fact>)
    requires facts != [] && OneOpen(facts) && facts[|facts| - 1].to.None?
    ensures facts[|facts| - 1].key !in OpenMap(facts[..|facts| - 1])
  {
    var n := |facts| - 1;
    if facts[n].key in OpenMap(facts[..n]) { OpenAreMembers(facts[..n], facts[n].key); }
  }

  lemma {:induction false} KeepOpen(facts: seq<Fact>, gone: set<nat>)
    requires OneOpen(facts)
    ensures OpenMap(Keep(facts, FactRefs, gone)) == Uncited(OpenMap(facts), gone)
  {
    if facts != [] {
      var n := |facts| - 1;
      KeepOpen(facts[..n], gone);
      KeepsLast(facts, gone);
      if facts[n].to.None? { OpensFresh(facts); }
    }
  }

  function Remaining(ws: seq<Write>, gone: set<nat>): seq<Write> {
    if ws == [] then []
    else Remaining(ws[..|ws| - 1], gone) + (if ws[|ws| - 1].source in gone then [] else [ws[|ws| - 1]])
  }

  lemma {:induction false} RemainingLast(ws: seq<Write>, gone: set<nat>, key: string)
    ensures LastOn(ws, key).Some? && LastOn(ws, key).value.source !in gone ==>
              LastOn(Remaining(ws, gone), key) == LastOn(ws, key)
    ensures LastOn(Remaining(ws, gone), key).Some? ==>
              LastOn(Remaining(ws, gone), key).value.source !in gone && LastOn(Remaining(ws, gone), key).value in ws
              && LastOn(ws, key).Some?
    ensures LastOn(Remaining(ws, gone), key).None? ==> forall w | w in ws && w.key == key :: w.source in gone
  {
    if ws != [] {
      var n := |ws| - 1;
      RemainingLast(ws[..n], gone, key);
      var before := Remaining(ws[..n], gone);
      assert ws == ws[..n] + [ws[n]];
      if ws[n].source !in gone {
        assert (before + [ws[n]])[..|before|] == before;
      } else {
        assert Remaining(ws, gone) == before;
      }
    }
  }

  /** Forgetting leaves no key whose last statement goes while an older one stays. */
  predicate NothingReopens(ws: seq<Write>, gone: set<nat>) {
    forall w | w in ws && LastOn(ws, w.key).Some? && LastOn(ws, w.key).value.source in gone :: w.source in gone
  }

  lemma {:induction false} StillOpen(ws: seq<Write>, stamp: nat -> Stamp, gone: set<nat>, key: string)
    ensures var left := OpenMap(Keep(Store(ws, stamp), FactRefs, gone));
            && (key in left <==> LastOn(ws, key).Some? && LastOn(ws, key).value.source !in gone)
            && (key in left ==> left[key] == (LastOn(ws, key).value.value, [LastOn(ws, key).value.source]))
  {
    StoredOneOpen(ws, stamp);
    KeepOpen(Store(ws, stamp), gone);
    StoredIsLast(ws, stamp);
    LastWritesAt(ws, key);
    if LastOn(ws, key).Some? {
      var source := LastOn(ws, key).value.source;
      assert source in [source];
    }
  }

  predicate Reopens(ws: seq<Write>, gone: set<nat>, key: string) {
    LastOn(ws, key).Some? && LastOn(ws, key).value.source in gone && LastOn(Remaining(ws, gone), key).Some?
  }

  lemma NoneReopens(ws: seq<Write>, gone: set<nat>)
    ensures NothingReopens(ws, gone) <==> forall key :: !Reopens(ws, gone, key)
  {
    if NothingReopens(ws, gone) {
      forall key ensures !Reopens(ws, gone, key) {
        RemainingLast(ws, gone, key);
        LastWritesAt(Remaining(ws, gone), key);
      }
    } else {
      var w :| w in ws && LastOn(ws, w.key).Some? && LastOn(ws, w.key).value.source in gone && w.source !in gone;
      RemainingLast(ws, gone, w.key);
      assert Reopens(ws, gone, w.key);
    }
  }

  lemma {:induction false} AgreesUnlessReopened(ws: seq<Write>, live: nat -> Stamp, rebuilt: nat -> Stamp,
                                                gone: set<nat>, key: string)
    ensures Agrees(OpenMap(Keep(Store(ws, live), FactRefs, gone)), OpenMap(Store(Remaining(ws, gone), rebuilt)), key)
            <==> !Reopens(ws, gone, key)
  {
    StillOpen(ws, live, gone, key);
    StoredIsLast(Remaining(ws, gone), rebuilt);
    LastWritesAt(Remaining(ws, gone), key);
    RemainingLast(ws, gone, key);
  }

  /**
   After forgetting events, what remains stored shows the same open versions as a rebuild from the remaining
   ledger exactly when nothing reopens; otherwise the rebuild brings back a value that had been superseded.
   */
  lemma {:induction false} ForgetThenRebuildIff(ws: seq<Write>, live: nat -> Stamp, rebuilt: nat -> Stamp,
                                                gone: set<nat>)
    ensures OpenMap(Keep(Store(ws, live), FactRefs, gone)) == OpenMap(Store(Remaining(ws, gone), rebuilt))
            <==> NothingReopens(ws, gone)
  {
    var left, again := OpenMap(Keep(Store(ws, live), FactRefs, gone)), OpenMap(Store(Remaining(ws, gone), rebuilt));
    forall key ensures Agrees(left, again, key) <==> !Reopens(ws, gone, key) {
      AgreesUnlessReopened(ws, live, rebuilt, gone, key);
    }
    NoneReopens(ws, gone);
    if forall key :: Agrees(left, again, key) { MapsAgree(left, again); }
  }

  lemma {:induction false} RemainingConcat(a: seq<Write>, b: seq<Write>, gone: set<nat>)
    ensures Remaining(a + b, gone) == Remaining(a, gone) + Remaining(b, gone)
  {
    if b == [] {
      assert a + b == a;
    } else {
      assert (a + b)[..|a + b| - 1] == a + b[..|b| - 1];
      RemainingConcat(a, b[..|b| - 1], gone);
    }
  }

  lemma {:induction false} RemainingOfTurn(pairs: seq<(string, string)>, source: nat, gone: set<nat>)
    ensures Remaining(WritesOf(pairs, source), gone) == if source in gone then [] else WritesOf(pairs, source)
  {
    if pairs != [] {
      var n := |pairs| - 1;
      RemainingOfTurn(pairs[..n], source, gone);
      var ws := WritesOf(pairs, source);
      assert ws[..|ws| - 1] == WritesOf(pairs[..n], source);
    }
  }

  /** The ledger without the forgotten events states exactly the remaining statements. */
  lemma {:induction false} LedgerAfterForget(extract: Extractor, events: seq<Event>, gone: set<nat>)
    ensures Statements(extract, KeepEvents(events, gone)) == Remaining(Statements(extract, events), gone)
  {
    if events != [] {
      var n, e := |events| - 1, events[|events| - 1];
      LedgerAfterForget(extract, events[..n], gone);
      var said := if e.isTurn && e.userText != "" then WritesOf(extract(e.userText), e.id) else [];
      RemainingConcat(Statements(extract, events[..n]), said, gone);
      RemainingOfTurn(extract(e.userText), e.id, gone);
      var kept := KeepEvents(events[..n], gone);
      if e.id in gone {
        assert KeepEvents(events, gone) == kept;
      } else {
        assert KeepEvents(events, gone) == kept + [e] && (kept + [e])[..|kept|] == kept;
      }
    }
  }

  lemma {:induction false} RebuildAfterForgetIff(extract: Extractor, events: seq<Event>, gone: set<nat>,
                                                 live: nat -> Stamp, rebuilt: nat -> Stamp)
    ensures var ws := Statements(extract, events);
            OpenMap(Keep(Store(ws, live), FactRefs, gone))
              == OpenMap(Store(Statements(extract, KeepEvents(events, gone)), rebuilt))
            <==> NothingReopens(ws, gone)
  {
    LedgerAfterForget(extract, events, gone);
    ForgetThenRebuildIff(Statements(extract, events), live, rebuilt, gone);
  }

  /** Forgetting the event that changed a name leaves no name, until a rebuild brings the old one back. */
  lemma ForgottenChangeReopens(live: nat -> Stamp, rebuilt: nat -> Stamp)
    ensures var extract: Extractor := (text: string) => [("name", text)];
            var events := [Event(1, true, true, 0, "Ann"), Event(2, true, true, 1, "Bea")];
            && "name" !in OpenMap(Keep(Store(Statements(extract, events), live), FactRefs, {2}))
            && "name" in OpenMap(Store(Statements(extract, KeepEvents(events, {2})), rebuilt))
  {
    var extract: Extractor := (text: string) => [("name", text)];
    var events := [Event(1, true, true, 0, "Ann"), Event(2, true, true, 1, "Bea")];
    var ws := [Write("name", "Ann", 1), Write("name", "Bea", 2)];
    OneStatement(extract, events[0], "name", "Ann");
    OneStatement(extract, events[1], "name", "Bea");
    assert events[..1] == [events[0]] && [events[0]][..0] == [] && Statements(extract, events) == ws;
    assert ws[..1] == [ws[0]] && [ws[0]][..0] == [];
    StillOpen(ws, live, {2}, "name");
    LedgerAfterForget(extract, events, {2});
    assert Remaining([ws[0]], {2}) == [ws[0]] && Remaining(ws, {2}) == [ws[0]];
    StoredIsLast([ws[0]], rebuilt);
  }

  predicate Agrees(a: map<string, (string, seq<nat>)>, b: map<string, (string, seq<nat>)>, key: string) {
    (key in a <==> key in b) && (key in a && key in b ==> a[key] == b[key])
  }

  lemma MapsAgree(a: map<string, (string, seq<nat>)>, b: map<string, (string, seq<nat>)>)
    requires forall key :: Agrees(a, b, key)
    ensures a == b
  {
    forall key ensures key in a <==> key in b { assert Agrees(a, b, key); }
    forall key | key in a ensures a[key] == b[key] { assert Agrees(a, b, key); }
  }

  // ── A rebuilt memory is consistent ──────────────────────────────────

  function TurnOf(e: Event): Episodes.Turn { Episodes.Turn(e.id, e.userText, Some(e.occurredAt)) }

  function TurnsOf(events: seq<Event>): seq<Episodes.Turn> {
    if events == [] then [] else TurnsOf(events[..|events| - 1]) + [TurnOf(events[|events| - 1])]
  }

  function TurnIds(run: seq<Episodes.Turn>): seq<nat> {
    if run == [] then [] else TurnIds(run[..|run| - 1]) + [run[|run| - 1].id]
  }

  function EpisodeRows(runs: seq<seq<Episodes.Turn>>, id: nat -> nat): seq<Derived> {
    if runs == [] then []
    else EpisodeRows(runs[..|runs| - 1], id) + [Derived(id(|runs| - 1), TurnIds(runs[|runs| - 1]))]
  }

  /**
   The derived tables of a successful rebuild; `ordered` are the completed turns by time, reflections are not
   checked.
   */
  function Rebuilt(extract: Extractor, words: string -> set<string>, events: seq<Event>, ordered: seq<Event>,
                   stamp: nat -> Stamp, id: nat -> nat, reflections: seq<Derived>): Tables
  {
    Tables(events, Store(Statements(extract, events), stamp),
           EpisodeRows(Episodes.LongRuns(Episodes.Runs(words, TurnsOf(ordered))), id), reflections)
  }

  lemma {:induction false} StoredAnchored(ws: seq<Write>, stamp: nat -> Stamp, known: set<nat>)
    requires forall w | w in ws :: w.source in known
    ensures Anchored(Store(ws, stamp), FactRefs, known)
  {
    if ws != [] {
      var n, w := |ws| - 1, ws[|ws| - 1];
      StoredAnchored(ws[..n], stamp, known);
      var before := Store(ws[..n], stamp);
      forall f, e | f in Store(ws, stamp) && e in FactRefs(f) ensures e in known {
        if f in CloseOpen(before, w.key, stamp(n).now) {
          ClosedMembers(before, w.key, stamp(n).now, f);
          assert e in FactRefs(f.(to := None));
        } else {
          assert f.sources == [w.source] && w in ws;
        }
      }
    }
  }

  lemma {:induction false} TurnIdMembers(run: seq<Episodes.Turn>)
    ensures forall e | e in TurnIds(run) :: exists t :: t in run && t.id == e
  {
    if run != [] {
      TurnIdMembers(run[..|run| - 1]);
      assert run == run[..|run| - 1] + [run[|run| - 1]];
      assert run[|run| - 1] in run;
    }
  }

  lemma {:induction false} TurnsOfMembers(events: seq<Event>)
    ensures forall t | t in TurnsOf(events) :: exists e :: e in events && e.id == t.id
  {
    if events != [] {
      TurnsOfMembers(events[..|events| - 1]);
      assert events == events[..|events| - 1] + [events[|events| - 1]];
      assert events[|events| - 1] in events;
    }
  }

  lemma {:induction false} FlattenMember(runs: seq<seq<Episodes.Turn>>, run: seq<Episodes.Turn>, t: Episodes.Turn)
    requires run in runs && t in run
    ensures t in Flatten(runs)
  {
    var n := |runs| - 1;
    assert runs == runs[..n] + [runs[n]];
    if run in runs[..n] { FlattenMember(runs[..n], run, t); }
  }

  ghost predicate RowOfRun(runs: seq<seq<Episodes.Turn>>, r: Derived) {
    exists run :: run in runs && r.refs == TurnIds(run)
  }

  lemma {:induction false} EpisodeRowMembers(runs: seq<seq<Episodes.Turn>>, id: nat -> nat, r: Derived)
    requires r in EpisodeRows(runs, id)
    ensures RowOfRun(runs, r)
  {
    var n := |runs| - 1;
    if r == Derived(id(n), TurnIds(runs[n])) {
      assert runs[n] in runs;
    } else {
      EpisodeRowMembers(runs[..n], id, r);
      var run :| run in runs[..n] && r.refs == TurnIds(run);
      assert run in runs;
    }
  }

  lemma {:induction false} EpisodesAnchored(words: string -> set<string>, ordered: seq<Event>, id: nat -> nat,
                                            known: set<nat>)
    requires forall e | e in ordered :: e.id in known
    ensures Anchored(EpisodeRows(Episodes.LongRuns(Episodes.Runs(words, TurnsOf(ordered))), id), DerivedRefs, known)
  {
    var turns := TurnsOf(ordered);
    var runs := Episodes.Runs(words, turns);
    Episodes.RunsPartition(words, turns);
    Episodes.EpisodesAreRuns(runs);
    TurnsOfMembers(ordered);
    forall r, e | r in EpisodeRows(Episodes.LongRuns(runs), id) && e in DerivedRefs(r) ensures e in known {
      EpisodeRowMembers(Episodes.LongRuns(runs), id, r);
      var run :| run in Episodes.LongRuns(runs) && r.refs == TurnIds(run);
      TurnIdMembers(run);
      var t :| t in run && t.id == e;
      FlattenMember(runs, run, t);
    }
  }

  /** After a successful rebuild the consistency check finds no error. */
  lemma RebuiltIsConsistent(extract: Extractor, words: string -> set<string>, events: seq<Event>, ordered: seq<Event>,
                            stamp: nat -> Stamp, id: nat -> nat, reflections: seq<Derived>)
    requires forall e | e in ordered :: e in events
    ensures var t := Rebuilt(extract, words, events, ordered, stamp, id, reflections);
            && Consistent(t) && OneOpen(t.facts)
            && Dangling(t.facts, FactRefs, EventIds(events)) + Dangling(t.episodes, DerivedRefs, EventIds(events)) == 0
  {
    var ws := Statements(extract, events);
    StatementSources(extract, events);
    StoredAnchored(ws, stamp, EventIds(events));
    StoredOneOpen(ws, stamp);
    EpisodesAnchored(words, ordered, id, EventIds(events));
    var t := Rebuilt(extract, words, events, ordered, stamp, id, reflections);
    DanglingNone(t.facts, FactRefs, EventIds(events));
    DanglingNone(t.episodes, DerivedRefs, EventIds(events));
  }
}
