/**
 Segmenting turns into episodes. Word extraction is an unknown function of the text; times are in
 microseconds, the resolution of the source's clock.
 */
module Episodes {
  import opened Std

  datatype Turn = Turn(id: nat, text: string, at: Option<int>)

  const MAX_GAP: int := 300_000_000
  const MIN_TURNS: nat := 3

  function Keywords(words: string -> set<string>, text: string): set<string> {
    if text == "" then {} else words(text)
  }

  /** Jaccard similarity below 0.3; with an empty side the similarity is zero. */
  predicate Shifted(a: set<string>, b: set<string>) {
    a == {} || b == {} || 10 * |a * b| < 3 * |a + b|
  }

  // ── Runs of turns ───────────────────────────────────────────────────

  function LastTime(run: seq<Turn>): Option<int> {
    if run == [] then None
    else if run[|run| - 1].at.Some? then run[|run| - 1].at
    else LastTime(run[..|run| - 1])
  }

  function Topic(words: string -> set<string>, run: seq<Turn>): set<string> {
    if run == [] then {} else Topic(words, run[..|run| - 1]) + Keywords(words, run[|run| - 1].text)
  }

  predicate Gap(run: seq<Turn>, t: Turn) {
    LastTime(run).Some? && t.at.Some? && t.at.value - LastTime(run).value > MAX_GAP
  }

  /** A long enough run ends where the next turn shares too few of its words. */
  predicate TopicEnds(words: string -> set<string>, run: seq<Turn>, t: Turn) {
    |run| >= MIN_TURNS && Topic(words, run) != {} && t.text != ""
    && Shifted(Topic(words, run), Keywords(words, t.text))
  }

  predicate Boundary(words: string -> set<string>, run: seq<Turn>, t: Turn) {
    Gap(run, t) || TopicEnds(words, run, t)
  }

  /** The runs that are already over, and the one that may still grow. */
  function Over(runs: seq<seq<Turn>>): seq<seq<Turn>> { if runs == [] then [] else runs[..|runs| - 1] }

  function Open(runs: seq<seq<Turn>>): seq<Turn> { if runs == [] then [] else runs[|runs| - 1] }

  function AddTurn(words: string -> set<string>, runs: seq<seq<Turn>>, t: Turn): seq<seq<Turn>> {
    if runs == [] || Boundary(words, Open(runs), t) then runs + [[t]] else Over(runs) + [Open(runs) + [t]]
  }

  /** The turns cut at every boundary. */
  function Runs(words: string -> set<string>, turns: seq<Turn>): seq<seq<Turn>> {
    if turns == [] then [] else AddTurn(words, Runs(words, turns[..|turns| - 1]), turns[|turns| - 1])
  }

  /** The runs with enough turns. */
  function LongRuns(runs: seq<seq<Turn>>): seq<seq<Turn>> {
    if runs == [] then [] else LongRuns(runs[..|runs| - 1]) + IfLong(runs[|runs| - 1])
  }

  function IfLong(run: seq<Turn>): seq<seq<Turn>> { if |run| >= MIN_TURNS then [run] else [] }

  // ── The segmenter ───────────────────────────────────────────────────

  datatype Candidate = Candidate(turns: seq<Turn>, keywords: set<string>, first: Option<int>, last: Option<int>)

  const NoCandidate := Candidate([], {}, None, None)

  predicate Summarizes(words: string -> set<string>, c: Candidate, run: seq<Turn>) {
    && c.turns == run && c.keywords == Topic(words, run)
    && c.last == LastTime(run) && (c.first.Some? <==> c.last.Some?)
  }

  /** Keeps the candidates that have enough turns. */
  function Kept(candidates: seq<Candidate>): seq<seq<Turn>> {
    if candidates == [] then []
    else Kept(candidates[..|candidates| - 1]) + IfLong(candidates[|candidates| - 1].turns)
  }

  lemma {:induction false} LongOfOver(runs: seq<seq<Turn>>)
    requires runs != []
    ensures LongRuns(runs) == LongRuns(Over(runs)) + IfLong(Open(runs))
  {
  }

  lemma NextRun(words: string -> set<string>, turns: seq<Turn>, i: nat)
    requires i < |turns|
    ensures var runs, next := Runs(words, turns[..i]), Runs(words, turns[..i + 1]);
            && next == AddTurn(words, runs, turns[i])
            && if runs != [] && Boundary(words, Open(runs), turns[i]) then Over(next) == runs
                 && Open(next) == [turns[i]]
               else Over(next) == Over(runs) && Open(next) == Open(runs) + [turns[i]]
  {
    assert turns[..i + 1][..i] == turns[..i];
  }

  /** The two boundary tests: a candidate that is cut off is kept only when it is long enough. */
  method Cut(words: string -> set<string>, candidates: seq<Candidate>, current: Candidate, turn: Turn,
             ghost run: seq<Turn>)
    returns (closed: seq<Candidate>, open: Candidate)
    requires Summarizes(words, current, run)
    ensures Kept(closed) == Kept(candidates) + (if Boundary(words, run, turn) then IfLong(run) else [])
    ensures Summarizes(words, open, if Boundary(words, run, turn) then [] else run)
  {
    closed, open := candidates, current;
    KeptMore(candidates, current);
    if open.first.Some? && turn.at.Some? {
      var gap := if open.last.Some? then turn.at.value - open.last.value else 0;
      if gap > MAX_GAP && |open.turns| >= MIN_TURNS {
        closed := closed + [open];
        open := NoCandidate;
      } else if gap > MAX_GAP {
        open := NoCandidate;
      }
    }
    if open.keywords != {} && turn.text != "" {
      var keywords := Keywords(words, turn.text);
      if Shifted(open.keywords, keywords) && |open.turns| >= MIN_TURNS {
        closed := closed + [open];
        open := NoCandidate;
      }
    }
  }

  /** One loop over the turns; a short candidate cut off by a gap is thrown away. */
  method Segment(words: string -> set<string>, turns: seq<Turn>) returns (episodes: seq<seq<Turn>>)
    ensures episodes == LongRuns(Runs(words, turns))
  {
    var candidates: seq<Candidate> := [];
    var current := NoCandidate;
    for i := 0 to |turns|
      invariant Summarizes(words, current, Open(Runs(words, turns[..i])))
      invariant Kept(candidates) == LongRuns(Over(Runs(words, turns[..i])))
    {
      var turn := turns[i];
      ghost var runs := Runs(words, turns[..i]);
      NextRun(words, turns, i);
      if runs != [] { LongOfOver(runs); }
      candidates, current := Cut(words, candidates, current, turn, Open(runs));
      Extend(words, current.turns, turn);
      current := Candidate(
        current.turns + [turn], current.keywords + Keywords(words, turn.text),
        if turn.at.Some? && current.first.None? then turn.at else current.first,
        if turn.at.Some? then turn.at else current.last);
    }
    assert turns[..|turns|] == turns;
    KeptMore(candidates, current);
    if current.turns != [] {
      candidates := candidates + [current];
      LongOfOver(Runs(words, turns));
    }
    episodes := Kept(candidates);
  }

  lemma {:induction false} Extend(words: string -> set<string>, run: seq<Turn>, t: Turn)
    ensures LastTime(run + [t]) == if t.at.Some? then t.at else LastTime(run)
    ensures Topic(words, run + [t]) == Topic(words, run) + Keywords(words, t.text)
  {
    assert (run + [t])[..|run|] == run;
  }

  lemma {:induction false} KeptMore(candidates: seq<Candidate>, c: Candidate)
    ensures Kept(candidates + [c]) == Kept(candidates) + IfLong(c.turns)
  {
    assert (candidates + [c])[..|candidates|] == candidates;
  }

  // ── What the runs are ───────────────────────────────────────────────

  predicate NonEmpty(runs: seq<seq<Turn>>) { forall r | r in runs :: r != [] }

  lemma {:induction false} GrownRun(done: seq<seq<Turn>>, run: seq<Turn>, t: Turn)
    ensures Flatten(done + [run + [t]]) == Flatten(done + [run]) + [t]
  {
    FlattenMore(done, run + [t]);
    FlattenMore(done, run);
    assert Flatten(done) + (run + [t]) == (Flatten(done) + run) + [t];
  }

  lemma {:induction false} AddTurnKeeps(words: string -> set<string>, runs: seq<seq<Turn>>, t: Turn)
    ensures Flatten(AddTurn(words, runs, t)) == Flatten(runs) + [t]
    ensures NonEmpty(runs) ==> NonEmpty(AddTurn(words, runs, t))
  {
    if runs == [] || Boundary(words, Open(runs), t) {
      FlattenMore(runs, [t]);
    } else {
      GrownRun(Over(runs), Open(runs), t);
      assert Over(runs) + [Open(runs)] == runs;
    }
    if NonEmpty(runs) {
      forall r | r in AddTurn(words, runs, t) ensures r != [] {
        assert r in runs || r == [t] || r == Open(runs) + [t];
      }
    }
  }

  /** The runs cut the turns without losing, repeating or reordering any. */
  lemma {:induction false} RunsPartition(words: string -> set<string>, turns: seq<Turn>)
    ensures Flatten(Runs(words, turns)) == turns && NonEmpty(Runs(words, turns))
  {
    if turns != [] {
      var n := |turns| - 1;
      RunsPartition(words, turns[..n]);
      AddTurnKeeps(words, Runs(words, turns[..n]), turns[n]);
      assert turns == turns[..n] + [turns[n]];
    }
  }

  /** No two neighbouring timestamped turns of the run are more than five minutes apart. */
  predicate Tight(run: seq<Turn>) {
    run == [] || (Tight(run[..|run| - 1]) && !Gap(run[..|run| - 1], run[|run| - 1]))
  }

  /** A run ends only before a gap, or, once it is long enough, before a change of topic. */
  predicate Justified(words: string -> set<string>, runs: seq<seq<Turn>>) {
    |runs| <= 1 ||
    (Justified(words, runs[..|runs| - 1])
     && runs[|runs| - 1] != [] && Boundary(words, runs[|runs| - 2], runs[|runs| - 1][0]))
  }

  lemma {:induction false} RunsAreTight(words: string -> set<string>, turns: seq<Turn>)
    ensures forall r | r in Runs(words, turns) :: Tight(r)
  {
    if turns != [] {
      var n := |turns| - 1;
      RunsAreTight(words, turns[..n]);
      var runs := Runs(words, turns[..n]);
      var t := turns[n];
      assert Tight([t]) by { assert [t][..0] == []; }
      if runs != [] {
        var run := Open(runs);
        assert (run + [t])[..|run|] == run;
        forall r | r in Runs(words, turns) ensures Tight(r) {
          if r != [t] && r != run + [t] { assert r in runs; }
        }
      }
    }
  }

  lemma {:induction false} JustifiedMore(words: string -> set<string>, p: seq<seq<Turn>>, r: seq<Turn>)
    requires Justified(words, p) && r != [] && (p != [] ==> Boundary(words, Open(p), r[0]))
    ensures Justified(words, p + [r])
  {
    assert (p + [r])[..|p|] == p;
  }

  lemma {:induction false} OverJustified(words: string -> set<string>, runs: seq<seq<Turn>>)
    requires runs != [] && Justified(words, runs)
    ensures Justified(words, Over(runs))
    ensures Over(runs) != [] ==> Open(runs) != [] && Boundary(words, Open(Over(runs)), Open(runs)[0])
  {
  }

  lemma {:induction false} AddTurnJustified(words: string -> set<string>, runs: seq<seq<Turn>>, t: Turn)
    requires Justified(words, runs) && NonEmpty(runs)
    ensures Justified(words, AddTurn(words, runs, t))
  {
    if runs == [] || Boundary(words, Open(runs), t) {
      JustifiedMore(words, runs, [t]);
    } else {
      OverJustified(words, runs);
      assert Open(runs) in runs && (Open(runs) + [t])[0] == Open(runs)[0];
      JustifiedMore(words, Over(runs), Open(runs) + [t]);
    }
  }

  lemma {:induction false} RunsAreJustified(words: string -> set<string>, turns: seq<Turn>)
    ensures Justified(words, Runs(words, turns))
  {
    if turns != [] {
      RunsAreJustified(words, turns[..|turns| - 1]);
      RunsPartition(words, turns[..|turns| - 1]);
      AddTurnJustified(words, Runs(words, turns[..|turns| - 1]), turns[|turns| - 1]);
    }
  }

  /** An episode: at least three turns, unbroken in time, standing together in the input. */
  lemma {:induction false} EpisodesAreRuns(runs: seq<seq<Turn>>)
    ensures forall e :: e in LongRuns(runs) <==> e in runs && |e| >= MIN_TURNS
  {
    if runs != [] {
      EpisodesAreRuns(runs[..|runs| - 1]);
      assert runs == runs[..|runs| - 1] + [runs[|runs| - 1]];
    }
  }

  predicate StandsAt(turns: seq<Turn>, e: seq<Turn>, start: nat) {
    start + |e| <= |turns| && turns[start..start + |e|] == e
  }

  /** Where the k-th run begins in the input. */
  function Start(runs: seq<seq<Turn>>, k: nat): nat
    requires k <= |runs|
  {
    |Flatten(runs[..k])|
  }

  /** Every run is a stretch of the input, and a later one begins where or after the earlier one ends. */
  lemma {:induction false} RunsAreDisjoint(words: string -> set<string>, turns: seq<Turn>, j: nat, k: nat)
    requires j < k < |Runs(words, turns)|
    ensures var runs := Runs(words, turns);
            && StandsAt(turns, runs[j], Start(runs, j)) && StandsAt(turns, runs[k], Start(runs, k))
            && Start(runs, j) + |runs[j]| <= Start(runs, k)
  {
    var runs := Runs(words, turns);
    RunsPartition(words, turns);
    RunStands(runs, j);
    RunStands(runs, k);
    StartsGrow(runs, j + 1, k);
  }

  lemma {:induction false} RunStands(runs: seq<seq<Turn>>, k: nat)
    requires k < |runs|
    ensures StandsAt(Flatten(runs), runs[k], Start(runs, k)) && Start(runs, k + 1) == Start(runs, k) + |runs[k]|
  {
    assert runs[..k + 1][..k] == runs[..k];
    assert runs == runs[..k + 1] + runs[k + 1..];
    FlattenConcat(runs[..k + 1], runs[k + 1..]);
  }

  lemma {:induction false} StartsGrow(runs: seq<seq<Turn>>, j: nat, k: nat)
    requires j <= k <= |runs|
    ensures Start(runs, j) <= Start(runs, k)
    decreases k - j
  {
    if j < k {
      RunStands(runs, j);
      StartsGrow(runs, j + 1, k);
    }
  }

  /** Runs after a boundary do not depend on what was before it. */
  lemma {:induction false} RunsRestart(words: string -> set<string>, a: seq<Turn>, b: seq<Turn>)
    requires a != [] && b != [] && Boundary(words, Open(Runs(words, a)), b[0])
    ensures Runs(words, a + b) == Runs(words, a) + Runs(words, b) && Runs(words, b) != []
  {
    var n := |b| - 1;
    assert (a + b)[..|a + b| - 1] == a + b[..n];
    if n == 0 {
      assert a + b[..0] == a && Runs(words, b[..0]) == [];
    } else {
      RunsRestart(words, a, b[..n]);
      Append(words, Runs(words, a), Runs(words, b[..n]), b[n]);
    }
  }

  lemma Append(words: string -> set<string>, p: seq<seq<Turn>>, q: seq<seq<Turn>>, t: Turn)
    requires q != []
    ensures AddTurn(words, p + q, t) == p + AddTurn(words, q, t)
  {
    assert Open(p + q) == Open(q) && Over(p + q) == p + Over(q);
  }

  lemma {:induction false} LongConcat(p: seq<seq<Turn>>, q: seq<seq<Turn>>)
    ensures LongRuns(p + q) == LongRuns(p) + LongRuns(q)
  {
    if q == [] {
      assert p + q == p;
    } else {
      assert (p + q)[..|p + q| - 1] == p + q[..|q| - 1];
      LongConcat(p, q[..|q| - 1]);
    }
  }

  /**
   A short run before a gap is lost although the turns go on: no episode contains it, it is not merged
   with what follows. (A comment in the source says it is.)
   */
  lemma {:induction false} ShortRunIsLost(words: string -> set<string>, a: seq<Turn>, b: seq<Turn>)
    requires a != [] && b != [] && Gap(Open(Runs(words, a)), b[0]) && |Open(Runs(words, a))| < MIN_TURNS
    ensures LongRuns(Runs(words, a + b)) == LongRuns(Over(Runs(words, a))) + LongRuns(Runs(words, b))
  {
    RunsRestart(words, a, b);
    LongWithShortEnd(Runs(words, a), Runs(words, b));
  }

  lemma {:induction false} LongWithShortEnd(p: seq<seq<Turn>>, q: seq<seq<Turn>>)
    requires |Open(p)| < MIN_TURNS
    ensures LongRuns(p + q) == LongRuns(Over(p)) + LongRuns(q)
  {
    LongConcat(p, q);
    if p != [] { LongOfOver(p); }
  }
}
