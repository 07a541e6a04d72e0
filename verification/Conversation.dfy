/** The recent-conversation window: incremental trimming against a whole-history specification. */
module Conversation {
  import opened Std

  datatype Entry = Entry(turnId: string, userText: string, companionText: string)

  function Tokens(e: Entry): nat {
    |e.userText| / 3 + |e.companionText| / 3
  }

  function Total(turns: seq<Entry>): nat {
    if turns == [] then 0 else Tokens(turns[0]) + Total(turns[1..])
  }

  lemma {:induction false} TotalConcat(a: seq<Entry>, b: seq<Entry>)
    ensures Total(a + b) == Total(a) + Total(b)
  {
    if a == [] {
      assert a + b == b;
    } else {
      assert (a + b)[1..] == a[1..] + b;
      TotalConcat(a[1..], b);
    }
  }

  /** The slice `turns[-m:]` for any integer m. */
  function LastSlice(turns: seq<Entry>, m: int): seq<Entry> {
    if m > 0 then turns[Max(0, |turns| - m)..]
    else turns[Min(|turns|, -m)..]
  }

  /** The slice `turns[:n]` for n >= 0. */
  function FirstSlice(turns: seq<Entry>, n: nat): seq<Entry> {
    turns[..Min(|turns|, n)]
  }

  class ConversationHistory {
    const maxTurns: int
    const maxTokens: int
    var turns: seq<Entry>
    var tokens: int

    constructor (maxTurns: int, maxTokens: int)
      ensures this.maxTurns == maxTurns && this.maxTokens == maxTokens
      ensures turns == [] && tokens == 0
    {
      this.maxTurns, this.maxTokens := maxTurns, maxTokens;
      turns, tokens := [], 0;
    }

    /** Appends a turn and trims. */
    method AddTurn(e: Entry)
      modifies this
      ensures Window(turns, tokens) == Trimmed(Window(old(turns) + [e], old(tokens) + Tokens(e)), maxTurns, maxTokens)
    {
      turns := turns + [e];
      tokens := tokens + Tokens(e);
      Trim();
    }

    method Trim()
      modifies this
      ensures Window(turns, tokens) == Trimmed(Window(old(turns), old(tokens)), maxTurns, maxTokens)
    {
      ghost var d := Dropped(Window(turns, tokens), maxTokens);
      while tokens > maxTokens && |turns| > 1
        invariant Dropped(Window(turns, tokens), maxTokens) == d
        decreases |turns|
      {
        tokens := tokens - Tokens(turns[0]);
        turns := turns[1..];
      }
      assert Window(turns, tokens) == d;
      if |turns| > maxTurns {
        tokens := tokens - Total(FirstSlice(turns, |turns| - maxTurns));
        turns := LastSlice(turns, maxTurns);
      }
    }
  }

  datatype Window = Window(turns: seq<Entry>, tokens: int)

  function Dropped(w: Window, maxTokens: int): Window
    decreases |w.turns|
  {
    if w.tokens > maxTokens && |w.turns| > 1
    then Dropped(Window(w.turns[1..], w.tokens - Tokens(w.turns[0])), maxTokens) else w
  }

  function Cut(d: Window, maxTurns: int): Window {
    if |d.turns| > maxTurns then
      Window(LastSlice(d.turns, maxTurns), d.tokens - Total(FirstSlice(d.turns, |d.turns| - maxTurns)))
    else d
  }

  function Trimmed(w: Window, maxTurns: int, maxTokens: int): Window {
    Cut(Dropped(w, maxTokens), maxTurns)
  }

  /** The window after adding all of `all`, one turn at a time. */
  function AfterAll(all: seq<Entry>, maxTurns: int, maxTokens: int): Window {
    if all == [] then Window([], 0)
    else
      var w := AfterAll(all[..|all| - 1], maxTurns, maxTokens);
      var e := all[|all| - 1];
      Trimmed(Window(w.turns + [e], w.tokens + Tokens(e)), maxTurns, maxTokens)
  }

  // ── Specification: the longest admissible suffix ────────────────────

  predicate Admissible(s: seq<Entry>, maxTurns: int, maxTokens: int) {
    |s| <= maxTurns && (Total(s) <= maxTokens || |s| <= 1)
  }

  /** The last k turns. */
  function Last(s: seq<Entry>, k: nat): (r: seq<Entry>)
    requires k <= |s|
    ensures |r| == k
  {
    s[|s| - k..]
  }

  ghost predicate IsLongestAdmissibleSuffix(s: seq<Entry>, all: seq<Entry>, maxTurns: int, maxTokens: int) {
    && |s| <= |all| && s == Last(all, |s|)
    && Admissible(s, maxTurns, maxTokens)
    && (forall k :: |s| < k <= |all| ==> !Admissible(Last(all, k), maxTurns, maxTokens))
  }

  /** The longest suffix within the token budget, or one turn. */
  ghost predicate IsLongestBudgeted(d: Window, turns: seq<Entry>, maxTokens: int) {
    && |d.turns| <= |turns| && d.turns == Last(turns, |d.turns|) && d.tokens == Total(d.turns)
    && (d.tokens <= maxTokens || |d.turns| <= 1)
    && (forall k :: |d.turns| < k <= |turns| ==> Total(Last(turns, k)) > maxTokens && k > 1)
  }

  lemma {:induction false} DroppedIsLongest(turns: seq<Entry>, maxTokens: int)
    ensures IsLongestBudgeted(Dropped(Window(turns, Total(turns)), maxTokens), turns, maxTokens)
    decreases |turns|
  {
    if Total(turns) > maxTokens && |turns| > 1 {
      var rest := turns[1..];
      DroppedIsLongest(rest, maxTokens);
      var d := Dropped(Window(rest, Total(rest)), maxTokens);
      assert Last(turns, |turns|) == turns;
      forall k | |d.turns| <= k <= |turns|
        ensures k > |d.turns| ==> Total(Last(turns, k)) > maxTokens && k > 1
        ensures k < |turns| ==> Last(turns, k) == Last(rest, k)
      {
        if k < |turns| { assert Last(turns, k) == Last(rest, k); }
      }
    }
  }

  /** The window is the longest admissible suffix and its running total is exact. */
  ghost predicate Exact(w: Window, all: seq<Entry>, maxTurns: int, maxTokens: int) {
    IsLongestAdmissibleSuffix(w.turns, all, maxTurns, maxTokens) && w.tokens == Total(w.turns)
  }

  lemma {:induction false} TrimIsLongest(t: seq<Entry>, maxTurns: int, maxTokens: int)
    requires maxTurns >= 1
    ensures Exact(Trimmed(Window(t, Total(t)), maxTurns, maxTokens), t, maxTurns, maxTokens)
  {
    DroppedIsLongest(t, maxTokens);
    CutKeepsLongest(t, Dropped(Window(t, Total(t)), maxTokens), maxTurns, maxTokens);
  }

  lemma CutKeepsLongest(t: seq<Entry>, d: Window, maxTurns: int, maxTokens: int)
    requires maxTurns >= 1 && IsLongestBudgeted(d, t, maxTokens)
    ensures Exact(Cut(d, maxTurns), t, maxTurns, maxTokens)
  {
    if |d.turns| > maxTurns { CutIsLongest(t, d, maxTurns, maxTokens); }
  }

  lemma CutIsLongest(t: seq<Entry>, d: Window, maxTurns: int, maxTokens: int)
    requires maxTurns >= 1 && IsLongestBudgeted(d, t, maxTokens) && |d.turns| > maxTurns
    ensures IsLongestAdmissibleSuffix(LastSlice(d.turns, maxTurns), t, maxTurns, maxTokens)
    ensures d.tokens - Total(FirstSlice(d.turns, |d.turns| - maxTurns)) == Total(LastSlice(d.turns, maxTurns))
  {
    var cut := |d.turns| - maxTurns;
    TotalConcat(d.turns[..cut], d.turns[cut..]);
    assert d.turns[..cut] + d.turns[cut..] == d.turns;
    assert LastSlice(d.turns, maxTurns) == d.turns[cut..] == Last(t, maxTurns);
  }

  /** Suffixes that reach beyond the window kept so far stay inadmissible when a turn is added. */
  lemma LongerStaysInadmissible(all: seq<Entry>, s: seq<Entry>, e: Entry, maxTurns: int, maxTokens: int, k: nat)
    requires maxTurns >= 1 && IsLongestAdmissibleSuffix(s, all, maxTurns, maxTokens)
    requires |s| + 1 < k <= |all| + 1
    ensures !Admissible(Last(all + [e], k), maxTurns, maxTokens)
  {
    assert !Admissible(Last(all, k - 1), maxTurns, maxTokens);
    assert Last(all + [e], k) == Last(all, k - 1) + [e];
    TotalConcat(Last(all, k - 1), [e]);
  }

  lemma AddKeepsLongest(all: seq<Entry>, s: seq<Entry>, e: Entry, w: seq<Entry>, maxTurns: int, maxTokens: int)
    requires maxTurns >= 1 && IsLongestAdmissibleSuffix(s, all, maxTurns, maxTokens)
    requires IsLongestAdmissibleSuffix(w, s + [e], maxTurns, maxTokens)
    ensures IsLongestAdmissibleSuffix(w, all + [e], maxTurns, maxTokens)
  {
    assert s + [e] == Last(all + [e], |s| + 1);
    assert forall k | 0 <= k <= |s| + 1 :: Last(all + [e], k) == Last(s + [e], k);
    forall k | |w| < k <= |all| + 1 ensures !Admissible(Last(all + [e], k), maxTurns, maxTokens) {
      if k > |s| + 1 { LongerStaysInadmissible(all, s, e, maxTurns, maxTokens, k); }
    }
  }

  lemma AddKeepsExact(all: seq<Entry>, w: Window, e: Entry, maxTurns: int, maxTokens: int)
    requires maxTurns >= 1 && Exact(w, all, maxTurns, maxTokens)
    ensures Exact(Trimmed(Window(w.turns + [e], w.tokens + Tokens(e)), maxTurns, maxTokens), all + [e], maxTurns,
                  maxTokens)
  {
    TotalConcat(w.turns, [e]);
    assert Total([e]) == Tokens(e) + Total([e][1..]);
    TrimIsLongest(w.turns + [e], maxTurns, maxTokens);
    var t := Trimmed(Window(w.turns + [e], w.tokens + Tokens(e)), maxTurns, maxTokens);
    AddKeepsLongest(all, w.turns, e, t.turns, maxTurns, maxTokens);
  }

  /**
   After any sequence of additions the window is exactly the longest suffix of everything ever
   added that respects both limits, and the running token total is exact.
   */
  lemma {:induction false} WindowIsLongestSuffix(all: seq<Entry>, maxTurns: int, maxTokens: int)
    requires maxTurns >= 1
    ensures Exact(AfterAll(all, maxTurns, maxTokens), all, maxTurns, maxTokens)
  {
    if all != [] {
      var init, e := all[..|all| - 1], all[|all| - 1];
      WindowIsLongestSuffix(init, maxTurns, maxTokens);
      AddKeepsExact(init, AfterAll(init, maxTurns, maxTokens), e, maxTurns, maxTokens);
      assert init + [e] == all;
    }
  }

  /**
   The running total is exact for every history exactly when the turn limit is not zero: with a
   limit of zero the slice keeps the whole list while its tokens are subtracted.
   */
  lemma TotalsExactIffLimitNonzero(maxTurns: int, maxTokens: int)
    ensures maxTurns != 0 <==>
            forall all :: AfterAll(all, maxTurns, maxTokens).tokens == Total(AfterAll(all, maxTurns, maxTokens).turns)
  {
    if maxTurns == 0 {
      ZeroLimitLosesTokens(maxTokens);
    } else {
      forall all ensures AfterAll(all, maxTurns, maxTokens).tokens == Total(AfterAll(all, maxTurns, maxTokens).turns) {
        if maxTurns > 0 { WindowIsLongestSuffix(all, maxTurns, maxTokens); }
        else { NegativeLimitKeepsNothing(all, maxTurns, maxTokens); }
      }
    }
  }

  lemma {:induction false} ZeroLimitLosesTokens(maxTokens: int)
    ensures var e := Entry("t", "abc", ""); AfterAll([e], 0, maxTokens) == Window([e], 0) && Total([e]) == 1
  {
    var e := Entry("t", "abc", "");
    FirstAdd(e, 0, maxTokens);
    assert Total([e]) == Tokens(e) + Total([e][1..]);
    assert FirstSlice([e], 1) == [e] && LastSlice([e], 0) == [e];
  }

  lemma {:induction false} FirstAdd(e: Entry, maxTurns: int, maxTokens: int)
    ensures AfterAll([e], maxTurns, maxTokens) == Cut(Window([e], Tokens(e)), maxTurns)
  {
    assert [e][..0] == [] && [] + [e] == [e];
    assert Dropped(Window([e], Tokens(e)), maxTokens) == Window([e], Tokens(e));
  }

  lemma {:induction false} NegativeLimitKeepsNothing(all: seq<Entry>, maxTurns: int, maxTokens: int)
    requires maxTurns < 0
    ensures AfterAll(all, maxTurns, maxTokens) == Window([], 0)
  {
    if all != [] {
      NegativeLimitKeepsNothing(all[..|all| - 1], maxTurns, maxTokens);
      var e := all[|all| - 1];
      assert [] + [e] == [e] && FirstSlice([e], 1 - maxTurns) == [e] && LastSlice([e], maxTurns) == [];
      assert Total([e]) == Tokens(e) + Total([e][1..]);
    }
  }
}
