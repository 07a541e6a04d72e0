/**
 The rule-based extractor: patterns are tried longest first, each at its first occurrence, and a pattern
 whose place overlaps one already taken is skipped.
 */
module FactSpans {
  import opened Std
  import opened Text

  /** The first separator of the list that occurs late enough ends the context. */
  function CutAt(context: string, separators: string, from: nat): string {
    if separators == "" then context
    else
      var i := FindFrom(context, [separators[0]], from);
      if i > 0 then context[..i + 1] else CutAt(context, separators[1..], from)
  }

  const SEPARATORS: string := "\U{3002}\U{FF01}\U{FF1F}\U{FF0C},!?\U{2026}\n"

  /** Up to five characters before the pattern, thirty after, cut at a sentence end. */
  function Context(text: string, pattern: string, start: nat): string
    requires start + |pattern| <= |text|
  {
    var from := Max(0, start - 5);
    Strip(CutAt(text[from..Min(|text|, start + |pattern| + 30)], SEPARATORS, |pattern| + 5))
  }

  datatype Span = Span(start: nat, stop: nat)

  predicate Overlap(a: Span, b: Span) { a.start < b.stop && a.stop > b.start }

  predicate Clear(s: Span, taken: seq<Span>) { forall t | t in taken :: !Overlap(s, t) }

  datatype Extracted = Extracted(pattern: string, span: Span, value: string)

  function Spans(facts: seq<Extracted>): seq<Span> {
    if facts == [] then [] else Spans(facts[..|facts| - 1]) + [facts[|facts| - 1].span]
  }

  /** What the extractor does with one more pattern. */
  function Try(text: string, facts: seq<Extracted>, pattern: string): seq<Extracted> {
    var i := FindFrom(text, pattern, 0);
    if i < 0 then facts
    else
      var span := Span(i, i + |pattern|);
      if !Clear(span, Spans(facts)) then facts
      else
        var value := Context(text, pattern, i);
        if value == "" then facts else facts + [Extracted(pattern, span, value)]
  }

  function Extracts(text: string, patterns: seq<string>): seq<Extracted> {
    if patterns == [] then [] else Try(text, Extracts(text, patterns[..|patterns| - 1]), patterns[|patterns| - 1])
  }

  method Extract(text: string, patterns: seq<string>) returns (facts: seq<Extracted>)
    ensures facts == Extracts(text, patterns)
  {
    facts := [];
    var taken: seq<Span> := [];
    for i := 0 to |patterns|
      invariant facts == Extracts(text, patterns[..i]) && taken == Spans(facts)
    {
      assert patterns[..i + 1][..i] == patterns[..i];
      var start := FindFrom(text, patterns[i], 0);
      if start >= 0 {
        var span := Span(start, start + |patterns[i]|);
        if Clear(span, taken) {
          var value := Context(text, patterns[i], start);
          if value != "" {
            taken := taken + [span];
            assert (facts + [Extracted(patterns[i], span, value)])[..|facts|] == facts;
            facts := facts + [Extracted(patterns[i], span, value)];
          }
        }
      }
    }
    assert patterns[..|patterns|] == patterns;
  }

  // ── What is extracted ───────────────────────────────────────────────

  predicate Sound(text: string, f: Extracted) {
    && f.span.stop == f.span.start + |f.pattern|
    && f.span.start == FindFrom(text, f.pattern, 0) && OccursAt(text, f.pattern, f.span.start)
    && f.value == Context(text, f.pattern, f.span.start)
  }

  /** No two extracted facts share a character of the text. */
  predicate Apart(facts: seq<Extracted>) {
    facts == [] || (Apart(facts[..|facts| - 1]) && Clear(facts[|facts| - 1].span, Spans(facts[..|facts| - 1])))
  }

  /** One more pattern adds at most one fact, which stands clear of the others. */
  lemma {:induction false} TrySound(text: string, before: seq<Extracted>, pattern: string)
    requires Apart(before)
    ensures Apart(Try(text, before, pattern))
    ensures forall f | f in Try(text, before, pattern) :: f in before || (Sound(text, f) && f.pattern == pattern)
  {
    var after := Try(text, before, pattern);
    if after != before { assert after[..|before|] == before; }
  }

  lemma {:induction false} ExtractsSound(text: string, patterns: seq<string>)
    ensures Apart(Extracts(text, patterns))
    ensures forall f | f in Extracts(text, patterns) :: Sound(text, f) && f.pattern in patterns
  {
    if patterns != [] {
      var n := |patterns| - 1;
      var before := Extracts(text, patterns[..n]);
      ExtractsSound(text, patterns[..n]);
      TrySound(text, before, patterns[n]);
      forall f | f in Extracts(text, patterns) ensures Sound(text, f) && f.pattern in patterns {
        if f in before { assert f.pattern in patterns[..n]; }
      }
    }
  }

  lemma {:induction false} SpanMembers(facts: seq<Extracted>, s: Span)
    ensures s in Spans(facts) <==> exists f :: f in facts && f.span == s
  {
    if facts != [] {
      var n := |facts| - 1;
      SpanMembers(facts[..n], s);
      assert facts == facts[..n] + [facts[n]];
      if facts[n].span == s { assert facts[n] in facts; }
    }
  }

  lemma {:induction false} ApartPair(facts: seq<Extracted>, i: nat, j: nat)
    requires Apart(facts) && i < j < |facts|
    ensures !Overlap(facts[j].span, facts[i].span)
  {
    var n := |facts| - 1;
    if j < n {
      ApartPair(facts[..n], i, j);
    } else {
      SpanMembers(facts[..n], facts[i].span);
      assert facts[..n][i] in facts[..n];
    }
  }

  predicate LongestFirst(patterns: seq<string>) {
    forall i, j | 0 <= i < j < |patterns| :: |patterns[i]| >= |patterns[j]|
  }

  lemma {:induction false} EarlierStay(text: string, patterns: seq<string>, k: nat, f: Extracted)
    requires k <= |patterns| && f in Extracts(text, patterns[..k])
    ensures f in Extracts(text, patterns)
  {
    if k < |patterns| {
      var n := |patterns| - 1;
      assert patterns[..n][..k] == patterns[..k];
      EarlierStay(text, patterns[..n], k, f);
    } else {
      assert patterns[..k] == patterns;
    }
  }

  /** The place of the pattern's first occurrence. */
  function Place(text: string, pattern: string): Span
    requires FindFrom(text, pattern, 0) >= 0
  {
    Span(FindFrom(text, pattern, 0), FindFrom(text, pattern, 0) + |pattern|)
  }

  /** The fact is the pattern's own, or of a pattern at least as long that occupies part of its place. */
  predicate Covers(text: string, f: Extracted, pattern: string)
    requires FindFrom(text, pattern, 0) >= 0
  {
    |f.pattern| >= |pattern| && (f.pattern == pattern || Overlap(Place(text, pattern), f.span))
  }

  lemma OwnFact(text: string, patterns: seq<string>, k: nat) returns (f: Extracted)
    requires k < |patterns| && FindFrom(text, patterns[k], 0) >= 0 && HasInk(patterns[k])
    requires Clear(Place(text, patterns[k]), Spans(Extracts(text, patterns[..k])))
    ensures f in Extracts(text, patterns[..k + 1]) && f.pattern == patterns[k]
  {
    var i := FindFrom(text, patterns[k], 0);
    assert patterns[..k + 1][..k] == patterns[..k];
    ContextIsFull(text, patterns[k], i);
    f := Extracted(patterns[k], Place(text, patterns[k]), Context(text, patterns[k], i));
    assert Extracts(text, patterns[..k + 1])[|Extracts(text, patterns[..k])|] == f;
  }

  lemma OtherFact(text: string, patterns: seq<string>, k: nat) returns (f: Extracted)
    requires k < |patterns| && FindFrom(text, patterns[k], 0) >= 0
    requires !Clear(Place(text, patterns[k]), Spans(Extracts(text, patterns[..k])))
    ensures f in Extracts(text, patterns[..k]) && Overlap(Place(text, patterns[k]), f.span)
  {
    var s :| s in Spans(Extracts(text, patterns[..k])) && Overlap(Place(text, patterns[k]), s);
    SpanMembers(Extracts(text, patterns[..k]), s);
    f :| f in Extracts(text, patterns[..k]) && f.span == s;
  }

  /**
   A pattern that occurs in the text either yields a fact, or an extracted pattern at least as long
   occupies part of its place. (So "dislike" silences the "like" inside it.)
   */
  lemma {:induction false} SkippedOnlyForLonger(text: string, patterns: seq<string>, k: nat)
    requires LongestFirst(patterns) && k < |patterns| && FindFrom(text, patterns[k], 0) >= 0 && HasInk(patterns[k])
    ensures exists f :: f in Extracts(text, patterns) && Covers(text, f, patterns[k])
  {
    if Clear(Place(text, patterns[k]), Spans(Extracts(text, patterns[..k]))) {
      var f := OwnFact(text, patterns, k);
      EarlierStay(text, patterns, k + 1, f);
    } else {
      var f := OtherFact(text, patterns, k);
      ExtractsSound(text, patterns[..k]);
      var j :| 0 <= j < k && patterns[..k][j] == f.pattern;
      EarlierStay(text, patterns, k, f);
    }
  }

  // ── The context is never empty ──────────────────────────────────────

  lemma {:induction false} CutKeepsFront(context: string, separators: string, from: nat)
    requires from <= |context|
    ensures from <= |CutAt(context, separators, from)| <= |context|
    ensures CutAt(context, separators, from)[..from] == context[..from]
  {
    if separators != "" && FindFrom(context, [separators[0]], from) <= 0 {
      CutKeepsFront(context, separators[1..], from);
    }
  }

  /** The context always holds the pattern itself, so a pattern with a visible character always yields a value. */
  lemma ContextIsFull(text: string, pattern: string, start: nat)
    requires OccursAt(text, pattern, start) && HasInk(pattern)
    ensures Context(text, pattern, start) != ""
  {
    var from := Max(0, start - 5);
    var context := text[from..Min(|text|, start + |pattern| + 30)];
    var cut := CutAt(context, SEPARATORS, |pattern| + 5);
    var c :| c in pattern && !IsSpace(c);
    var k :| 0 <= k < |pattern| && pattern[k] == c;
    assert text[start..start + |pattern|][k] == text[start + k];
    var at := start - from + k;
    assert context[at] == c;
    if |pattern| + 5 <= |context| {
      CutKeepsFront(context, SEPARATORS, |pattern| + 5);
      assert cut[at] == cut[..|pattern| + 5][at] && context[..|pattern| + 5][at] == context[at];
    } else {
      NothingLate(context, SEPARATORS, |pattern| + 5);
    }
    assert cut[at] == c;
    StripLeftInk(cut);
    StripRightInk(StripLeft(cut));
  }

  lemma {:induction false} NothingLate(context: string, separators: string, from: nat)
    requires from > |context|
    ensures CutAt(context, separators, from) == context
  {
    if separators != "" { NothingLate(context, separators[1..], from); }
  }
}
