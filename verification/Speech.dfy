/**
 Incremental release of sanitized assistant speech. JSON parsing and the removal of code fences are
 unknown functions of the text; the line patterns, the markers, line splitting and stripping are modelled.
 */
module Speech {
  import opened Std
  import opened Text

  // ── Patterns ────────────────────────────────────────────────────────

  /**
   A piece of a pattern. No piece that follows white space begins with white space, so skipping all of it is exact.
   */
  datatype Piece = Word(text: string) | AnyCase(text: string) | Spaces | SomeSpace | OneOf(chars: set<char>)

  function SkipSpaces(s: string): string { StripLeft(s) }

  /** What ignoring case maps a character to, for the letters the patterns use. */
  function Folded(c: char): char {
    if 'A' <= c <= 'Z' then (c as int + 32) as char
    else if c == '\U{212A}' then 'k'
    else if c == '\U{017F}' then 's'
    else if c == '\U{0130}' || c == '\U{0131}' then 'i'
    else c
  }

  function FoldedText(s: string): (r: string)
    ensures |r| == |s|
  {
    if s == "" then "" else [Folded(s[0])] + FoldedText(s[1..])
  }

  /** What is left of the text after a match at its start. */
  function Rest(pattern: seq<Piece>, s: string): Option<string> {
    if pattern == [] then Some(s)
    else
      match pattern[0]
      case Word(w) => if |w| <= |s| && s[..|w|] == w then Rest(pattern[1..], s[|w|..]) else None
      case AnyCase(w) => if |w| <= |s| && FoldedText(s[..|w|]) == w then Rest(pattern[1..], s[|w|..]) else None
      case Spaces => Rest(pattern[1..], SkipSpaces(s))
      case SomeSpace => if s != "" && IsSpace(s[0]) then Rest(pattern[1..], SkipSpaces(s)) else None
      case OneOf(chars) => if s != "" && s[0] in chars then Rest(pattern[1..], s[1..]) else None
  }

  predicate Matches(pattern: seq<Piece>, s: string) { Rest(pattern, s).Some? }

  const MARK := OneOf({':'})
  const MARK_OR_EQUALS := OneOf({':', '='})

  const INTERNAL: seq<seq<Piece>> := [
    [Spaces, Word("to=functions.")],
    [Spaces, Word("recipient_name"), Spaces, MARK],
    [Spaces, Word("await"), SomeSpace, Word("tools.")],
    [Spaces, Word("tools.")],
    [Spaces, AnyCase("tool_call"), Spaces, MARK_OR_EQUALS],
    [Spaces, AnyCase("tool_calls"), Spaces, MARK_OR_EQUALS],
    [Spaces, AnyCase("function_call"), Spaces, MARK_OR_EQUALS],
    [Spaces, AnyCase("arguments"), Spaces, MARK_OR_EQUALS],
    [Spaces, AnyCase("mcp__")],
    [Spaces, AnyCase("run_officejs")],
    [Spaces, AnyCase("shell_command")],
    [Spaces, AnyCase("exec(")],
    [Spaces, AnyCase("analysis"), Spaces, MARK],
    [Spaces, AnyCase("reasoning"), Spaces, MARK],
    [Spaces, AnyCase("\U{601D}\U{8003}"), Spaces, MARK]
  ]

  const REASONING: seq<seq<Piece>> := [
    [Spaces, AnyCase("analysis"), Spaces, MARK],
    [Spaces, AnyCase("reasoning"), Spaces, MARK],
    [Spaces, AnyCase("\U{601D}\U{8003}"), Spaces, MARK]
  ]

  const FINAL: seq<seq<Piece>> := [
    [Spaces, AnyCase("final"), Spaces, MARK],
    [Spaces, AnyCase("\U{6700}\U{7EC8}\U{56DE}\U{590D}"), Spaces, MARK],
    [Spaces, AnyCase("\U{6700}\U{7EC8}\U{56DE}\U{7B54}"), Spaces, MARK]
  ]

  /** One of the patterns matches at the start. */
  predicate AnyMatches(patterns: seq<seq<Piece>>, s: string) {
    exists k :: 0 <= k < |patterns| && Matches(patterns[k], s)
  }

  // ── Lines ───────────────────────────────────────────────────────────

  /** The characters at which `str.splitlines` breaks; all of them are white space. */
  predicate IsBreak(c: char) {
    var n := c as int;
    10 <= n <= 13 || 28 <= n <= 30 || n == 133 || n == 8232 || n == 8233
  }

  /** The place of the first line break, or the length. */
  function BreakAt(s: string): (k: nat)
    ensures k <= |s| && (k < |s| ==> IsBreak(s[k]))
    ensures forall i | 0 <= i < k :: !IsBreak(s[i])
  {
    if s == "" || IsBreak(s[0]) then 0 else 1 + BreakAt(s[1..])
  }

  /** A carriage return and a line feed break once. */
  function BreakWidth(s: string, k: nat): (n: nat)
    requires k < |s|
    ensures 0 < n <= |s| - k
  {
    if s[k] == '\r' && k + 1 < |s| && s[k + 1] == '\n' then 2 else 1
  }

  function Lines(s: string): seq<string>
    decreases |s|
  {
    if s == "" then []
    else
      var k := BreakAt(s);
      if k == |s| then [s] else [s[..k]] + Lines(s[k + BreakWidth(s, k)..])
  }

  function Join(lines: seq<string>): string {
    if lines == [] then "" else if |lines| == 1 then lines[0] else lines[0] + "\n" + Join(lines[1..])
  }

  // ── Sanitizing ──────────────────────────────────────────────────────

  /** The parts that are not modelled. */
  datatype Lib = Lib(internalJson: string -> bool, internalFragment: string -> bool, stripFences: string -> string)

  const FALLBACK: string :=
    "\U{6211}\U{521A}\U{624D}\U{5DEE}\U{70B9}\U{628A}\U{5185}\U{90E8}\U{64CD}\U{4F5C}\U{5F53}"
    + "\U{6210}\U{53F0}\U{8BCD}\U{8BF4}\U{51FA}\U{6765}\U{4E86}\U{FF0C}\U{6211}\U{4EEC}\U{91CD}\U{65B0}\U{8BF4}\U{3002}"

  predicate Bracketed(s: string) { s != "" && (s[0] == '{' || s[0] == '[') }

  predicate InternalLine(lib: Lib, line: string) {
    AnyMatches(INTERNAL, line)
    || (Bracketed(Strip(line)) && (lib.internalJson(Strip(line)) || lib.internalFragment(Strip(line))))
  }

  function KeepLines(lib: Lib, lines: seq<string>): seq<string> {
    if lines == [] then []
    else (if InternalLine(lib, lines[0]) then [] else [lines[0]]) + KeepLines(lib, lines[1..])
  }

  predicate StartsLine(s: string, i: nat) { i <= |s| && (i == 0 || s[i - 1] == '\n') }

  /** A final-answer marker with something after it. */
  function FinalAt(s: string, i: nat, k: nat): Option<string>
    requires i <= |s|
    decreases |FINAL| - k
  {
    if k >= |FINAL| then None
    else
      var rest := Rest(FINAL[k], s[i..]);
      if rest.Some? && SkipSpaces(rest.value) != "" then Some(Strip(rest.value)) else FinalAt(s, i, k + 1)
  }

  function FinalFrom(s: string, i: nat): string
    requires i <= |s|
    decreases |s| - i
  {
    var found := if StartsLine(s, i) then FinalAt(s, i, 0) else None;
    if found.Some? then found.value else if i < |s| then FinalFrom(s, i + 1) else s
  }

  function ExtractFinal(s: string): string { FinalFrom(s, 0) }

  function Sanitize(lib: Lib, value: string): string {
    var text := Strip(value);
    if text == "" then text
    else if lib.internalJson(text) then FALLBACK
    else
      var cleaned := Strip(Join(KeepLines(lib, Lines(lib.stripFences(ExtractFinal(text))))));
      if cleaned == "" || lib.internalJson(cleaned) then FALLBACK else cleaned
  }

  // ── Releasing ───────────────────────────────────────────────────────

  const BOUNDARIES: set<char> := {'\U{3002}', '\U{FF01}', '\U{FF1F}', '!', '?', '\U{FF1B}', ';', '\n'}

  /** The end of the last sentence, or 0. */
  function LastBoundary(s: string): (b: nat)
    ensures b <= |s| && (b > 0 ==> s[b - 1] in BOUNDARIES)
    ensures forall i | b <= i < |s| :: s[i] !in BOUNDARIES
  {
    if s == "" then 0
    else if s[|s| - 1] in BOUNDARIES then |s|
    else LastBoundary(s[..|s| - 1])
  }

  const FENCE: string := "```"

  /** `str.count`: occurrences that do not overlap. */
  function FenceCount(s: string): nat
    decreases |s|
  {
    if |s| < 3 then 0 else if s[..3] == FENCE then 1 + FenceCount(s[3..]) else FenceCount(s[1..])
  }

  predicate RequiresMore(s: string) {
    SkipSpaces(s) == "" || FenceCount(s) % 2 == 1 || exists l :: l in Lines(s) && Bracketed(SkipSpaces(l))
  }

  predicate HasReasoning(s: string) { exists i | 0 <= i <= |s| :: StartsLine(s, i) && AnyMatches(REASONING, s[i..]) }

  /** What one release emits; none when the sanitized text contradicts what was already released. */
  function Release(lib: Lib, raw: string, released: string, final: bool): Option<string> {
    if !final && (RequiresMore(raw) || (HasReasoning(raw) && released == "")) then Some("")
    else
      var sanitized := Sanitize(lib, raw);
      if !(released <= sanitized) then None
      else
        var boundary := if final then |sanitized| else LastBoundary(sanitized);
        if boundary <= |released| then Some("") else Some(sanitized[|released|..boundary])
  }

  class IncrementalAssistantSpeech {
    const lib: Lib
    var raw: string
    var released: string

    constructor (lib: Lib)
      ensures this.lib == lib && raw == "" && released == ""
    {
      this.lib := lib;
      raw, released := "", "";
    }

    method ReleaseNow(final: bool) returns (emitted: Option<string>)
      modifies this`released
      ensures emitted == Release(lib, raw, old(released), final)
      ensures released == if emitted.Some? then old(released) + emitted.value else old(released)
    {
      if !final && (RequiresMore(raw) || (HasReasoning(raw) && released == "")) { return Some(""); }
      var sanitized := Sanitize(lib, raw);
      if !(released <= sanitized) { return None; }
      var boundary := if final then |sanitized| else LastBoundary(sanitized);
      if boundary <= |released| { return Some(""); }
      emitted := Some(sanitized[|released|..boundary]);
      released := sanitized[..boundary];
    }

    method Push(chunk: string) returns (emitted: Option<string>)
      modifies this
      ensures raw == old(raw) + chunk
      ensures emitted == Release(lib, raw, old(released), false)
      ensures released == if emitted.Some? then old(released) + emitted.value else old(released)
    {
      raw := raw + chunk;
      emitted := ReleaseNow(false);
    }

    method Finish() returns (emitted: Option<string>, whole: string)
      modifies this`released
      ensures emitted == Release(lib, raw, old(released), true) && whole == Sanitize(lib, raw)
      ensures released == if emitted.Some? then old(released) + emitted.value else old(released)
    {
      emitted := ReleaseNow(true);
      whole := Sanitize(lib, raw);
    }
  }

  // ── Every chunking ──────────────────────────────────────────────────

  /** What was emitted chunk by chunk; none once a push has failed. */
  function Pushed(lib: Lib, chunks: seq<string>): Option<seq<string>> {
    if chunks == [] then Some([])
    else
      var before := Pushed(lib, chunks[..|chunks| - 1]);
      if before.None? then None
      else
        var emitted := Release(lib, Flatten(chunks), Flatten(before.value), false);
        if emitted.None? then None else Some(before.value + [emitted.value])
  }

  /** The whole reply: every push, then the finish. */
  function Spoken(lib: Lib, chunks: seq<string>): Option<seq<string>> {
    var before := Pushed(lib, chunks);
    if before.None? then None
    else
      var emitted := Release(lib, Flatten(chunks), Flatten(before.value), true);
      if emitted.None? then None else Some(before.value + [emitted.value])
  }

  lemma FinalRelease(lib: Lib, raw: string, released: string)
    ensures var e := Release(lib, raw, released, true); e.Some? ==> released + e.value == Sanitize(lib, raw)
  {
  }

  /** However the reply is cut into chunks: either some release fails, or exactly the sanitized reply was emitted. */
  lemma {:induction false} SpokenIsSanitized(lib: Lib, chunks: seq<string>)
    ensures Spoken(lib, chunks).Some? ==> Flatten(Spoken(lib, chunks).value) == Sanitize(lib, Flatten(chunks))
  {
    if Spoken(lib, chunks).Some? {
      var before := Pushed(lib, chunks).value;
      FinalRelease(lib, Flatten(chunks), Flatten(before));
      FlattenMore(before, Release(lib, Flatten(chunks), Flatten(before), true).value);
    }
  }

  /** So two chunkings of one reply that both succeed say the same. */
  lemma {:induction false} ChunkingIsIrrelevant(lib: Lib, a: seq<string>, b: seq<string>)
    requires Flatten(a) == Flatten(b) && Spoken(lib, a).Some? && Spoken(lib, b).Some?
    ensures Flatten(Spoken(lib, a).value) == Flatten(Spoken(lib, b).value)
  {
    SpokenIsSanitized(lib, a);
    SpokenIsSanitized(lib, b);
  }

  predicate EndsSentence(s: string) { s == "" || s[|s| - 1] in BOUNDARIES }

  lemma ReleaseEndsSentence(lib: Lib, raw: string, released: string)
    ensures var e := Release(lib, raw, released, false); e.Some? ==> EndsSentence(e.value)
  {
    CutEndsSentence(Sanitize(lib, raw), |released|);
  }

  lemma {:induction false} CutEndsSentence(s: string, from: nat)
    ensures var b := LastBoundary(s); from < b ==> EndsSentence(s[from..b])
  {
    var b := LastBoundary(s);
    if from < b { assert s[from..b][b - from - 1] == s[b - 1]; }
  }

  /** Whatever is emitted before the end of the reply ends at the end of a sentence. */
  lemma {:induction false} EmissionsEndSentences(lib: Lib, chunks: seq<string>)
    requires Pushed(lib, chunks).Some?
    ensures forall e | e in Pushed(lib, chunks).value :: EndsSentence(e)
  {
    if chunks != [] {
      EmissionsEndSentences(lib, chunks[..|chunks| - 1]);
      ReleaseEndsSentence(lib, Flatten(chunks), Flatten(Pushed(lib, chunks[..|chunks| - 1]).value));
    }
  }

  // ── Replies that never contradict themselves ────────────────────────

  /** What the lemmas need of the parts that are not modelled. */
  ghost predicate LibOk(lib: Lib) {
    && (forall s :: lib.internalJson(s) ==> Bracketed(SkipSpaces(s)))
    && (forall s :: FindFrom(s, FENCE, 0) < 0 ==> lib.stripFences(s) == s)
  }

  predicate Plain(line: string) { !AnyMatches(INTERNAL, line) && !Bracketed(SkipSpaces(line)) }

  predicate NoFinal(s: string) { forall i | 0 <= i <= |s| && StartsLine(s, i) :: !AnyMatches(FINAL, s[i..]) }

  /** No fence, no final-answer marker, and no line that is internal or starts with a bracket. */
  predicate Benign(s: string) {
    FindFrom(s, FENCE, 0) < 0 && NoFinal(s) && forall l | l in Lines(s) :: Plain(l)
  }

  lemma {:induction false} FoldedConcat(a: string, b: string)
    ensures FoldedText(a + b) == FoldedText(a) + FoldedText(b)
  {
    if a == "" {
      assert a + b == b;
    } else {
      assert (a + b)[1..] == a[1..] + b;
      FoldedConcat(a[1..], b);
    }
  }

  lemma {:induction false} SkipConcat(a: string, b: string)
    ensures SkipSpaces(a) != "" ==> SkipSpaces(a + b) == SkipSpaces(a) + b
    ensures SkipSpaces(a) == "" ==> SkipSpaces(a + b) == SkipSpaces(b)
  {
    if a == "" {
      assert a + b == b;
    } else {
      assert (a + b)[1..] == a[1..] + b;
      if IsSpace(a[0]) { SkipConcat(a[1..], b); }
    }
  }

  lemma {:induction false} Skipped(s: string)
    ensures SkipSpaces(s) == "" || !IsSpace(SkipSpaces(s)[0])
    ensures SkipSpaces(SkipSpaces(s)) == SkipSpaces(s)
    ensures |SkipSpaces(s)| <= |s| && s[|s| - |SkipSpaces(s)|..] == SkipSpaces(s)
    ensures forall i | 0 <= i < |s| - |SkipSpaces(s)| :: IsSpace(s[i])
  {
    if s != "" && IsSpace(s[0]) { Skipped(s[1..]); }
  }

  /** In a pattern, what follows white space cannot be satisfied by the end of the text. */
  predicate Firm(pattern: seq<Piece>) {
    forall i | 0 <= i < |pattern| && (pattern[i].Spaces? || pattern[i].SomeSpace?) ::
      i + 1 < |pattern| && Solid(pattern[i + 1])
  }

  predicate Solid(p: Piece) {
    match p
    case Word(w) => w != ""
    case AnyCase(w) => w != ""
    case OneOf(_) => true
    case _ => false
  }

  lemma EmptyFails(pattern: seq<Piece>)
    requires pattern != [] && Solid(pattern[0])
    ensures !Matches(pattern, "")
  {
  }

  lemma FirmTail(pattern: seq<Piece>)
    requires Firm(pattern) && pattern != []
    ensures Firm(pattern[1..])
    ensures pattern[0].Spaces? || pattern[0].SomeSpace? ==> pattern[1..] != [] && Solid(pattern[1..][0])
  {
    forall i | 0 <= i < |pattern[1..]| && (pattern[1..][i].Spaces? || pattern[1..][i].SomeSpace?)
      ensures i + 1 < |pattern[1..]| && Solid(pattern[1..][i + 1])
    {
      assert pattern[1..][i] == pattern[i + 1];
    }
  }

  /** A match at the start of a text is a match at the start of every continuation of it. */
  lemma {:induction false} MatchGrows(pattern: seq<Piece>, a: string, b: string)
    requires Firm(pattern) && Matches(pattern, a)
    ensures Matches(pattern, a + b)
  {
    if pattern != [] {
      FirmTail(pattern);
      match pattern[0]
      case Word(w) =>
        assert (a + b)[..|w|] == a[..|w|] && (a + b)[|w|..] == a[|w|..] + b;
        MatchGrows(pattern[1..], a[|w|..], b);
      case AnyCase(w) =>
        assert (a + b)[..|w|] == a[..|w|] && (a + b)[|w|..] == a[|w|..] + b;
        MatchGrows(pattern[1..], a[|w|..], b);
      case Spaces =>
        SkipConcat(a, b);
        if SkipSpaces(a) == "" { EmptyFails(pattern[1..]); }
        MatchGrows(pattern[1..], SkipSpaces(a), b);
      case SomeSpace =>
        SkipConcat(a, b);
        if SkipSpaces(a) == "" { EmptyFails(pattern[1..]); }
        MatchGrows(pattern[1..], SkipSpaces(a), b);
      case OneOf(chars) =>
        assert (a + b)[1..] == a[1..] + b;
        MatchGrows(pattern[1..], a[1..], b);
    }
  }

  predicate Indifferent(patterns: seq<seq<Piece>>) {
    forall k | 0 <= k < |patterns| :: Firm(patterns[k]) && patterns[k] != [] && patterns[k][0].Spaces?
  }

  lemma AnyGrows(patterns: seq<seq<Piece>>, a: string, b: string)
    requires Indifferent(patterns) && AnyMatches(patterns, a)
    ensures AnyMatches(patterns, a + b)
  {
    var k :| 0 <= k < |patterns| && Matches(patterns[k], a);
    MatchGrows(patterns[k], a, b);
  }

  predicate Blank(s: string) { forall c | c in s :: IsSpace(c) }

  lemma {:induction false} SkipBlank(w: string, s: string)
    requires Blank(w)
    ensures SkipSpaces(w + s) == SkipSpaces(s)
  {
    if w == "" {
      assert w + s == s;
    } else {
      assert w[0] in w;
      assert (w + s)[1..] == w[1..] + s;
      SkipBlank(w[1..], s);
    }
  }

  /** White space in front makes no difference to the patterns. */
  lemma AnyBlank(patterns: seq<seq<Piece>>, w: string, s: string)
    requires Indifferent(patterns) && Blank(w)
    ensures AnyMatches(patterns, w + s) <==> AnyMatches(patterns, s)
  {
    SkipBlank(w, s);
    forall k | 0 <= k < |patterns| ensures Matches(patterns[k], w + s) <==> Matches(patterns[k], s) { }
  }

  // ── Lines of a prefix ───────────────────────────────────────────────

  predicate Unbroken(s: string) { s != "" && !IsBreak(s[|s| - 1]) }

  lemma {:induction false} BreakGrows(x: string, z: string)
    ensures BreakAt(x) < |x| ==> BreakAt(x + z) == BreakAt(x)
    ensures BreakAt(x) == |x| ==> BreakAt(x + z) == |x| + BreakAt(z)
  {
    if x == "" {
      assert x + z == z;
    } else {
      assert (x + z)[1..] == x[1..] + z;
      if !IsBreak(x[0]) { BreakGrows(x[1..], z); }
    }
  }

  /** The rest after the first break of a text that goes on beyond it. */
  function AfterBreak(s: string): string
    requires BreakAt(s) < |s|
  {
    s[BreakAt(s) + BreakWidth(s, BreakAt(s))..]
  }

  lemma {:induction false} AfterBreakGrows(x: string, z: string)
    requires Unbroken(x) && BreakAt(x) < |x|
    ensures BreakAt(x + z) == BreakAt(x) && AfterBreak(x + z) == AfterBreak(x) + z
    ensures Unbroken(AfterBreak(x)) && |AfterBreak(x)| < |x| && AfterBreak(x)[|AfterBreak(x)| - 1] == x[|x| - 1]
  {
    BreakGrows(x, z);
    var k := BreakAt(x);
    assert k + 1 < |x| && (x + z)[k] == x[k] && (x + z)[k + 1] == x[k + 1];
    assert BreakWidth(x + z, k) == BreakWidth(x, k) && k + BreakWidth(x, k) < |x|;
  }

  /** Every line of a prefix that does not stop at a break is a line of the whole, the last one perhaps unfinished. */
  predicate Begins(a: seq<string>, b: seq<string>) {
    && a != [] && |a| <= |b|
    && (forall i | 0 <= i < |a| - 1 :: a[i] == b[i])
    && a[|a| - 1] <= b[|a| - 1]
  }

  lemma {:induction false} LinesStep(s: string)
    requires BreakAt(s) < |s|
    ensures Lines(s) == [s[..BreakAt(s)]] + Lines(AfterBreak(s))
  {
  }

  lemma {:induction false} OneLineGrows(x: string, z: string)
    requires x != "" && BreakAt(x) == |x|
    ensures Begins(Lines(x), Lines(x + z)) && Join(Lines(x)) <= Join(Lines(x + z))
  {
    BreakGrows(x, z);
    var b, k := Lines(x + z), BreakAt(x + z);
    assert Lines(x) == [x] && Join([x]) == x;
    if k == |x + z| {
      assert b == [x + z];
    } else {
      assert b[0] == (x + z)[..k] && x <= b[0];
      assert b[0] <= Join(b);
    }
  }

  lemma {:induction false} LinesGrow(x: string, z: string)
    requires Unbroken(x)
    ensures Begins(Lines(x), Lines(x + z)) && Join(Lines(x)) <= Join(Lines(x + z))
    decreases |x|
  {
    var k := BreakAt(x);
    if k == |x| {
      OneLineGrows(x, z);
    } else {
      AfterBreakGrows(x, z);
      LinesGrow(AfterBreak(x), z);
      LinesStep(x);
      LinesStep(x + z);
      assert (x + z)[..k] == x[..k];
      ConsBegins(x[..k], Lines(AfterBreak(x)), Lines(AfterBreak(x) + z));
    }
  }

  lemma {:induction false} ConsBegins(h: string, a: seq<string>, b: seq<string>)
    requires Begins(a, b) && Join(a) <= Join(b)
    ensures Begins([h] + a, [h] + b) && Join([h] + a) <= Join([h] + b)
  {
    assert ([h] + a)[1..] == a && ([h] + b)[1..] == b;
    forall i | 0 <= i < |a| ensures i < |a| - 1 ==> ([h] + a)[i] == ([h] + b)[i] { }
  }

  /** Joining the lines keeps the ends of the text. */
  lemma {:induction false} JoinEnds(x: string)
    requires Unbroken(x)
    ensures Lines(x) != [] && Join(Lines(x)) != "" && Join(Lines(x))[|Join(Lines(x))| - 1] == x[|x| - 1]
    ensures !IsBreak(x[0]) ==> Lines(x)[0] != "" && Lines(x)[0][0] == x[0] && Join(Lines(x))[0] == x[0]
    decreases |x|
  {
    var k := BreakAt(x);
    if k < |x| {
      AfterBreakGrows(x, "");
      JoinEnds(AfterBreak(x));
      var a := Lines(AfterBreak(x));
      assert Lines(x) == [x[..k]] + a && ([x[..k]] + a)[1..] == a;
      assert Join(Lines(x)) == x[..k] + "\n" + Join(a);
    }
  }

  predicate AllPlain(lines: seq<string>) { forall l | l in lines :: Plain(l) }

  lemma PatternsOk()
    ensures Indifferent(INTERNAL) && Indifferent(FINAL)
  {
  }

  lemma PlainPrefix(a: string, b: string)
    requires Plain(b) && a <= b
    ensures Plain(a)
  {
    PatternsOk();
    var z := b[|a|..];
    assert b == a + z;
    if AnyMatches(INTERNAL, a) { AnyGrows(INTERNAL, a, z); }
    SkipConcat(a, z);
  }

  lemma PlainAfterBlank(w: string, s: string)
    requires Plain(w + s) && Blank(w)
    ensures Plain(s)
  {
    PatternsOk();
    AnyBlank(INTERNAL, w, s);
    SkipBlank(w, s);
  }

  lemma {:induction false} PlainLinesOfPrefix(x: string, z: string)
    requires Unbroken(x) && AllPlain(Lines(x + z))
    ensures AllPlain(Lines(x))
  {
    LinesGrow(x, z);
    var a, b := Lines(x), Lines(x + z);
    forall l | l in a ensures Plain(l) {
      var i :| 0 <= i < |a| && a[i] == l;
      assert b[i] in b;
      if i == |a| - 1 { PlainPrefix(l, b[i]); }
    }
  }

  lemma {:induction false} PlainWithoutBreak(c: char, t: string)
    requires IsBreak(c) && t != "" && AllPlain(Lines([c] + t))
    ensures AllPlain(Lines(t))
  {
    var s := [c] + t;
    assert s[1..] == t;
    LinesStep(s);
    if c == '\r' && t[0] == '\n' {
      assert AfterBreak(s) == t[1..] && AfterBreak(t) == t[1..];
      LinesStep(t);
      assert s[..0] == t[..0];
    } else {
      assert AfterBreak(s) == t;
    }
  }

  lemma {:induction false} PlainWithoutSpace(c: char, t: string)
    requires IsSpace(c) && !IsBreak(c) && t != "" && AllPlain(Lines([c] + t))
    ensures AllPlain(Lines(t))
  {
    var s, k := [c] + t, BreakAt(t);
    assert s[1..] == t;
    assert BreakAt(s) == k + 1 && s[..k + 1] == [c] + t[..k];
    assert Lines(s)[0] in Lines(s) && Lines(s)[0] == [c] + t[..k];
    PlainAfterBlank([c], t[..k]);
    if k < |t| {
      assert AfterBreak(s) == AfterBreak(t);
      LinesStep(s);
      LinesStep(t);
    } else {
      assert t[..k] == t;
    }
  }

  lemma {:induction false} PlainWithoutOne(c: char, t: string)
    requires IsSpace(c) && AllPlain(Lines([c] + t))
    ensures AllPlain(Lines(t))
  {
    if t != "" {
      if IsBreak(c) { PlainWithoutBreak(c, t); } else { PlainWithoutSpace(c, t); }
    }
  }

  lemma {:induction false} PlainWithoutBlank(w: string, t: string)
    requires Blank(w) && AllPlain(Lines(w + t))
    ensures AllPlain(Lines(t))
  {
    if w == "" {
      assert w + t == t;
    } else {
      assert w[0] in w && w + t == [w[0]] + (w[1..] + t);
      PlainWithoutOne(w[0], w[1..] + t);
      PlainWithoutBlank(w[1..], t);
    }
  }

  lemma {:induction false} KeepsPlain(lib: Lib, lines: seq<string>)
    requires AllPlain(lines)
    ensures KeepLines(lib, lines) == lines
  {
    if lines != [] {
      assert lines[0] in lines;
      RightIsPrefix(SkipSpaces(lines[0]));
      forall l | l in lines[1..] ensures Plain(l) { assert l in lines; }
      KeepsPlain(lib, lines[1..]);
    }
  }

  lemma {:induction false} RightIsPrefix(s: string)
    ensures StripRight(s) <= s
    ensures StripRight(s) == "" || !IsSpace(StripRight(s)[|StripRight(s)| - 1])
    ensures forall i | |StripRight(s)| <= i < |s| :: IsSpace(s[i])
  {
    if s != "" && IsSpace(s[|s| - 1]) { RightIsPrefix(s[..|s| - 1]); }
  }

  // ── Stripping a prefix ──────────────────────────────────────────────

  predicate Inked(s: string) { s != "" && !IsSpace(s[0]) && !IsSpace(s[|s| - 1]) }

  /** What stripping takes away on the two sides. */
  lemma StripSplits(p: string) returns (w: string, v: string)
    ensures Blank(w) && p == w + Strip(p) + v && (Strip(p) == "" || Inked(Strip(p)))
  {
    Skipped(p);
    RightIsPrefix(SkipSpaces(p));
    var a, x := SkipSpaces(p), Strip(p);
    w, v := p[..|p| - |a|], a[|x|..];
    assert p == w + a && a == x + v;
  }

  lemma InkedStrips(s: string)
    requires Inked(s)
    ensures Strip(s) == s && SkipSpaces(s) == s
  {
  }

  lemma {:induction false} RightGrows(a: string, z: string)
    ensures StripRight(a) <= StripRight(a + z)
  {
    if z == "" {
      assert a + z == a;
    } else {
      var n := |z| - 1;
      assert (a + z)[..|a + z| - 1] == a + z[..n];
      if IsSpace(z[n]) {
        RightGrows(a, z[..n]);
      } else {
        RightIsPrefix(a);
      }
    }
  }

  lemma StripGrows(p: string, z: string)
    requires Strip(p) != ""
    ensures Strip(p) <= Strip(p + z)
  {
    SkipConcat(p, z);
    RightIsPrefix(SkipSpaces(p));
    RightGrows(SkipSpaces(p), z);
  }

  // ── Sanitizing a benign text ────────────────────────────────────────

  lemma {:induction false} NoneFinalAt(s: string, i: nat, k: nat)
    requires i <= |s| && !AnyMatches(FINAL, s[i..])
    ensures FinalAt(s, i, k).None?
    decreases |FINAL| - k
  {
    if k < |FINAL| {
      assert !Matches(FINAL[k], s[i..]);
      NoneFinalAt(s, i, k + 1);
    }
  }

  lemma {:induction false} NoneFinalFrom(s: string, i: nat)
    requires i <= |s| && NoFinal(s)
    ensures FinalFrom(s, i) == s
    decreases |s| - i
  {
    if StartsLine(s, i) { NoneFinalAt(s, i, 0); }
    if i < |s| { NoneFinalFrom(s, i + 1); }
  }

  /** A marker inside is a marker of the whole. */
  lemma MarkerOutside(w: string, x: string, z: string, i: nat)
    requires Blank(w) && i <= |x| && StartsLine(x, i) && AnyMatches(FINAL, x[i..])
    ensures !NoFinal(w + x + z)
  {
    PatternsOk();
    var s := w + x + z;
    AnyGrows(FINAL, x[i..], z);
    if i == 0 {
      assert x[0..] == x && s == w + (x + z) && s[0..] == s;
      AnyBlank(FINAL, w, x + z);
      assert StartsLine(s, 0);
    } else {
      assert s[|w| + i..] == x[i..] + z && s[|w| + i - 1] == x[i - 1];
      assert StartsLine(s, |w| + i);
    }
  }

  lemma NoFinalInside(w: string, x: string, z: string)
    requires Blank(w) && NoFinal(w + x + z)
    ensures NoFinal(x)
  {
    forall i | 0 <= i <= |x| && StartsLine(x, i) ensures !AnyMatches(FINAL, x[i..]) {
      if AnyMatches(FINAL, x[i..]) { MarkerOutside(w, x, z, i); }
    }
  }

  lemma OccursInside(w: string, x: string, z: string, part: string, i: int)
    requires OccursAt(x, part, i)
    ensures OccursAt(w + x + z, part, |w| + i)
  {
    assert (w + x + z)[|w| + i..|w| + i + |part|] == x[i..i + |part|];
  }

  lemma {:induction false} NoFenceInside(w: string, x: string, z: string)
    requires FindFrom(w + x + z, FENCE, 0) < 0
    ensures FindFrom(x, FENCE, 0) < 0
  {
    var i := FindFrom(x, FENCE, 0);
    if i >= 0 { OccursInside(w, x, z, FENCE, i); }
  }

  /** The stripped beginning of a benign text has no marker, no fence and only plain lines. */
  lemma BenignInside(p: string, z: string)
    requires Benign(p + z) && Strip(p) != ""
    ensures var x := Strip(p);
            Inked(x) && ExtractFinal(x) == x && FindFrom(x, FENCE, 0) < 0 && AllPlain(Lines(x))
  {
    var x := Strip(p);
    var w, v := StripSplits(p);
    var rest := v + z;
    assert p + z == w + x + rest && w + x + rest == w + (x + rest);
    NoFinalInside(w, x, rest);
    NoneFinalFrom(x, 0);
    NoFenceInside(w, x, rest);
    PlainWithoutBlank(w, x + rest);
    PlainLinesOfPrefix(x, rest);
  }

  lemma {:induction false} PlainIsNotJson(lib: Lib, x: string)
    requires LibOk(lib) && Inked(x) && AllPlain(Lines(x))
    ensures !lib.internalJson(x) && !lib.internalJson(Join(Lines(x))) && Inked(Join(Lines(x)))
  {
    JoinEnds(x);
    assert Lines(x)[0] in Lines(x);
    InkedStart(Lines(x)[0]);
    InkedStart(x);
    InkedStart(Join(Lines(x)));
  }

  /** The stripped beginning of a benign text is left as it is, but for its line breaks. */
  lemma BenignSanitized(lib: Lib, p: string, z: string)
    requires LibOk(lib) && Benign(p + z)
    ensures Sanitize(lib, p) == if Strip(p) == "" then "" else Join(Lines(Strip(p)))
  {
    var x := Strip(p);
    if x != "" {
      BenignInside(p, z);
      PlainIsNotJson(lib, x);
      KeepsPlain(lib, Lines(x));
      InkedStrips(Join(Lines(x)));
    }
  }

  lemma InkedStart(s: string)
    requires s != "" && !IsSpace(s[0])
    ensures SkipSpaces(s) == s
  {
  }

  lemma {:induction false} SplitPrefix(x: string, y: string)
    requires Unbroken(x) && x <= y
    ensures Join(Lines(x)) <= Join(Lines(y))
  {
    assert y == x + y[|x|..];
    LinesGrow(x, y[|x|..]);
  }

  /** Sanitizing a longer part of a benign reply only adds at the end. */
  lemma BenignGrows(lib: Lib, p: string, c: string, z: string)
    requires LibOk(lib) && Benign(p + c + z)
    ensures Sanitize(lib, p) <= Sanitize(lib, p + c)
  {
    assert p + c + z == p + (c + z);
    BenignSanitized(lib, p, c + z);
    BenignSanitized(lib, p + c, z);
    if Strip(p) != "" {
      var w, v := StripSplits(p);
      StripGrows(p, c);
      SplitPrefix(Strip(p), Strip(p + c));
    }
  }

  lemma ReleaseStays(lib: Lib, raw: string, released: string)
    requires released <= Sanitize(lib, raw)
    ensures var e := Release(lib, raw, released, false); e.Some? && released + e.value <= Sanitize(lib, raw)
  {
    var sanitized := Sanitize(lib, raw);
    assert forall b | |released| <= b <= |sanitized| :: released + sanitized[|released|..b] == sanitized[..b];
  }

  lemma {:induction false} PrefixNeverFails(lib: Lib, chunks: seq<string>, z: string)
    requires LibOk(lib) && Benign(Flatten(chunks) + z)
    ensures Pushed(lib, chunks).Some? && Flatten(Pushed(lib, chunks).value) <= Sanitize(lib, Flatten(chunks))
  {
    if chunks != [] {
      var before, c := chunks[..|chunks| - 1], chunks[|chunks| - 1];
      assert Flatten(chunks) == Flatten(before) + c;
      assert Flatten(before) + c + z == Flatten(before) + (c + z);
      PrefixNeverFails(lib, before, c + z);
      BenignGrows(lib, Flatten(before), c, z);
      var released := Flatten(Pushed(lib, before).value);
      ReleaseStays(lib, Flatten(chunks), released);
      FlattenMore(Pushed(lib, before).value, Release(lib, Flatten(chunks), released, false).value);
    }
  }

  /** A benign reply never fails, however it is cut, and so is spoken exactly as sanitized. */
  lemma {:induction false} BenignNeverFails(lib: Lib, chunks: seq<string>)
    requires LibOk(lib) && Benign(Flatten(chunks))
    ensures Spoken(lib, chunks).Some? && Flatten(Spoken(lib, chunks).value) == Sanitize(lib, Flatten(chunks))
  {
    assert Flatten(chunks) + "" == Flatten(chunks);
    PrefixNeverFails(lib, chunks, "");
    SpokenIsSanitized(lib, chunks);
  }
}
