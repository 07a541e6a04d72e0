/** Strings as the source language handles them. */
module Text {

  predicate OccursAt(text: string, pattern: string, i: int) {
    0 <= i <= |text| - |pattern| && text[i..i + |pattern|] == pattern
  }

  /** `str.find` from a position: the first occurrence, or -1. */
  function FindFrom(text: string, pattern: string, from: nat): (i: int)
    ensures i >= 0 ==> from <= i && OccursAt(text, pattern, i)
    ensures forall k | from <= k && (i < 0 || k < i) :: !OccursAt(text, pattern, k)
    decreases |text| - from
  {
    if from + |pattern| > |text| then -1
    else if text[from..from + |pattern|] == pattern then from
    else FindFrom(text, pattern, from + 1)
  }

  /** The characters that `str.strip` removes. */
  predicate IsSpace(c: char) {
    var n := c as int;
    9 <= n <= 13 || 28 <= n <= 32 || n == 133 || n == 160 || n == 5760 || 8192 <= n <= 8202
    || n == 8232 || n == 8233 || n == 8239 || n == 8287 || n == 12288
  }

  function StripLeft(s: string): string { if s != "" && IsSpace(s[0]) then StripLeft(s[1..]) else s }

  function StripRight(s: string): string {
    if s != "" && IsSpace(s[|s| - 1]) then StripRight(s[..|s| - 1]) else s
  }

  function Strip(s: string): string { StripRight(StripLeft(s)) }

  predicate HasInk(s: string) { exists c :: c in s && !IsSpace(c) }

  lemma {:induction false} StripLeftInk(s: string)
    requires HasInk(s)
    ensures HasInk(StripLeft(s))
  {
    if IsSpace(s[0]) {
      assert s == [s[0]] + s[1..];
      StripLeftInk(s[1..]);
    }
  }

  lemma {:induction false} StripRightInk(s: string)
    requires HasInk(s)
    ensures HasInk(StripRight(s))
  {
    if IsSpace(s[|s| - 1]) {
      assert s == s[..|s| - 1] + [s[|s| - 1]];
      StripRightInk(s[..|s| - 1]);
    }
  }
}
