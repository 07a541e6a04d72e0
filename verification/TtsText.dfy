/**
 Text and timeline handling of the cloud speech provider: cutting a text to a byte limit, restoring
 punctuation in an alignment, and the running offsets of a streamed synthesis.
 */
module TtsText {
  import opened Std
  import opened Text

  // ── Sizes and pieces ────────────────────────────────────────────────

  function Utf8(c: char): nat {
    var n := c as int;
    if n < 0x80 then 1 else if n < 0x800 then 2 else if n < 0x10000 then 3 else 4
  }

  function Bytes(s: string): nat { if s == "" then 0 else Bytes(s[..|s| - 1]) + Utf8(s[|s| - 1]) }

  lemma {:induction false} BytesConcat(a: string, b: string)
    ensures Bytes(a + b) == Bytes(a) + Bytes(b)
  {
    if b == "" {
      assert a + b == a;
    } else {
      assert (a + b)[..|a + b| - 1] == a + b[..|b| - 1];
      BytesConcat(a, b[..|b| - 1]);
    }
  }

  const ENDERS: set<char> := {'\U{3002}', '\U{FF01}', '\U{FF1F}', '!', '?', '\U{FF1B}', ';'}

  function SkipEnders(s: string, i: nat): (j: nat)
    requires i <= |s|
    ensures i <= j <= |s|
    decreases |s| - i
  {
    if i < |s| && s[i] in ENDERS then SkipEnders(s, i + 1) else i
  }

  function SkipBlanks(s: string, i: nat): (j: nat)
    requires i <= |s|
    ensures i <= j <= |s|
    decreases |s| - i
  {
    if i < |s| && IsSpace(s[i]) && s[i] != '\n' then SkipBlanks(s, i + 1) else i
  }

  function SkipNewlines(s: string, i: nat): (j: nat)
    requires i <= |s|
    ensures i <= j <= |s|
    decreases |s| - i
  {
    if i < |s| && s[i] == '\n' then SkipNewlines(s, i + 1) else i
  }

  /** The end of the next boundary: sentence enders with the blanks after them, or newlines; -1 when none is left. */
  function BoundaryEnd(s: string, from: nat): (j: int)
    requires from <= |s|
    ensures j == -1 || from < j <= |s|
    decreases |s| - from
  {
    if from == |s| then -1
    else if s[from] in ENDERS then SkipBlanks(s, SkipEnders(s, from + 1))
    else if s[from] == '\n' then SkipNewlines(s, from + 1)
    else BoundaryEnd(s, from + 1)
  }

  /** Finished segments, and the one being filled. */
  datatype Filling = Filling(segments: seq<string>, current: string)

  function Done(f: Filling): seq<string> { if f.current == "" then f.segments else f.segments + [f.current] }

  function AddChar(f: Filling, c: char, limit: nat): Filling {
    if Bytes(f.current + [c]) <= limit then f.(current := f.current + [c]) else Filling(Done(f), [c])
  }

  function Oversized(piece: string, limit: nat): Filling {
    if piece == "" then Filling([], "") else AddChar(Oversized(piece[..|piece| - 1], limit), piece[|piece| - 1], limit)
  }

  method SplitOversizedPiece(piece: string, limit: nat) returns (segments: seq<string>)
    ensures segments == Done(Oversized(piece, limit))
  {
    segments := [];
    var current := "";
    for i := 0 to |piece|
      invariant Filling(segments, current) == Oversized(piece[..i], limit)
    {
      assert piece[..i + 1][..i] == piece[..i];
      var candidate := current + [piece[i]];
      if Bytes(candidate) <= limit {
        current := candidate;
        continue;
      }
      if current != "" { segments := segments + [current]; }
      current := [piece[i]];
    }
    assert piece[..|piece|] == piece;
    if current != "" { segments := segments + [current]; }
  }

  predicate Fits(s: string, limit: nat) { s != "" && (Bytes(s) <= limit || |s| == 1) }

  predicate AllFit(segments: seq<string>, limit: nat) { forall s | s in segments :: Fits(s, limit) }

  lemma FlattenDone(f: Filling)
    ensures Flatten(Done(f)) == Flatten(f.segments) + f.current
  {
    FlattenMore(f.segments, f.current);
  }

  /** The segments add up to the text so far, and each fits the limit or is a single character. */
  predicate FillOk(f: Filling, limit: nat, text: string) {
    && Flatten(f.segments) + f.current == text
    && AllFit(f.segments, limit) && (f.current == "" || Fits(f.current, limit))
  }

  lemma {:induction false} CurrentGrows(f: Filling, limit: nat, text: string, more: string)
    requires FillOk(f, limit, text) && more != "" && Bytes(f.current + more) <= limit
    ensures FillOk(f.(current := f.current + more), limit, text + more)
  {
    Reassociate(Flatten(f.segments), f.current, more);
  }

  lemma Reassociate(a: string, b: string, c: string)
    ensures a + (b + c) == (a + b) + c
  {
  }

  lemma CurrentCloses(f: Filling, limit: nat, text: string)
    requires FillOk(f, limit, text)
    ensures Flatten(Done(f)) == text && AllFit(Done(f), limit)
  {
    FlattenDone(f);
  }

  lemma {:induction false} OversizedFits(piece: string, limit: nat)
    ensures FillOk(Oversized(piece, limit), limit, piece)
  {
    if piece != "" {
      var n := |piece| - 1;
      var f := Oversized(piece[..n], limit);
      OversizedFits(piece[..n], limit);
      assert piece == piece[..n] + [piece[n]];
      if Bytes(f.current + [piece[n]]) <= limit {
        CurrentGrows(f, limit, piece[..n], [piece[n]]);
      } else {
        CurrentCloses(f, limit, piece[..n]);
      }
    }
  }

  /** No segment had room for the first character of the next one. */
  predicate Greedy(segments: seq<string>, limit: nat) {
    |segments| <= 1 ||
    (var n := |segments| - 1;
     Greedy(segments[..n], limit) && segments[n] != "" && Bytes(segments[n - 1] + [segments[n][0]]) > limit)
  }

  lemma {:induction false} GreedyMore(segments: seq<string>, s: string, limit: nat)
    ensures Greedy(segments + [s], limit) <==>
              segments == [] || (Greedy(segments, limit) && s != "" && Bytes(segments[|segments| - 1] + [s[0]]) > limit)
  {
    assert (segments + [s])[..|segments|] == segments;
  }

  predicate GreedyFilling(f: Filling, limit: nat) {
    Greedy(Done(f), limit) && (f.current == "" ==> f.segments == [])
  }

  lemma AddCharGreedy(f: Filling, c: char, limit: nat)
    requires GreedyFilling(f, limit)
    ensures GreedyFilling(AddChar(f, c, limit), limit)
  {
    var g := AddChar(f, c, limit);
    assert g.current != "";
    if Bytes(f.current + [c]) <= limit {
      GreedyMore(f.segments, g.current, limit);
      if f.current != "" { GreedyMore(f.segments, f.current, limit); }
    } else {
      GreedyMore(Done(f), g.current, limit);
    }
  }

  lemma {:induction false} OversizedGreedy(piece: string, limit: nat)
    ensures GreedyFilling(Oversized(piece, limit), limit)
  {
    if piece != "" {
      OversizedGreedy(piece[..|piece| - 1], limit);
      AddCharGreedy(Oversized(piece[..|piece| - 1], limit), piece[|piece| - 1], limit);
    }
  }

  /** The text cut after every boundary. */
  method Pieces(text: string) returns (pieces: seq<string>)
    ensures Flatten(pieces) == text
    ensures forall p | p in pieces :: p != ""
  {
    pieces := [];
    var cursor := 0;
    while true
      invariant 0 <= cursor <= |text| && Flatten(pieces) == text[..cursor]
      invariant forall p | p in pieces :: p != ""
      decreases |text| - cursor
    {
      var end := BoundaryEnd(text, cursor);
      if end < 0 { break; }
      FlattenMore(pieces, text[cursor..end]);
      assert text[..end] == text[..cursor] + text[cursor..end];
      pieces := pieces + [text[cursor..end]];
      cursor := end;
    }
    if cursor < |text| {
      FlattenMore(pieces, text[cursor..]);
      pieces := pieces + [text[cursor..]];
    }
    assert text[..cursor] + text[cursor..] == text;
  }

  function AddPiece(f: Filling, piece: string, limit: nat): Filling {
    if Bytes(f.current + piece) <= limit then f.(current := f.current + piece)
    else Filling(Done(f) + Done(Oversized(piece, limit)), "")
  }

  function Packed(pieces: seq<string>, limit: nat): Filling {
    if pieces == [] then Filling([], "")
    else AddPiece(Packed(pieces[..|pieces| - 1], limit), pieces[|pieces| - 1], limit)
  }

  lemma {:induction false} PackedFits(pieces: seq<string>, limit: nat)
    requires forall p | p in pieces :: p != ""
    ensures FillOk(Packed(pieces, limit), limit, Flatten(pieces))
  {
    if pieces != [] {
      var n, piece := |pieces| - 1, pieces[|pieces| - 1];
      var f := Packed(pieces[..n], limit);
      assert piece in pieces;
      forall p | p in pieces[..n] ensures p != "" { assert p in pieces; }
      PackedFits(pieces[..n], limit);
      if Bytes(f.current + piece) <= limit {
        CurrentGrows(f, limit, Flatten(pieces[..n]), piece);
      } else {
        CurrentCloses(f, limit, Flatten(pieces[..n]));
        OversizedFits(piece, limit);
        CurrentCloses(Oversized(piece, limit), limit, piece);
        FlattenConcat(Done(f), Done(Oversized(piece, limit)));
      }
    }
  }

  lemma WideLimitFits(segments: seq<string>, limit: nat)
    requires AllFit(segments, limit) && limit >= 4
    ensures forall s | s in segments :: Bytes(s) <= limit
  {
    forall s | s in segments ensures Bytes(s) <= limit {
      if |s| == 1 { assert s[..0] == ""; }
    }
  }

  /**
   Nothing is lost or reordered, and every segment fits the limit, unless it is a single character
   wider than the limit. A text that already fits is left whole. With at least four bytes, and an accepted
   configuration has at least a hundred, every segment fits.
   */
  method SplitTextForFish(text: string, maxBytes: nat) returns (segments: seq<string>)
    ensures Flatten(segments) == text && segments != []
    ensures text != "" ==> AllFit(segments, Max(1, maxBytes))
    ensures maxBytes >= 4 ==> forall s | s in segments :: Bytes(s) <= maxBytes
    ensures Bytes(text) <= Max(1, maxBytes) ==> segments == [text]
  {
    var limit: nat := Max(1, maxBytes);
    FlattenMore([], text);
    assert [] + [text] == [text];
    if Bytes(text) <= limit { return [text]; }
    var pieces := Pieces(text);
    segments := [];
    var current := "";
    for i := 0 to |pieces|
      invariant Filling(segments, current) == Packed(pieces[..i], limit)
    {
      assert pieces[..i + 1][..i] == pieces[..i];
      var candidate := current + pieces[i];
      if Bytes(candidate) <= limit {
        current := candidate;
        continue;
      }
      if current != "" { segments := segments + [current]; }
      current := "";
      var split := SplitOversizedPiece(pieces[i], limit);
      segments := segments + split;
    }
    assert pieces[..|pieces|] == pieces;
    PackedFits(pieces, limit);
    CurrentCloses(Filling(segments, current), limit, text);
    if current != "" { segments := segments + [current]; }
    if maxBytes >= 4 { WideLimitFits(segments, limit); }
  }

  // ── Restoring the aligned text ──────────────────────────────────────

  /** The segments occur in the content in order and without overlap, from a position on. */
  ghost predicate Embeds(content: string, segments: seq<string>, from: nat) {
    segments == [] || exists i: nat :: from <= i && OccursAt(content, segments[0], i)
                                      && Embeds(content, segments[1..], i + |segments[0]|)
  }

  lemma {:induction false} EmbedsEarlier(content: string, segments: seq<string>, a: nat, b: nat)
    requires Embeds(content, segments, b) && a <= b
    ensures Embeds(content, segments, a)
  {
    if segments != [] {
      var i: nat :| b <= i && OccursAt(content, segments[0], i) && Embeds(content, segments[1..], i + |segments[0]|);
    }
  }

  /** Taking the first occurrence of the first segment never spoils an embedding. */
  lemma FirstIsBest(content: string, segments: seq<string>, from: nat)
    requires segments != []
    ensures var i := FindFrom(content, segments[0], from);
            Embeds(content, segments, from) <==> i >= 0 && Embeds(content, segments[1..], i + |segments[0]|)
  {
    var i := FindFrom(content, segments[0], from);
    if Embeds(content, segments, from) {
      var k: nat :| from <= k && OccursAt(content, segments[0], k) && Embeds(content, segments[1..], k + |segments[0]|);
      assert 0 <= i <= k;
      EmbedsEarlier(content, segments[1..], i + |segments[0]|, k + |segments[0]|);
    }
  }

  predicate Holds(s: string, part: string) { exists i | 0 <= i <= |s| :: OccursAt(s, part, i) }

  /**
   Either the segments come back as they are, or pieces that add up exactly to the content, one per segment
   and each holding its segment. The content is restored exactly when it embeds all segments in order.
   */
  method RestoreAlignmentText(content: string, segments: seq<string>) returns (restored: seq<string>)
    ensures segments == [] || content == "" ==> restored == segments
    ensures segments != [] && content != "" && !Embeds(content, segments, 0) ==> restored == segments
    ensures segments != [] && content != "" && Embeds(content, segments, 0) ==>
              EachHolds(restored, segments) && Flatten(restored) == content
  {
    if segments == [] || content == "" { return segments; }
    restored := [];
    var cursor := 0;
    assert segments[0..] == segments && content[..0] == "" && segments[..0] == [];
    for k := 0 to |segments|
      invariant cursor <= |content| && RestoredTo(content, restored, cursor, segments, k)
      invariant Embeds(content, segments, 0) <==> Embeds(content, segments[k..], cursor)
    {
      EmbedsStep(content, segments, k, cursor);
      var index := FindFrom(content, segments[k], cursor);
      if index < 0 { return segments; }
      var end := index + |segments[k]|;
      NextPiece(content, cursor, segments[k]);
      RestoredMore(content, restored, cursor, end, segments, k);
      restored := restored + [content[cursor..end]];
      cursor := end;
    }
    Restored(content, restored, cursor, segments);
    if cursor < |content| {
      restored := restored[|restored| - 1 := restored[|restored| - 1] + content[cursor..]];
    }
  }

  /** What is left of the embedding after the next segment's first occurrence. */
  lemma EmbedsStep(content: string, segments: seq<string>, k: nat, cursor: nat)
    requires k < |segments|
    ensures var index := FindFrom(content, segments[k], cursor);
            Embeds(content, segments[k..], cursor)
            <==> index >= 0 && Embeds(content, segments[k + 1..], index + |segments[k]|)
  {
    assert segments[k..][0] == segments[k] && segments[k..][1..] == segments[k + 1..];
    FirstIsBest(content, segments[k..], cursor);
  }

  /** With the rest of the content at the last piece, the pieces add up to all of it. */
  lemma Restored(content: string, restored: seq<string>, cursor: nat, segments: seq<string>)
    requires segments != [] && cursor <= |content| && RestoredTo(content, restored, cursor, segments, |segments|)
    ensures |restored| == |segments|
    ensures var n := |restored| - 1;
            var all := if cursor < |content| then restored[n := restored[n] + content[cursor..]] else restored;
            EachHolds(all, segments) && Flatten(all) == content
  {
    assert segments[..|segments|] == segments;
    AppendTail(restored, content[cursor..], segments);
    assert content[..cursor] + content[cursor..] == content;
  }

  predicate EachHolds(restored: seq<string>, segments: seq<string>) {
    |restored| == |segments| && forall k | 0 <= k < |segments| :: Holds(restored[k], segments[k])
  }

  /** The pieces found for the first k segments add up to the content up to the cursor. */
  predicate RestoredTo(content: string, restored: seq<string>, cursor: nat, segments: seq<string>, k: nat)
    requires cursor <= |content| && k <= |segments|
  {
    Flatten(restored) == content[..cursor] && EachHolds(restored, segments[..k])
  }

  lemma RestoredMore(content: string, restored: seq<string>, cursor: nat, end: nat, segments: seq<string>, k: nat)
    requires cursor <= end <= |content| && k < |segments| && RestoredTo(content, restored, cursor, segments, k)
    requires Holds(content[cursor..end], segments[k]) && content[..cursor] + content[cursor..end] == content[..end]
    ensures RestoredTo(content, restored + [content[cursor..end]], end, segments, k + 1)
  {
    FlattenMore(restored, content[cursor..end]);
    var all := restored + [content[cursor..end]];
    forall j | 0 <= j <= k ensures Holds(all[j], segments[..k + 1][j]) {
      if j < k { assert Holds(restored[j], segments[..k][j]); }
    }
  }

  /** What is left of the content goes to the last piece. */
  lemma AppendTail(restored: seq<string>, tail: string, segments: seq<string>)
    requires restored != [] && EachHolds(restored, segments)
    ensures var n := |restored| - 1;
            var all := restored[n := restored[n] + tail];
            Flatten(all) == Flatten(restored) + tail && EachHolds(all, segments)
  {
    var n := |restored| - 1;
    var all := restored[n := restored[n] + tail];
    assert restored == restored[..n] + [restored[n]] && all == restored[..n] + [restored[n] + tail];
    FlattenMore(restored[..n], restored[n]);
    FlattenMore(restored[..n], restored[n] + tail);
    Reassociate(Flatten(restored[..n]), restored[n], tail);
    HoldsMore(restored[n], tail, segments[n]);
  }

  lemma SliceOccurs(content: string, cursor: nat, end: nat, segment: string, index: nat)
    requires cursor <= index && end == index + |segment| && OccursAt(content, segment, index)
    ensures end <= |content| && OccursAt(content[cursor..end], segment, index - cursor)
  {
    assert content[cursor..end][index - cursor..end - cursor] == content[index..end];
  }

  /** One more piece, up to the end of the next segment's first occurrence. */
  lemma NextPiece(content: string, cursor: nat, segment: string)
    requires cursor <= |content| && FindFrom(content, segment, cursor) >= 0
    ensures var end := FindFrom(content, segment, cursor) + |segment|;
            && cursor <= end <= |content|
            && content[..cursor] + content[cursor..end] == content[..end]
            && Holds(content[cursor..end], segment)
  {
    var index := FindFrom(content, segment, cursor);
    var end := index + |segment|;
    SliceOccurs(content, cursor, end, segment, index);
  }

  lemma HoldsMore(s: string, more: string, part: string)
    requires Holds(s, part)
    ensures Holds(s + more, part)
  {
    var i :| 0 <= i <= |s| && OccursAt(s, part, i);
    assert (s + more)[i..i + |part|] == s[i..i + |part|];
    assert OccursAt(s + more, part, i);
  }
}
