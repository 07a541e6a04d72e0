/** Datatypes and sequence facts shared by the component models. */
module Std {

  datatype Option<+T> = None | Some(value: T)

  function Max(a: int, b: int): int { if a < b then b else a }

  function Min(a: int, b: int): int { if a < b then a else b }

  lemma ConcatLast<T>(a: seq<T>, b: seq<T>)
    requires b != []
    ensures (a + b)[..|a + b| - 1] == a + b[..|b| - 1] && (a + b)[|a + b| - 1] == b[|b| - 1]
  {
  }

  /** The elements of `s` that satisfy `p`, in order. */
  function Filter<T>(s: seq<T>, p: T -> bool): seq<T> {
    if s == [] then []
    else Filter(s[..|s| - 1], p) + (if p(s[|s| - 1]) then [s[|s| - 1]] else [])
  }

  lemma {:induction false} FilterConcat<T>(a: seq<T>, b: seq<T>, p: T -> bool)
    ensures Filter(a + b, p) == Filter(a, p) + Filter(b, p)
  {
    if b == [] {
      assert a + b == a;
    } else {
      var last := b[|b| - 1];
      assert (a + b)[..|a + b| - 1] == a + b[..|b| - 1];
      FilterConcat(a, b[..|b| - 1], p);
    }
  }

  /** Concatenation of a sequence of sequences. */
  function Flatten<T>(parts: seq<seq<T>>): seq<T> {
    if parts == [] then [] else Flatten(parts[..|parts| - 1]) + parts[|parts| - 1]
  }

  lemma {:induction false} FlattenConcat<T>(a: seq<seq<T>>, b: seq<seq<T>>)
    ensures Flatten(a + b) == Flatten(a) + Flatten(b)
  {
    if b == [] {
      assert a + b == a;
    } else {
      assert (a + b)[..|a + b| - 1] == a + b[..|b| - 1];
      FlattenConcat(a, b[..|b| - 1]);
    }
  }

  lemma {:induction false} FlattenMore<T>(parts: seq<seq<T>>, p: seq<T>)
    ensures Flatten(parts + [p]) == Flatten(parts) + p
  {
    assert (parts + [p])[..|parts|] == parts;
  }

  /** The last n elements, or all when there are fewer. */
  function LastOf<T>(s: seq<T>, n: nat): seq<T> { if |s| <= n then s else s[|s| - n..] }

  lemma LastOfMore<T>(s: seq<T>, x: T, n: nat)
    ensures LastOf(LastOf(s, n) + [x], n) == LastOf(s + [x], n)
  {
  }

  ghost predicate IsMin(s: set<int>, m: int) { m in s && forall k | k in s :: m <= k }

  lemma {:induction false} SetHasMin(s: set<int>, x: int) returns (m: int)
    requires x in s
    ensures IsMin(s, m)
  {
    m := x;
    var rest := s - {x};
    assert forall k | k in s :: k == x || k in rest;
    if y: int :| y in rest {
      var n := SetHasMin(rest, y);
      if n < m { m := n; }
    }
  }

  /** The elements of a set of integers in increasing order. */
  ghost function SortedKeys(s: set<int>): seq<int> {
    if exists m :: IsMin(s, m) then
      var m :| IsMin(s, m);
      [m] + SortedKeys(s - {m})
    else []
  }

  lemma {:induction false} SortedKeysSpec(s: set<int>)
    ensures forall k :: k in SortedKeys(s) <==> k in s
    ensures forall i, j :: 0 <= i < j < |SortedKeys(s)| ==> SortedKeys(s)[i] < SortedKeys(s)[j]
  {
    if x: int :| x in s {
      var m := SetHasMin(s, x);
      assert forall n :: IsMin(s, n) ==> n == m;
      var rest := SortedKeys(s - {m});
      assert SortedKeys(s) == [m] + rest;
      SortedKeysSpec(s - {m});
      forall j | 0 <= j < |rest| ensures m < rest[j] {
        assert rest[j] in rest;
      }
    }
  }
}
