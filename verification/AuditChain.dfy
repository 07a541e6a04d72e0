/**
 The append-only action audit: a table of records chained by a hash of each record's canonical
 body, and the verifier that walks the chain.
 */
module AuditChain {
  import opened Std
  import opened Redaction

  datatype Entry = Entry(
    auditId: string, actionId: string, stage: string, actionType: string, riskLevel: string,
    success: Option<bool>, recordedAt: real, details: Json)

  /** The content that is hashed. */
  datatype Body = Body(entry: Entry, previousHash: string)

  /** A stored row; success is kept as an optional integer. */
  datatype Row = Row(
    auditId: string, actionId: string, stage: string, actionType: string, riskLevel: string,
    success: Option<int>, recordedAt: real, details: Json, previousHash: string, recordHash: string)

  datatype Scheme = Scheme(rules: Rules, hash: Body -> string)

  /** What the chain needs from its parts: settled redaction, and a hash that is injective and never empty. */
  ghost predicate Sound(s: Scheme) {
    && Settled(s.rules)
    && (forall a, b :: s.hash(a) == s.hash(b) ==> a == b)
    && (forall a :: s.hash(a) != "")
  }

  function CanonicalBody(s: Scheme, e: Entry, previousHash: string): Body {
    Body(e.(details := Redact(s.rules, e.details, "")), previousHash)
  }

  function EntryOfRow(r: Row): Entry {
    Entry(r.auditId, r.actionId, r.stage, r.actionType, r.riskLevel,
          if r.success.None? then None else Some(r.success.value != 0), r.recordedAt, r.details)
  }

  function RowOf(s: Scheme, e: Entry, previousHash: string): Row {
    var body := CanonicalBody(s, e, previousHash);
    Row(e.auditId, e.actionId, e.stage, e.actionType, e.riskLevel,
        if e.success.None? then None else Some(if e.success.value then 1 else 0),
        e.recordedAt, body.entry.details, previousHash, s.hash(body))
  }

  function Head(rows: seq<Row>): string {
    if rows == [] then "" else rows[|rows| - 1].recordHash
  }

  /** The two uniqueness constraints of the table. */
  predicate Admits(rows: seq<Row>, r: Row) {
    forall e | e in rows :: e.auditId != r.auditId && e.recordHash != r.recordHash
  }

  /** Whether a stored row links to its predecessor and carries the hash of its own body. */
  predicate Linked(s: Scheme, r: Row, previousHash: string) {
    && r.previousHash == previousHash
    && s.hash(CanonicalBody(s, EntryOfRow(r), previousHash)) == r.recordHash
  }

  predicate ChainOk(s: Scheme, rows: seq<Row>) {
    rows == [] || (ChainOk(s, rows[..|rows| - 1]) && Linked(s, rows[|rows| - 1], Head(rows[..|rows| - 1])))
  }

  class AuditStore {
    const scheme: Scheme
    var rows: seq<Row>

    constructor (scheme: Scheme)
      ensures this.scheme == scheme && rows == []
    {
      this.scheme := scheme;
      rows := [];
    }

    /** Appends one entry, or changes nothing when a uniqueness constraint refuses the row. */
    method Append(e: Entry) returns (stored: Option<Row>)
      modifies this
      ensures var r := RowOf(scheme, e, Head(old(rows)));
              && (stored.Some? <==> Admits(old(rows), r))
              && (stored.Some? ==> stored.value == r && rows == old(rows) + [r])
              && (stored.None? ==> rows == old(rows))
    {
      var previousHash := if rows == [] then "" else rows[|rows| - 1].recordHash;
      var body := CanonicalBody(scheme, e, previousHash);
      var row := Row(e.auditId, e.actionId, e.stage, e.actionType, e.riskLevel,
                     if e.success.None? then None else Some(if e.success.value then 1 else 0),
                     e.recordedAt, body.entry.details, previousHash, scheme.hash(body));
      if !Admits(rows, row) { return None; }
      rows := rows + [row];
      stored := Some(row);
    }

    method VerifyChain() returns (ok: bool)
      ensures ok == ChainOk(scheme, rows)
    {
      var previousHash := "";
      var i := 0;
      while i < |rows|
        invariant 0 <= i <= |rows|
        invariant previousHash == Head(rows[..i])
        invariant ChainOk(scheme, rows[..i])
      {
        var row := rows[i];
        var entry := EntryOfRow(row);
        if row.previousHash != previousHash
          || scheme.hash(CanonicalBody(scheme, entry, previousHash)) != row.recordHash {
          BrokenPrefix(scheme, rows, i);
          return false;
        }
        ChainExtends(scheme, rows[..i], row);
        assert rows[..i + 1] == rows[..i] + [row];
        previousHash := row.recordHash;
        i := i + 1;
      }
      assert rows[..i] == rows;
      ok := true;
    }
  }

  lemma {:induction false} ChainExtends(s: Scheme, rows: seq<Row>, r: Row)
    ensures ChainOk(s, rows + [r]) <==> ChainOk(s, rows) && Linked(s, r, Head(rows))
  {
    assert (rows + [r])[..|rows|] == rows;
  }

  lemma {:induction false} BrokenPrefix(s: Scheme, rows: seq<Row>, i: nat)
    requires i < |rows| && !Linked(s, rows[i], Head(rows[..i]))
    ensures !ChainOk(s, rows)
  {
    if i < |rows| - 1 {
      assert rows[..|rows| - 1][..i] == rows[..i];
      BrokenPrefix(s, rows[..|rows| - 1], i);
    }
  }

  /** The table after a run of append attempts. */
  function AfterAppends(s: Scheme, entries: seq<Entry>): seq<Row> {
    if entries == [] then []
    else
      var rows := AfterAppends(s, entries[..|entries| - 1]);
      var r := RowOf(s, entries[|entries| - 1], Head(rows));
      if Admits(rows, r) then rows + [r] else rows
  }

  lemma AppendedRowLinks(s: Scheme, e: Entry, previousHash: string)
    requires Settled(s.rules)
    ensures Linked(s, RowOf(s, e, previousHash), previousHash)
  {
    RedactionIdempotent(s.rules, e.details, "");
    assert EntryOfRow(RowOf(s, e, previousHash)) == e.(details := Redact(s.rules, e.details, ""));
  }

  /** Any run of appends leaves a chain that verifies, although the verifier redacts the stored details again. */
  lemma {:induction false} AppendsVerify(s: Scheme, entries: seq<Entry>)
    requires Settled(s.rules)
    ensures ChainOk(s, AfterAppends(s, entries))
  {
    if entries != [] {
      var init, e := entries[..|entries| - 1], entries[|entries| - 1];
      AppendsVerify(s, init);
      var rows := AfterAppends(s, init);
      AppendedRowLinks(s, e, Head(rows));
      ChainExtends(s, rows, RowOf(s, e, Head(rows)));
    }
  }

  /** Two stored rows say the same, apart from what redaction would hide. */
  predicate SameRecord(s: Scheme, a: Row, b: Row) {
    && CanonicalBody(s, EntryOfRow(a), a.previousHash) == CanonicalBody(s, EntryOfRow(b), b.previousHash)
    && a.recordHash == b.recordHash
  }

  lemma LinksAgree(s: Scheme, a: Row, b: Row, p: string, q: string)
    requires Sound(s) && Linked(s, a, p) && Linked(s, b, q) && a.recordHash == b.recordHash
    ensures p == q && SameRecord(s, a, b)
  {
    var x, y := CanonicalBody(s, EntryOfRow(a), p), CanonicalBody(s, EntryOfRow(b), q);
    assert s.hash(x) == s.hash(y);
  }

  lemma {:induction false} LastLinked(s: Scheme, rows: seq<Row>)
    requires ChainOk(s, rows) && rows != []
    ensures ChainOk(s, rows[..|rows| - 1]) && Linked(s, rows[|rows| - 1], Head(rows[..|rows| - 1]))
    ensures Sound(s) ==> Head(rows) != ""
  {
  }

  /**
   The head hash commits to the whole log: two chains that verify and end in the same hash have
   the same length and agree record by record, up to redaction of details.
   */
  lemma {:induction false} HeadDeterminesLog(s: Scheme, a: seq<Row>, b: seq<Row>)
    requires Sound(s) && ChainOk(s, a) && ChainOk(s, b) && Head(a) == Head(b)
    ensures |a| == |b|
    ensures forall i :: 0 <= i < |a| ==> SameRecord(s, a[i], b[i])
  {
    if a != [] && b != [] {
      HeadsAgree(s, a, b);
      HeadDeterminesLog(s, a[..|a| - 1], b[..|b| - 1]);
      RecordsAgree(s, a, b, a[..|a| - 1], b[..|b| - 1]);
    } else if a != [] {
      LastLinked(s, a);
    } else if b != [] {
      LastLinked(s, b);
    }
  }

  lemma {:induction false} HeadsAgree(s: Scheme, a: seq<Row>, b: seq<Row>)
    requires Sound(s) && ChainOk(s, a) && ChainOk(s, b) && a != [] && b != [] && Head(a) == Head(b)
    ensures var p, q := a[..|a| - 1], b[..|b| - 1];
            ChainOk(s, p) && ChainOk(s, q) && Head(p) == Head(q) && SameRecord(s, a[|a| - 1], b[|b| - 1])
  {
    LastLinked(s, a);
    LastLinked(s, b);
    LinksAgree(s, a[|a| - 1], b[|b| - 1], Head(a[..|a| - 1]), Head(b[..|b| - 1]));
  }

  lemma RecordsAgree(s: Scheme, a: seq<Row>, b: seq<Row>, p: seq<Row>, q: seq<Row>)
    requires |a| == |b| > 0 && SameRecord(s, a[|a| - 1], b[|b| - 1])
    requires p == a[..|a| - 1] && q == b[..|b| - 1]
    requires forall i :: 0 <= i < |p| ==> SameRecord(s, p[i], q[i])
    ensures forall i :: 0 <= i < |a| ==> SameRecord(s, a[i], b[i])
  {
    forall i | 0 <= i < |a| ensures SameRecord(s, a[i], b[i]) {
      if i < |p| { assert p[i] == a[i] && q[i] == b[i]; }
    }
  }

  /** Rows in stored form that hash to the same content are equal. */
  lemma StoredRowsAgree(s: Scheme, a: Row, b: Row)
    requires SameRecord(s, a, b)
    requires Clean(s.rules, a.details, "") && a.success in {None, Some(0), Some(1)}
    requires Clean(s.rules, b.details, "") && b.success in {None, Some(0), Some(1)}
    ensures a == b
  {
    CleanIffUnchanged(s.rules, a.details, "");
    CleanIffUnchanged(s.rules, b.details, "");
  }

  /** For logs written by appends the agreement is exact: equal heads mean equal tables. */
  lemma {:induction false} HeadDeterminesAppendedLog(s: Scheme, p: seq<Entry>, q: seq<Entry>)
    requires Sound(s) && Head(AfterAppends(s, p)) == Head(AfterAppends(s, q))
    ensures AfterAppends(s, p) == AfterAppends(s, q)
  {
    var a, b := AfterAppends(s, p), AfterAppends(s, q);
    AppendsVerify(s, p);
    AppendsVerify(s, q);
    HeadDeterminesLog(s, a, b);
    StoredForm(s, p);
    StoredForm(s, q);
    forall i | 0 <= i < |a| ensures a[i] == b[i] {
      assert a[i] in a && b[i] in b;
      StoredRowsAgree(s, a[i], b[i]);
    }
  }

  lemma {:induction false} StoredForm(s: Scheme, entries: seq<Entry>)
    requires Settled(s.rules)
    ensures forall r | r in AfterAppends(s, entries) ::
              Clean(s.rules, r.details, "") && r.success in {None, Some(0), Some(1)}
  {
    if entries != [] {
      StoredForm(s, entries[..|entries| - 1]);
      RedactionIsClean(s.rules, entries[|entries| - 1].details, "");
    }
  }

  /**
   What the chain alone cannot show: every prefix of a verified log verifies, so removed tail records go unnoticed.
   */
  lemma {:induction false} PrefixVerifies(s: Scheme, rows: seq<Row>, n: nat)
    requires n <= |rows| && ChainOk(s, rows)
    ensures ChainOk(s, rows[..n])
  {
    if n < |rows| {
      PrefixVerifies(s, rows[..|rows| - 1], n);
      assert rows[..|rows| - 1][..n] == rows[..n];
    } else {
      assert rows[..n] == rows;
    }
  }
}
