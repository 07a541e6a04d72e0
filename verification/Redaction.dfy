/** Credential redaction over JSON-like trees. */
module Redaction {
  datatype Json =
    | JNull
    | JBool(b: bool)
    | JNumber(n: real)
    | JString(s: string)
    | JList(items: seq<Json>)
    | JTuple(items: seq<Json>)
    | JObject(fields: map<string, Json>)

  const REDACTED := "[REDACTED]"

  const FRAGMENTS: set<string> :=
    {"password", "secret", "token", "api_key", "apikey", "authorization", "message", "body", "content"}

  /** Lower-casing of keys, and the pattern substitutions applied to plain strings. */
  datatype Rules = Rules(lower: string -> string, text: string -> string)

  /** The substitutions find nothing more to replace in their own output. */
  ghost predicate Settled(rules: Rules) {
    forall s :: rules.text(rules.text(s)) == rules.text(s)
  }

  predicate OccursAt(s: string, i: nat, part: string) {
    i + |part| <= |s| && s[i..i + |part|] == part
  }

  predicate Contains(s: string, part: string) {
    exists i | 0 <= i <= |s| :: OccursAt(s, i, part)
  }

  predicate Sensitive(rules: Rules, key: string) {
    key != "" && exists f | f in FRAGMENTS :: Contains(rules.lower(key), f)
  }

  /** Redacts a value found under `key`; the empty key stands for no key. */
  function Redact(rules: Rules, v: Json, key: string): Json {
    if Sensitive(rules, key) then JString(REDACTED)
    else
      match v
      case JObject(fields) => JObject(map k | k in fields :: Redact(rules, fields[k], k))
      case JList(items) => JList(seq(|items|, i requires 0 <= i < |items| => Redact(rules, items[i], "")))
      case JTuple(items) => JList(seq(|items|, i requires 0 <= i < |items| => Redact(rules, items[i], "")))
      case JString(s) => JString(rules.text(s))
      case _ => v
  }

  /**
   A tree that exposes nothing: every sensitive field holds the mark, every other string is
   settled, and there are no tuples.
   */
  predicate Clean(rules: Rules, v: Json, key: string) {
    if Sensitive(rules, key) then v == JString(REDACTED)
    else
      match v
      case JObject(fields) => forall k | k in fields :: Clean(rules, fields[k], k)
      case JList(items) => forall i | 0 <= i < |items| :: Clean(rules, items[i], "")
      case JTuple(_) => false
      case JString(s) => rules.text(s) == s
      case _ => true
  }

  /** Redaction exposes nothing. */
  lemma {:induction false} RedactionIsClean(rules: Rules, v: Json, key: string)
    requires Settled(rules)
    ensures Clean(rules, Redact(rules, v, key), key)
  {
    if !Sensitive(rules, key) {
      match v {
        case JObject(fields) =>
          forall k | k in fields ensures Clean(rules, Redact(rules, fields[k], k), k) {
            RedactionIsClean(rules, fields[k], k);
          }
        case JList(items) =>
          forall i | 0 <= i < |items| ensures Clean(rules, Redact(rules, items[i], ""), "") {
            RedactionIsClean(rules, items[i], "");
          }
        case JTuple(items) =>
          forall i | 0 <= i < |items| ensures Clean(rules, Redact(rules, items[i], ""), "") {
            RedactionIsClean(rules, items[i], "");
          }
        case _ =>
      }
    }
  }

  /** Redaction leaves a tree alone exactly when the tree is clean. */
  lemma {:induction false} CleanIffUnchanged(rules: Rules, v: Json, key: string)
    ensures Clean(rules, v, key) <==> Redact(rules, v, key) == v
  {
    if !Sensitive(rules, key) {
      match v {
        case JObject(fields) =>
          forall k | k in fields ensures Clean(rules, fields[k], k) <==> Redact(rules, fields[k], k) == fields[k] {
            CleanIffUnchanged(rules, fields[k], k);
          }
          var r := map k | k in fields :: Redact(rules, fields[k], k);
          assert r == fields <==> forall k | k in fields :: r[k] == fields[k];
        case JList(items) =>
          forall i | 0 <= i < |items| ensures Clean(rules, items[i], "") <==> Redact(rules, items[i], "") == items[i] {
            CleanIffUnchanged(rules, items[i], "");
          }
          var r := seq(|items|, i requires 0 <= i < |items| => Redact(rules, items[i], ""));
          assert r == items <==> forall i | 0 <= i < |items| :: r[i] == items[i];
        case _ =>
      }
    }
  }

  /** Redacting twice is redacting once, for every tree and every key. */
  lemma {:induction false} RedactionIdempotent(rules: Rules, v: Json, key: string)
    requires Settled(rules)
    ensures Redact(rules, Redact(rules, v, key), key) == Redact(rules, v, key)
  {
    RedactionIsClean(rules, v, key);
    CleanIffUnchanged(rules, Redact(rules, v, key), key);
  }

  ghost predicate RepeatsUnchanged(rules: Rules, v: Json, key: string) {
    Redact(rules, Redact(rules, v, key), key) == Redact(rules, v, key)
  }

  /** Redaction of all trees is idempotent exactly when redaction of plain strings is. */
  lemma IdempotentIffSettled(rules: Rules)
    ensures (forall v, key :: RepeatsUnchanged(rules, v, key)) <==> Settled(rules)
  {
    if Settled(rules) {
      forall v, key ensures RepeatsUnchanged(rules, v, key) {
        RedactionIdempotent(rules, v, key);
      }
    } else {
      var s :| rules.text(rules.text(s)) != rules.text(s);
      assert !RepeatsUnchanged(rules, JString(s), "");
    }
  }
}
