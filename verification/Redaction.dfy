/** backend/app/redaction.py: key-name redaction of trace payloads. */
module Redaction {
  import opened Json

  const REDACTED := "[REDACTED]"

  const SENSITIVE_KEYS: set<string> :=
    {"name", "email", "phone", "phone_number", "address", "ssn", "credit_card", "card_number"}

  /** Lower-casing. Only ASCII letters matter here: no other character lower-cases
      into a letter that occurs in a sensitive key. */
  function LowerChar(c: char): char {
    if 'A' <= c <= 'Z' then (c as int + 32) as char else c
  }

  function Lower(s: string): string {
    seq(|s|, i requires 0 <= i < |s| => LowerChar(s[i]))
  }

  predicate Sensitive(key: string) {
    Lower(key) in SENSITIVE_KEYS
  }

  function Redact(v: Json): Json {
    match v
    case Obj(d) => Obj(map k | k in d :: if Sensitive(k) then Str(REDACTED) else Redact(d[k]))
    case Arr(items) => Arr(seq(|items|, i requires 0 <= i < |items| => Redact(items[i])))
    case _ => v
  }

  function RedactDict(d: Dict): Dict {
    Redact(Obj(d)).fields
  }

  /** Two values agree off the sensitive keys: same shape, same leaves, and at every
      object the same keys, with the values of insensitive keys agreeing in turn. */
  ghost predicate AgreeOffSensitive(a: Json, b: Json) {
    match a
    case Obj(d) =>
      b.Obj? && d.Keys == b.fields.Keys &&
      forall k | k in d && !Sensitive(k) :: AgreeOffSensitive(d[k], b.fields[k])
    case Arr(items) =>
      b.Arr? && |items| == |b.items| &&
      forall i | 0 <= i < |items| :: AgreeOffSensitive(items[i], b.items[i])
    case _ => a == b
  }

  /** Nothing readable is left under a sensitive key, at any depth. */
  ghost predicate Clean(v: Json) {
    match v
    case Obj(d) =>
      forall k | k in d :: if Sensitive(k) then d[k] == Str(REDACTED) else Clean(d[k])
    case Arr(items) => forall i | 0 <= i < |items| :: Clean(items[i])
    case _ => true
  }

  lemma {:induction false} RedactedIsClean(v: Json)
    ensures Clean(Redact(v))
  {
    match v
    case Obj(d) =>
      forall k | k in d && !Sensitive(k) ensures Clean(Redact(d[k])) { RedactedIsClean(d[k]); }
    case Arr(items) =>
      forall i | 0 <= i < |items| ensures Clean(Redact(items[i])) { RedactedIsClean(items[i]); }
    case _ =>
  }

  /** Redaction leaves a value alone exactly when it is already clean. */
  lemma {:induction false} CleanIffFixed(v: Json)
    ensures Clean(v) <==> Redact(v) == v
  {
    match v
    case Obj(d) =>
      forall k | k in d ensures Clean(d[k]) <==> Redact(d[k]) == d[k] { CleanIffFixed(d[k]); }
      if Redact(v) == v {
        forall k | k in d
          ensures if Sensitive(k) then d[k] == Str(REDACTED) else Clean(d[k])
        {
          assert RedactDict(d)[k] == d[k];
        }
      }
      assert Clean(v) ==> RedactDict(d) == d;
    case Arr(items) =>
      forall i | 0 <= i < |items| ensures Clean(items[i]) <==> Redact(items[i]) == items[i] {
        CleanIffFixed(items[i]);
      }
      if Redact(v) == v {
        forall i | 0 <= i < |items| ensures Clean(items[i]) {
          assert Redact(v).items[i] == items[i];
        }
      }
    case _ =>
  }

  lemma {:induction false} RedactIdempotent(v: Json)
    ensures Redact(Redact(v)) == Redact(v)
  {
    RedactedIsClean(v);
    CleanIffFixed(Redact(v));
  }

  /** The kernel of redaction: it identifies two values exactly when they agree off
      the sensitive keys, so it hides every sensitive difference and no other. */
  lemma {:induction false} RedactKernel(a: Json, b: Json)
    ensures Redact(a) == Redact(b) <==> AgreeOffSensitive(a, b)
  {
    match a
    case Obj(d) =>
      if b.Obj? && d.Keys == b.fields.Keys {
        forall k | k in d && !Sensitive(k)
          ensures Redact(d[k]) == Redact(b.fields[k]) <==> AgreeOffSensitive(d[k], b.fields[k])
        {
          RedactKernel(d[k], b.fields[k]);
        }
        if Redact(a) == Redact(b) {
          forall k | k in d && !Sensitive(k) ensures Redact(d[k]) == Redact(b.fields[k]) {
            assert RedactDict(d)[k] == RedactDict(b.fields)[k];
          }
        }
        assert AgreeOffSensitive(a, b) ==> RedactDict(d) == RedactDict(b.fields);
      } else {
        assert RedactDict(d).Keys == d.Keys;
        assert b.Obj? ==> RedactDict(b.fields).Keys == b.fields.Keys;
      }
    case Arr(items) =>
      if b.Arr? && |items| == |b.items| {
        forall i | 0 <= i < |items|
          ensures Redact(items[i]) == Redact(b.items[i]) <==> AgreeOffSensitive(items[i], b.items[i])
        {
          RedactKernel(items[i], b.items[i]);
        }
        if Redact(a) == Redact(b) {
          forall i | 0 <= i < |items| ensures Redact(items[i]) == Redact(b.items[i]) {
            assert Redact(a).items[i] == Redact(b).items[i];
          }
        }
      } else {
        assert |Redact(a).items| == |items|;
        assert b.Arr? ==> |Redact(b).items| == |b.items|;
      }
    case _ =>
  }

  /** The key is one of the eight names, each of its letters in either case. */
  ghost predicate Spells(key: string, name: string) {
    && |key| == |name|
    && forall i | 0 <= i < |key| ::
         key[i] == name[i] || ('a' <= name[i] <= 'z' && key[i] as int + ('a' as int - 'A' as int) == name[i] as int)
  }

  ghost predicate SpellsSensitive(key: string) {
    exists name | name in {"name", "email", "phone", "phone_number", "address", "ssn", "credit_card", "card_number"} ::
      Spells(key, name)
  }

  /** A lower-case name is what lower-casing the key gives exactly when the key spells it. */
  lemma LowerSpells(key: string, name: string)
    requires forall i | 0 <= i < |name| :: !('A' <= name[i] <= 'Z')
    ensures Lower(key) == name <==> Spells(key, name)
  {
    if Spells(key, name) {
      assert forall i | 0 <= i < |key| :: Lower(key)[i] == name[i];
    }
    if Lower(key) == name {
      assert forall i | 0 <= i < |key| :: LowerChar(key[i]) == name[i];
    }
  }

  /** Main result: what redaction does to an object: a value under one of the eight names, in
      any letter case, becomes the placeholder, and any other is redacted in its turn. */
  lemma EightNamesRedacted(d: Dict, key: string)
    requires key in d
    ensures RedactDict(d).Keys == d.Keys
    ensures RedactDict(d)[key] == if SpellsSensitive(key) then Str("[REDACTED]") else Redact(d[key])
  {
    var names := {"name", "email", "phone", "phone_number", "address", "ssn", "credit_card", "card_number"};
    forall name | name in names ensures Lower(key) == name <==> Spells(key, name) {
      LowerSpells(key, name);
    }
  }

  /** No sensitive key has this length, or none of this length starts so. */
  lemma InsensitiveByShape(key: string)
    requires |key| !in {3, 4, 5, 7, 11, 12}
          || (|key| == 5 && key[1] == 'o') || (|key| == 12 && key[0] == 'i')
          || (|key| == 7 && key[1] in {'o', 'a', 'e', 't'})
    ensures !Sensitive(key)
  {
    assert |Lower(key)| == |key|;
    assert |key| >= 2 ==> Lower(key)[0] == LowerChar(key[0]) && Lower(key)[1] == LowerChar(key[1]);
  }

  const SCHEMA_KEYS: seq<string> :=
    ["messages", "model", "params", "content", "tool_calls", "finish_reason", "input_tokens",
     "output_tokens", "call_id", "service", "operation", "arguments", "result", "attempt",
     "reason", "error_type", "message"]

  /** The field names of the trace payload schemas are all insensitive. */
  lemma SchemaKeysInsensitive()
    ensures forall k | k in SCHEMA_KEYS :: !Sensitive(k)
  {
    forall k | k in SCHEMA_KEYS ensures !Sensitive(k) {
      InsensitiveByShape(k);
    }
  }
}
