/** Recursive redaction of sensitive fields in structured log events. */
module Redaction {
  import opened Prelude

  /** Dictionary keys may be anything hashable; only text can be sensitive. */
  datatype Key = Name(text: string) | Opaque(tag: int)

  datatype Field = Field(key: Key, value: LogValue)

  datatype LogValue =
    | Dict(fields: seq<Field>)
    | List(items: seq<LogValue>)
    | Text(text: string)
    | Scalar(n: int)

  const REDACTED := Text("[REDACTED]")

  function LowerChar(c: char): char {
    if 'A' <= c <= 'Z' then c + 32 as char else c
  }

  function Lower(s: string): string {
    if s == [] then [] else [LowerChar(s[0])] + Lower(s[1..])
  }

  predicate Sensitive(key: Key, names: set<string>) {
    key.Name? && Lower(key.text) in names
  }

  /** The name is in lower case and reads like the text but for the case of its letters. */
  predicate ReadsLike(text: string, name: string) {
    && |text| == |name|
    && forall i :: 0 <= i < |text| ==>
         !('A' <= name[i] <= 'Z')
         && (text[i] == name[i] || ('A' <= text[i] <= 'Z' && name[i] as int == text[i] as int + 32))
  }

  lemma {:induction false} LowerIs(text: string, name: string)
    ensures Lower(text) == name <==> ReadsLike(text, name)
  {
    if text != [] && name != [] {
      LowerIs(text[1..], name[1..]);
      assert name == [name[0]] + name[1..];
      assert ReadsLike(text, name) ==> ReadsLike(text[1..], name[1..]);
      assert LowerChar(text[0]) == name[0] && ReadsLike(text[1..], name[1..]) ==> ReadsLike(text, name) by {
        if LowerChar(text[0]) == name[0] && ReadsLike(text[1..], name[1..]) {
          forall i | 0 <= i < |text|
            ensures !('A' <= name[i] <= 'Z')
                    && (text[i] == name[i] || ('A' <= text[i] <= 'Z' && name[i] as int == text[i] as int + 32))
          {
            if i > 0 {
              assert text[1..][i - 1] == text[i] && name[1..][i - 1] == name[i];
            }
          }
        }
      }
    }
  }

  /** Exactly which keys are sensitive: texts that read like a configured name in whatever case. A name that
      is configured with a capital letter protects nothing. */
  lemma SensitiveIff(key: Key, names: set<string>)
    ensures Sensitive(key, names) <==> key.Name? && exists name :: name in names && ReadsLike(key.text, name)
  {
    if key.Name? {
      forall name | name in names ensures Lower(key.text) == name <==> ReadsLike(key.text, name) {
        LowerIs(key.text, name);
      }
    }
  }

  function Redact(j: LogValue, names: set<string>): LogValue
    decreases j, 1
  {
    match j
    case Dict(fields) => Dict(RedactFields(fields, names))
    case List(items) => List(RedactItems(items, names))
    case _ => j
  }

  function RedactFields(fields: seq<Field>, names: set<string>): (r: seq<Field>)
    ensures |r| == |fields|
    decreases fields, 0
  {
    if fields == [] then [] else [RedactField(fields[0], names)] + RedactFields(fields[1..], names)
  }

  function RedactField(f: Field, names: set<string>): Field
    decreases f, 0
  {
    Field(f.key, if Sensitive(f.key, names) then REDACTED else Redact(f.value, names))
  }

  function RedactItems(items: seq<LogValue>, names: set<string>): (r: seq<LogValue>)
    ensures |r| == |items|
    decreases items, 0
  {
    if items == [] then [] else [Redact(items[0], names)] + RedactItems(items[1..], names)
  }

  /** One step into a value. */
  datatype Step = At(key: Key) | Nth(i: nat)

  function Find(fields: seq<Field>, key: Key): Option<LogValue> {
    if fields == [] then None else if fields[0].key == key then Some(fields[0].value) else Find(fields[1..], key)
  }

  function Into(j: LogValue, step: Step): Option<LogValue> {
    match step
    case At(key) => if j.Dict? then Find(j.fields, key) else None
    case Nth(i) => if j.List? && i < |j.items| then Some(j.items[i]) else None
  }

  /** The value at the end of a path, if there is one. */
  function Select(j: LogValue, path: seq<Step>): Option<LogValue>
    decreases |path|
  {
    if path == [] then Some(j)
    else
      var next := Into(j, path[0]);
      if next.None? then None else Select(next.value, path[1..])
  }

  predicate IsSensitive(step: Step, names: set<string>) {
    step.At? && Sensitive(step.key, names)
  }

  lemma {:induction false} RedactedField(fields: seq<Field>, key: Key, names: set<string>)
    ensures Find(RedactFields(fields, names), key) ==
      match Find(fields, key)
      case None => None
      case Some(v) => Some(if Sensitive(key, names) then REDACTED else Redact(v, names))
  {
    if fields != [] {
      RedactedField(fields[1..], key, names);
    }
  }

  lemma {:induction false} RedactedItem(items: seq<LogValue>, i: nat, names: set<string>)
    requires i < |items|
    ensures RedactItems(items, names)[i] == Redact(items[i], names)
  {
    if i > 0 {
      RedactedItem(items[1..], i - 1, names);
    }
  }

  /** One step into a redacted value. */
  lemma RedactedInto(j: LogValue, step: Step, names: set<string>)
    ensures Into(Redact(j, names), step) ==
      match Into(j, step)
      case None => None
      case Some(v) => Some(if IsSensitive(step, names) then REDACTED else Redact(v, names))
  {
    match step {
      case At(key) =>
        if j.Dict? { RedactedField(j.fields, key, names); }
      case Nth(i) =>
        if j.List? && i < |j.items| { RedactedItem(j.items, i, names); }
    }
  }

  /** What redaction leaves at a path: the first sensitive key on it ends the path, hiding whatever
      the event holds there, and on every other path the event is kept. */
  function Visible(j: LogValue, path: seq<Step>, names: set<string>): Option<LogValue>
    decreases |path|
  {
    if path == [] then Some(Redact(j, names))
    else
      var next := Into(j, path[0]);
      if next.None? then None
      else if IsSensitive(path[0], names) then (if |path| == 1 then Some(REDACTED) else None)
      else Visible(next.value, path[1..], names)
  }

  /** The whole effect of redaction, path by path. */
  lemma {:induction false} RedactionExact(j: LogValue, path: seq<Step>, names: set<string>)
    ensures Select(Redact(j, names), path) == Visible(j, path, names)
    decreases |path|
  {
    if path != [] {
      RedactedInto(j, path[0], names);
      if Into(j, path[0]).Some? && !IsSensitive(path[0], names) {
        RedactionExact(Into(j, path[0]).value, path[1..], names);
      }
    }
  }

  /** No sensitive key survives at any depth. */
  lemma NothingLeaks(j: LogValue, path: seq<Step>, names: set<string>)
    requires path != [] && IsSensitive(path[|path| - 1], names)
    ensures Select(Redact(j, names), path) in {None, Some(Text("[REDACTED]"))}
  {
    RedactionExact(j, path, names);
    VisibleHides(j, path, names);
  }

  lemma {:induction false} VisibleHides(j: LogValue, path: seq<Step>, names: set<string>)
    requires path != [] && IsSensitive(path[|path| - 1], names)
    ensures Visible(j, path, names) in {None, Some(REDACTED)}
    decreases |path|
  {
    if |path| > 1 && Into(j, path[0]).Some? && !IsSensitive(path[0], names) {
      VisibleHides(Into(j, path[0]).value, path[1..], names);
    }
  }

  /** Scalars off the sensitive paths are untouched. */
  lemma {:induction false} LeavesKept(j: LogValue, path: seq<Step>, names: set<string>)
    requires forall i :: 0 <= i < |path| ==> !IsSensitive(path[i], names)
    requires var leaf := Select(j, path); leaf.Some? && (leaf.value.Text? || leaf.value.Scalar?)
    ensures Select(Redact(j, names), path) == Select(j, path)
    decreases |path|
  {
    if path != [] {
      RedactedInto(j, path[0], names);
      LeavesKept(Into(j, path[0]).value, path[1..], names);
    }
  }

  lemma RedactIdempotent(j: LogValue, names: set<string>)
    ensures Redact(Redact(j, names), names) == Redact(j, names)
    decreases j, 1
  {
    match j {
      case Dict(fields) => FieldsIdempotent(fields, names);
      case List(items) => ItemsIdempotent(items, names);
      case _ =>
    }
  }

  lemma {:induction false} FieldsIdempotent(fields: seq<Field>, names: set<string>)
    ensures RedactFields(RedactFields(fields, names), names) == RedactFields(fields, names)
    decreases fields, 0
  {
    if fields != [] {
      FieldIdempotent(fields[0], names);
      FieldsIdempotent(fields[1..], names);
      assert RedactFields(fields, names)[1..] == RedactFields(fields[1..], names);
    }
  }

  lemma FieldIdempotent(f: Field, names: set<string>)
    ensures RedactField(RedactField(f, names), names) == RedactField(f, names)
    decreases f, 0
  {
    RedactIdempotent(f.value, names);
  }

  lemma {:induction false} ItemsIdempotent(items: seq<LogValue>, names: set<string>)
    ensures RedactItems(RedactItems(items, names), names) == RedactItems(items, names)
    decreases items, 0
  {
    if items != [] {
      RedactIdempotent(items[0], names);
      ItemsIdempotent(items[1..], names);
      assert RedactItems(items, names)[1..] == RedactItems(items[1..], names);
    }
  }
}
