/** The part of zod's `z.object({...}).safeParse` that the API routes rely
    on: each field is a `z.string()` followed by a chain of checks, and
    parsing collects one issue per failed check, field by field in schema
    order and check by check in chain order. Lengths are counted in UTF-16
    code units, as JavaScript's `length` does. */
module Validation {

  import opened Wrappers
  import opened JsStrings

  /** A validation issue: the field it is about and its message. */
  datatype Issue = Issue(path: string, message: string)

  /** The message zod reports for a missing field. */
  const RequiredMessage: string := "Required"

  /** One check of a `z.string()` chain. `Format` stands for `.email()` or
      `.url()`, whose recognisers are parameters of the model. */
  datatype Check =
    | MinLength(bound: nat, message: string)
    | MaxLength(bound: nat, message: string)
    | Format(valid: string -> bool, message: string)

  predicate Passes(c: Check, s: string)
  {
    match c
    case MinLength(n, _) => Utf16Length(s) >= n
    case MaxLength(n, _) => Utf16Length(s) <= n
    case Format(valid, _) => valid(s)
  }

  /** A schema field: its key and its check chain. */
  datatype Field = Field(name: string, checks: seq<Check>)

  /** The field is present as a string and passes every check. */
  predicate Accepts(f: Field, value: Option<string>)
  {
    value.Some? && forall j :: 0 <= j < |f.checks| ==> Passes(f.checks[j], value.value)
  }

  /** The issues of one string against a check chain: one per failed
      check, each carrying that check's message, none when all pass. */
  function CheckIssues(name: string, checks: seq<Check>, s: string): (issues: seq<Issue>)
    ensures |issues| <= |checks|
    ensures issues == [] <==> forall j :: 0 <= j < |checks| ==> Passes(checks[j], s)
    ensures forall k :: 0 <= k < |issues| ==>
              issues[k].path == name &&
              exists j :: 0 <= j < |checks| && !Passes(checks[j], s) && issues[k].message == checks[j].message
    decreases |checks|
  {
    if |checks| == 0 then []
    else
      var rest := CheckIssues(name, checks[1..], s);
      assert forall k :: 0 <= k < |rest| ==>
        exists j :: 0 <= j < |checks| && !Passes(checks[j], s) && rest[k].message == checks[j].message
      by {
        forall k | 0 <= k < |rest|
          ensures exists j :: 0 <= j < |checks| && !Passes(checks[j], s) && rest[k].message == checks[j].message
        {
          var j :| 0 <= j < |checks[1..]| && !Passes(checks[1..][j], s) && rest[k].message == checks[1..][j].message;
          assert checks[1..][j] == checks[j + 1];
        }
      }
      if Passes(checks[0], s) then rest else [Issue(name, checks[0].message)] + rest
  }

  /** A failed check always shows up, with its message, among the issues. */
  lemma {:induction false} FailedCheckReported(name: string, checks: seq<Check>, s: string, j: nat)
    requires j < |checks| && !Passes(checks[j], s)
    ensures Issue(name, checks[j].message) in CheckIssues(name, checks, s)
    decreases j
  {
    if j > 0 {
      FailedCheckReported(name, checks[1..], s, j - 1);
      assert checks[1..][j - 1] == checks[j];
    }
  }

  /** The issues of one field: "Required" when it is missing, else those of
      its check chain. */
  function FieldIssues(f: Field, value: Option<string>): (issues: seq<Issue>)
    ensures issues == [] <==> Accepts(f, value)
    ensures forall k :: 0 <= k < |issues| ==> issues[k].path == f.name
  {
    match value
    case None => [Issue(f.name, RequiredMessage)]
    case Some(s) => CheckIssues(f.name, f.checks, s)
  }

  /** `safeParse` of an object: the issues of every field in schema order. */
  function SchemaIssues(fields: seq<Field>, values: seq<Option<string>>): (issues: seq<Issue>)
    requires |fields| == |values|
    ensures issues == [] <==> forall i :: 0 <= i < |fields| ==> Accepts(fields[i], values[i])
    ensures forall k :: 0 <= k < |issues| ==> exists i :: 0 <= i < |fields| && issues[k].path == fields[i].name
    decreases |fields|
  {
    if |fields| == 0 then []
    else
      var here := FieldIssues(fields[0], values[0]);
      var rest := SchemaIssues(fields[1..], values[1..]);
      assert forall i :: 1 <= i < |fields| ==> fields[1..][i - 1] == fields[i] && values[1..][i - 1] == values[i];
      here + rest
  }

  /** Every issue of a field appears among the issues of the whole schema. */
  lemma {:induction false} FieldIssuesReported(fields: seq<Field>, values: seq<Option<string>>, i: nat)
    requires |fields| == |values| && i < |fields|
    ensures forall k :: 0 <= k < |FieldIssues(fields[i], values[i])| ==>
              FieldIssues(fields[i], values[i])[k] in SchemaIssues(fields, values)
    decreases i
  {
    var mine := FieldIssues(fields[i], values[i]);
    var head := FieldIssues(fields[0], values[0]);
    var rest := SchemaIssues(fields[1..], values[1..]);
    assert SchemaIssues(fields, values) == head + rest;
    if i == 0 {
      forall k | 0 <= k < |mine|
        ensures mine[k] in head + rest
      {
        assert (head + rest)[k] == mine[k];
      }
    } else {
      FieldIssuesReported(fields[1..], values[1..], i - 1);
      assert fields[1..][i - 1] == fields[i] && values[1..][i - 1] == values[i];
      forall k | 0 <= k < |mine|
        ensures mine[k] in head + rest
      {
        assert mine[k] in rest;
      }
    }
  }

  /** A field with a minimum and a maximum length accepts exactly the
      strings whose length lies between the two. */
  lemma LengthFieldAccepts(name: string, min: nat, minMessage: string, max: nat, maxMessage: string,
                           value: Option<string>)
    ensures Accepts(Field(name, [MinLength(min, minMessage), MaxLength(max, maxMessage)]), value) <==>
              value.Some? && min <= Utf16Length(value.value) <= max
  {
    var checks := [MinLength(min, minMessage), MaxLength(max, maxMessage)];
    if value.Some? {
      assert Passes(checks[0], value.value) <==> min <= Utf16Length(value.value);
      assert Passes(checks[1], value.value) <==> Utf16Length(value.value) <= max;
    }
  }

  /** A field with a single format check accepts exactly the strings the
      recogniser accepts. */
  lemma FormatFieldAccepts(name: string, valid: string -> bool, message: string, value: Option<string>)
    ensures Accepts(Field(name, [Format(valid, message)]), value) <==> value.Some? && valid(value.value)
  {
    if value.Some? {
      assert Passes([Format(valid, message)][0], value.value) <==> valid(value.value);
    }
  }
}
