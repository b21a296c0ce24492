/** The part of the Zod schema library (version 3) that the product schemas use:
    the JavaScript values a request can carry, the issue records a failed parse
    reports, and the declarative schema types `z.object`, `z.string().min(n)`,
    `z.string().regex(/^\d+$/, message)`, `z.number().int().positive()` and
    `.optional()`, with the issues their parse produces. */
module Zod {
  import opened Text

  /** A JavaScript value as it arrives in a request. Numbers are exact
      rationals; `NaN` is kept apart because Zod reports it as its own type. */
  datatype Value =
    | Undefined
    | Null
    | Bool(b: bool)
    | Num(x: real)
    | NaN
    | Str(s: string)
    | Arr(elems: seq<Value>)
    | Obj(fields: map<string, Value>)

  /** The type name Zod reports as `received` (its `getParsedType`). */
  function ParsedType(v: Value): string {
    match v
    case Undefined => "undefined"
    case Null => "null"
    case Bool(_) => "boolean"
    case Num(_) => "number"
    case NaN => "nan"
    case Str(_) => "string"
    case Arr(_) => "array"
    case Obj(_) => "object"
  }

  /** `obj[key]`: a missing key reads as `undefined`. */
  function FieldOf(fields: map<string, Value>, key: string): Value {
    if key in fields then fields[key] else Undefined
  }

  predicate IsInteger(x: real) {
    x.Floor as real == x
  }

  datatype PathElem = Key(name: string) | Index(index: nat)

  /** Every issue code Zod 3 defines. */
  datatype IssueCode =
    | InvalidType | InvalidLiteral | Custom | InvalidUnion | InvalidUnionDiscriminator
    | InvalidEnumValue | UnrecognizedKeys | InvalidArguments | InvalidReturnType
    | InvalidDate | InvalidString | TooSmall | TooBig | InvalidIntersectionTypes
    | NotMultipleOf | NotFinite

  /** An issue of a `ZodError`. Fields a code does not use hold "", 0 or []. */
  datatype Issue = Issue(
    code: IssueCode,
    path: seq<PathElem>,
    expected: string,
    received: string,
    minimum: int,
    maximum: int,
    options: seq<string>,
    message: string)

  datatype StringCheck = MinLength(length: nat) | DigitsRegex(regexMessage: string)

  datatype NumberCheck = IsInt | Positive

  /** A field schema: `z.string()` or `z.number()` with their checks in
      declaration order, or `.optional()` around another field schema. */
  datatype ZodType =
    | ZString(stringChecks: seq<StringCheck>)
    | ZNumber(numberChecks: seq<NumberCheck>)
    | ZOptional(inner: ZodType)

  /** `z.object({...})`: the shape's keys in declaration order. */
  datatype ObjectSchema = ObjectSchema(shape: seq<(string, ZodType)>)

  function InvalidTypeIssue(path: seq<PathElem>, expected: string, v: Value): Issue {
    var received := ParsedType(v);
    Issue(InvalidType, path, expected, received, 0, 0, [],
          if v.Undefined? then "Required" else "Expected " + expected + ", received " + received)
  }

  predicate StringCheckHolds(c: StringCheck, s: string) {
    match c
    case MinLength(n) => |s| >= n
    case DigitsRegex(_) => AllDigits(s)
  }

  function StringCheckIssue(c: StringCheck, path: seq<PathElem>): Issue {
    match c
    case MinLength(n) =>
      Issue(TooSmall, path, "", "", n, 0, [],
            "String must contain at least " + NatToString(n) + " character(s)")
    case DigitsRegex(message) =>
      Issue(InvalidString, path, "", "", 0, 0, [], message)
  }

  predicate NumberCheckHolds(c: NumberCheck, x: real) {
    match c
    case IsInt => IsInteger(x)
    case Positive => x > 0.0
  }

  function NumberCheckIssue(c: NumberCheck, path: seq<PathElem>): Issue {
    match c
    case IsInt => Issue(InvalidType, path, "integer", "float", 0, 0, [], "Expected integer, received float")
    case Positive => Issue(TooSmall, path, "", "", 0, 0, [], "Number must be greater than 0")
  }

  /** Zod runs every check of a string and reports each one that fails. */
  function StringCheckIssues(checks: seq<StringCheck>, s: string, path: seq<PathElem>): (r: seq<Issue>)
    ensures |r| <= |checks|
    ensures forall i :: 0 <= i < |r| ==> r[i].path == path
    ensures r == [] <==> forall k :: 0 <= k < |checks| ==> StringCheckHolds(checks[k], s)
    decreases |checks|
  {
    if checks == [] then []
    else
      var rest := StringCheckIssues(checks[1..], s, path);
      assert forall k :: 1 <= k < |checks| ==> checks[k] == checks[1..][k - 1];
      (if StringCheckHolds(checks[0], s) then [] else [StringCheckIssue(checks[0], path)]) + rest
  }

  /** Likewise for the checks of a number. */
  function NumberCheckIssues(checks: seq<NumberCheck>, x: real, path: seq<PathElem>): (r: seq<Issue>)
    ensures |r| <= |checks|
    ensures forall i :: 0 <= i < |r| ==> r[i].path == path
    ensures r == [] <==> forall k :: 0 <= k < |checks| ==> NumberCheckHolds(checks[k], x)
    decreases |checks|
  {
    if checks == [] then []
    else
      var rest := NumberCheckIssues(checks[1..], x, path);
      assert forall k :: 1 <= k < |checks| ==> checks[k] == checks[1..][k - 1];
      (if NumberCheckHolds(checks[0], x) then [] else [NumberCheckIssue(checks[0], path)]) + rest
  }

  /** What the value of one field must be for the field schema to accept it,
      stated without the issue machinery. */
  predicate Satisfies(t: ZodType, v: Value) {
    match t
    case ZOptional(inner) => v.Undefined? || Satisfies(inner, v)
    case ZString(cs) => v.Str? && forall k :: 0 <= k < |cs| ==> StringCheckHolds(cs[k], v.s)
    case ZNumber(cs) => v.Num? && forall k :: 0 <= k < |cs| ==> NumberCheckHolds(cs[k], v.x)
  }

  /** The issues of parsing one field value; all of them carry the field's path,
      and there are none exactly when the value satisfies the field schema. */
  function ParseField(t: ZodType, v: Value, path: seq<PathElem>): (r: seq<Issue>)
    ensures forall i :: 0 <= i < |r| ==> r[i].path == path
    ensures r == [] <==> Satisfies(t, v)
  {
    match t
    case ZOptional(inner) => if v.Undefined? then [] else ParseField(inner, v, path)
    case ZString(cs) => if v.Str? then StringCheckIssues(cs, v.s, path) else [InvalidTypeIssue(path, "string", v)]
    case ZNumber(cs) => if v.Num? then NumberCheckIssues(cs, v.x, path) else [InvalidTypeIssue(path, "number", v)]
  }

  /** The keys of a shape, in declaration order. */
  function ShapeKeys(shape: seq<(string, ZodType)>): (keys: seq<string>)
    ensures |keys| == |shape|
    ensures forall k :: 0 <= k < |shape| ==> keys[k] == shape[k].0
  {
    seq(|shape|, k requires 0 <= k < |shape| => shape[k].0)
  }

  /** Every field of the shape, in declaration order; the issues of all fields
      are collected, none is skipped because an earlier one failed. */
  function ShapeIssues(shape: seq<(string, ZodType)>, fields: map<string, Value>): (r: seq<Issue>)
    ensures r == [] <==> forall k :: 0 <= k < |shape| ==> Satisfies(shape[k].1, FieldOf(fields, shape[k].0))
    decreases |shape|
  {
    if shape == [] then []
    else
      var rest := ShapeIssues(shape[1..], fields);
      assert forall k :: 1 <= k < |shape| ==> shape[k] == shape[1..][k - 1];
      ParseField(shape[0].1, FieldOf(fields, shape[0].0), [Key(shape[0].0)]) + rest
  }

  /** Each issue of a shape is reported at the path of one of its keys. */
  lemma {:induction false} ShapeIssuePaths(shape: seq<(string, ZodType)>, fields: map<string, Value>, i: nat)
    requires i < |ShapeIssues(shape, fields)|
    ensures var p := ShapeIssues(shape, fields)[i].path; |p| == 1 && p[0].Key? && p[0].name in ShapeKeys(shape)
    decreases |shape|
  {
    var first := ParseField(shape[0].1, FieldOf(fields, shape[0].0), [Key(shape[0].0)]);
    var rest := ShapeIssues(shape[1..], fields);
    assert ShapeIssues(shape, fields) == first + rest;
    if i < |first| {
      assert ShapeIssues(shape, fields)[i] == first[i];
      assert ShapeKeys(shape)[0] == shape[0].0;
    } else {
      assert ShapeIssues(shape, fields)[i] == rest[i - |first|];
      ShapeIssuePaths(shape[1..], fields, i - |first|);
      assert ShapeKeys(shape[1..]) == ShapeKeys(shape)[1..];
    }
  }

  /** `schema.safeParse(value).error.issues` (empty when the parse succeeds): a
      value that is not an object fails with one `invalid_type` issue whose
      path is empty; otherwise the shape's issues. */
  function ParseObject(schema: ObjectSchema, v: Value): (r: seq<Issue>)
    ensures !v.Obj? ==> r == [InvalidTypeIssue([], "object", v)]
    ensures v.Obj? ==> r == ShapeIssues(schema.shape, v.fields)
  {
    if v.Obj? then ShapeIssues(schema.shape, v.fields) else [InvalidTypeIssue([], "object", v)]
  }

  /** The issues of a shape, entry by entry. */
  function EntryIssues(entry: (string, ZodType), fields: map<string, Value>): seq<Issue> {
    ParseField(entry.1, FieldOf(fields, entry.0), [Key(entry.0)])
  }

  /** A four-field shape reports its fields' issues in declaration order. */
  lemma ShapeIssuesOfFour(a: (string, ZodType), b: (string, ZodType), c: (string, ZodType), d: (string, ZodType), fields: map<string, Value>)
    ensures ShapeIssues([a, b, c, d], fields) ==
      EntryIssues(a, fields) + EntryIssues(b, fields) + EntryIssues(c, fields) + EntryIssues(d, fields)
  {
    assert [a, b, c, d][1..] == [b, c, d];
    assert [b, c, d][1..] == [c, d];
    assert [c, d][1..] == [d];
    assert [d][1..] == [];
    assert ShapeIssues([d], fields) == EntryIssues(d, fields) + [];
    assert ShapeIssues([c, d], fields) == EntryIssues(c, fields) + ShapeIssues([d], fields);
    assert ShapeIssues([b, c, d], fields) == EntryIssues(b, fields) + ShapeIssues([c, d], fields);
    assert ShapeIssues([a, b, c, d], fields) == EntryIssues(a, fields) + ShapeIssues([b, c, d], fields);
  }

  /** Zod does not stop at the first bad field: every field the value fails
      is reported with at least one issue at that field's path. */
  lemma {:induction false} FailingFieldReported(shape: seq<(string, ZodType)>, fields: map<string, Value>, k: nat)
    requires k < |shape| && !Satisfies(shape[k].1, FieldOf(fields, shape[k].0))
    ensures exists i :: 0 <= i < |ShapeIssues(shape, fields)| && ShapeIssues(shape, fields)[i].path == [Key(shape[k].0)]
    decreases k
  {
    var first := ParseField(shape[0].1, FieldOf(fields, shape[0].0), [Key(shape[0].0)]);
    var rest := ShapeIssues(shape[1..], fields);
    assert ShapeIssues(shape, fields) == first + rest;
    if k == 0 {
      assert first != [];
      assert ShapeIssues(shape, fields)[0] == first[0];
    } else {
      assert shape[1..][k - 1] == shape[k];
      FailingFieldReported(shape[1..], fields, k - 1);
      var i :| 0 <= i < |rest| && rest[i].path == [Key(shape[k].0)];
      assert ShapeIssues(shape, fields)[|first| + i] == rest[i];
    }
  }
}
