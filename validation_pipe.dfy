/** `ZodValidationPipe`: runs a schema over an incoming value, lets the value
    through unchanged when it is accepted, and otherwise raises a
    `BadRequestException` whose body lists one formatted message per issue. */
module ValidationPipe {
  import opened Wrappers
  import opened Text
  import opened Zod
  import opened Exceptions

  /** How `schema.parse(value)` ended: it returned, it threw a `ZodError`
      with these issues, or it threw something else. */
  datatype ParseOutcome = Parsed | ZodFailure(issues: seq<Issue>) | Threw(error: Exception)

  const ValidationFailed := "Validation failed"

  /** `path[0]`, `undefined` for an empty path. */
  function FirstPathElem(path: seq<PathElem>): Option<PathElem> {
    if |path| > 0 then Some(path[0]) else None
  }

  /** `${path[0]}` in a template literal. */
  function FieldText(field: Option<PathElem>): string {
    match field
    case None => "undefined"
    case Some(Key(name)) => name
    case Some(Index(i)) => NatToString(i)
  }

  /** `formatErrorMessage`: a template chosen by the issue's code. */
  function FormatErrorMessage(issue: Issue): string {
    var f := FieldText(FirstPathElem(issue.path));
    match issue.code
    case InvalidType =>
      if issue.received == "undefined" then "The field " + f + " is required."
      else "The field " + f + " must be a " + issue.expected + ", but received " + issue.received + "."
    case TooSmall =>
      "The field " + f + " is too small. It should have at least " + IntToString(issue.minimum) + " characters."
    case TooBig =>
      "The field " + f + " is too large. It should have at most " + IntToString(issue.maximum) + " characters."
    case InvalidEnumValue =>
      "The field " + f + " must be one of the following values: " + Join(issue.options, ", ")
    case _ =>
      "The field " + f + " is invalid."
  }

  /** The callback of `error.errors.map(...)`. */
  function FormatError(issue: Issue): FormattedError {
    FormattedError(FirstPathElem(issue.path), FormatErrorMessage(issue))
  }

  /** `issues.map(FormatError)`: one entry per issue, in the issues' order. */
  function FormatErrors(issues: seq<Issue>): (r: seq<FormattedError>)
    ensures |r| == |issues|
    ensures forall k :: 0 <= k < |issues| ==> r[k].field == FirstPathElem(issues[k].path)
    ensures forall k :: 0 <= k < |issues| ==> r[k].message == FormatErrorMessage(issues[k])
    decreases |issues|
  {
    if issues == [] then []
    else
      var rest := FormatErrors(issues[1..]);
      assert forall k :: 1 <= k < |issues| ==> issues[k] == issues[1..][k - 1];
      [FormatError(issues[0])] + rest
  }

  /** The exception raised for a `ZodError` with these issues. */
  function ValidationException(issues: seq<Issue>): Exception {
    BadRequest(ValidationBody(400, ValidationFailed, FormatErrors(issues)))
  }

  /** The `try`/`catch` of `transform`: what the pipe does with each way the
      parse can end. */
  function Settle(value: Value, outcome: ParseOutcome): (r: Outcome<Value>)
    ensures r.Returned? <==> outcome.Parsed?
    ensures r.Returned? ==> r.value == value
    ensures outcome.ZodFailure? ==> r == Raised(ValidationException(outcome.issues))
    ensures outcome.Threw? ==> r == Raised(outcome.error)
  {
    match outcome
    case Parsed => Returned(value)
    case ZodFailure(issues) => Raised(ValidationException(issues))
    case Threw(e) => Raised(e)
  }

  /** What Zod's own parse hands back for an accepted object: the shape's
      keys only (unknown keys are stripped). The pipe does not use it. */
  function ParsedOutput(schema: ObjectSchema, value: Value): Value {
    match value
    case Obj(fields) =>
      var keys := ShapeKeys(schema.shape);
      Obj(map k | k in fields && k in keys :: fields[k])
    case _ => value
  }

  /** A pipe bound to one object schema. */
  datatype ZodValidationPipe = ZodValidationPipe(schema: ObjectSchema) {

    /** `this.schema.parse(value)`: throws a `ZodError` exactly when there are issues. */
    function Parse(value: Value): ParseOutcome {
      var issues := ParseObject(schema, value);
      if issues == [] then Parsed else ZodFailure(issues)
    }

    /** `transform(value)`: the value itself when the schema accepts it, and
        otherwise a 400 whose body has one entry per issue in the issues'
        order, each entry naming the first element of its issue's path. */
    function Transform(value: Value): (r: Outcome<Value>)
      ensures r.Returned? <==> ParseObject(schema, value) == []
      ensures r.Returned? ==> r.value == value
      ensures r.Raised? ==>
        var issues := ParseObject(schema, value);
        && r.exception.HttpException?
        && r.exception.status == 400
        && r.exception.response.ValidationBody?
        && r.exception.response.statusCode == 400
        && r.exception.response.message == ValidationFailed
        && |r.exception.response.errors| == |issues|
        && forall k :: 0 <= k < |issues| ==>
             r.exception.response.errors[k] == FormattedError(FirstPathElem(issues[k].path), FormatErrorMessage(issues[k]))
    {
      Settle(value, Parse(value))
    }
  }

  /** A refused value raises exactly the validation exception of its issues. */
  lemma RefusedWithIssues(schema: ObjectSchema, value: Value)
    requires ParseObject(schema, value) != []
    ensures ZodValidationPipe(schema).Transform(value) == Raised(ValidationException(ParseObject(schema, value)))
  {
  }

  /** The body a list of issues gives, entry by entry, for up to three issues. */
  lemma FormatErrorsUnfold(a: Issue, b: Issue, c: Issue)
    ensures FormatErrors([a]) == [FormatError(a)]
    ensures FormatErrors([a, b, c]) == [FormatError(a), FormatError(b), FormatError(c)]
  {
    assert [a, b, c][1..] == [b, c];
    assert [b, c][1..] == [c];
    assert [a][1..] == [];
  }

  /** The pipe passes unknown keys through: an accepted object keeps a key the
      schema does not declare, which Zod's own output would have dropped. */
  lemma TransformKeepsUndeclaredKeys(schema: ObjectSchema, fields: map<string, Value>, key: string)
    requires key in fields && key !in ShapeKeys(schema.shape)
    requires ParseObject(schema, Obj(fields)) == []
    ensures ZodValidationPipe(schema).Transform(Obj(fields)) == Returned(Obj(fields))
    ensures key !in ParsedOutput(schema, Obj(fields)).fields
  {
  }

  /** A throw that is not a `ZodError` is passed on as it is. */
  lemma OtherErrorsRethrown(value: Value, e: Exception)
    ensures Settle(value, Threw(e)) == Raised(e)
  {
  }

  /** The message templates, code by code. */
  lemma MessageTemplates(issue: Issue)
    ensures var f := FieldText(FirstPathElem(issue.path)); var m := FormatErrorMessage(issue);
      && (issue.code == InvalidType && issue.received == "undefined" ==> m == "The field " + f + " is required.")
      && (issue.code == InvalidType && issue.received != "undefined" ==>
            m == "The field " + f + " must be a " + issue.expected + ", but received " + issue.received + ".")
      && (issue.code == TooSmall ==>
            m == "The field " + f + " is too small. It should have at least " + IntToString(issue.minimum) + " characters.")
      && (issue.code == TooBig ==>
            m == "The field " + f + " is too large. It should have at most " + IntToString(issue.maximum) + " characters.")
      && (issue.code == InvalidEnumValue ==>
            m == "The field " + f + " must be one of the following values: " + Join(issue.options, ", "))
      && (issue.code !in {InvalidType, TooSmall, TooBig, InvalidEnumValue} ==> m == "The field " + f + " is invalid.")
  {
  }

  /** The issue's own `message`, and every path element after the first, never
      reach the formatted message: two issues that agree on the code, the first
      path element, `expected`, `received`, `minimum`, `maximum` and `options`
      are formatted alike. */
  lemma MessageIgnoresIssueText(a: Issue, b: Issue)
    requires a.code == b.code && FirstPathElem(a.path) == FirstPathElem(b.path)
    requires a.expected == b.expected && a.received == b.received
    requires a.minimum == b.minimum && a.maximum == b.maximum && a.options == b.options
    ensures FormatError(a) == FormatError(b)
  {
  }

  /** If `p + x + s == p + y + s` then `x == y`. */
  lemma CancelAffixes(p: string, x: string, y: string, s: string)
    requires p + x + s == p + y + s
    ensures x == y
  {
    assert |x| == |y|;
    assert x == (p + x + s)[|p|..|p| + |x|];
    assert y == (p + y + s)[|p|..|p| + |y|];
  }

  /** A `too_small` message names its bound: for the same field, different
      minimums give different messages, so the bound can be read back. */
  lemma TooSmallMessageDeterminesMinimum(a: Issue, b: Issue)
    requires a.code == TooSmall && b.code == TooSmall
    requires FirstPathElem(a.path) == FirstPathElem(b.path)
    ensures FormatErrorMessage(a) == FormatErrorMessage(b) ==> a.minimum == b.minimum
  {
    if FormatErrorMessage(a) == FormatErrorMessage(b) {
      var f := FieldText(FirstPathElem(a.path));
      var p := "The field " + f + " is too small. It should have at least ";
      var s := " characters.";
      assert FormatErrorMessage(a) == p + IntToString(a.minimum) + s;
      assert FormatErrorMessage(b) == p + IntToString(b.minimum) + s;
      CancelAffixes(p, IntToString(a.minimum), IntToString(b.minimum), s);
      IntToStringInjective(a.minimum, b.minimum);
    }
  }

  /** Likewise a `too_big` message names its maximum. */
  lemma TooBigMessageDeterminesMaximum(a: Issue, b: Issue)
    requires a.code == TooBig && b.code == TooBig
    requires FirstPathElem(a.path) == FirstPathElem(b.path)
    ensures FormatErrorMessage(a) == FormatErrorMessage(b) ==> a.maximum == b.maximum
  {
    if FormatErrorMessage(a) == FormatErrorMessage(b) {
      var f := FieldText(FirstPathElem(a.path));
      var p := "The field " + f + " is too large. It should have at most ";
      var s := " characters.";
      assert FormatErrorMessage(a) == p + IntToString(a.maximum) + s;
      assert FormatErrorMessage(b) == p + IntToString(b.maximum) + s;
      CancelAffixes(p, IntToString(a.maximum), IntToString(b.maximum), s);
      IntToStringInjective(a.maximum, b.maximum);
    }
  }

  /** An `invalid_enum_value` message lists every allowed option. */
  lemma EnumMessageListsEveryOption(issue: Issue, k: nat)
    requires issue.code == InvalidEnumValue && k < |issue.options|
    ensures Contains(FormatErrorMessage(issue), issue.options[k])
  {
    var f := FieldText(FirstPathElem(issue.path));
    var p := "The field " + f + " must be one of the following values: ";
    var joined := Join(issue.options, ", ");
    JoinContainsPart(issue.options, ", ", k);
    var i :| OccursAt(issue.options[k], joined, i);
    OccursAtShift(issue.options[k], p, joined, i);
    assert FormatErrorMessage(issue) == p + joined;
  }

  /** A missing field and a field of the wrong type are told apart. */
  lemma RequiredDiffersFromWrongType(a: Issue, b: Issue)
    requires a.code == InvalidType && a.received == "undefined"
    requires b.code == InvalidType && b.received != "undefined"
    requires FirstPathElem(a.path) == FirstPathElem(b.path)
    ensures FormatErrorMessage(a) != FormatErrorMessage(b)
  {
    var f := FieldText(FirstPathElem(a.path));
    var ma := FormatErrorMessage(a);
    var mb := FormatErrorMessage(b);
    var n := |"The field " + f + " "|;
    assert ma == ("The field " + f + " ") + "is required.";
    assert mb == ("The field " + f + " ") + "must be a " + b.expected + ", but received " + b.received + ".";
    assert ma[n] == 'i' && mb[n] == 'm';
  }
}
