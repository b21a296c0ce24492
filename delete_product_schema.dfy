/** `deleteProductSchema`: an object whose `id` is a string of decimal digits. */
module DeleteProductSchema {
  import opened Text
  import opened Zod

  /** The custom message given to the regular expression check. */
  const IdMessage := "ID must be a valid number"

  /** `z.string().regex(/^\d+$/, IdMessage)` */
  const IdType := ZString([DigitsRegex(IdMessage)])

  const Schema := ObjectSchema([("id", IdType)])

  /** `^\d+$` read as a pattern: one digit, then either the end or the
      pattern again. */
  predicate MatchesDigitsPattern(s: string)
    decreases |s|
  {
    |s| > 0 && IsDigit(s[0]) && (|s| == 1 || MatchesDigitsPattern(s[1..]))
  }

  /** The pattern matches exactly the non-empty all-digit strings. */
  lemma {:induction false} PatternIsAllDigits(s: string)
    ensures MatchesDigitsPattern(s) <==> AllDigits(s)
    decreases |s|
  {
    if |s| > 1 {
      PatternIsAllDigits(s[1..]);
      assert forall i :: 1 <= i < |s| ==> s[i] == s[1..][i - 1];
    }
  }

  /** The schema accepts a value exactly when it is an object whose `id` is a
      string matching `^\d+$`. */
  lemma AcceptsExactly(v: Value)
    ensures ParseObject(Schema, v) == [] <==>
      v.Obj? && FieldOf(v.fields, "id").Str? && MatchesDigitsPattern(FieldOf(v.fields, "id").s)
  {
    assert Schema.shape[0] == ("id", IdType);
    if v.Obj? && FieldOf(v.fields, "id").Str? {
      PatternIsAllDigits(FieldOf(v.fields, "id").s);
    }
  }

  /** The issues of an object are those of its `id` field. */
  lemma IssuesById(fields: map<string, Value>)
    ensures ParseObject(Schema, Obj(fields)) == ParseField(IdType, FieldOf(fields, "id"), [Key("id")])
  {
    assert Schema.shape[1..] == [];
    assert ShapeIssues(Schema.shape, fields) == EntryIssues(Schema.shape[0], fields) + ShapeIssues([], fields);
  }

  /** `id` is required and must be a string; a string that is not all digits
      gets one `invalid_string` issue carrying the custom message. */
  lemma IdRule(v: Value)
    ensures ParseField(IdType, v, [Key("id")]) ==
      if !v.Str? then [InvalidTypeIssue([Key("id")], "string", v)]
      else if !AllDigits(v.s) then [Issue(InvalidString, [Key("id")], "", "", 0, 0, [], IdMessage)]
      else []
  {
    assert [DigitsRegex(IdMessage)][1..] == [];
  }

  /** `""` and `"12a"` are refused, `"007"` is accepted. */
  lemma Examples()
    ensures ParseObject(Schema, Obj(map["id" := Str("")])) != []
    ensures ParseObject(Schema, Obj(map["id" := Str("12a")])) != []
    ensures ParseObject(Schema, Obj(map["id" := Str("007")])) == []
  {
    AcceptsExactly(Obj(map["id" := Str("")]));
    AcceptsExactly(Obj(map["id" := Str("12a")]));
    AcceptsExactly(Obj(map["id" := Str("007")]));
    assert !IsDigit("12a"[2]);
    assert MatchesDigitsPattern("007"[2..]);
    assert MatchesDigitsPattern("007"[1..]);
  }
}
