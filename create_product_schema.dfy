/** `createProductSchema`: the body of a product creation request. */
module CreateProductSchema {
  import opened Zod

  /** `z.string().min(3)` */
  const NameType := ZString([MinLength(3)])
  /** `z.string().min(10).optional()` */
  const DescriptionType := ZOptional(ZString([MinLength(10)]))
  /** `z.number().positive()` */
  const PriceType := ZNumber([Positive])
  /** `z.number().int().positive()` */
  const CategoryType := ZNumber([IsInt, Positive])

  const Schema := ObjectSchema([
    ("name", NameType),
    ("description", DescriptionType),
    ("price", PriceType),
    ("category", CategoryType)])

  /** The declaration read field by field: a name of at least three
      characters, no description or one of at least ten, a positive price and
      a positive whole category. */
  predicate Accepted(fields: map<string, Value>) {
    var name := FieldOf(fields, "name");
    var description := FieldOf(fields, "description");
    var price := FieldOf(fields, "price");
    var category := FieldOf(fields, "category");
    && name.Str? && |name.s| >= 3
    && (description.Undefined? || (description.Str? && |description.s| >= 10))
    && price.Num? && price.x > 0.0
    && category.Num? && IsInteger(category.x) && category.x > 0.0
  }

  /** The schema accepts a value exactly when it is an object meeting all
      four constraints. */
  lemma AcceptsExactly(v: Value)
    ensures ParseObject(Schema, v) == [] <==> v.Obj? && Accepted(v.fields)
  {
    if v.Obj? {
      IssuesByField(v.fields);
      NameRule(FieldOf(v.fields, "name"));
      DescriptionRule(FieldOf(v.fields, "description"));
      PriceRule(FieldOf(v.fields, "price"));
      CategoryRule(FieldOf(v.fields, "category"));
    }
  }

  /** The issues of a body are those of name, description, price and
      category, in that order. */
  lemma IssuesByField(fields: map<string, Value>)
    ensures ParseObject(Schema, Obj(fields)) ==
      ParseField(NameType, FieldOf(fields, "name"), [Key("name")])
      + ParseField(DescriptionType, FieldOf(fields, "description"), [Key("description")])
      + ParseField(PriceType, FieldOf(fields, "price"), [Key("price")])
      + ParseField(CategoryType, FieldOf(fields, "category"), [Key("category")])
  {
    ShapeIssuesOfFour(Schema.shape[0], Schema.shape[1], Schema.shape[2], Schema.shape[3], fields);
  }

  /** `name` is required, must be a string and must have at least three characters. */
  lemma NameRule(v: Value)
    ensures ParseField(NameType, v, [Key("name")]) ==
      if !v.Str? then [InvalidTypeIssue([Key("name")], "string", v)]
      else if |v.s| < 3 then [StringCheckIssue(MinLength(3), [Key("name")])]
      else []
  {
    assert [MinLength(3)][1..] == [];
  }

  /** `description` may be left out; given, it must be a string of at least ten characters. */
  lemma DescriptionRule(v: Value)
    ensures ParseField(DescriptionType, v, [Key("description")]) ==
      if v.Undefined? then []
      else if !v.Str? then [InvalidTypeIssue([Key("description")], "string", v)]
      else if |v.s| < 10 then [StringCheckIssue(MinLength(10), [Key("description")])]
      else []
  {
    assert [MinLength(10)][1..] == [];
  }

  /** `price` is required and must be a number greater than zero. */
  lemma PriceRule(v: Value)
    ensures ParseField(PriceType, v, [Key("price")]) ==
      if !v.Num? then [InvalidTypeIssue([Key("price")], "number", v)]
      else if v.x <= 0.0 then [NumberCheckIssue(Positive, [Key("price")])]
      else []
  {
    assert [Positive][1..] == [];
  }

  /** `category` is required and must be a whole number greater than zero; a
      negative fraction is reported twice, once per failed check. */
  lemma CategoryRule(v: Value)
    ensures ParseField(CategoryType, v, [Key("category")]) ==
      if !v.Num? then [InvalidTypeIssue([Key("category")], "number", v)]
      else
        (if IsInteger(v.x) then [] else [NumberCheckIssue(IsInt, [Key("category")])])
        + (if v.x > 0.0 then [] else [NumberCheckIssue(Positive, [Key("category")])])
  {
    assert [IsInt, Positive][1..] == [Positive];
    assert [Positive][1..] == [];
  }

  /** A body missing name and price, whose other fields are acceptable, gets
      exactly two issues, one for each, and both say the field is missing. */
  lemma TwoMissingFieldsTwoIssues(fields: map<string, Value>)
    requires "name" !in fields && "price" !in fields
    requires Satisfies(DescriptionType, FieldOf(fields, "description"))
    requires Satisfies(CategoryType, FieldOf(fields, "category"))
    ensures ParseObject(Schema, Obj(fields)) ==
      [InvalidTypeIssue([Key("name")], "string", Undefined), InvalidTypeIssue([Key("price")], "number", Undefined)]
  {
    IssuesByField(fields);
    NameRule(Undefined);
    PriceRule(Undefined);
  }
}
