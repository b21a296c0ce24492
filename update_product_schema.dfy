/** `updateProductSchema`: the body of a product update request, every field
    optional. */
module UpdateProductSchema {
  import opened Zod
  import CreateProductSchema

  /** `z.string().min(3).optional()` */
  const NameType := ZOptional(ZString([MinLength(3)]))
  /** `z.string().min(10).optional()` */
  const DescriptionType := ZOptional(ZString([MinLength(10)]))
  /** `z.number().positive().optional()` */
  const PriceType := ZOptional(ZNumber([Positive]))
  /** `z.number().int().positive().optional()` */
  const CategoryType := ZOptional(ZNumber([IsInt, Positive]))

  const Schema := ObjectSchema([
    ("name", NameType),
    ("description", DescriptionType),
    ("price", PriceType),
    ("category", CategoryType)])

  /** The declaration read field by field: each field may be left out, and a
      field that is given meets the same constraint as at creation. */
  predicate Accepted(fields: map<string, Value>) {
    var name := FieldOf(fields, "name");
    var description := FieldOf(fields, "description");
    var price := FieldOf(fields, "price");
    var category := FieldOf(fields, "category");
    && (name.Undefined? || (name.Str? && |name.s| >= 3))
    && (description.Undefined? || (description.Str? && |description.s| >= 10))
    && (price.Undefined? || (price.Num? && price.x > 0.0))
    && (category.Undefined? || (category.Num? && IsInteger(category.x) && category.x > 0.0))
  }

  lemma AcceptsExactly(v: Value)
    ensures ParseObject(Schema, v) == [] <==> v.Obj? && Accepted(v.fields)
  {
    if v.Obj? {
      IssuesByField(v.fields);
      CreateProductSchema.NameRule(FieldOf(v.fields, "name"));
      CreateProductSchema.DescriptionRule(FieldOf(v.fields, "description"));
      CreateProductSchema.PriceRule(FieldOf(v.fields, "price"));
      CreateProductSchema.CategoryRule(FieldOf(v.fields, "category"));
    }
  }

  /** The issues of a body are those of name, description, price and
      category, in that order; a field left out contributes none. */
  lemma IssuesByField(fields: map<string, Value>)
    ensures ParseObject(Schema, Obj(fields)) ==
      ParseField(NameType, FieldOf(fields, "name"), [Key("name")])
      + ParseField(DescriptionType, FieldOf(fields, "description"), [Key("description")])
      + ParseField(PriceType, FieldOf(fields, "price"), [Key("price")])
      + ParseField(CategoryType, FieldOf(fields, "category"), [Key("category")])
  {
    ShapeIssuesOfFour(Schema.shape[0], Schema.shape[1], Schema.shape[2], Schema.shape[3], fields);
  }

  /** The empty body `{}` is accepted. */
  lemma EmptyBodyAccepted()
    ensures ParseObject(Schema, Obj(map[])) == []
  {
    AcceptsExactly(Obj(map[]));
  }

  /** A field that is given is checked as at creation; so `{name: "ab"}` is
      refused with one `too_small` issue. */
  lemma GivenFieldsChecked()
    ensures ParseObject(Schema, Obj(map["name" := Str("ab")])) == [StringCheckIssue(MinLength(3), [Key("name")])]
  {
    var fields := map["name" := Str("ab")];
    IssuesByField(fields);
    CreateProductSchema.NameRule(Str("ab"));
  }

  /** Every body the creation schema accepts, the update schema accepts too. */
  lemma CreateAcceptedImpliesUpdateAccepted(v: Value)
    requires ParseObject(CreateProductSchema.Schema, v) == []
    ensures ParseObject(Schema, v) == []
  {
    CreateProductSchema.AcceptsExactly(v);
    AcceptsExactly(v);
  }
}
