/** How the product routes combine the core: the guard chain
    `@UseGuards(JwtAuthGuard, RolesGuard)`, the method-scoped validation pipe
    and the exception filter. */
module ProductRoutes {
  import opened Wrappers
  import opened Text
  import opened Domain
  import opened Zod
  import opened Exceptions
  import opened Http
  import opened JwtAuthGuard
  import RolesGuard
  import opened ValidationPipe
  import opened AllExceptionsFilter
  import opened ProductService
  import CreateProductSchema
  import UpdateProductSchema
  import DeleteProductSchema

  /** The two guards in order: a raise of the first stops the chain, and a
      `false` of the second becomes the framework's 403. */
  function GuardOutcome(authorization: Option<string>, verify: string -> Option<Claims>): Outcome<bool> {
    match Authenticate(authorization, verify)
    case Raised(e) => Raised(e)
    case Returned(claims) => if claims.role == admin then Returned(true) else Raised(Forbidden)
  }

  /** Running the guards on a request: the outcome is `GuardOutcome` of its
      header, and the user the first guard attaches is what the second reads. */
  method RunGuards(jwt: JwtAuthGuard, request: Request) returns (r: Outcome<bool>)
    modifies request
    ensures r == GuardOutcome(old(request.Header(AuthorizationHeader)), jwt.verify)
    ensures var a := Authenticate(old(request.Header(AuthorizationHeader)), jwt.verify);
      request.user == (if a.Returned? then Some(a.value) else old(request.user))
    ensures request.headers == old(request.headers) && request.url == old(request.url)
  {
    var authenticated := jwt.CanActivate(request);
    if authenticated.Raised? {
      return authenticated;
    }
    var allowed := RolesGuard.CanActivate(request);
    if !allowed {
      return Raised(Forbidden);
    }
    return Returned(true);
  }

  /** Failing authentication is answered 401 and never 403; an authenticated
      non-admin is answered 403; only an admin passes. */
  lemma GuardStatuses(authorization: Option<string>, verify: string -> Option<Claims>)
    ensures var a := Authenticate(authorization, verify); var g := GuardOutcome(authorization, verify);
      && (g == Returned(true) <==> a.Returned? && a.value.role == admin)
      && (a.Raised? ==> g.Raised? && StatusOf(g.exception) == 401)
      && (a.Returned? && a.value.role == user ==> g == Raised(Forbidden) && StatusOf(g.exception) == 403)
  {
  }

  /** A request without the header gets the filter's 401 body carrying
      "Authorization header missing". */
  lemma MissingHeaderResponse(verify: string -> Option<Claims>, url: string, timestamp: string)
    ensures GuardOutcome(None, verify) == Raised(Unauthorized(MissingHeaderMessage))
    ensures var body := ErrorResponseOf(Unauthorized(MissingHeaderMessage), url, timestamp);
      && body.statusCode == 401
      && body.error == StandardBody(401, MissingHeaderMessage, "Unauthorized")
  {
  }

  /** `Bearer <token>` with a token the verifier refuses (bad signature or
      expired) is 401 "Invalid or expired token", whatever the first word. */
  lemma RefusedTokenUnauthorized(scheme: string, token: string, verify: string -> Option<Claims>)
    requires ' ' !in scheme && ' ' !in token
    requires verify(token).None?
    ensures GuardOutcome(Some(scheme + " " + token), verify) == Raised(Unauthorized(InvalidTokenMessage))
  {
    BearerTokenAfterScheme(scheme, token);
  }

  /** A verified token of a plain user is refused with 403, of an admin let through. */
  lemma VerifiedTokenByRole(scheme: string, token: string, verify: string -> Option<Claims>)
    requires ' ' !in scheme && ' ' !in token
    requires verify(token).Some?
    ensures verify(token).value.role == user ==> GuardOutcome(Some(scheme + " " + token), verify) == Raised(Forbidden)
    ensures verify(token).value.role == admin ==> GuardOutcome(Some(scheme + " " + token), verify) == Returned(true)
  {
    BearerTokenAfterScheme(scheme, token);
  }

  /** `POST` with `{name: "ab", price: -5}`: three entries, in the schema's
      field order, and nothing about the missing optional description. */
  lemma CreateScenario()
    ensures var body := Obj(map["name" := Str("ab"), "price" := Num(-5.0)]);
      var r := ZodValidationPipe(CreateProductSchema.Schema).Transform(body);
      && r.Raised?
      && StatusOf(r.exception) == 400
      && r.exception.response.errors == [
           FormattedError(Some(Key("name")), "The field " + "name" + " is too small. It should have at least " + "3" + " characters."),
           FormattedError(Some(Key("price")), "The field " + "price" + " is too small. It should have at least " + "0" + " characters."),
           FormattedError(Some(Key("category")), "The field " + "category" + " is required.")]
  {
    var fields := map["name" := Str("ab"), "price" := Num(-5.0)];
    var a, b, c := StringCheckIssue(MinLength(3), [Key("name")]), NumberCheckIssue(Positive, [Key("price")]),
      InvalidTypeIssue([Key("category")], "number", Undefined);
    CreateScenarioIssues();
    RefusedWithIssues(CreateProductSchema.Schema, Obj(fields));
    FormatErrorsUnfold(a, b, c);
    ScenarioMessages();
  }

  /** The issues of that body. */
  lemma CreateScenarioIssues()
    ensures ParseObject(CreateProductSchema.Schema, Obj(map["name" := Str("ab"), "price" := Num(-5.0)])) == [
      StringCheckIssue(MinLength(3), [Key("name")]),
      NumberCheckIssue(Positive, [Key("price")]),
      InvalidTypeIssue([Key("category")], "number", Undefined)]
  {
    var fields := map["name" := Str("ab"), "price" := Num(-5.0)];
    CreateProductSchema.IssuesByField(fields);
    CreateProductSchema.NameRule(Str("ab"));
    CreateProductSchema.DescriptionRule(Undefined);
    CreateProductSchema.PriceRule(Num(-5.0));
    CreateProductSchema.CategoryRule(Undefined);
  }

  /** The texts of those issues. */
  lemma ScenarioMessages()
    ensures FormatError(StringCheckIssue(MinLength(3), [Key("name")])) ==
      FormattedError(Some(Key("name")), "The field " + "name" + " is too small. It should have at least " + "3" + " characters.")
    ensures FormatError(NumberCheckIssue(Positive, [Key("price")])) ==
      FormattedError(Some(Key("price")), "The field " + "price" + " is too small. It should have at least " + "0" + " characters.")
    ensures FormatError(InvalidTypeIssue([Key("category")], "number", Undefined)) ==
      FormattedError(Some(Key("category")), "The field " + "category" + " is required.")
  {
    assert IntToString(3) == "3";
    assert IntToString(0) == "0";
    TooSmallMessage("name", 3, "3", StringCheckIssue(MinLength(3), [Key("name")]));
    TooSmallMessage("price", 0, "0", NumberCheckIssue(Positive, [Key("price")]));
    var c := InvalidTypeIssue([Key("category")], "number", Undefined);
    assert FormatErrorMessage(c) == "The field " + "category" + " is required.";
  }

  /** The too-small text for a field and a minimum. */
  lemma TooSmallMessage(name: string, minimum: int, digits: string, issue: Issue)
    requires issue.code == TooSmall && issue.path == [Key(name)] && issue.minimum == minimum
    requires IntToString(minimum) == digits
    ensures FormatError(issue) ==
      FormattedError(Some(Key(name)), "The field " + name + " is too small. It should have at least " + digits + " characters.")
  {
  }

  /** What the client sees of the services' errors: an unknown owner at
      creation and a missing product at update are neither 400 nor 404 but
      the filter's generic 500, indistinguishable from each other; a missing
      product at deletion is 404 with its id. */
  lemma ServiceErrorStatuses(id: int, url: string, timestamp: string)
    ensures ErrorResponseOf(PlainError(UserNotFoundMessage), url, timestamp).statusCode == 500
    ensures ErrorResponseOf(PlainError(UserNotFoundMessage), url, timestamp)
      == ErrorResponseOf(PrismaKnownError(Exceptions.RecordNotFound), url, timestamp)
    ensures ErrorResponseOf(DeleteError(id, PrismaKnownError(Exceptions.RecordNotFound)), url, timestamp).error
      == StandardBody(404, NotFoundMessage(id), "Not Found")
  {
    NonHttpDetailWithheld(PlainError(UserNotFoundMessage), PrismaKnownError(Exceptions.RecordNotFound), url, timestamp);
  }

  /** The product routes behind the pipe. */
  datatype Route = CreateRoute | UpdateRoute | DeleteRoute

  function RouteSchema(route: Route): ObjectSchema {
    match route
    case CreateRoute => CreateProductSchema.Schema
    case UpdateRoute => UpdateProductSchema.Schema
    case DeleteRoute => DeleteProductSchema.Schema
  }

  /** The pipe over a handler's arguments, in order: the first refusal is
      raised; with none, the handler gets the arguments unchanged. */
  function RunPipe(schema: ObjectSchema, args: seq<Value>): (r: Outcome<seq<Value>>)
    ensures r.Returned? <==> forall k :: 0 <= k < |args| ==> ParseObject(schema, args[k]) == []
    ensures r.Returned? ==> r.value == args
    ensures r.Raised? ==> exists k :: 0 <= k < |args| && ZodValidationPipe(schema).Transform(args[k]) == Raised(r.exception)
    decreases |args|
  {
    if args == [] then Returned([])
    else
      match ZodValidationPipe(schema).Transform(args[0])
      case Raised(e) => Raised(e)
      case Returned(v) =>
        var rest := RunPipe(schema, args[1..]);
        assert forall k :: 1 <= k < |args| ==> args[k] == args[1..][k - 1];
        if rest.Raised? then
          var j :| 0 <= j < |args[1..]| && ZodValidationPipe(schema).Transform(args[1..][j]) == Raised(rest.exception);
          assert args[j + 1] == args[1..][j];
          Raised(rest.exception)
        else Returned([v] + rest.value)
  }

  /** As the handlers are written: a method-scoped pipe is applied to every
      decorated argument, so `PUT` validates the `id` parameter and then the
      body, and `DELETE` validates the `id` parameter, each against the object
      schema of its route. */
  function PipedArgumentsAsWritten(route: Route, id: string, body: Value): seq<Value> {
    match route
    case CreateRoute => [body]
    case UpdateRoute => [Str(id), body]
    case DeleteRoute => [Str(id)]
  }

  /** As intended: `PUT` validates the body only, and `DELETE` validates the
      route parameters object `{ id }` its schema describes. */
  function PipedArguments(route: Route, id: string, body: Value): seq<Value> {
    match route
    case CreateRoute => [body]
    case UpdateRoute => [body]
    case DeleteRoute => [Obj(map["id" := Str(id)])]
  }

  /** As written, every `PUT` and `DELETE` is refused with 400 before the
      handler runs, whatever the id and the body: the parameter is a string,
      not an object. `DELETE` gets exactly the parameter's refusal. For `PUT`
      the entries are the parameter's refusal or, when the body is refused
      too, possibly the body's, since the order in which the framework hands
      the two parameters to the pipe is not fixed here. */
  lemma ParamRefusedAsWritten(route: Route, id: string, body: Value)
    requires route != CreateRoute
    ensures var r := RunPipe(RouteSchema(route), PipedArgumentsAsWritten(route, id, body));
      && r.Raised? && StatusOf(r.exception) == 400
      && (r.exception == ValidationException([InvalidTypeIssue([], "object", Str(id))])
          || ZodValidationPipe(RouteSchema(route)).Transform(body) == Raised(r.exception))
    ensures route == DeleteRoute ==>
      var r := RunPipe(RouteSchema(route), PipedArgumentsAsWritten(route, id, body));
      && r == Raised(ValidationException([InvalidTypeIssue([], "object", Str(id))]))
      && r.exception.response.errors ==
           [FormattedError(None, "The field " + "undefined" + " must be a " + "object" + ", but received " + "string" + ".")]
  {
    var schema := RouteSchema(route);
    var issue := InvalidTypeIssue([], "object", Str(id));
    assert ParseObject(schema, Str(id)) == [issue];
    RefusedWithIssues(schema, Str(id));
    assert PipedArgumentsAsWritten(route, id, body)[0] == Str(id);
    FormatErrorsUnfold(issue, issue, issue);
    ObjectExpectedMessage(id);
  }

  /** The refusal holds in either parameter order: any argument list that
      contains the bare `id` string is refused by an object schema. */
  lemma ParamRefusedInAnyOrder(schema: ObjectSchema, args: seq<Value>, id: string)
    requires Str(id) in args
    ensures RunPipe(schema, args).Raised?
    ensures StatusOf(RunPipe(schema, args).exception) == 400
  {
    var k :| 0 <= k < |args| && args[k] == Str(id);
    assert ParseObject(schema, args[k]) != [];
    var r := RunPipe(schema, args);
    var j :| 0 <= j < |args| && ZodValidationPipe(schema).Transform(args[j]) == Raised(r.exception);
  }

  /** The text for a string where an object was expected. */
  lemma ObjectExpectedMessage(s: string)
    ensures FormatError(InvalidTypeIssue([], "object", Str(s))) ==
      FormattedError(None, "The field " + "undefined" + " must be a " + "object" + ", but received " + "string" + ".")
  {
    var issue := InvalidTypeIssue([], "object", Str(s));
    assert issue.received == "string" && issue.expected == "object";
    assert FormatErrorMessage(issue) == "The field " + "undefined" + " must be a " + "object" + ", but received " + "string" + ".";
  }

  /** With the pipe on the intended arguments, each route accepts exactly
      what its schema describes: the create and update bodies, and an id of
      decimal digits. */
  lemma IntendedRoutesValidate(route: Route, id: string, body: Value)
    ensures RunPipe(RouteSchema(route), PipedArguments(route, id, body)).Returned? <==>
      match route
      case CreateRoute => body.Obj? && CreateProductSchema.Accepted(body.fields)
      case UpdateRoute => body.Obj? && UpdateProductSchema.Accepted(body.fields)
      case DeleteRoute => AllDigits(id)
  {
    match route
    case CreateRoute => CreateProductSchema.AcceptsExactly(body);
    case UpdateRoute => UpdateProductSchema.AcceptsExactly(body);
    case DeleteRoute =>
      var params := Obj(map["id" := Str(id)]);
      DeleteProductSchema.AcceptsExactly(params);
      assert FieldOf(params.fields, "id") == Str(id);
      DeleteProductSchema.PatternIsAllDigits(id);
  }

  /** An id that is not all digits is refused with the generic "invalid"
      text: the schema's own message "ID must be a valid number" does not
      reach the client. */
  lemma DeleteIdMessage(id: string, body: Value)
    requires !AllDigits(id)
    ensures var r := RunPipe(RouteSchema(DeleteRoute), PipedArguments(DeleteRoute, id, body));
      && r.Raised? && StatusOf(r.exception) == 400
      && r.exception.response.errors == [FormattedError(Some(Key("id")), "The field " + "id" + " is invalid.")]
  {
    var params := Obj(map["id" := Str(id)]);
    var issue := Issue(InvalidString, [Key("id")], "", "", 0, 0, [], DeleteProductSchema.IdMessage);
    DeleteProductSchema.IdRule(Str(id));
    assert FieldOf(params.fields, "id") == Str(id);
    DeleteProductSchema.IssuesById(params.fields);
    assert ParseObject(DeleteProductSchema.Schema, params) == [issue];
    RefusedWithIssues(DeleteProductSchema.Schema, params);
    FormatErrorsUnfold(issue, issue, issue);
    assert FormatErrorMessage(issue) == "The field " + "id" + " is invalid.";
  }

  /** `DELETE /api/v1/products/:id` with the pipe on the intended argument:
      a non-digit id is refused with 400 and the store is left alone; a digit
      id is `+id` handed to `deleteProduct`. */
  method DeleteHandler(service: ProductService, id: string, body: Value) returns (r: Outcome<bool>)
    requires service.prisma.Valid()
    modifies service.prisma
    ensures service.prisma.Valid()
    ensures !AllDigits(id) ==> r.Raised? && StatusOf(r.exception) == 400 && unchanged(service.prisma)
    ensures AllDigits(id) && DigitsValue(id) !in old(service.prisma.products) ==>
      r == Raised(NotFound(NotFoundMessage(DigitsValue(id)))) && unchanged(service.prisma)
    ensures AllDigits(id) && DigitsValue(id) in old(service.prisma.products) ==>
      && r == Returned(true)
      && service.prisma.products == old(service.prisma.products) - {DigitsValue(id)}
      && service.prisma.users == old(service.prisma.users)
      && service.prisma.nextProductId == old(service.prisma.nextProductId)
      && service.prisma.nextUserId == old(service.prisma.nextUserId)
  {
    IntendedRoutesValidate(DeleteRoute, id, body);
    var piped := RunPipe(RouteSchema(DeleteRoute), PipedArguments(DeleteRoute, id, body));
    if piped.Raised? {
      DeleteIdMessage(id, body);
      return Raised(piped.exception);
    }
    r := service.DeleteProduct(DigitsValue(id));
  }
}
