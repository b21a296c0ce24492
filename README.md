# Product server core, modelled in Dafny

This project models the request-handling core of a NestJS product server:

- the `JwtAuthGuard` and `RolesGuard` guards, run as a chain;
- the `ZodValidationPipe` and the three product schemas (create, update, delete);
- the `AllExceptionsFilter`;
- the `sendResponse` envelope helper;
- `ProductService` and `UserService`, over an in-memory database.

Each source file has its own module (`JwtAuthGuard`, `RolesGuard`, `ValidationPipe`, `CreateProductSchema`,
`UpdateProductSchema`, `DeleteProductSchema`, `AllExceptionsFilter`, `SendResponse`, `ProductService`,
`UserService`). Shared modules hold the rest:

- `Wrappers`: `Option`.
- `Text`: decimal rendering, `split`, `join`.
- `Zod`: the payload value, the issue record, and the parser behaviour of the Zod features the schemas use.
- `Exceptions`: the framework's exception shapes, and `Outcome`, which is returned-or-raised.
- `Domain`: roles, claims, and the user and product records.
- `Http`: the request and response objects.
- `Store`: the database client, as two maps keyed by id with the client's P2025/P2002 errors.
- `ProductRoutes`: how the controller combines guards, pipe, services and filter.

Code that changes state is imperative Dafny:

- The guard writes `request.user` into a `Request` object.
- The filter and `sendResponse` call `status`/`json` on a `Response` object that records its calls.
- The services change a `Database` object, and `updateUser` overwrites the password in the caller's `UserData` object.

Each such method states its whole new state and is tied to a pure function of the old state. The decisions,
the message texts and the schemas are pure functions, with lemmas about them.

The collaborators the code calls are parameters:

- token verification (`verify`);
- token signing (`sign`);
- bcrypt hashing, where the random salt is an explicit argument;
- bcrypt comparison;
- the database's `findMany`/`count` evaluation.

The clock reading of the filter is a parameter as well.

Behaviour as coded that a caller may not expect:

- `createProduct` with an unknown owner throws a plain `Error`. It reaches the client as the filter's generic 500,
  not as a 400 (`ProductRoutes.ServiceErrorStatuses`).
- `updateProduct` on a missing id lets the database error through, which also becomes a 500, not a 404.
- `getProducts` returns `meta` with `total`, `page` and `limit` only. No `totalPage` is computed.
- `sendResponse` copies whatever it is given. The success/failure exclusivity of `data` and `errors` holds only
  when the caller supplies it (`SendResponse.ExclusiveOnlyIfGiven`).
- `RolesGuard` itself only answers `true`/`false`. The 401/403 distinction comes from the chain: the first guard
  raises 401 and the framework turns the second guard's `false` into 403 (`ProductRoutes.GuardStatuses`).
- The pipe formats every issue from its code, so the delete schema's own message "ID must be a valid number" never
  reaches the client (`ProductRoutes.DeleteIdMessage`).

## Model

| member | source | states |
|---|---|---|
| ValidationPipe.ZodValidationPipe.Transform | src/common/pipes/zod-validation.pipe.ts:10-31 | Returns exactly when the schema reports no issue, and then returns the original value. Otherwise raises 400 with body `{400, "Validation failed", errors}`: one entry per issue, in order, each with the issue's first path element and its formatted message. |
| ValidationPipe.Settle | src/common/pipes/zod-validation.pipe.ts:11-30 | A clean parse returns the input. A `ZodError` becomes the validation exception of its issues. Any other throw is raised again unchanged. |
| Zod.FailingFieldReported | src/common/pipes/zod-validation.pipe.ts:12-20 | The parse does not stop at the first bad field: every field that fails is reported with at least one issue at that field's path, so it gets an entry. |
| Zod.ShapeIssuePaths | src/common/pipes/zod-validation.pipe.ts:18 | Every issue of an object's fields has a one-element path naming a declared key, so each entry's `field` is that key. |
| ValidationPipe.FormatErrors | src/common/pipes/zod-validation.pipe.ts:17-20 | One entry per issue, same order; `field` is `path[0]` (absent for an empty path) and `message` is the issue's formatted text. |
| ValidationPipe.RefusedWithIssues | src/common/pipes/zod-validation.pipe.ts:14-27 | A refused value raises exactly the validation exception built from its issue list. |
| ValidationPipe.TransformKeepsUndeclaredKeys | src/common/pipes/zod-validation.pipe.ts:12-13 | An accepted object keeps a key the schema does not declare, although Zod's own parsed output drops it. |
| ValidationPipe.OtherErrorsRethrown | src/common/pipes/zod-validation.pipe.ts:29 | A throw that is not a `ZodError` is passed on unchanged. |
| ValidationPipe.FormatErrorMessage | src/common/pipes/zod-validation.pipe.ts:33-48 | `formatErrorMessage`. Its lemmas: `MessageTemplates` gives the text per code, and `MessageIgnoresIssueText`, `TooSmallMessageDeterminesMinimum`, `TooBigMessageDeterminesMaximum`, `EnumMessageListsEveryOption` and `RequiredDiffersFromWrongType` state what the text keeps and tells apart. |
| ValidationPipe.MessageTemplates | src/common/pipes/zod-validation.pipe.ts:33-48 | The text for each issue code: required, wrong type, too small, too big, enum options joined by ", ", and "is invalid" for every other code. |
| ValidationPipe.MessageIgnoresIssueText | src/common/pipes/zod-validation.pipe.ts:33-48 | The issue's own message and the path beyond its first element never affect the entry. |
| ValidationPipe.TooSmallMessageDeterminesMinimum | src/common/pipes/zod-validation.pipe.ts:40-41 | For one field, equal too-small texts imply equal minimums, so the bound can be read back. |
| ValidationPipe.TooBigMessageDeterminesMaximum | src/common/pipes/zod-validation.pipe.ts:42-43 | For one field, equal too-big texts imply equal maximums. |
| ValidationPipe.EnumMessageListsEveryOption | src/common/pipes/zod-validation.pipe.ts:44-45 | Every allowed option occurs in an enum text. |
| ValidationPipe.RequiredDiffersFromWrongType | src/common/pipes/zod-validation.pipe.ts:35-39 | A missing field and a field of the wrong type never get the same text. |
| CreateProductSchema.AcceptsExactly | src/schemas/product/create-product.schema.ts:4-9 | Accepted iff the value is an object with a name of at least 3 characters, no description or one of at least 10, a positive price and a positive whole category. |
| CreateProductSchema.IssuesByField | src/schemas/product/create-product.schema.ts:4-9 | The issues of an object are those of name, description, price and category, in that order. |
| CreateProductSchema.NameRule | src/schemas/product/create-product.schema.ts:5 | `name`: not a string is one invalid_type issue; shorter than 3 is one too_small issue with minimum 3; otherwise none. |
| CreateProductSchema.DescriptionRule | src/schemas/product/create-product.schema.ts:6 | `description`: absent is fine; otherwise it must be a string of at least 10 characters, with exactly one issue when it is not. |
| CreateProductSchema.PriceRule | src/schemas/product/create-product.schema.ts:7 | `price`: not a number is invalid_type; a number at most 0 is too_small with minimum 0. |
| CreateProductSchema.CategoryRule | src/schemas/product/create-product.schema.ts:8 | `category`: not a number is invalid_type; otherwise one issue for a fraction and one for a value at most 0, both reported. |
| CreateProductSchema.TwoMissingFieldsTwoIssues | src/schemas/product/create-product.schema.ts:4-9 | A body missing name and price, whose description and category are acceptable, gets exactly the two "Required" issues, in field order. |
| UpdateProductSchema.AcceptsExactly | src/schemas/product/update-product.schema.ts:5-10 | Accepted iff the value is an object in which every field that is given meets the creation constraint. |
| UpdateProductSchema.IssuesByField | src/schemas/product/update-product.schema.ts:5-10 | The issues of an object are the four fields' issues, in order. |
| UpdateProductSchema.EmptyBodyAccepted | src/schemas/product/update-product.schema.ts:5-10 | `{}` is accepted. |
| UpdateProductSchema.GivenFieldsChecked | src/schemas/product/update-product.schema.ts:6 | `{name: "ab"}` is refused with exactly one too_small issue on name. |
| UpdateProductSchema.CreateAcceptedImpliesUpdateAccepted | src/schemas/product/update-product.schema.ts:5-10 | Every body the creation schema accepts, the update schema accepts. |
| DeleteProductSchema.PatternIsAllDigits | src/schemas/product/delete-product.schema.ts:6 | `^\d+$`, read as a recursive pattern, matches exactly the non-empty all-digit strings. |
| DeleteProductSchema.AcceptsExactly | src/schemas/product/delete-product.schema.ts:5-7 | Accepted iff the value is an object whose `id` is a string matching the pattern. |
| DeleteProductSchema.IssuesById | src/schemas/product/delete-product.schema.ts:5-7 | The issues of an object are those of its `id` field. |
| DeleteProductSchema.IdRule | src/schemas/product/delete-product.schema.ts:6 | `id`: not a string is invalid_type; a non-digit string is one invalid_string issue carrying "ID must be a valid number". |
| DeleteProductSchema.Examples | src/schemas/product/delete-product.schema.ts:6 | `""` and `"12a"` are refused and `"007"` is accepted. |
| Text.Split | src/auth/jwt-auth.guard.ts:25 | `split(' ')`: at least one piece, and no piece contains the separator. |
| Text.JoinSplit | src/auth/jwt-auth.guard.ts:25 | Joining the pieces with the separator gives back the string. |
| JwtAuthGuard.BearerToken | src/auth/jwt-auth.guard.ts:25 | The token is the second space-separated piece, and it contains no space. |
| JwtAuthGuard.BearerTokenAfterScheme | src/auth/jwt-auth.guard.ts:25 | For `scheme + " " + token` without further spaces, the token is `token`. |
| JwtAuthGuard.SchemeNotChecked | src/auth/jwt-auth.guard.ts:25 | The first word is never inspected: any two schemes give the same token. |
| JwtAuthGuard.NoSpaceNoToken | src/auth/jwt-auth.guard.ts:25 | A header without a space yields no token. |
| JwtAuthGuard.Authenticate | src/auth/jwt-auth.guard.ts:16-39 | "Authorization header missing" iff the header is absent or empty. Success iff there is a token and the verifier accepts it, and then the result is exactly the verifier's claims. Every other case is "Invalid or expired token"; no other error is possible. |
| JwtAuthGuard.PresentHeaderFailureIsInvalidToken | src/auth/jwt-auth.guard.ts:23-39 | A non-empty header that fails always gives the single invalid-or-expired 401. |
| JwtAuthGuard.JwtAuthGuard.constructor | src/auth/jwt-auth.guard.ts:8 | The guard keeps the verifier it is given. |
| JwtAuthGuard.JwtAuthGuard.CanActivate | src/auth/jwt-auth.guard.ts:11-40 | Returns `true` and sets `request.user` to the verified claims, or raises `Authenticate`'s 401 and leaves `request.user` as it was. Headers and URL are never changed. |
| RolesGuard.CanActivate | src/auth/roles.guard.ts:18-31 | `true` iff a user is attached and that user's role is `admin`. |
| RolesGuard.DependsOnlyOnUser | src/auth/roles.guard.ts:19-30 | Two requests with the same attached user get the same answer; no token is looked at. |
| AllExceptionsFilter.StatusOf | src/common/filters/all-exceptions.filter.ts:16-19 | An HTTP exception's own status; 500 for anything else. |
| AllExceptionsFilter.ErrorResponseOf | src/common/filters/all-exceptions.filter.ts:21-30 | The filter's body. `NonHttpDetailWithheld` and `HttpExceptionCopied` state what it keeps and what it withholds, and `Catch` sends exactly it. |
| AllExceptionsFilter.NonHttpDetailWithheld | src/common/filters/all-exceptions.filter.ts:21-30 | Any two non-HTTP exceptions give the same body: 500 with the literal "Internal server error", the message "An error occurred" and the request URL as path. |
| AllExceptionsFilter.HttpExceptionCopied | src/common/filters/all-exceptions.filter.ts:21-30 | An HTTP exception can be rebuilt from the body's status and `error`. The message is always "An error occurred" and the path is the request URL. |
| AllExceptionsFilter.Catch | src/common/filters/all-exceptions.filter.ts:12-33 | Exactly two calls on the response, in order: the status, then the body built for that exception, URL and time. |
| SendResponse.EnvelopeOf | src/common/utils/sendResponse.ts:32-39 | The six-key object literal. `EnvelopeCopiesEveryField` states that the input is read back from it, and `Send` sends exactly it. |
| SendResponse.EnvelopeCopiesEveryField | src/common/utils/sendResponse.ts:21-40 | The envelope carries every input field unchanged, and the input can be read back from it. Omitted optional fields stay omitted. |
| SendResponse.ExclusiveOnlyIfGiven | src/common/utils/sendResponse.ts:32-39 | The envelope's data/errors exclusivity holds iff the caller's fields had it. |
| SendResponse.Send | src/common/utils/sendResponse.ts:32-39 | Sets the status to `statusCode`, then sends the envelope, once. |
| ProductService.Conditions | src/product/product.service.ts:39-56 | One clause per truthy filter: a category clause iff `category` is truthy, first, and a name-or-description clause iff `search` is truthy, last. |
| ProductService.WhereOf | src/product/product.service.ts:57-58 | The empty where object iff there are no conditions; otherwise `AND` over exactly those conditions. |
| ProductService.SortField | src/product/product.service.ts:59-60 | Always `price` or `createdAt`: the requested field if whitelisted, else `createdAt`. |
| ProductService.Order | src/product/product.service.ts:61 | Ascending iff `asc` was requested; descending otherwise. |
| ProductService.SortNormalisationIdempotent | src/product/product.service.ts:59-61 | Normalising a normalised sort request changes nothing. |
| ProductService.WithoutUserId | src/product/product.service.ts:70 | Drops `userId` and keeps every other column. `StripUserIds` states that the row comes back with only the owner added, and `StripUserIdsForgetsOwners` that the owner is all it forgets. |
| ProductService.StripUserIds | src/product/product.service.ts:68-72 | One view per row, in order. Each row equals its view with only the removed `userId` put back. |
| ProductService.StripUserIdsForgetsOwners | src/product/product.service.ts:68-72 | Rows that differ only in their owners are listed identically. |
| ProductService.NotFoundMessage | src/product/product.service.ts:107 | The not-found text with the id in decimal. `NotFoundMessageInjective` states that it determines the id. |
| ProductService.NotFoundMessageInjective | src/product/product.service.ts:107 | Different ids give different not-found messages. |
| ProductService.DeleteError | src/product/product.service.ts:105-110 | P2025 becomes 404 "Product with ID <id> not found"; every other error is raised again unchanged. |
| Store.ProductPatchLaws | src/product/product.service.ts:92-97 | An update writes exactly the given fields and keeps id and owner. Empty data changes nothing, and writing the same data twice is writing it once. |
| ProductService.ProductService.constructor | src/product/product.service.ts:10 | The service keeps the database it is given. |
| ProductService.ProductService.CreateProduct | src/product/product.service.ts:12-35 | An unknown owner raises "User not found. Invalid userId." and leaves the store unchanged. Otherwise exactly one product is added, under a new id, with exactly the given fields, and users are unchanged. |
| ProductService.ProductService.GetProducts | src/product/product.service.ts:37-84 | The page query and the count use the same where object, built from the filters; the sort is normalised. `meta` is `{total, page, limit}` with that count, and `data` is the page without owners. |
| ProductService.ProductService.GetProductById | src/product/product.service.ts:86-90 | The stored product, or none when the id is absent; nothing is changed. |
| ProductService.ProductService.UpdateProduct | src/product/product.service.ts:92-97 | A missing id raises P2025 with the store unchanged. Otherwise the given fields are written and nothing else changes. |
| ProductService.ProductService.DeleteProduct | src/product/product.service.ts:99-111 | A present id is removed and `true` is returned. A missing id raises 404 "Product with ID <id> not found" with the store unchanged. |
| UserService.LoginResultOf | src/user/user.service.ts:36-42 | The user without password, plus the token. `LoginResultWithholdsOnlyPassword` states that only the password is dropped, and `Login` returns it with the token signed over `{userId, role}`. |
| UserService.LoginResultWithholdsOnlyPassword | src/user/user.service.ts:40-42 | The login result drops the password and nothing else; the user can be rebuilt from it plus the password. |
| UserService.UserService.CreateUser | src/user/user.service.ts:12-23 | Stores `hash(plain, 10, salt)`, never the plain text, with the given email and role, under a new id. A taken email raises P2002 with the store unchanged. |
| UserService.UserService.Login | src/user/user.service.ts:25-43 | An unknown email and a wrong password raise the identical 401 "Invalid credentials". On success the result is the user without the password, plus `sign({userId, role})`. The store is not changed. |
| UserService.UserService.UpdateUser | src/user/user.service.ts:45-54 | A truthy password in `data` is overwritten in place by its hash; an absent or empty one is left as it is. The other fields pass through unchanged. The store then changes exactly as the client's update with that data. |
| Store.UserPatchLaws | src/user/user.service.ts:50-53 | A user update writes exactly the given fields and keeps the id. Empty data changes nothing, and the update is idempotent. |
| UserService.UserService.DeleteUser | src/user/user.service.ts:56-60 | Removes exactly the record with that id. A missing id raises P2025 with the store unchanged. |
| ProductRoutes.GuardOutcome | src/product/product.controller.ts:16 | The two guards in order. `GuardStatuses`, `RefusedTokenUnauthorized` and `VerifiedTokenByRole` state its answers, and `RunGuards` runs the guard classes to exactly it. |
| ProductRoutes.RunGuards | src/product/product.controller.ts:16 | Running both guards gives `GuardOutcome` of the header. The user the first guard attaches is the one the second guard reads. Headers and URL stay as they were. |
| ProductRoutes.GuardStatuses | src/product/product.controller.ts:16 | Only an admin passes. A failed authentication is always 401, never 403. An authenticated non-admin is 403. |
| ProductRoutes.MissingHeaderResponse | src/auth/jwt-auth.guard.ts:19-21 | No header gives the filter's 401 body with "Authorization header missing". |
| ProductRoutes.RefusedTokenUnauthorized | src/auth/jwt-auth.guard.ts:25-38 | A token the verifier refuses gives 401 "Invalid or expired token", whatever the scheme word. |
| ProductRoutes.VerifiedTokenByRole | src/auth/roles.guard.ts:26-30 | A verified token of a plain user gives 403; one of an admin passes. |
| ProductRoutes.CreateScenario | src/common/pipes/zod-validation.pipe.ts:17-27 | `POST {name: "ab", price: -5}` gives 400 with exactly three entries, for name (minimum 3), price (minimum 0) and category (required), in that order. |
| ProductRoutes.CreateScenarioIssues | src/schemas/product/create-product.schema.ts:4-9 | The Zod issues of that body. |
| ProductRoutes.ScenarioMessages | src/common/pipes/zod-validation.pipe.ts:35-41 | The texts of those three issues. |
| ProductRoutes.TooSmallMessage | src/common/pipes/zod-validation.pipe.ts:40-41 | A too-small issue on a field gets the too-small text with that field and minimum. |
| ProductRoutes.ServiceErrorStatuses | src/common/filters/all-exceptions.filter.ts:16-27 | An unknown owner and a missing product on update reach the client as the same generic 500. A missing product on delete is 404 with its id. |
| ProductRoutes.RunPipe | src/product/product.controller.ts:34-36 | The pipe over a handler's arguments: the handler runs iff every argument is accepted, and receives them unchanged; otherwise the error raised is one argument's refusal. |
| ProductRoutes.ParamRefusedAsWritten | src/product/product.controller.ts:33-45 | As written, every PUT and DELETE is refused with 400. DELETE gets exactly `[{field: undefined, message: "The field undefined must be a object, but received string."}]`. For PUT the entries are that refusal or the body's, whatever order the parameters reach the pipe. |
| ProductRoutes.ParamRefusedInAnyOrder | src/product/product.controller.ts:34-36 | Whatever the order of the arguments, a list containing the bare `id` string is refused with 400 by an object schema. |
| ProductRoutes.ObjectExpectedMessage | src/common/pipes/zod-validation.pipe.ts:39 | The text for a string given where an object was expected. |
| ProductRoutes.IntendedRoutesValidate | src/product/product.controller.ts:33-45 | With the pipe on the intended arguments, create and update accept exactly their schemas' bodies and delete accepts exactly all-digit ids. |
| ProductRoutes.DeleteIdMessage | src/common/pipes/zod-validation.pipe.ts:46-47 | With the pipe on the intended `{ id }` argument, a non-digit id to delete gives 400 with the single entry "The field id is invalid."; the schema's own message is dropped. |
| ProductRoutes.DeleteHandler | src/product/product.controller.ts:40-45 | With the pipe on the intended `{ id }` argument: a non-digit id gives 400 with the store unchanged, and a digit id `+id` is deleted or answered 404 exactly as `deleteProduct` does. On deletion only the product map changes; users and id counters stay as they were. |

## Left out

- Exception filter registration: none of the source files shown registers `AllExceptionsFilter` (no `useGlobalFilters`, `APP_FILTER` or `@UseFilters`). The statements about the client's view of errors (`ProductRoutes.MissingHeaderResponse`, `ProductRoutes.ServiceErrorStatuses` and the 500s above) assume it handles these routes.
- ProductRoutes.ParamRefusedAsWritten: for PUT it states only that the entries are the `id` parameter's refusal or the body's. The order in which the framework hands the two parameters to the pipe is not in the source.
- Time: the filter's `new Date().toISOString()` is a parameter.
- Asynchrony: each `async` call is one sequential step whose rejection is `Raised`; nothing runs concurrently.
- Token verification and signing: the JWT library is abstract, so signature checking, expiry and the secret are not modelled.
- bcrypt: hashing and comparison are abstract. The random salt is an argument.
- Pagination helper: `paginationHelper.calculatePagination` is not part of this model. Its outputs (`limit`, `page`, `skip`, `sortBy`, `sortOrder`) are a parameter of `GetProducts`.
- Database queries: `contains`/`insensitive` matching, ordering, `skip`/`take` and `count` are the abstract query engine. The store is two maps with auto-increment ids.
- The `createdAt` and `updatedAt` columns: they are not part of the product record, and `createdAt` appears only as a sort field name. So `Store.ProductPatchLaws`, idempotence included, is about the record without timestamps.
- Updating undeclared keys: a product or user update writes only the declared fields. A body with extra keys such as `userId` passes the pipe (`ValidationPipe.TransformKeepsUndeclaredKeys`), but the update does not model writing them.
- Foreign keys: `DeleteUser` does not model the database's behaviour for products that still reference the user.
- Category type: the create schema takes `category` as a number while the service and column take a string. The controller's hand-over from body to `createProduct` is not modelled.
- Headers: the request headers are a map from lower-case names to single strings. Repeated headers (arrays) are not modelled.
- Strings: strings are sequences of characters, so Zod's length checks count characters, not UTF-16 code units.
- Numbers: JavaScript numbers are exact rationals. Infinities and floating-point rounding are not modelled; `NaN` is a separate value.
- Zod coverage: only the features the three schemas use are modelled (object, string `min`/`regex`, number `int`/`positive`, `optional`).
- The Zod `message` texts are carried in each issue but never shown, because the pipe does not use them.
- Other controllers: the user routes, the DTOs and the module wiring are not part of this model. Neither is the `GET` handlers' call to `getProducts` without arguments.

## Findings

| source | as written | input that shows it | evidently intended | confidence | as-written member | corrected member |
|---|---|---|---|---|---|---|
| src/product/product.controller.ts:33-45 | The method-scoped `@UsePipes(new ZodValidationPipe(...))` applies to every decorated parameter. So the `id` route parameter, a string, is validated against the object schema: for PUT alongside the body, for DELETE alone. | `DELETE /api/v1/products/7` (and any PUT) | PUT validates only the body; DELETE validates the parameters object `{ id }` its schema describes | not executed: follows from the framework's rule for method-scoped pipes | ProductRoutes.ParamRefusedAsWritten | ProductRoutes.IntendedRoutesValidate |
