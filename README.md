# rainlogger-back: the request pipeline, in Dafny

This project models the request pipeline of the rainfall-record service
(rainlogger-back, an Express and mongoose application) and proves its
behaviour. The pipeline covers:

- the create validator, with its four field chains;
- the bearer-token authorization gate `protect`;
- the create and fetch-by-id handlers;
- the record store, with its required fields, defaults and unique `(date, location)` index;
- the 405 method gate;
- the route table;
- the `catchAsync` guard;
- the start-up environment check.

Modules, one per source file:

| file | module | source |
|---|---|---|
| wrappers.dfy | `Wrappers` | `Option` and `Result` |
| rainlog_types.dfy | `RainlogTypes` | src/models/rainlogTypes.ts, src/models/userTypes.ts |
| strings.dfy | `Strings` | the string operations the code uses: `startsWith`, `split`, `join` |
| http.dfy | `Http` | request, response envelope, middleware effect, promise settlement |
| catch_async.dfy | `AsyncGuard` | src/utils/catchAsync.ts |
| method_not_allowed.dfy | `MethodGate` | src/utils/methodNotAllowed.ts |
| check_env_vars.dfy | `EnvCheck` | src/utils/checkEnvVars.ts |
| rainlog_validations.dfy | `RainlogValidations` | src/validations/rainlog.validations.ts |
| auth_controllers.dfy | `AuthControllers` | src/controllers/authControllers.ts |
| rainlog_model.dfy | `RainlogModel` | src/models/rainlogModel.ts |
| rainlog_controllers.dfy | `RainlogControllers` | src/controllers/rainlogControllers.ts |
| rainlogger_router.dfy | `RainloggerRouter` | src/routes/rainloggerRouter.ts |

## How each piece is modelled

**Pure decisions.** These are functions over values:

- the method gate;
- the guard (over how the handler's promise settled);
- token extraction and reply classification;
- `checkValidation`;
- the route table.

**Validator.** The validator is a table of chains, each a list of checks, run with the library's bail semantics. The library's recognisers (`isISO8601`, `isFloat`, `isBoolean`, `toDate`, `toFloat`, `toBoolean`) are a parameter `lib`.

**Request.** The request is a class: `protect` sets `req.user` in place, and the validator rewrites `req.body` and records its errors on the request.

**Store.** The store is a class `RainlogStore` holding a sequence of records. `Create` appends to it and keeps the uniqueness invariant `Valid()`. `FindById` reads it.

**Environment check.** The environment check is a loop, as in the source.

**Parameters.** Everything outside the code becomes a parameter:

- the identity service: `verify`, a function from the `Authorization` header sent to the reply;
- the clock: `now`;
- the generated `_id`: `id`;
- the object-id cast: `castId`;
- the validation chains for fetch, update, filter and delete, whose source is not among the files modelled: `otherErrors`.

**Behaviour of the code worth noting.**

- **Duplicates give 500.** A duplicate `(date, location)` on create is answered with 500 `fail` "Internal server error". The handler has no conflict branch of its own: the store's rejection reaches `catchAsync` (`StoreRefusalIsInternalError`).
- **A failed verification call gives 500 `fail`.** When the call to the identity service throws (timeout or network failure), the answer is the guard's 500 `fail` "Internal server error". It is distinct from the gate's own 500 `error` "Something went wrong. Please try again later." (`ThrownCallDistinctFromUpstreamError`).
- **Updates go to `PUT /rainlog`.** The route is `/rainlog` itself, with no `:id` in the path.
- **A bad date reads "Date must be a valid date".** The date chain sets two messages on `isISO8601`; the later one, written after the `toDate()` sanitizer, wins. A date that passes `isISO8601` but does not parse becomes `null` under `toDate()`, and the store then refuses it with "A date must be provided" (a 500 through the guard).
- **HEAD runs the GET chain.** The router dispatches HEAD to a route's GET layers when the route has no HEAD layer (`HeadRunsGet`). On `/rainlog/delete/:id`, which has no GET layer, HEAD gets 405.

## Model

| member | source | states |
|---|---|---|
| AsyncGuard.CatchAsync | src/utils/catchAsync.ts:21-33 | a resolved handler's effect passes through unchanged; any rejection is answered 500 with `{status: fail, message: "Internal server error"}` and no header |
| AsyncGuard.RejectionsIndistinguishable | src/utils/catchAsync.ts:24-31 | two different rejection reasons give the same answer, so no error detail reaches the client |
| AsyncGuard.RejectionAlwaysAnswered | src/utils/catchAsync.ts:24-31 | a rejection never turns into `next()` |
| MethodGate.MethodNotAllowed | src/utils/methodNotAllowed.ts:17-26 | `next()` exactly when the method is in the list; otherwise 405, `Allow` = the list joined with ", ", envelope `fail` "Method not allowed" |
| MethodGate.AllowHeaderRoundTrip | src/utils/methodNotAllowed.ts:21 | splitting the `Allow` header back on ", " gives the allowed list, in its order |
| MethodGate.MatchIsCaseSensitive | src/utils/methodNotAllowed.ts:20 | membership is exact: "get" is refused by `["GET"]`, "GET" passes |
| EnvCheck.MissingFromMembers | src/utils/checkEnvVars.ts:16-20 | a name is in the missing list exactly when it is one of the checked names and is unset or empty |
| EnvCheck.EmptyValueIsMissing | src/utils/checkEnvVars.ts:17 | with every variable set and only PORT empty, the missing list is exactly ["PORT"] |
| EnvCheck.CheckEnvVars | src/utils/checkEnvVars.ts:3-28 | true exactly when some of the seven variables is missing; the report is "Missing environment variables: " and the missing names in declaration order joined with ", "; no report otherwise |
| RainlogValidations.AddRainlogValidation | src/validations/rainlog.validations.ts:3-38 | one chain per field, for date, measurement, realReading, location in that order |
| RainlogValidations.FirstFailure | src/validations/rainlog.validations.ts:4-37 | with `.bail()` after each check, a chain reports nothing exactly when every check accepts, and otherwise the message of the first check that rejects |
| RainlogValidations.RunChains | src/validations/rainlog.validations.ts:3-38 | running chains keeps the body's keys, never touches unchecked fields, and records no more errors than there are chains |
| RainlogValidations.OneErrorPerChain | src/validations/rainlog.validations.ts:4-37 | with `.bail()` after each check, each chain records at most one error, so in a table of distinct fields no field has two |
| RainlogValidations.Validate | src/validations/rainlog.validations.ts:3-38 | at most four errors; fields outside the four are never rewritten |
| RainlogValidations.ApplyAddRainlogValidation | src/validations/rainlog.validations.ts:3-38 | the request's body becomes the sanitized body, and the errors found are appended to the request's errors |
| RainlogValidations.ErrorsNameCheckedFields | src/validations/rainlog.validations.ts:3-38 | every error recorded names a field that one of the chains checks |
| RainlogValidations.ErrorsInChainOrder | src/validations/rainlog.validations.ts:3-38 | when the chains are in field order, the errors come in strictly increasing field order |
| RainlogValidations.ErrorFor | src/validations/rainlog.validations.ts:3-38 | the first error recorded for a field is one of the errors and names that field; there is none exactly when no error names it |
| RainlogValidations.FieldOutcome | src/validations/rainlog.validations.ts:3-38 | in a table of distinct fields, a field's error and its sanitized value depend only on its own chain and the value sent |
| RainlogValidations.ErrorsAbsentOutside | src/validations/rainlog.validations.ts:3-38 | a field no chain checks never gets an error |
| RainlogValidations.ErrorForSkips | src/validations/rainlog.validations.ts:3-38 | looking up a field's error skips errors of other fields |
| RainlogValidations.TableShape | src/validations/rainlog.validations.ts:3-38 | the four chains are in field order and check distinct fields |
| RainlogValidations.ValidateErrorOrder | src/validations/rainlog.validations.ts:3-38 | errors name only the four fields, strictly in the order date, measurement, realReading, location, so each field has at most one |
| RainlogValidations.OtherFieldsNeverFail | src/validations/rainlog.validations.ts:3-38 | `loggedBy`, `timestamp`, `records` or any other field never gets an error |
| RainlogValidations.DateRules | src/validations/rainlog.validations.ts:4-12 | a missing date gives "Date is required" and the format check is not reached; a non-ISO date gives "Date must be a valid date", the later `withMessage` replacing the ISO 8601 text, and stays as sent; an ISO date passes and becomes a date |
| RainlogValidations.MeasurementRules | src/validations/rainlog.validations.ts:13-20 | a missing measurement gives "Measurement is required"; a non-number or a negative one gives "Measurement must be a positive number"; a number at least 0 (0 included) passes and becomes that number |
| RainlogValidations.RealReadingRules | src/validations/rainlog.validations.ts:21-28 | a missing realReading gives "realReading is required"; a non-boolean gives "realReading must be a boolean"; otherwise it passes and becomes the boolean |
| RainlogValidations.LocationRules | src/validations/rainlog.validations.ts:29-37 | a missing location gives "Location is required", a non-string "Location must be a string", the empty string "Location cannot be empty"; a non-empty string passes; the value is never rewritten |
| RainlogValidations.NoErrorsIffFieldsClean | src/validations/rainlog.validations.ts:3-38 | the validator reports no error exactly when none of date, measurement, realReading and location has one |
| RainlogValidations.ValidateAcceptsExactlyWellFormed | src/validations/rainlog.validations.ts:3-38 | no errors exactly for bodies that satisfy every rule; the body then holds the coerced date, a number at least 0, the boolean and the location |
| RainlogValidations.DateChainVerdict | src/validations/rainlog.validations.ts:4-12 | the date chain's verdict for any value |
| RainlogValidations.MeasurementChainVerdict | src/validations/rainlog.validations.ts:13-20 | the measurement chain's verdict for any value |
| RainlogValidations.RealReadingChainVerdict | src/validations/rainlog.validations.ts:21-28 | the realReading chain's verdict for any value |
| RainlogValidations.LocationChainVerdict | src/validations/rainlog.validations.ts:29-37 | the location chain's verdict for any value |
| Strings.Split | src/controllers/authControllers.ts:17 | `split(c)` yields at least one piece, and no piece holds the separator |
| AuthControllers.BearerToken | src/controllers/authControllers.ts:16-18 | a token is found only in a header that starts with "Bearer", and it is non-empty and holds no space |
| AuthControllers.BearerRoundTrip | src/controllers/authControllers.ts:16-29 | the header sent to the identity service, `Bearer <token>`, yields the same token again |
| AuthControllers.TokenIsSecondPiece | src/controllers/authControllers.ts:16-18 | a first piece starting with "Bearer", one space, then a token with anything after a further space, yields exactly that token |
| AuthControllers.BearerAloneHasNoToken | src/controllers/authControllers.ts:16-20 | "Bearer" alone yields no token |
| AuthControllers.DoubleSpaceHasNoToken | src/controllers/authControllers.ts:16-20 | "Bearer  abc" (two spaces) yields no token |
| AuthControllers.SecondSpaceHasNoToken | src/controllers/authControllers.ts:16-20 | a first piece starting with "Bearer" followed by two spaces yields no token, whatever comes after |
| AuthControllers.NoSpaceHasNoToken | src/controllers/authControllers.ts:16-20 | any header that starts with "Bearer" and holds no space has no second piece, so no token |
| AuthControllers.GluedPrefixHasNoToken | src/controllers/authControllers.ts:16-17 | "BearerXYZ" passes the prefix test but yields no token |
| AuthControllers.GluedPrefixWithTokenPasses | src/controllers/authControllers.ts:16-17 | "BearerXYZ abc" yields the token "abc", because the prefix test has no trailing space |
| AuthControllers.ExtraPiecesIgnored | src/controllers/authControllers.ts:17 | "Bearer abc def" yields "abc" |
| AuthControllers.OtherSchemeHasNoToken | src/controllers/authControllers.ts:16 | "Basic abc" yields no token |
| AuthControllers.Gate | src/controllers/authControllers.ts:16-49 | no token gives 401; the request is admitted exactly when the reply to `Bearer <token>` is 200 with a `data` object, and then with `data.user` |
| AuthControllers.GateEffect | src/controllers/authControllers.ts:11-51 | `next()` exactly on admission |
| AuthControllers.ReplyClassification | src/controllers/authControllers.ts:33-43 | reply 401 gives 401 `fail` "You are not logged in! Please log in to get access."; any status other than 200 and 401 gives 500 `error` "Something went wrong. Please try again later."; a thrown call gives the guard's 500 `fail` |
| AuthControllers.ThrownCallDistinctFromUpstreamError | src/controllers/authControllers.ts:38-43 | a thrown call and a non-200 reply share code 500 but differ in the envelope's status |
| AuthControllers.NoTokenNoCall | src/controllers/authControllers.ts:20-25 | without a token, the identity service's answers cannot change the 401 |
| AuthControllers.Protect | src/controllers/authControllers.ts:11-53 | the effect is the gate's; `req.user` becomes `data.user` on admission and is untouched otherwise; exactly one call `Bearer <token>` is made when there is a token, none otherwise |
| RainlogModel.WithDefaults | src/models/rainlogModel.ts:18-31 | an undefined `realReading` and `timestamp` and absent `records` are filled in; the other fields are kept |
| RainlogModel.PathCheck | src/models/rainlogModel.ts:6-35 | a required field passes exactly when it holds a value; undefined and null give the field's message |
| RainlogModel.StringPathCheck | src/models/rainlogModel.ts:23-35 | a required string passes exactly when it is a non-empty string; undefined, null and "" give the field's message |
| RainlogModel.Insert | src/models/rainlogModel.ts:5-40 | a stored record has the generated id and clashes with no stored record; a refusal is a duplicate key or a non-empty list of field errors |
| RainlogModel.Find | src/models/rainlogModel.ts:40 | a record found has the id and is stored; nothing is found exactly when no stored record has the id |
| RainlogModel.RainlogStore.constructor | src/models/rainlogModel.ts:40 | the collection starts empty, and so satisfies the invariant |
| RainlogModel.RainlogStore.Create | src/models/rainlogModel.ts:38-40 | the result is `Insert` on the old records; success appends exactly that record and keeps the uniqueness invariant; a refusal changes nothing |
| RainlogModel.RainlogStore.FindById | src/models/rainlogModel.ts:40 | the record with that id, or none exactly when no stored record has it |
| RainlogModel.AppendKeepsUnique | src/models/rainlogModel.ts:38 | appending a record that clashes with nothing keeps `_id` and `(date, location)` unique |
| RainlogModel.InsertKeepsUnique | src/models/rainlogModel.ts:38 | a successful insert keeps the collection unique |
| RainlogModel.InsertedRecord | src/models/rainlogModel.ts:5-36 | the record copies date, measurement, location and loggedBy; realReading is as given or true when undefined; timestamp as given or now; records as given or [] |
| RainlogModel.InsertAcceptsExactly | src/models/rainlogModel.ts:5-38 | an insert succeeds exactly when every required field is filled after the defaults and the record clashes with no stored one |
| RainlogModel.DuplicateRefused | src/models/rainlogModel.ts:38 | a filled candidate whose `(date, location)` is already stored is refused as a duplicate key |
| RainlogModel.RequiredFields | src/models/rainlogModel.ts:6-35 | each required field without a value is refused with its own message ("A date must be provided", …, "A user must be provided"); realReading and timestamp only when null |
| RainlogModel.DefaultsNeverRefused | src/models/rainlogModel.ts:18-31 | an undefined realReading or timestamp is never a refusal reason |
| RainlogModel.FindAfterInsert | src/models/rainlogModel.ts:38-40 | after an insert the new record is found by its id, and every other lookup is unchanged |
| RainlogControllers.CheckValidation | src/controllers/rainlogControllers.ts:15-24 | an answer exactly when there are errors: 400 `fail` "Invalid input data" carrying those errors |
| RainlogControllers.NewRainlog | src/controllers/rainlogControllers.ts:32-39 | `timestamp` is the server's time, `loggedBy` is the user's email (undefined without a user), `records` is not passed |
| RainlogControllers.Created | src/controllers/rainlogControllers.ts:32-47 | a stored record is answered 201 `success` "Rainlog added successfully" with the record; a refusal rejects with the store's reason |
| RainlogControllers.AddRainlogToDatabase | src/controllers/rainlogControllers.ts:26-48 | validation errors give 400 and leave the store as it was; otherwise the answer is the store's `create` outcome and the store changes exactly as `Create` says |
| RainlogControllers.Fetched | src/controllers/rainlogControllers.ts:50-72 | validation errors give 400 before any lookup; no id gives 404; an id that does not cast rejects; otherwise the stored record with that id (200) or 404 |
| RainlogControllers.GetRainlogById | src/controllers/rainlogControllers.ts:50-72 | settles as `Fetched` on the current records; the store is not in its frame, so no branch changes it |
| RainlogControllers.Found | src/controllers/rainlogControllers.ts:59-71 | a miss gives 404 `fail` "Rainlog not found"; a hit gives 200 `success` with the record |
| RainlogControllers.ClientStampsIgnored | src/controllers/rainlogControllers.ts:32-39 | changing `loggedBy`, `timestamp`, `records` or any other unchecked body field does not change what is stored |
| RainlogControllers.ValidatedBodyIsStored | src/controllers/rainlogControllers.ts:32-39 | a body that passes validation and whose date parses, from a user with an email, is refused only as a duplicate; when stored, the record holds the coerced date, the number, the boolean, the location, now, the email and [] |
| RainlogControllers.ValidatedCandidate | src/controllers/rainlogControllers.ts:32-39 | from a body the validator accepted, the object passed to the store holds the coerced date, a number at least 0, the boolean, the non-empty location and the user's email |
| RainlogControllers.StoreRefusalIsInternalError | src/controllers/rainlogControllers.ts:26-39 | every store refusal on create, duplicates included, ends as the guard's 500, never 409 |
| RainlogControllers.MissingEmailRefused | src/controllers/rainlogControllers.ts:38 | without a user email the store refuses with "A user must be provided" |
| RainlogControllers.FetchAfterCreate | src/controllers/rainlogControllers.ts:56-71 | a record just created is answered 200 by a fetch whose id casts to its identifier |
| RainloggerRouter.Matching | src/routes/rainloggerRouter.ts:22-37 | never more stages than layers |
| RainloggerRouter.BindingFor | src/routes/rainloggerRouter.ts:22-37 | the binding found is in the table and has that method; none exactly when no binding has it |
| RainloggerRouter.StagesFollowBindings | src/routes/rainloggerRouter.ts:22-37 | a bound method (HEAD counting as GET) runs `protect`, its validation chain, its handler, then the method gate; any other method runs only the method gate |
| RainloggerRouter.StackFollowsBindings | src/routes/rainloggerRouter.ts:22-37 | in a table of distinct methods, the layers matching a method are its binding's protect, chain and handler, if it has one, then the method gate |
| RainloggerRouter.StackVerbs | src/routes/rainloggerRouter.ts:22-37 | a stack has a layer bound to a method exactly when its table binds that method |
| RainloggerRouter.MatchingAppend | src/routes/rainloggerRouter.ts:22-37 | matching the layers of two stacks is matching each, in order |
| RainloggerRouter.MatchingBound | src/routes/rainloggerRouter.ts:24-26 | the layers of one binding (protect, the validation chains folded into one stage, the handler) match all together or not at all |
| RainloggerRouter.ProtectComesFirst | src/routes/rainloggerRouter.ts:22-37 | every handled method runs `protect` first, then one validation chain, then one handler |
| RainloggerRouter.HeadRunsGet | src/routes/rainloggerRouter.ts:22-37 | a HEAD request runs exactly the GET layers on every route |
| RainloggerRouter.CreateBinding | src/routes/rainloggerRouter.ts:24 | POST /rainlog runs protect, the create chain and the create handler |
| RainloggerRouter.FetchBinding | src/routes/rainloggerRouter.ts:25 | GET /rainlog runs protect, the fetch-by-id chain and handler |
| RainloggerRouter.UpdateBinding | src/routes/rainloggerRouter.ts:26 | PUT /rainlog runs protect, the update chain and handler |
| RainloggerRouter.FilterAndDeleteBindings | src/routes/rainloggerRouter.ts:29-37 | GET /rainlog/filters runs the filter chain and handler; DELETE /rainlog/delete/:id runs the delete chain and handler |
| RainloggerRouter.NoHeadLayer | src/routes/rainloggerRouter.ts:22-37 | no route binds HEAD itself |
| RainloggerRouter.AllowedMatchesBindings | src/routes/rainloggerRouter.ts:22-37 | each route's `methodNotAllowed` list is exactly the set of methods it binds |
| RainloggerRouter.UnhandledIsNotAllowed | src/routes/rainloggerRouter.ts:22-37 | a method the route does not handle runs only the gate, which answers 405 |
| RainloggerRouter.AllowHeaders | src/routes/rainloggerRouter.ts:22-37 | the `Allow` headers are "POST, GET, PUT", "GET" and "DELETE" |
| RainloggerRouter.NotAllowedExamples | src/routes/rainloggerRouter.ts:22-37 | DELETE /rainlog, HEAD /rainlog/delete/:id and POST /rainlog/filters reach only the method gate |
| RainloggerRouter.Finish | src/routes/rainloggerRouter.ts:22-37 | the request passes on past the router exactly when the last middleware called `next()` |
| RainloggerRouter.ModelledBindings | src/routes/rainloggerRouter.ts:24-25 | POST /rainlog reaches the create binding; GET and HEAD /rainlog reach the fetch binding |
| RainloggerRouter.RunBinding | src/routes/rainloggerRouter.ts:24-26 | create: validator errors give 400 with the store unchanged, otherwise the guarded outcome of `Insert` on the validated body and the store changes accordingly; fetch: the guarded `Fetched` outcome, store unchanged; update, filter and delete stop after their chain, before their handler; `req.body` and `req.validationErrors` are what the binding's chain left |
| RainloggerRouter.ServeBinding | src/routes/rainloggerRouter.ts:24-26 | `protect` runs first with one identity call per token; a refused or thrown gate answers with the store and `req.user` untouched; an admitted request carries `data.user` and what its chain left in the body and errors, and a create or fetch behaves as `RunBinding` says; update, filter and delete stop before their handler |
| RainloggerRouter.Serve | src/routes/rainloggerRouter.ts:22-37 | an unhandled method gets 405 and nothing else happens; a handled one always passes `protect` first (one identity call per token); a refused or thrown gate answers with the store and `req.user` untouched; an admitted request carries `data.user` and its binding's chain work, and a create or fetch behaves as `RunBinding` says; an unhandled method or a refused gate leaves the body and the errors as they were |
| Http.Request.constructor | src/controllers/authControllers.ts:6-8 | an arriving request has no user and no validation errors |

## Left out

- I/O is not modelled: the HTTP transport, the network call to the identity service (`fetch` with its 30-second `AbortSignal`), its JSON parsing, console logging and `process.env` access. The identity service is the parameter `verify`, and the environment is a map argument.
- The mongoose connection, server start-up, signal handlers and the Express application wiring in src/app.ts are not modelled. This includes body-size limits, compression, the health check and the catch-all 404. Only the mount path `/api/v1/rainlogger` is kept, as a constant.
- The update, delete and filter handlers, and every validation chain except the create chain, are not modelled, because their source is not among the files modelled. The router imports them (src/routes/rainloggerRouter.ts:3-18), but the versions of src/controllers/rainlogControllers.ts and src/validations/rainlog.validations.ts modelled here define only `addRainlogToDatabase`, `getRainlogById` and `addRainlogValidation`. The errors those chains record come from the parameter `otherErrors`.
- RainloggerRouter.RunBinding: update, filter and delete requests end in `Unmodelled(handler)` after their chain, before their handler runs. The store is unchanged only because the model stops there; what `updateRainlog` and `deleteRainlog` do to the records (they change and remove them) is not modelled.
- RainloggerRouter.ServeBinding: the same stop before the update, filter and delete handlers; only `protect` and the validation chain, which never touch the store, are modelled for them.
- RainloggerRouter.Serve: the same stop before the update, filter and delete handlers, so its promise that an `Unmodelled` outcome leaves the store as it was says nothing about those handlers.
- The recognisers and converters of express-validator are parameters and are not modelled. These are `isISO8601`, `isFloat`, `isBoolean`, `toDate`, `toFloat` and `toBoolean`. `isFloat({min: 0})` is taken as "reads as a number, and that number is at least 0".
- RainlogValidations.OneErrorPerChain: an array value is one opaque value (`JComposite`) with a single verdict per check. express-validator checks each element of an array separately and can record one error per failing element, and its sanitizers map over the elements; so `measurement: [-1, -2]` would give two errors and `measurement: []` would pass. Neither is modelled.
- RainlogValidations.LocationRules: the length test counts characters of the string as given. validator.js's `isLength` does not count the variation selectors U+FE0E and U+FE0F, so it rejects a location made only of them as empty, which the model accepts.
- RainlogValidations.ValidateErrorOrder: the at-most-one-error-per-field promise holds for the scalar values modelled; for an array value the library may record several errors on one field (see OneErrorPerChain).
- RainlogModel.Insert: the model reports one error per failing field, in schema order. A value the field's type cannot hold is `CastFailed`, without mongoose's message text.
- RainlogModel.Insert: mongoose's own conversions are not modelled, for example from a numeric string to a number or date. The model casts only values of the field's own JSON type. The create validator lets only coerced values through.
- RainlogModel.Candidate: a `null` `records` value is not modelled. The create handler never passes `records`.
- RainlogControllers.Fetched: the object-id cast is the parameter `castId` (mongoose internals). A query id that is absent is looked up as no id (404). A query id given as an array or object is not modelled.
- Numbers are Dafny `real`, and dates are integers (milliseconds). Floating-point rounding and date parsing are not modelled.
- Concurrency is not modelled: requests are served one at a time. The uniqueness check and the insert happen in one step, as the database index makes them.
- AsyncGuard.CatchAsync: that the wrapped handler receives the same `req`, `res` and `next` holds by construction. The model passes the same request object to the handler. It is not a separate lemma.
- RainloggerRouter.Serve: a handler that calls `next()` would fall through to the method gate, then out of the router. No modelled handler does this, so `PassedOn` is never produced for a handled method.
