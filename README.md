# fh-rest-express-router, modelled in Dafny

fh-rest-express-router exposes a data store as a REST API. A developer hands it
an *adapter*, an object whose `create`, `read`, `update`, `delete` and `list`
functions (CRUDL) talk to the store. The router answers `POST /`, `GET /:id`,
`PUT /:id`, `DELETE /:id` and `GET /` by calling the matching adapter function.

This project models the router's core:

- the verb table and the classification of a request into a CRUDL operation;
- the `Allow` header and the 405 answer for an operation the adapter does not own;
- the safe invoker of adapter functions;
- the shape check on adapter results and the reaction to an adapter's callback
  (failure, success with an event, or 404);
- the single-adapter router, including the update that first reads the old record;
- the versioned handlers and the selection of an API version from the
  `x-fh-rest-api-version` header;
- the two-phase request validation (route params, then body or query);
- the structural check of the validation options;
- the default error handler and the per-router logger cache;
- the older `util.js` helpers, the older `lib/validate.js` middleware, and the
  sample in-memory adapter.

Values are a JavaScript value datatype (`JsValue.Value`). Callbacks are modelled
as the arguments they are called with: `Completion(err, data, extra)` for
adapters, and `NextCall` for Express's `next`. Joi's `validate(data, schema,
options)` and `JSON.stringify` are not part of this model. They are function
parameters (`Validator`, `stringify`) of the members that use them. Express's
request, response and the router's event emitter are classes
(`Http.Request`, `Http.Response`, `Http.Emitter`). Their methods change them in
place, and each middleware states its effect on them.

Three modules keep mutable state as the source does:

- `LogCache.LoggerCache` is the module-level `loggers` object.
- `ExampleAdapter.MemoryStore` holds the sample adapter's closure variables `id` and `data`.
- `RouterOptions.Options` is the options object that the validation factories
  default in place.

## Model

| member | source | states |
|---|---|---|
| HttpMethods.Verb | lib/http-methods.js:5-9 | The verb of each operation: create POST, read GET, update PUT, delete DELETE, list GET. VerbTableNotInjective and InvertFromIsRightInverse state its properties. |
| HttpMethods.OrderListsEachOperationOnce | lib/http-methods.js:4-10 | The table's key order lists each of the five operations exactly once. |
| HttpMethods.NamesAreDistinct | lib/http-methods.js:4-10 | Different operations have different names. |
| HttpMethods.InvertFrom | lib/get-request-type.js:3-5 | `_.invert` over the keys in order, each key stored under its verb. Its properties are the three InvertFrom lemmas. |
| HttpMethods.InvertFromIsRightInverse | lib/get-request-type.js:3-5 | Inverting the verb table maps every verb back to an operation that has that verb. Its keys are exactly the verbs of the inverted operations. |
| HttpMethods.InvertFromLastWins | lib/get-request-type.js:3-5 | When two keys share a verb, the later key's operation is stored under it. |
| HttpMethods.InvertFromKeepsUntouched | lib/get-request-type.js:3-5 | A verb that no remaining key has keeps the entry it already had. |
| HttpMethods.InvertedTable | lib/get-request-type.js:3-5 | The inverted table is POST→create, GET→list, PUT→update, DELETE→delete. |
| HttpMethods.VerbTableNotInjective | lib/http-methods.js:6-9 | read and list share GET, and GET belongs to exactly those two. |
| RequestType.GetRequestType | lib/get-request-type.js:13-19 | `getRequestType(req)`: read for a GET with a truthy id, otherwise the inverted table's entry for the method, or none. Its properties are the RequestType lemmas. |
| RequestType.TypeOf | lib/get-request-type.js:13-19 | For a method of the verb table, the request type exists and its verb is the request's method. |
| RequestType.RequestTypeIsTable | lib/get-request-type.js:13-19 | The request type equals an independently written table of method × id-truthiness. |
| RequestType.RequestTypeDependsOnlyOnIdTruthiness | lib/get-request-type.js:14 | Two requests with the same method and the same id truthiness get the same type. |
| RequestType.ReadAndListSplitGet | lib/get-request-type.js:14-17 | The type is read exactly for a GET with a truthy `params.id`, and list exactly for a GET without one. |
| RequestType.RequestTypeInvertsVerb | lib/get-request-type.js:13-19 | A classified operation's verb is the request's method. A method outside the table gives no type. |
| RequestType.RequestTypeRoundTrip | lib/get-request-type.js:13-19 | Sending an operation's own verb, with an id exactly for read, classifies back to that operation. |
| RequestType.RequestTypeExamples | lib/get-request-type.test.js:9-25 | The test cases, plus an empty-string id and PATCH. |
| VerifyAdapterResponse.ValidResponse | lib/verify-adapter-response.js:3-54 | `isValidAdapterResponse(type, response)`: create needs a plain object owning `uid` and `data`, the others a plain object. The VerifyAdapterResponse lemmas below state its properties. |
| VerifyAdapterResponse.CreateNeedsUidAndData | lib/verify-adapter-response.js:4-11 | The create validator unfolded: a create result is accepted exactly when it is a plain object that owns `uid` and `data`. |
| VerifyAdapterResponse.OthersNeedAPlainObject | lib/verify-adapter-response.js:13-27 | The other four validators unfolded: read, update, delete and list accept exactly the plain objects, including `{}`. |
| VerifyAdapterResponse.NonObjectsRejected | lib/verify-adapter-response.js:48-54 | Arrays, null, undefined and primitives are rejected for every operation. |
| VerifyAdapterResponse.CreateIsStrictest | lib/verify-adapter-response.js:3-28 | A result valid for create is valid for every operation. |
| VerifyAdapterResponse.OnlyKeysMatter | lib/verify-adapter-response.js:3-28 | Validity depends only on which keys a plain object has. |
| VerifyAdapterResponse.ResponseExamples | lib/verify-adapter-response.test.js:21-74 | The test cases: a full create result passes; results missing `uid` or `data`, `{}`, null and arrays fail. |
| EndpointSupport.AllowFold | lib/endpoint-support.js:15-24 | The `_.reduce` over the keys: an owned operation adds its verb, after ", " unless nothing was accumulated. AllowFoldIsJoin relates it to Join. |
| EndpointSupport.GenerateAllowHeader | lib/endpoint-support.js:15-24 | `generateAllowHeader(adapter)`: the fold from the empty string. AllowHeaderJoinsOwnedVerbs states what it holds. |
| EndpointSupport.AllowFoldIsJoin | lib/endpoint-support.js:15-24 | From any accumulator, the `_.reduce` fold equals that accumulator followed by the owned verbs joined with ", ". |
| EndpointSupport.AllowHeaderJoinsOwnedVerbs | lib/endpoint-support.js:15-24 | The Allow header is the verbs of the owned operations, in key order, joined by ", ". |
| EndpointSupport.OwnedIsFilter | lib/endpoint-support.js:17 | An operation is listed exactly when it is among the keys and the adapter owns it. |
| EndpointSupport.VerbsInOwned | lib/endpoint-support.js:15-24 | A verb appears exactly when some owned operation has it. |
| EndpointSupport.NothingOwnedGivesEmptyHeader | lib/endpoint-support.js:15-24 | An adapter that owns nothing gets an empty header. |
| EndpointSupport.ReadAndListGiveGetTwice | lib/endpoint-support.js:15-24 | Owning only read and list gives "GET, GET": verbs are not de-duplicated. |
| EndpointSupport.EverythingOwnedHeader | lib/endpoint-support.js:15-24 | Owning everything gives "POST, GET, PUT, DELETE, GET". |
| EndpointSupport.InheritedDoesNotCount | lib/endpoint-support.js:17 | Inherited functions are not own properties, so they give an empty header. |
| EndpointSupport.NoStraySeparator | lib/endpoint-support.js:19 | The header is empty or starts and ends with a verb, never with ", ". |
| EndpointSupport.IsSupported | lib/endpoint-support.js:35-48 | If the adapter owns the operation, `next()` is called and the response is untouched. Otherwise the answer is 405 with the Allow header and "action not supported: METHOD URL". A null adapter makes `hasOwnProperty` throw. |
| AdapterExec.ExecAdapterFunction | lib/adapter-exec.js:16-39 | What `execAdapterFunction` passes to its callback: the not-implemented error, the wrapped throw with null data, or the adapter's own callback arguments. The AdapterExec lemmas state each case. |
| AdapterExec.MissingFunctionNotImplemented | lib/adapter-exec.js:16-38 | A missing or falsy function runs nothing and yields the "not implemented" error naming the operation. |
| AdapterExec.ThrowIsWrapped | lib/adapter-exec.js:18-30 | A synchronous throw is wrapped with the operation and its parameters, and the data is null. |
| AdapterExec.CallbackPassesThrough | lib/adapter-exec.js:19 | Whatever the adapter calls back with is passed on unchanged. |
| AdapterExec.InvokerErrorsAreItsOwnOrTheAdapters | lib/adapter-exec.js:16-39 | An error-free completion is always the adapter's own callback. An error is either the invoker's own wrapping or the adapter's own. |
| Errors.Message | lib/adapter-exec.js:21-37 | The `message` of each error, a VError with a cause appending ": " and the cause's message. |
| Errors.ToString | lib/error-handler.js:43-45 | `err.toString()`: the name and the message joined by ": ", or whichever is non-empty alone. ToStringCases states the three cases. |
| Errors.ToStringCases | lib/error-handler.js:43-45 | An empty name gives the message alone, an empty message the name alone, and otherwise "name: message". |
| Errors.CauseMessageIsSuffix | lib/adapter-exec.js:21-29 | A wrapped error's message ends with the message of its cause. |
| Errors.ExecFailedShowsOperationAndCause | lib/router.js:86-90 | The text of a failed adapter call names the operation and contains the cause's text. |
| ExecComplete.Classify | lib/router.js:82-114 | The decision of `_execComplete`: fail on an error or a wrongly shaped truthy result, succeed on a valid truthy result, otherwise not found. The ExecComplete lemmas state each direction. |
| ExecComplete.Emitted | lib/router.js:85-108 | The events of a reaction: `<op>-fail` with the error, `<op>-success` with the data (and the extra data in the router), none for not found. OneEventPerOutcome and NotFoundExactlyForFalsyData state its properties. |
| ExecComplete.ErrorTakesPrecedence | lib/router.js:85-94 | An adapter error is wrapped and wins over any data sent with it. |
| ExecComplete.SuccessExactlyForValidData | lib/router.js:95-108 | Success happens exactly for an error-free, truthy result of the right shape, and it carries the data and the extra data. |
| ExecComplete.NotFoundExactlyForFalsyData | lib/router.js:109-113 | "Not found" happens exactly for an error-free, falsy result, and exactly then no event is emitted. |
| ExecComplete.CreateSuccessHasUidAndData | lib/router.js:95-108 | A successful create answers with a plain object that has `uid` and `data`. |
| ExecComplete.FailuresNameTheOperation | lib/router.js:85-104 | Every failure is one of the two wrapped errors, and its message starts with the operation's quoted name. |
| ExecComplete.OneEventPerOutcome | lib/router.js:85-108 | A failure or a success emits exactly one event, named `<op>-fail` or `<op>-success`. |
| ExecComplete.OnAdapterExecComplete | lib/router.js:81-115 | The event log gains exactly the reaction's events. The response and `next` follow the reaction: fail calls `next(e)`, success answers with the data, and not-found answers 404 with `{msg: 'not found'}`. |
| Router.RouterOptionsError | lib/router.js:32-42 | The two assertions on `opts.name` and `opts.adapter`, in order. RouterOptionsAccepted states when it is none. |
| Router.RouterOptionsAccepted | lib/router.js:32-42 | A router is built exactly when the name is a string and the adapter's `typeof` is 'object', which null passes. Otherwise the first failed assertion is the error. |
| Router.RouterParams | lib/router.js:117-209 | Each bag holds `routeParams`. It holds `id` exactly for read, update and delete, `data` exactly for update and create, and `query` exactly for list and read. |
| Router.UpdateFlow | lib/router.js:144-183 | `doUpdate`: the direct read under `emitOldDataOnUpdate`, then update or an early end, and the adapter functions invoked. The Router update lemmas state its cases. |
| Router.ReadErrorSkipsUpdate | lib/router.js:166-171 | Under `emitOldDataOnUpdate`, a read error fails the update and update is never called. |
| Router.MissingOldRecordIsNotFound | lib/router.js:172-173 | Under `emitOldDataOnUpdate`, a falsy old record answers 404 and update is never called. |
| Router.UpdateRunsOnlyAfterRead | lib/router.js:166-179 | Under `emitOldDataOnUpdate`, update runs only after a successful read of a truthy old record. That record becomes the extra data. |
| Router.OldDataInSuccessEvent | lib/router.js:175-177 | The `update-success` event carries the new record and the old record. |
| Router.MissingReadEscapes | lib/router.js:167 | A missing `read` under `emitOldDataOnUpdate` throws a TypeError before any adapter call. |
| Router.PlainUpdatePassesExtraThrough | lib/router.js:180-182 | Without the option, the adapter's own completion, including its third argument, reaches the handler. |
| Router.FhRouter.constructor | lib/router.js:30-52 | Only accepted options build a router. Its emitter starts empty. |
| Router.FhRouter.Do | lib/router.js:117-209 | List, read, create, delete and the plain update react to the adapter's completion on the operation's bag. |
| Router.FhRouter.DoUpdate | lib/router.js:144-183 | The update reacts as `UpdateFlow` decides and reports which adapter functions were invoked, in order. An escaped throw reaches `next` and the response is untouched. |
| Handlers.ParamDefinitions | lib/handlers.js:17-39 | `paramDefinitions`: each operation's bag keys and the request paths they are read from, in key order. HandlerBagsMatchRouterBags and GetRequestParamsSpec state what they pluck. |
| Handlers.VerbMappings | lib/handlers.js:42-48 | `verbMappings`, the handlers' own verb table. VerbMappingsAgree states it equals lib/http-methods.js. |
| Handlers.VerbMappingsAgree | lib/handlers.js:42-48 | The handlers' copy of the verb table equals lib/http-methods.js. |
| Handlers.Pluck | lib/handlers.js:133 | One `_.get.bind(_, req)` call made by `_.map`: the element's index arrives as `_.get`'s default value, so an undefined lookup yields the index. ZipFromSpec states the result. |
| Handlers.ZipFrom | lib/handlers.js:131-134 | `_.zipObject` of the definition keys with their plucked values. ZipFromSpec states its result. |
| Handlers.GetRequestParams | lib/handlers.js:120-144 | `getRequestParams(req, def)` as written: the bag plucked from the request. GetRequestParamsSpec states its keys and values. |
| Handlers.ZipFromSpec | lib/handlers.js:131-134 | `_.zipObject` adds exactly the definitions' keys and keeps the other keys. Each key holds its path lookup when that is defined, and its definition's index when the lookup is undefined. |
| Handlers.GetRequestParamsSpec | lib/handlers.js:120-144 | The bag has exactly the definition's keys. Each holds the request's value at its path, or the definition's index where that is undefined, so no bag value is undefined. |
| Handlers.BagValues | lib/handlers.js:120-144 | The same keys and values as GetRequestParamsSpec, for any definition whose keys are distinct. |
| Handlers.HandlerBagsMatchRouterBags | lib/handlers.js:17-39 | When every lookup of the definition is defined, the handlers build the router's bags, except that read has no `query`. |
| Handlers.MissingBodyBecomesIndex | lib/handlers.js:131-134 | A create or update without a body passes `data: 1` or `data: 2` to the adapter, where the router passes `req.body`, undefined. |
| Handlers.IntendedRequestParams | lib/handlers.js:131-134 | The corrected plucking: each path read with `_.get(req, path)` alone, so an undefined lookup stays undefined. IntendedBagsMatchRouterBags and SourceBagIsIntendedExactlyWhenDefined state its properties. |
| Handlers.IntendedBagsMatchRouterBags | lib/handlers.js:17-39 | Plucking without a default value builds the router's bags for every request, a missing body included. |
| Handlers.IntendedZipFromAgrees | lib/handlers.js:131-134 | Where every lookup is defined, plucking with and without the default value gives the same bag. |
| Handlers.SourceBagIsIntendedExactlyWhenDefined | lib/handlers.js:131-134 | The source's bag equals the intended one exactly when every lookup of the operation's definition is defined. |
| Handlers.ServingAdapter | lib/handlers.js:167 | `(version && version.adapter) ? version.adapter : version`. ServingAdapterSpec states its cases. |
| Handlers.ServingAdapterSpec | lib/handlers.js:167 | A version entry serves through its `adapter` property when it has one, and serves itself otherwise. |
| Handlers.Decide | lib/handlers.js:154-196 | The decision of `_requestHandler`: throw, 400, 405 with Allow, or execute on the bag plucked as written, undefined lookups giving their index. The Handlers lemmas state when each happens. |
| Handlers.ExecutesOnlyOwnedOperations | lib/handlers.js:160-193 | The adapter is called exactly when a version was picked and its serving adapter owns the operation. It then gets exactly the plucked bag. |
| Handlers.NotAllowedListsOwnedVerbs | lib/handlers.js:177-185 | The 405's Allow header lists the serving adapter's owned verbs, in key order. |
| Handlers.UnknownVersionIsBadRequest | lib/handlers.js:172-176 | A null selection answers 400, never 405 and never an execution. |
| Handlers.RequestHandler | lib/handlers.js:154-196 | The response, the events and `next` are those of the decision: a throw goes to `next`, a missing adapter gets 400 "unsupported API version requested", an unowned operation gets 405 with Allow, and otherwise the adapter's completion decides. |
| SelectVersion.Select | lib/select-version.js:7-29 | `_getAdapterForRequest`: `opts.adapter`, the header's version, null for an unknown version, or the default version's entry. The SelectVersion lemmas state each branch. |
| SelectVersion.SingleAdapterWins | lib/select-version.js:10-16 | With `opts.adapter` set, it is used whatever the header says. |
| SelectVersion.HeaderPicksVersion | lib/select-version.js:17-20 | A header naming a known version picks that entry. |
| SelectVersion.UnknownVersionGivesNull | lib/select-version.js:21-24 | A header naming an unknown version gives null, with no fallback to the default. |
| SelectVersion.NoHeaderUsesDefault | lib/select-version.js:25-28 | Without a header, or with an empty one, the default version's entry is used. |
| SelectVersion.SelectionComesFromConfig | lib/select-version.js:7-29 | What is picked is `opts.adapter` or an entry of the versions table. It throws exactly when both are missing. |
| SelectVersion.OnlyTheHeaderMatters | lib/select-version.js:8 | Requests with the same version header get the same selection. |
| ValidateOptions.CheckValidations | lib/validate-request/validate-validate-options.js:24-35 | The exported checker: accepted, or the first failed assertion. CheckAcceptsExactlyWellFormed states what it accepts. |
| ValidateOptions.CheckEntriesFromAccepts | lib/validate-request/validate-validate-options.js:51-74 | The loop over entries accepts exactly when every entry from the index on is well formed. |
| ValidateOptions.CheckKeysAccepts | lib/validate-request/validate-validate-options.js:30-34 | The loop over the five keys accepts exactly when every truthy key holds well-formed rules. |
| ValidateOptions.CheckAcceptsExactlyWellFormed | lib/validate-request/validate-validate-options.js:24-75 | The check accepts exactly the options where every truthy operation key holds an array of objects whose schema is a Joi schema and whose options, if truthy, are a non-array object. |
| ValidateOptions.WordingDoesNotChangeAcceptance | lib/validate-request/validate-validate-options.js:24-75 | Fixing the messages does not change which options are accepted. |
| ValidateOptions.IntendedMessagesNameContainer | lib/validate-request/validate-validate-options.js:24-75 | With the corrected messages, every rejection names the container it was raised for. |
| ValidateOptions.AsWrittenTopMessageNamesWrongContainer | lib/validate-request/validate-validate-options.js:25-28 | As written, a bad `bodyAndQueryValidations` is reported as `opts.routeParamValidations`. |
| ValidateOptions.AsWrittenJoiMessageUnformatted | lib/validate-request/validate-validate-options.js:62-66 | As written, a non-Joi schema is reported with its `%s` and `%d` placeholders left unfilled. |
| ValidateOptions.AsWrittenOptionsMessageBlamesSchema | lib/validate-request/validate-validate-options.js:68-72 | As written, bad `options` next to a valid schema are blamed on the schema. |
| ValidateOptions.CheckRejectsExamples | lib/validate-request/index.test.js:93-162 | A non-object option, a non-array key and a non-object entry are rejected with "opts.C must be an Object", "opts.C.create must be an Array" and "opts.C.read[0] must be an Object", for container C. |
| ValidateOptions.CheckRejectsMissingSchema | lib/validate-request/index.test.js:170-183 | An entry without a schema is rejected. |
| ValidateOptions.CheckAcceptsExamples | lib/validate-request/validate-validate-options.js:30-34 | An empty rule list and a null key pass, and keys other than the five are ignored. |
| ValidateRules.ApplyRule | lib/validate-request/validate.js:20-27 | The `mapSeries` iteratee: `Joi.validate(data, entry.schema, entry.options)`. RunRulesSucceeds and FirstErrorWins state how RunRules uses it. |
| ValidateRules.RunRules | lib/validate-request/validate.js:18-31 | `async.mapSeries` of the rules on the same data: the outputs in order, or the first error. |
| ValidateRules.Merge | lib/validate-request/validate.js:36 | `_.assign.apply(_, outputs)`: a left-to-right merge. MergeKeys and MergeLastWins state its result. |
| ValidateRules.DoValidate | lib/validate-request/validate.js:15-45 | `doValidate`: the data unchanged without rules, else the merge of the outputs or the first error. DoValidateSucceeds states when it succeeds. |
| ValidateRules.RunRulesSucceeds | lib/validate-request/validate.js:18-27 | The series succeeds exactly when every rule accepts the same data. The outputs are then the rules' outputs, in order. |
| ValidateRules.FirstErrorWins | lib/validate-request/validate.js:28-31 | A failed series returns the error of the first failing rule, and every earlier rule accepted. |
| ValidateRules.LaterRulesDoNotRun | lib/validate-request/validate.js:18-31 | Once a prefix fails, the rules after it make no difference. |
| ValidateRules.MergeKeys | lib/validate-request/validate.js:36 | The merged object's keys are the union of the outputs' keys. |
| ValidateRules.MergeLastWins | lib/validate-request/validate.js:36 | A merged key holds the value of the last output that has it. |
| ValidateRules.NoRulesPassesDataThrough | lib/validate-request/validate.js:41-44 | With no rules for the type, the data passes through unchanged. |
| ValidateRules.EmptyRuleListGivesEmptyObject | lib/validate-request/validate.js:16-39 | An empty rule array is truthy: no rule runs and the result is `{}`. |
| ValidateRules.DoValidateSucceeds | lib/validate-request/validate.js:15-45 | Validation succeeds exactly when every rule accepts the data. The result is then the merge of the outputs. |
| ValidateRules.DoValidateExample | lib/validate-request/validate.js:32-38 | Two rules whose outputs share a key merge with the later value. |
| ValidateRouteParams.RouteParamsPhase | lib/validate-request/validate-route-params.js:26-44 | The outcome of the route-param phase: `doValidate` on `req.params` with the request's own type. |
| ValidateRouteParams.RouteParamsPhaseUsesRequestType | lib/validate-request/validate-route-params.js:26-34 | The params are checked against the rules of the request's own type. With no rules they pass unchanged. |
| ValidateRouteParams.RouteParamsValidator.constructor | lib/validate-request/validate-route-params.js:6-16 | Only options the structural check accepts build the phase. |
| ValidateRouteParams.RouteParamsValidator.Run | lib/validate-request/validate-route-params.js:25-45 | An error calls `next(err)` and leaves the request alone. Success replaces `req.params` with the validated value. Query and body are never touched. |
| ValidateBodyOrQuery.BodyOrQueryPhase | lib/validate-request/validate-body-or-query.js:27-37 | The outcome of the second phase: `doValidate` on the query for list and read, on the body otherwise. |
| ValidateBodyOrQuery.QueryExactlyForGet | lib/validate-request/validate-body-or-query.js:27-28 | Only GETs validate the query. POST, PUT and DELETE validate the body. |
| ValidateBodyOrQuery.NoRulesKeepsData | lib/validate-request/validate-body-or-query.js:37 | With no rules for the type, the chosen field passes unchanged. |
| ValidateBodyOrQuery.NoRulesRemovesNothing | lib/validate-request/validate-body-or-query.js:37-43 | With no rules for the type, the phase hands the data back unchanged and reports no removed key, so `Run` reports `{}`. |
| ValidateBodyOrQuery.RemovedExactlyWhenNoRuleKeeps | lib/validate-request/validate-body-or-query.js:37-43 | With rules, a key of the data is reported removed exactly when every rule accepts and no rule's output keeps that key. |
| ValidateBodyOrQuery.BodyOrQueryValidator.constructor | lib/validate-request/validate-body-or-query.js:7-17 | Only options the structural check accepts build the phase. |
| ValidateBodyOrQuery.BodyOrQueryValidator.Run | lib/validate-request/validate-body-or-query.js:26-63 | An error leaves the request alone. Success replaces exactly the chosen field and reports the removed keys. The params are never touched. |
| ValidateRequest.BuildError | lib/validate-request/index.js:19-20 | Why building the middleware throws: the route-param option's check first, then the body-and-query option's. BuildErrorSpec states when it is none and which error wins. |
| ValidateRequest.BuildErrorSpec | lib/validate-request/index.js:19-20 | The middleware is built exactly when both options are well formed. A bad route-param option is reported first. |
| ValidateRequest.DefaultsAreAccepted | lib/validate-request/index.js:15-16 | Left-out options default to `{}`, which builds. |
| ValidateRequest.TwoPhase | lib/validate-request/index.js:48-72 | `async.series` of the two phases: the request's fields after validation, and the first error. The lemmas below state its cases. |
| ValidateRequest.RouteFailureSkipsBodyPhase | lib/validate-request/index.js:48-62 | A route-param failure leaves the request untouched, and the body-or-query rules do not matter. |
| ValidateRequest.SuccessReplacesChosenField | lib/validate-request/index.js:48-72 | Validation succeeds exactly when both phases do. The params are then the first phase's output, and exactly one of query and body is replaced. |
| ValidateRequest.BodyFailureKeepsNewParams | lib/validate-request/index.js:48-62 | A body-or-query failure still leaves the validated params in place. |
| ValidateRequest.EmptyOptionsChangeNothing | lib/validate-request/index.js:14-75 | With the defaulted options, every request passes unchanged. |
| ValidateRequest.BodyPhaseSeesNewParams | lib/validate-request/validate-body-or-query.js:27 | The second phase types the request by the new params. A GET whose read rule drops the id is then validated by the list rules. |
| ValidateRequest.RequestValidator.constructor | lib/validate-request/index.js:14-20 | Both options are defaulted on `opts` itself, and both phases are built from them. |
| ValidateRequest.RequestValidator.Middleware | lib/validate-request/index.js:22-73 | The request ends as the two phases leave it. A failure answers 400 "Bad Request - " plus the error's text. Success calls `next()`. |
| ErrorHandler.ErrData | lib/error-handler.js:18-33 | The record logged with the error. ErrDataSpec states its fields. |
| ErrorHandler.ErrDataSpec | lib/error-handler.js:18-33 | The log record always holds the error. It carries method, URL, body, query, headers and router name exactly when `verboseErrors` is truthy. |
| ErrorHandler.ErrorBodyExample | lib/error-hander.test.js:45-48 | Example from the test: `Error('oops')` answers `{msg: 'Error: oops'}`. |
| ErrorHandler.FhRestErrorHandler.Handle | lib/error-handler.js:16-46 | The answer is always 500 with the error's text. The record passed to the logger is `ErrData`, and `next` is never called. |
| LogCache.LoggerName | lib/log.js:17-19 | The logger name "fh-rest-express-router(router: NAME)". |
| LogCache.LoggerNameInjective | lib/log.js:17-19 | Different router names give different logger names. |
| LogCache.LoggerCache.GetLogger | lib/log.js:13-23 | A cached name returns the same logger and leaves the cache unchanged. A new name stores a fresh logger named "fh-rest-express-router(router: NAME)". |
| LogCache.LoggerCache.GetLoggerTwice | lib/log.test.js:35-47 | Asking twice for one name gives the same instance. |
| LegacyUtil.LegacyExec | util.js:10-23 | The older invoker's callback arguments. LegacyExecAgreesWithCurrent relates it to the current one. |
| LegacyUtil.LegacyExecAgreesWithCurrent | util.js:10-23 | The older invoker runs the same function and errors exactly when the current one does. Without an error the completion is the same. |
| LegacyUtil.LegacyThrowIsWrapped | util.js:14-18 | A throw is wrapped as `failed to execute adapter function "<fn>"` with the cause, and the data is null. |
| LegacyUtil.LegacyClassify | util.js:25-33 | The older completion handler: forward the error, or answer with the data. |
| LegacyUtil.LegacyHasNoNotFoundOrShapeCheck | util.js:25-33 | Every error-free completion is answered with its data, even falsy or wrongly shaped data. Errors are passed on raw. |
| LegacyUtil.OnLegacyExecComplete | util.js:25-33 | An error calls `next(err)` and leaves the response alone. Otherwise the response is the data. |
| LegacyValidate.LegacyCheck | lib/validate.js:18-42 | The construction check on the defaulted validations. LegacyCheckAcceptsExactlyWellFormed states what it accepts. |
| LegacyValidate.ElementsFromAccepts | lib/validate.js:33-41 | The element loop accepts exactly when every element from the index on has `isJoi == true`. |
| LegacyValidate.TypesFromAccepts | lib/validate.js:25-42 | The key loop accepts exactly when update, create and list each hold undefined, null or an array of Joi schemas. |
| LegacyValidate.LegacyCheckAcceptsExactlyWellFormed | lib/validate.js:18-42 | The construction check accepts exactly the well-formed legacy validations. |
| LegacyValidate.ReadAndDeleteUnchecked | lib/validate.js:18-25 | Leaving the validations out is accepted. Values under read and delete are never checked. |
| LegacyValidate.LegacyRejectsNonObject | lib/validate.test.js:43-49 | A string is rejected as not an object. |
| LegacyValidate.LegacyRejectsNonArrayCreate | lib/validate.test.js:51-60 | An object under create is rejected, naming create. |
| LegacyValidate.LegacyRejectsNonArrayUpdate | lib/validate.test.js:62-71 | update is checked first and named. |
| LegacyValidate.LegacyIsJoiExamples | lib/validate.test.js:84-110 | `isJoi: false` is rejected and `isJoi: true` is accepted. |
| LegacyValidate.AsciiUpper | lib/validate.js:67 | Upper-casing keeps the length and raises exactly the ASCII lower-case letters. |
| LegacyValidate.LegacyType | lib/validate.js:47-67 | `httpMap[req.method.toUpperCase()]`: update for PUT, create for POST, list for GET, and none otherwise. |
| LegacyValidate.LegacyTypeIgnoresId | lib/validate.js:47-67 | Every GET is validated as list, even with an id, and regardless of case. DELETE has no type. |
| LegacyValidate.SeriesError | lib/validate.js:81-99 | `async.eachSeries` of the schemas on the data: the first error, or none. |
| LegacyValidate.SeriesMatchesRunRules | lib/validate.js:81-84 | The older series fails exactly as the newer rule runner does on the same schemas without options. |
| LegacyValidate.SeriesErrorSpec | lib/validate.js:81-84 | The series succeeds exactly when every schema accepts. An error is the first failing schema's own: every earlier schema accepted. |
| LegacyValidate.RunSeries | lib/validate.js:81-99 | The loop returns exactly the series' first error, or none. |
| LegacyValidate.DoValidateOutcome | lib/validate.js:65-110 | `_doValidate` on the fallback version: the series' first error on the chosen data, or none when there is no type or no rules. |
| LegacyValidate.DoValidateOutcomeSpec | lib/validate.js:65-110 | Untyped requests and types without rules pass. Otherwise the query (list) or the body meets every rule. |
| LegacyValidate.AnswerAsWritten | lib/validate.js:53-63 | The middleware as written: the callback handed to the selector factory is dropped, so it never answers. AsWrittenNeverAnswersList and AsWrittenNeverAnswersCreate state this. |
| LegacyValidate.Answer | lib/validate.js:53-110 | The intended middleware always answers: 400 or `next()`. |
| LegacyValidate.AsWrittenNeverAnswersList | lib/validate.js:53-63 | A list query that the list schema rejects should be a 400. As written it is never answered. |
| LegacyValidate.AsWrittenNeverAnswersCreate | lib/validate.js:53-63 | A create body that the schema accepts should pass on. As written it is never answered. |
| LegacyValidate.LegacyValidator.constructor | lib/validate.js:17-42 | `opts.validations` is defaulted in place, the other options are unchanged, and only accepted validations build. |
| LegacyValidate.LegacyValidator.Middleware | lib/validate.js:53-110 | With the corrected call: 400 "Bad Request - " plus the text on the first error, `next()` otherwise. The request is never modified. |
| ExampleAdapter.NextKeyIsFresh | example/adapter.js:14 | The next id's key was never issued before. |
| ExampleAdapter.MemoryStore.Create | example/adapter.js:13-24 | The next id is issued and `params.data` is stored under it. The answer is `{uid, data}` with the whole store, a valid create result. |
| ExampleAdapter.MemoryStore.Read | example/adapter.js:26-28 | Answers the record under `params.id`, or undefined. The store is unchanged. |
| ExampleAdapter.MemoryStore.Update | example/adapter.js:30-39 | A truthy record is replaced and answered with (new, old). Otherwise the store is unchanged and the answer is null. The keys never change. |
| ExampleAdapter.MemoryStore.List | example/adapter.js:41-45 | Answers the whole store, a valid list result, whatever the query. |
| ExampleAdapter.MemoryStore.Delete | example/adapter.js:47-58 | A truthy record is removed and answered. Otherwise nothing changes and the answer is null. The counter is never lowered. |
| ExampleAdapter.IdsAreNeverReused | example/adapter.js:13-58 | A key issued after a deletion differs from every key issued before. |

## Left out

- Express wiring is not modelled: route registration, `bodyParser.json`, `mergeParams`, and the order in which Express runs middleware. Each middleware is modelled on its own, and the README rows say which `next` it calls.
- index.js, example/index.js and example/validate-create.js are not modelled. They only export modules and wire up an example app.
- Joi's validation semantics are not modelled. Joi is the `Validator` parameter, called as (data, schema, options).
- JSON.stringify and VError's `%j` formatting are the `stringify` parameter.
- Logging through bunyan (levels, records, output) is not modelled. Only the logger cache and the record given to the error handler's logger are modelled.
- Event listeners and asynchronous scheduling are not modelled. The emitter is the sequence of events emitted, and adapters call back at most once, without delay.
- A callback that throws back into the invoker's `try` block, and so gets called a second time, is not modelled.
- Operation names outside the five, and HTTP methods outside POST, GET, PUT and DELETE, are not modelled in the newer middlewares. The request type of such a method is `undefined`, and lodash would look up the key "undefined". `ValidateRouteParams.RouteParamsValidator.Run`, `ValidateBodyOrQuery.BodyOrQueryValidator.Run` and `ValidateRequest.RequestValidator.Middleware` require a known method. This leaves out HEAD, which `router.get` also serves (lib/router.js:67-68).
- `Router.FhRouter.Do` requires an adapter object. With a null `opts.adapter` the support check before it throws first, as `EndpointSupport.IsSupported` states.
- Non-object Joi outputs are not merged: `ValidateRules.Merge` takes fields only from objects, whereas `_.assign` would copy a string's indices.
- ValidateBodyOrQuery.Removed: the removed keys are a set, so the order in which they would be logged is lost.
- LegacyValidate.AsciiUpper: only ASCII letters are upper-cased, not the full Unicode mapping of `toUpperCase`.
- In the older middleware, a method outside PUT, POST and GET looks up the key "undefined" in the validations. The model treats such a request as untyped, so it passes.
- The selector factory also creates a logger for `req.name` when it is wrongly called with the request. That call is not modelled beyond the fact that the callback is dropped.
- A truthy `opts.adapter` that is not an adapter object is treated as absent when a version is selected.
- ExampleAdapter.MemoryStore.Create: the response carries a snapshot of the store, not a live reference to it. Prototype keys such as "toString" are not modelled in the store.
- JsValue.LooseEqualsTrue: `v == true` is modelled for `true`, the number 1, the string "1" and arrays printing as "1". Other strings that JavaScript converts to 1, such as "01", " 1", "1.0" and "0x1", are treated as not equal. So `ValidateOptions.CheckAcceptsExactlyWellFormed` and `LegacyValidate.LegacyCheckAcceptsExactlyWellFormed` reject `isJoi` values that the source accepts.
- Numbers are integers (`Num(int)`): fractions, NaN and infinities are not modelled.
- An adapter error is modelled as an `Error` value. The source treats any truthy `err` as a failure. For a non-Error such as a string it would pass that value to `new VError(err, ...)`, which reads it as a format string or as options rather than as a cause. That case is not modelled.
- Prototype keys are not modelled in any object lookup. With the router name "constructor", `loggers[opts.name]` (lib/log.js:14) finds `Object`, but `LogCache.LoggerCache.GetLogger` creates a logger. With the version header "toString", `opts.versions[reqVersion]` (lib/select-version.js:17) finds a function, but `SelectVersion.Select` gives null.
- The TypeError texts follow current Node wording, e.g. "Cannot read properties of null (reading 'isJoi')".
- The test files lib/handlers.test.js, lib/router.test.js and test/router.test.js are not modelled as separate scenarios. Their behaviours are covered by the lemmas about the handlers and the router.

## Findings

| source | as written | input that shows it | evidently intended | confidence | as-written member | corrected member |
|---|---|---|---|---|---|---|
| lib/validate-request/validate-validate-options.js:25-28 | The top-level message always says `opts.routeParamValidations must be an Object`. | `bodyAndQueryValidations: 'hello'` | It names the container being checked. | high, not executed | ValidateOptions.AsWrittenTopMessageNamesWrongContainer | ValidateOptions.IntendedMessagesNameContainer |
| lib/validate-request/validate-validate-options.js:62-66 | `format` gets no arguments, so the message keeps `%s.%s[%d]`. | an entry whose schema is `{isJoi: false}` | `opts.<container>.<type>[<idx>].schema must be a Joi schema` | high, not executed | ValidateOptions.AsWrittenJoiMessageUnformatted | ValidateOptions.IntendedMessagesNameContainer |
| lib/validate-request/validate-validate-options.js:68-72 | It checks `options` but names `schema`, with unfilled placeholders. | a valid Joi schema with `options: [1]` | `opts.<container>.<type>[<idx>].options must be an Object` | medium, not executed | ValidateOptions.AsWrittenOptionsMessageBlamesSchema | ValidateOptions.IntendedMessagesNameContainer |
| lib/validate.js:53-63 | `selectApiVersion(req, cb)` calls the selector's factory, which ignores `cb`. No response is written and `next` is never called. | `GET /` with a list query that the list schema rejects | Skip the selector and run `_doValidate` on the fallback version `{adapter: opts.adapter, validations: opts.validations}` (lines 58-61), so it answers 400 or calls `next()`. Calling a selector built from `opts` would not do this: without `opts.adapter` and `opts.versions` it throws at lib/select-version.js:27, and with `opts.adapter` it passes the adapter, whose `validations` is normally undefined. | high, not executed | LegacyValidate.AsWrittenNeverAnswersList | LegacyValidate.LegacyValidator.Middleware |
| lib/handlers.js:131-134 | `_.map(_.values(def), _.get.bind(_, req))`: `_.map` passes each element's index as `_.get`'s default value, so an undefined lookup becomes the index. | `POST /` with no body: the adapter's `create` gets `data: 1` | Read each path with `_.get(req, path)` alone, so a missing body reaches the adapter as undefined, as in lib/router.js. The handlers here follow the code as written; the intended plucking is proved alongside. | high, not executed | Handlers.MissingBodyBecomesIndex | Handlers.IntendedBagsMatchRouterBags |
