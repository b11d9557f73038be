/**
 * lib/validate-request/index.js: the request-validation middleware. Missing
 * validation options default to `{}`; both phases are built (each checks its
 * options and throws on a malformed one); each request then runs the
 * route-param phase and, only if it passes, the body-or-query phase. A
 * failure answers 400, success hands on to the next middleware.
 */
module ValidateRequest {
  import opened JsValue
  import opened Errors
  import opened HttpMethods
  import opened Http
  import opened RequestType
  import opened ValidateOptions
  import opened ValidateRules
  import opened ValidateRouteParams
  import opened ValidateBodyOrQuery
  import opened RouterOptions

  /**
   * Why building the middleware throws, given the defaulted options: the
   * route-param options are checked first (lib/validate-request/index.js:19-20).
   */
  function BuildError(w: Wording, routeParamValidations: Value, bodyAndQueryValidations: Value): Option<Error> {
    match CheckValidations(w, routeParamValidations, "routeParamValidations")
    case Rejected(e) => Some(e)
    case Accepted =>
      match CheckValidations(w, bodyAndQueryValidations, "bodyAndQueryValidations")
      case Rejected(e) => Some(e)
      case Accepted => None
  }

  /** The middleware is built exactly when both options are well formed; a bad route-param option is reported first. */
  lemma BuildErrorSpec(w: Wording, routeParamValidations: Value, bodyAndQueryValidations: Value)
    ensures BuildError(w, routeParamValidations, bodyAndQueryValidations).None?
        <==> WellFormed(routeParamValidations) && WellFormed(bodyAndQueryValidations)
    ensures !WellFormed(routeParamValidations) ==>
              Some(BuildError(w, routeParamValidations, bodyAndQueryValidations).value)
              == BuildError(w, routeParamValidations, Obj(map[]))
  {
    CheckAcceptsExactlyWellFormed(w, routeParamValidations, "routeParamValidations");
    CheckAcceptsExactlyWellFormed(w, bodyAndQueryValidations, "bodyAndQueryValidations");
  }

  /** Leaving both options out builds the middleware: `{}` is well formed. */
  lemma DefaultsAreAccepted(w: Wording)
    ensures BuildError(w, OrEmptyObject(Undefined), OrEmptyObject(Undefined)) == None
  {
    BuildErrorSpec(w, Obj(map[]), Obj(map[]));
  }

  /** The request's fields after validation and the error, if any. */
  datatype Validated = Validated(error: Option<Error>, params: Value, query: Value, body: Value)

  /** `async.series([validateRouteParams, validateBodyOrQuery], ...)` on a request. */
  function TwoPhase(validate: Validator, routeParamValidations: Value, bodyAndQueryValidations: Value,
                    httpMethod: string, params: Value, query: Value, body: Value): Validated
    requires WellFormed(routeParamValidations) && WellFormed(bodyAndQueryValidations) && KnownMethod(httpMethod)
  {
    match RouteParamsPhase(validate, routeParamValidations, httpMethod, params)
    case Err(e) => Validated(Some(e), params, query, body)
    case Ok(p) =>
      match BodyOrQueryPhase(validate, bodyAndQueryValidations, httpMethod, p, query, body)
      case Err(e) => Validated(Some(e), p, query, body)
      case Ok(v) =>
        if UsesQuery(TypeOf(httpMethod, p)) then Validated(None, p, v, body) else Validated(None, p, query, v)
  }

  /** A route-param failure ends validation: the request is untouched and the body-or-query rules never matter. */
  lemma RouteFailureSkipsBodyPhase(validate: Validator, rv: Value, bv: Value, bv': Value,
                                   httpMethod: string, params: Value, query: Value, body: Value)
    requires WellFormed(rv) && WellFormed(bv) && WellFormed(bv') && KnownMethod(httpMethod)
    requires RouteParamsPhase(validate, rv, httpMethod, params).Err?
    ensures TwoPhase(validate, rv, bv, httpMethod, params, query, body)
         == Validated(Some(RouteParamsPhase(validate, rv, httpMethod, params).error), params, query, body)
    ensures TwoPhase(validate, rv, bv, httpMethod, params, query, body)
         == TwoPhase(validate, rv, bv', httpMethod, params, query, body)
  {
  }

  /**
   * Validation succeeds exactly when both phases do; the params are then the
   * route phase's output and exactly one of query and body is replaced.
   */
  lemma SuccessReplacesChosenField(validate: Validator, rv: Value, bv: Value,
                                   httpMethod: string, params: Value, query: Value, body: Value)
    requires WellFormed(rv) && WellFormed(bv) && KnownMethod(httpMethod)
    ensures var t := TwoPhase(validate, rv, bv, httpMethod, params, query, body);
            var r := RouteParamsPhase(validate, rv, httpMethod, params);
            t.error.None? <==> r.Ok? && BodyOrQueryPhase(validate, bv, httpMethod, r.value, query, body).Ok?
    ensures var t := TwoPhase(validate, rv, bv, httpMethod, params, query, body);
            var r := RouteParamsPhase(validate, rv, httpMethod, params);
            t.error.None? ==>
              var v := BodyOrQueryPhase(validate, bv, httpMethod, r.value, query, body).value;
              t.params == r.value
              && (if httpMethod == "GET" then t.query == v && t.body == body else t.query == query && t.body == v)
  {
    var r := RouteParamsPhase(validate, rv, httpMethod, params);
    if r.Ok? {
      QueryExactlyForGet(validate, bv, httpMethod, r.value, query, body);
    }
  }

  /** A body-or-query failure still leaves the validated params in place. */
  lemma BodyFailureKeepsNewParams(validate: Validator, rv: Value, bv: Value,
                                  httpMethod: string, params: Value, query: Value, body: Value)
    requires WellFormed(rv) && WellFormed(bv) && KnownMethod(httpMethod)
    requires RouteParamsPhase(validate, rv, httpMethod, params).Ok?
    requires BodyOrQueryPhase(validate, bv, httpMethod, RouteParamsPhase(validate, rv, httpMethod, params).value, query, body).Err?
    ensures var p := RouteParamsPhase(validate, rv, httpMethod, params).value;
            TwoPhase(validate, rv, bv, httpMethod, params, query, body)
            == Validated(Some(BodyOrQueryPhase(validate, bv, httpMethod, p, query, body).error), p, query, body)
  {
  }

  /** With the defaulted `{}` options every request passes unchanged. */
  lemma EmptyOptionsChangeNothing(validate: Validator, httpMethod: string, params: Value, query: Value, body: Value)
    requires KnownMethod(httpMethod)
    ensures WellFormed(Obj(map[]))
    ensures TwoPhase(validate, Obj(map[]), Obj(map[]), httpMethod, params, query, body)
         == Validated(None, params, query, body)
  {
    RequestTypeIsTable(httpMethod, params);
  }

  /** A rule entry with that schema and no options. */
  function Rule(name: string): (r: Value)
    ensures WellFormedEntry(r)
  {
    assert "isJoi" != "schema" && "options" != "schema";
    Obj(map["schema" := Schema(name)])
  }

  /** One accepting rule: validation yields the fields of its output. */
  lemma SingleRuleMerges(validate: Validator, rule: Value, data: Value)
    requires ApplyRule(validate, rule, data).Ok?
    ensures RunRules(validate, [rule], data) == Ok([ApplyRule(validate, rule, data).value])
    ensures Merge([ApplyRule(validate, rule, data).value]) == FieldsOf(ApplyRule(validate, rule, data).value)
  {
    var o := ApplyRule(validate, rule, data).value;
    assert [rule][1..] == [];
    assert [o] + [] == [o];
    assert [o][..0] == [];
  }

  /** Options holding rules for a single operation are well formed. */
  lemma OneOperationWellFormed(op: Op, rule: Value)
    requires WellFormedEntry(rule)
    ensures WellFormed(Obj(map[Name(op) := Arr([rule])]))
  {
    var v := Obj(map[Name(op) := Arr([rule])]);
    forall o ensures WellFormedRules(Get(v, Name(o))) {
      if Name(o) == Name(op) {
        NamesAreDistinct(o, op);
      }
    }
  }

  /** The first phase of the example below: the read rule drops the id. */
  lemma ReadRuleDropsId(validate: Validator, rv: Value)
    requires validate(Obj(map["id" := Str("1")]), Schema("readParams"), Undefined) == Ok(Obj(map[]))
    requires rv == Obj(map["read" := Arr([Rule("readParams")])])
    ensures WellFormed(rv)
    ensures RouteParamsPhase(validate, rv, "GET", Obj(map["id" := Str("1")])) == Ok(Obj(map[]))
  {
    var params := Obj(map["id" := Str("1")]);
    OneOperationWellFormed(Read, Rule("readParams"));
    assert "options" != "schema";
    RequestTypeIsTable("GET", params);
    SingleRuleMerges(validate, Rule("readParams"), params);
  }

  /** The second phase of the example below: without an id, the list rule validates the query. */
  lemma ListRuleValidatesQuery(validate: Validator, bv: Value, query: Value, listed: Value)
    requires validate(query, Schema("listQuery"), Undefined) == Ok(listed)
    requires bv == Obj(map["list" := Arr([Rule("listQuery")])])
    ensures WellFormed(bv)
    ensures TypeOf("GET", Obj(map[])) == List
    ensures BodyOrQueryPhase(validate, bv, "GET", Obj(map[]), query, Undefined) == Ok(Obj(FieldsOf(listed)))
  {
    OneOperationWellFormed(List, Rule("listQuery"));
    assert "options" != "schema";
    RequestTypeIsTable("GET", Obj(map[]));
    SingleRuleMerges(validate, Rule("listQuery"), query);
  }

  /**
   * The body-or-query phase types the request by the params the first phase
   * produced: a GET whose read-rule output drops the id has its query
   * validated by the list rules, not the read rules.
   */
  lemma BodyPhaseSeesNewParams(validate: Validator, query: Value, listed: Value)
    requires validate(Obj(map["id" := Str("1")]), Schema("readParams"), Undefined) == Ok(Obj(map[]))
    requires validate(query, Schema("listQuery"), Undefined) == Ok(listed)
    ensures var rv := Obj(map["read" := Arr([Rule("readParams")])]);
            var bv := Obj(map["list" := Arr([Rule("listQuery")])]);
            WellFormed(rv) && WellFormed(bv)
            && TwoPhase(validate, rv, bv, "GET", Obj(map["id" := Str("1")]), query, Undefined)
               == Validated(None, Obj(map[]), Obj(FieldsOf(listed)), Undefined)
  {
    var rv := Obj(map["read" := Arr([Rule("readParams")])]);
    var bv := Obj(map["list" := Arr([Rule("listQuery")])]);
    ReadRuleDropsId(validate, rv);
    ListRuleValidatesQuery(validate, bv, query, listed);
  }

  /** The middleware `validateMiddleware` with the two phases it was built from. */
  class RequestValidator {
    const routeParams: RouteParamsValidator
    const bodyOrQuery: BodyOrQueryValidator

    predicate Valid() {
      routeParams.Valid() && bodyOrQuery.Valid()
    }

    /**
     * The factory: default both options to `{}` on `opts` itself, then build
     * the route-param phase and the body-or-query phase, each of which
     * throws on malformed options.
     */
    constructor (opts: Options)
      requires BuildError(Intended, OrEmptyObject(opts.routeParamValidations), OrEmptyObject(opts.bodyAndQueryValidations)).None?
      modifies opts
      ensures opts.routeParamValidations == OrEmptyObject(old(opts.routeParamValidations))
      ensures opts.bodyAndQueryValidations == OrEmptyObject(old(opts.bodyAndQueryValidations))
      ensures opts.validations == old(opts.validations)
      ensures routeParams.validations == opts.routeParamValidations
      ensures bodyOrQuery.validations == opts.bodyAndQueryValidations
      ensures Valid()
    {
      opts.bodyAndQueryValidations := OrEmptyObject(opts.bodyAndQueryValidations);
      opts.routeParamValidations := OrEmptyObject(opts.routeParamValidations);
      routeParams := new RouteParamsValidator(opts.routeParamValidations);
      bodyOrQuery := new BodyOrQueryValidator(opts.bodyAndQueryValidations);
    }

    /**
     * `validateMiddleware(req, res, next)`: the request ends up as the two
     * phases leave it; a failure answers 400 with the error's text,
     * success calls `next()`. `validate` stands for `Joi.validate` and
     * `stringify` for `JSON.stringify` in error texts.
     */
    method Middleware(validate: Validator, req: Request, res: Response, stringify: Value -> string) returns (next: NextCall)
      requires Valid() && KnownMethod(req.httpMethod)
      modifies req, res
      ensures var t := TwoPhase(validate, routeParams.validations, bodyOrQuery.validations,
                                req.httpMethod, old(req.params), old(req.query), old(req.body));
              req.params == t.params && req.query == t.query && req.body == t.body
              && res.headers == old(res.headers)
              && match t.error
                 case Some(e) =>
                   next == NotCalled && res.statusCode == 400
                   && res.body == Some(MsgBody("Bad Request - " + ToString(e, stringify)))
                 case None =>
                   next == Called && res.statusCode == old(res.statusCode) && res.body == old(res.body)
    {
      var first := routeParams.Run(validate, req);
      var failed: Option<Error> := None;
      if first.CalledWith? {
        failed := Some(first.err);
      } else {
        var second, removed := bodyOrQuery.Run(validate, req);
        if second.CalledWith? {
          failed := Some(second.err);
        }
      }
      if failed.Some? {
        res.Status(400);
        res.Json(MsgBody("Bad Request - " + ToString(failed.value, stringify)));
        next := NotCalled;
      } else {
        next := Called;
      }
    }
  }
}
