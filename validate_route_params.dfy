/**
 * lib/validate-request/validate-route-params.js: the first validation
 * phase. Built from `opts.routeParamValidations`, which must pass the
 * structural check; each request's `params` are validated with the rules
 * for its request type and, on success, replaced by the validated value.
 */
module ValidateRouteParams {
  import opened JsValue
  import opened Errors
  import opened HttpMethods
  import opened Http
  import opened RequestType
  import opened ValidateOptions
  import opened ValidateRules

  /** The outcome of the phase for a request: the validated params, or the first rule's error. */
  function RouteParamsPhase(validate: Validator, validations: Value, httpMethod: string, params: Value): Result<Value, Error>
    requires WellFormed(validations) && KnownMethod(httpMethod)
  {
    DoValidate(validate, validations, TypeOf(httpMethod, params), params)
  }

  /**
   * The params are checked against the rules of the request's own type: a
   * GET with a truthy id against the read rules, a GET without one against
   * the list rules; with no rules for that type they pass through unchanged.
   */
  lemma RouteParamsPhaseUsesRequestType(validate: Validator, validations: Value, httpMethod: string, params: Value)
    requires WellFormed(validations) && KnownMethod(httpMethod)
    ensures var op := TypeOf(httpMethod, params);
            var rules := Get(validations, Name(op));
            (!Truthy(rules) ==> RouteParamsPhase(validate, validations, httpMethod, params) == Ok(params))
            && (Truthy(rules) ==>
                  (RouteParamsPhase(validate, validations, httpMethod, params).Ok?
                   <==> forall i :: 0 <= i < |rules.items| ==> ApplyRule(validate, rules.items[i], params).Ok?))
    ensures httpMethod == "GET" ==> TypeOf(httpMethod, params) == (if HasId(params) then Read else List)
  {
    var op := TypeOf(httpMethod, params);
    if Truthy(Get(validations, Name(op))) {
      DoValidateSucceeds(validate, validations, op, params);
    }
    ReadAndListSplitGet(httpMethod, params);
  }

  /** `_routeParamsMiddleware` with the validations and validator it closes over. */
  class RouteParamsValidator {
    const validations: Value

    /** The factory's own invariant: only options the check accepts get this far. */
    predicate Valid() {
      WellFormed(validations)
    }

    /** The factory: the structural check throws unless it accepts `routeParamValidations`. */
    constructor (validations: Value)
      requires CheckValidations(Intended, validations, "routeParamValidations") == Accepted
      ensures this.validations == validations
      ensures Valid()
    {
      CheckAcceptsExactlyWellFormed(Intended, validations, "routeParamValidations");
      this.validations := validations;
    }

    /**
     * The middleware: on an error it passes the error on and leaves the
     * request alone; otherwise `req.params` becomes the validated value.
     * The query and the body are never touched.
     */
    method Run(validate: Validator, req: Request) returns (next: NextCall)
      requires Valid() && KnownMethod(req.httpMethod)
      modifies req
      ensures req.query == old(req.query) && req.body == old(req.body)
      ensures match RouteParamsPhase(validate, validations, req.httpMethod, old(req.params))
              case Err(e) => next == CalledWith(e) && req.params == old(req.params)
              case Ok(p) => next == Called && req.params == p
    {
      var r := DoValidate(validate, validations, TypeOf(req.httpMethod, req.params), req.params);
      match r
      case Err(e) =>
        next := CalledWith(e);
      case Ok(p) =>
        req.params := p;
        next := Called;
    }
  }
}
