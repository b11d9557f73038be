/**
 * lib/validate-request/validate-body-or-query.js: the second validation
 * phase. List and read requests validate `req.query`, the others `req.body`,
 * and on success that field is replaced by the validated value; the keys
 * the validation dropped are reported.
 */
module ValidateBodyOrQuery {
  import opened JsValue
  import opened Errors
  import opened HttpMethods
  import opened Http
  import opened RequestType
  import opened ValidateOptions
  import opened ValidateRules

  /** List and read operate on the query string, create, update and delete on the body. */
  predicate UsesQuery(op: Op) {
    op == List || op == Read
  }

  /** The data the phase validates for a request. */
  function PhaseData(op: Op, query: Value, body: Value): Value {
    if UsesQuery(op) then query else body
  }

  /** The outcome of the phase: the validated value for the chosen field, or the first rule's error. */
  function BodyOrQueryPhase(validate: Validator, validations: Value, httpMethod: string,
                            params: Value, query: Value, body: Value): Result<Value, Error>
    requires WellFormed(validations) && KnownMethod(httpMethod)
  {
    var op := TypeOf(httpMethod, params);
    DoValidate(validate, validations, op, PhaseData(op, query, body))
  }

  /**
   * Only GETs look at the query string; POST, PUT and DELETE always
   * validate the body, whatever the params hold.
   */
  lemma QueryExactlyForGet(validate: Validator, validations: Value, httpMethod: string,
                           params: Value, query: Value, body: Value)
    requires WellFormed(validations) && KnownMethod(httpMethod)
    ensures UsesQuery(TypeOf(httpMethod, params)) <==> httpMethod == "GET"
    ensures httpMethod != "GET" ==>
              BodyOrQueryPhase(validate, validations, httpMethod, params, query, body)
              == DoValidate(validate, validations, TypeOf(httpMethod, params), body)
  {
    RequestTypeIsTable(httpMethod, params);
  }

  /** With no rules for the request type the chosen field passes through unchanged. */
  lemma NoRulesKeepsData(validate: Validator, validations: Value, httpMethod: string,
                         params: Value, query: Value, body: Value)
    requires WellFormed(validations) && KnownMethod(httpMethod)
    requires !Truthy(Get(validations, Name(TypeOf(httpMethod, params))))
    ensures BodyOrQueryPhase(validate, validations, httpMethod, params, query, body)
         == Ok(if httpMethod == "GET" then query else body)
  {
    RequestTypeIsTable(httpMethod, params);
  }

  /** `_.difference(_.keys(data), _.keys(validParams))`, as a set. */
  function Removed(data: Value, validated: Value): set<string> {
    KeySet(data) - KeySet(validated)
  }

  /** With no rules for the request type the data is handed back as it was, so no key is reported removed. */
  lemma NoRulesRemovesNothing(validate: Validator, validations: Value, httpMethod: string,
                              params: Value, query: Value, body: Value)
    requires WellFormed(validations) && KnownMethod(httpMethod)
    requires !Truthy(Get(validations, Name(TypeOf(httpMethod, params))))
    ensures var data := PhaseData(TypeOf(httpMethod, params), query, body);
            BodyOrQueryPhase(validate, validations, httpMethod, params, query, body) == Ok(data)
            && Removed(data, data) == {}
  {
    NoRulesKeepsData(validate, validations, httpMethod, params, query, body);
    RequestTypeIsTable(httpMethod, params);
  }

  /**
   * With rules, a key of the data is reported removed exactly when no
   * rule's output keeps it: the merged result holds every key some output has.
   */
  lemma {:induction false} RemovedExactlyWhenNoRuleKeeps(validate: Validator, validations: Value, op: Op, data: Value)
    requires Get(validations, Name(op)).Arr?
    requires DoValidate(validate, validations, op, data).Ok?
    ensures var rules := Get(validations, Name(op)).items;
            forall k :: k in Removed(data, DoValidate(validate, validations, op, data).value) <==>
              k in KeySet(data)
              && forall i :: 0 <= i < |rules| ==>
                   ApplyRule(validate, rules[i], data).Ok? && k !in FieldsOf(ApplyRule(validate, rules[i], data).value)
  {
    var rules := Get(validations, Name(op)).items;
    RunRulesSucceeds(validate, rules, data);
    DoValidateSucceeds(validate, validations, op, data);
    var outs := RunRules(validate, rules, data).value;
    MergeKeys(outs);
    var v := DoValidate(validate, validations, op, data).value;
    assert KeySet(v) == Merge(outs).Keys;
    forall k
      ensures k in Removed(data, v) <==>
                k in KeySet(data)
                && forall i :: 0 <= i < |rules| ==>
                     ApplyRule(validate, rules[i], data).Ok? && k !in FieldsOf(ApplyRule(validate, rules[i], data).value)
    {
      if k in KeySet(v) {
        var i :| 0 <= i < |outs| && k in FieldsOf(outs[i]);
        assert outs[i] == ApplyRule(validate, rules[i], data).value;
      }
    }
  }

  /** The middleware built from `bodyAndQueryValidations`. */
  class BodyOrQueryValidator {
    const validations: Value

    predicate Valid() {
      WellFormed(validations)
    }

    /** The factory: the structural check throws unless it accepts `bodyAndQueryValidations`. */
    constructor (validations: Value)
      requires CheckValidations(Intended, validations, "bodyAndQueryValidations") == Accepted
      ensures this.validations == validations
      ensures Valid()
    {
      CheckAcceptsExactlyWellFormed(Intended, validations, "bodyAndQueryValidations");
      this.validations := validations;
    }

    /**
     * The middleware: on an error it passes the error on and leaves the
     * request alone; otherwise the chosen field becomes the validated value
     * and `removed` holds the keys validation dropped from it.
     */
    method Run(validate: Validator, req: Request) returns (next: NextCall, removed: set<string>)
      requires Valid() && KnownMethod(req.httpMethod)
      modifies req
      ensures req.params == old(req.params)
      ensures var op := TypeOf(req.httpMethod, req.params);
              match BodyOrQueryPhase(validate, validations, req.httpMethod, old(req.params), old(req.query), old(req.body))
              case Err(e) =>
                next == CalledWith(e) && removed == {}
                && req.query == old(req.query) && req.body == old(req.body)
              case Ok(v) =>
                next == Called && removed == Removed(PhaseData(op, old(req.query), old(req.body)), v)
                && req.query == (if UsesQuery(op) then v else old(req.query))
                && req.body == (if UsesQuery(op) then old(req.body) else v)
    {
      var op := TypeOf(req.httpMethod, req.params);
      var data := PhaseData(op, req.query, req.body);
      var r := DoValidate(validate, validations, op, data);
      removed := {};
      match r
      case Err(e) =>
        next := CalledWith(e);
      case Ok(v) =>
        removed := Removed(data, v);
        if UsesQuery(op) {
          req.query := v;
        } else {
          req.body := v;
        }
        next := Called;
    }
  }
}
