/**
 * lib/validate.js: the older validation middleware. At construction it
 * defaults `opts.validations` to `{}` and checks that update, create and
 * list hold arrays of Joi schemas. For a request it picks the rules by the
 * method alone (PUT update, POST create, GET list), runs them in series on
 * the query (list) or the body, and answers 400 on the first error.
 *
 * As written the middleware never gets that far: it calls the version
 * selector's factory as if it were the selector, and the callback that
 * would run the validation is never called.
 */
module LegacyValidate {
  import opened JsValue
  import opened Errors
  import opened HttpMethods
  import opened Http
  import opened RequestType
  import opened ValidateOptions
  import opened ValidateRules
  import opened RouterOptions

  /** The operation keys the construction check looks at, in its order. */
  const CheckedTypes: seq<Op> := [Update, Create, List]

  /** `v.isJoi` on an element, which throws for null and undefined. */
  function ElementCheck(v: Value, key: string, idx: nat): Verdict {
    if v.Undefined? then Rejected(TypeError("Cannot read properties of undefined (reading 'isJoi')"))
    else if v.Null? then Rejected(TypeError("Cannot read properties of null (reading 'isJoi')"))
    else if !LooseEqualsTrue(Get(v, "isJoi")) then
      Rejected(AssertionError("opts.validations." + key + "[" + NatToString(idx) + "] must be a Joi schema"))
    else Accepted
  }

  /** The elements from index `i` on, stopping at the first failure (lib/validate.js:33-41). */
  function ElementsFrom(items: seq<Value>, key: string, i: nat): Verdict
    requires i <= |items|
    decreases |items| - i
  {
    if i == |items| then Accepted
    else if ElementCheck(items[i], key, i).Rejected? then ElementCheck(items[i], key, i)
    else ElementsFrom(items, key, i + 1)
  }

  /** One operation key (lib/validate.js:26-41): absent, null or an array of Joi schemas. */
  function TypeCheck(validations: Value, op: Op): Verdict {
    var rules := Get(validations, Name(op));
    if !(rules.Undefined? || rules.Null? || rules.Arr?) then
      Rejected(AssertionError("opts.validations." + Name(op) + " must be an Array if provided"))
    else if rules.Arr? then ElementsFrom(rules.items, Name(op), 0)
    else Accepted
  }

  function TypesFrom(validations: Value, ops: seq<Op>): Verdict
    decreases ops
  {
    if ops == [] then Accepted
    else if TypeCheck(validations, ops[0]).Rejected? then TypeCheck(validations, ops[0])
    else TypesFrom(validations, ops[1..])
  }

  /** The construction check on the defaulted `opts.validations` (lib/validate.js:20-42). */
  function LegacyCheck(validations: Value): Verdict {
    if !IsObjectLike(validations) then Rejected(AssertionError("opts.validations must be an Object if provided"))
    else TypesFrom(validations, CheckedTypes)
  }

  /** A Joi schema as the check recognises one: `isJoi == true`. */
  predicate IsJoi(v: Value) {
    LooseEqualsTrue(Get(v, "isJoi"))
  }

  /** The rules under one checked key: absent, null, or an array of Joi schemas. */
  predicate LegacyRules(rules: Value) {
    (rules.Undefined? || rules.Null? || rules.Arr?)
    && (rules.Arr? ==> forall i :: 0 <= i < |rules.items| ==> IsJoi(rules.items[i]))
  }

  /** Validations of the documented legacy shape; read, delete and other keys are not looked at. */
  predicate LegacyWellFormed(validations: Value) {
    IsObjectLike(validations) && forall op :: op in CheckedTypes ==> LegacyRules(Get(validations, Name(op)))
  }

  lemma {:induction false} ElementsFromAccepts(items: seq<Value>, key: string, i: nat)
    requires i <= |items|
    ensures ElementsFrom(items, key, i) == Accepted <==> forall j :: i <= j < |items| ==> IsJoi(items[j])
    decreases |items| - i
  {
    if i < |items| {
      ElementsFromAccepts(items, key, i + 1);
    }
  }

  lemma {:induction false} TypesFromAccepts(validations: Value, ops: seq<Op>)
    ensures TypesFrom(validations, ops) == Accepted <==> forall op :: op in ops ==> LegacyRules(Get(validations, Name(op)))
    decreases ops
  {
    if ops != [] {
      var rules := Get(validations, Name(ops[0]));
      if rules.Arr? {
        ElementsFromAccepts(rules.items, Name(ops[0]), 0);
      }
      TypesFromAccepts(validations, ops[1..]);
      assert forall op :: op in ops <==> op == ops[0] || op in ops[1..];
    }
  }

  /** The construction check accepts exactly the well-formed legacy validations. */
  lemma LegacyCheckAcceptsExactlyWellFormed(validations: Value)
    ensures LegacyCheck(validations) == Accepted <==> LegacyWellFormed(validations)
  {
    if IsObjectLike(validations) {
      TypesFromAccepts(validations, CheckedTypes);
    }
  }

  /** Leaving `validations` out is accepted, and so is any value stored under read or delete. */
  lemma ReadAndDeleteUnchecked(fields: map<string, Value>, x: Value, y: Value)
    ensures LegacyCheck(OrEmptyObject(Undefined)) == Accepted
    ensures LegacyCheck(Obj(fields["read" := x]["delete" := y])) == LegacyCheck(Obj(fields))
  {
    var v := Obj(fields["read" := x]["delete" := y]);
    forall op | op in CheckedTypes ensures Get(v, Name(op)) == Get(Obj(fields), Name(op)) {
    }
    LegacyCheckAcceptsExactlyWellFormed(Obj(map[]));
    assert TypesFrom(v, CheckedTypes) == TypesFrom(Obj(fields), CheckedTypes) by {
      assert TypeCheck(v, Update) == TypeCheck(Obj(fields), Update);
      assert TypeCheck(v, Create) == TypeCheck(Obj(fields), Create);
      assert TypeCheck(v, List) == TypeCheck(Obj(fields), List);
      assert CheckedTypes[1..][1..][1..] == [];
    }
  }

  /** lib/validate.test.js:43-49: a string is not an object. */
  lemma LegacyRejectsNonObject()
    ensures LegacyCheck(Str("hello")) == Rejected(AssertionError("opts.validations must be an Object if provided"))
  {
  }

  /** lib/validate.test.js:51-60: an object where the create array belongs is rejected, naming `create`. */
  lemma LegacyRejectsNonArrayCreate()
    ensures LegacyCheck(Obj(map["create" := Obj(map[])]))
         == Rejected(AssertionError("opts.validations.create must be an Array if provided"))
  {
    var v := Obj(map["create" := Obj(map[])]);
    assert Name(Update) == "update" && Name(Create) == "create";
    assert TypeCheck(v, Update) == Accepted;
    assert "opts.validations." + "create" + " must be an Array if provided"
        == "opts.validations.create must be an Array if provided";
    assert TypeCheck(v, Create) == Rejected(AssertionError("opts.validations.create must be an Array if provided"));
    assert CheckedTypes[1..][0] == Create;
  }

  /** lib/validate.test.js:62-71: update is checked first and reported by name. */
  lemma LegacyRejectsNonArrayUpdate()
    ensures LegacyCheck(Obj(map["create" := Arr([]), "update" := Obj(map[])]))
         == Rejected(AssertionError("opts.validations.update must be an Array if provided"))
  {
    var v := Obj(map["create" := Arr([]), "update" := Obj(map[])]);
    assert Name(Update) == "update";
    assert "opts.validations." + "update" + " must be an Array if provided"
        == "opts.validations.update must be an Array if provided";
    assert TypeCheck(v, Update) == Rejected(AssertionError("opts.validations.update must be an Array if provided"));
  }

  /** lib/validate.test.js:84-110: `isJoi: false` is rejected and `isJoi: true` accepted. */
  lemma LegacyIsJoiExamples()
    ensures LegacyCheck(Obj(map["create" := Arr([Obj(map["isJoi" := Bool(false)])]), "update" := Arr([]), "list" := Arr([])])).Rejected?
    ensures LegacyCheck(Obj(map["create" := Arr([Obj(map["isJoi" := Bool(true)])]), "update" := Arr([]), "list" := Arr([])])) == Accepted
  {
    var ok := Obj(map["create" := Arr([Obj(map["isJoi" := Bool(true)])]), "update" := Arr([]), "list" := Arr([])]);
    var bad := Obj(map["create" := Arr([Obj(map["isJoi" := Bool(false)])]), "update" := Arr([]), "list" := Arr([])]);
    assert Name(Update) == "update" && Name(Create) == "create" && Name(List) == "list";
    assert Get(ok, "create") == Arr([Obj(map["isJoi" := Bool(true)])]);
    assert Get(bad, "create") == Arr([Obj(map["isJoi" := Bool(false)])]);
    assert IsJoi(Obj(map["isJoi" := Bool(true)])) && !IsJoi(Obj(map["isJoi" := Bool(false)]));
    LegacyCheckAcceptsExactlyWellFormed(ok);
    LegacyCheckAcceptsExactlyWellFormed(bad);
  }

  /** ASCII `toUpperCase`. */
  function AsciiUpper(s: string): (r: string)
    ensures |r| == |s|
    ensures forall i :: 0 <= i < |s| ==> r[i] == (if 'a' <= s[i] <= 'z' then (s[i] as int - 32) as char else s[i])
  {
    if s == [] then [] else [if 'a' <= s[0] <= 'z' then (s[0] as int - 32) as char else s[0]] + AsciiUpper(s[1..])
  }

  /** `httpMap[req.method.toUpperCase()]` (lib/validate.js:47-51, 67). */
  function LegacyType(httpMethod: string): Option<Op> {
    match AsciiUpper(httpMethod)
    case "PUT" => Some(Update)
    case "POST" => Some(Create)
    case "GET" => Some(List)
    case _ => None
  }

  /**
   * The legacy mapping ignores the id: every GET is validated as a list,
   * where the request-type classifier calls a GET with an id a read. DELETE
   * has no type at all, and the method's case does not matter.
   */
  lemma LegacyTypeIgnoresId(params: Value)
    requires HasId(params)
    ensures LegacyType("GET") == Some(List) && LegacyType("get") == Some(List)
    ensures GetRequestType("GET", params) == Some(Read)
    ensures LegacyType("DELETE") == None && GetRequestType("DELETE", params) == Some(Delete)
  {
    assert AsciiUpper("get") == "GET";
    assert AsciiUpper("GET") == "GET";
    assert AsciiUpper("DELETE") == "DELETE";
    RequestTypeIsTable("GET", params);
    RequestTypeIsTable("DELETE", params);
  }

  /** `async.eachSeries(rules, Joi.validate.bind(Joi, data), ...)`: the first error, if any. */
  function SeriesError(validate: Validator, rules: seq<Value>, data: Value): Option<Error>
    decreases rules
  {
    if rules == [] then None
    else match validate(data, rules[0], Undefined)
      case Err(e) => Some(e)
      case Ok(_) => SeriesError(validate, rules[1..], data)
  }

  /** Each legacy rule is the schema itself, with no options. */
  function AsRuleEntries(rules: seq<Value>): (entries: seq<Value>)
    ensures |entries| == |rules|
    ensures forall i :: 0 <= i < |rules| ==> entries[i] == Obj(map["schema" := rules[i]])
  {
    seq(|rules|, i requires 0 <= i < |rules| => Obj(map["schema" := rules[i]]))
  }

  /**
   * The legacy series fails exactly as the newer rule runner does on the
   * same schemas given without options: the same first error, or none.
   */
  lemma {:induction false} SeriesMatchesRunRules(validate: Validator, rules: seq<Value>, data: Value)
    ensures SeriesError(validate, rules, data)
         == (match RunRules(validate, AsRuleEntries(rules), data) case Err(e) => Some(e) case Ok(_) => None)
    decreases rules
  {
    if rules != [] {
      var entries := AsRuleEntries(rules);
      assert "options" != "schema";
      assert ApplyRule(validate, entries[0], data) == validate(data, rules[0], Undefined);
      assert entries[1..] == AsRuleEntries(rules[1..]);
      SeriesMatchesRunRules(validate, rules[1..], data);
    }
  }

  /**
   * The series succeeds exactly when every schema accepts the data. An error
   * is the first failing schema's own: every schema before it accepted.
   */
  lemma {:induction false} SeriesErrorSpec(validate: Validator, rules: seq<Value>, data: Value)
    ensures SeriesError(validate, rules, data).None? <==> forall i :: 0 <= i < |rules| ==> validate(data, rules[i], Undefined).Ok?
    ensures SeriesError(validate, rules, data).Some? ==>
              exists i :: 0 <= i < |rules| && validate(data, rules[i], Undefined) == Err(SeriesError(validate, rules, data).value)
                          && forall j :: 0 <= j < i ==> validate(data, rules[j], Undefined).Ok?
    decreases rules
  {
    if rules != [] {
      SeriesErrorSpec(validate, rules[1..], data);
      assert forall i :: 1 <= i < |rules| ==> rules[1..][i - 1] == rules[i];
      if validate(data, rules[0], Undefined).Ok? && SeriesError(validate, rules, data).Some? {
        var i :| 0 <= i < |rules[1..]| && validate(data, rules[1..][i], Undefined) == Err(SeriesError(validate, rules, data).value)
                 && forall j :: 0 <= j < i ==> validate(data, rules[1..][j], Undefined).Ok?;
        assert rules[i + 1] == rules[1..][i];
        forall j | 0 <= j < i + 1 ensures validate(data, rules[j], Undefined).Ok? {
          if j > 0 { assert rules[j] == rules[1..][j - 1]; }
        }
      }
    }
  }

  /** The series run one rule at a time, stopping at the first error. */
  method RunSeries(validate: Validator, rules: seq<Value>, data: Value) returns (err: Option<Error>)
    ensures err == SeriesError(validate, rules, data)
  {
    var i := 0;
    err := None;
    while i < |rules| && err.None?
      invariant 0 <= i <= |rules|
      invariant err.None? ==> SeriesError(validate, rules, data) == SeriesError(validate, rules[i..], data)
      invariant err.Some? ==> err == SeriesError(validate, rules, data)
      decreases |rules| - i, if err.None? then 1 else 0
    {
      assert rules[i..][1..] == rules[i + 1..];
      match validate(data, rules[i], Undefined)
      case Err(e) =>
        err := Some(e);
      case Ok(_) =>
        i := i + 1;
    }
    if err.None? {
      assert rules[i..] == [];
    }
  }

  /** The data a legacy request is validated on: the query for list, the body otherwise. */
  function LegacyData(op: Op, query: Value, body: Value): Value {
    if op == List then query else body
  }

  /**
   * `_doValidate(version)` (lib/validate.js:65-110) on the fallback version,
   * whose validations are the checked `opts.validations`: the first error
   * of the series, or `None` when validation passes or is skipped.
   */
  function DoValidateOutcome(validate: Validator, validations: Value, httpMethod: string, query: Value, body: Value): Option<Error>
    requires LegacyWellFormed(validations)
  {
    match LegacyType(httpMethod)
    case None => None
    case Some(op) =>
      var rules := Get(validations, Name(op));
      if !Truthy(rules) then None
      else SeriesError(validate, rules.items, LegacyData(op, query, body))
  }

  /** Requests without a type, and types without rules, always pass; otherwise the right data meets every rule. */
  lemma DoValidateOutcomeSpec(validate: Validator, validations: Value, httpMethod: string, query: Value, body: Value)
    requires LegacyWellFormed(validations)
    ensures LegacyType(httpMethod).None? ==> DoValidateOutcome(validate, validations, httpMethod, query, body).None?
    ensures LegacyType(httpMethod).Some? && Truthy(Get(validations, Name(LegacyType(httpMethod).value))) ==>
              var op := LegacyType(httpMethod).value;
              var rules := Get(validations, Name(op)).items;
              (DoValidateOutcome(validate, validations, httpMethod, query, body).None?
               <==> forall i :: 0 <= i < |rules| ==> validate(LegacyData(op, query, body), rules[i], Undefined).Ok?)
  {
    if LegacyType(httpMethod).Some? {
      var op := LegacyType(httpMethod).value;
      if Truthy(Get(validations, Name(op))) {
        SeriesErrorSpec(validate, Get(validations, Name(op)).items, LegacyData(op, query, body));
      }
    }
  }

  /** How the middleware answers a request. */
  datatype LegacyAnswer = Pending | BadRequest(e: Error) | PassOn

  /**
   * The middleware as written (lib/validate.js:53-63): `selectApiVersion` is
   * the factory, so `selectApiVersion(req, callback)` only builds a selector
   * from `req` and drops the callback. No response is written and `next`
   * is never called, whatever the request.
   */
  function AnswerAsWritten(validate: Validator, validations: Value, httpMethod: string, query: Value, body: Value): LegacyAnswer {
    Pending
  }

  /** The evident intent: `_doValidate` on the fallback version (lib/validate.js:58-61). */
  function Answer(validate: Validator, validations: Value, httpMethod: string, query: Value, body: Value): (r: LegacyAnswer)
    requires LegacyWellFormed(validations)
    ensures r != Pending
  {
    match DoValidateOutcome(validate, validations, httpMethod, query, body)
    case Some(e) => BadRequest(e)
    case None => PassOn
  }

  /** The stand-in schemas are Joi schemas. */
  lemma SchemaIsJoi(name: string)
    ensures IsJoi(Schema(name))
  {
    assert "isJoi" != "name";
  }

  /** The validations of lib/validate.test.js:28-37, one schema for list and one for create. */
  function TestValidations(): (v: Value)
    ensures LegacyWellFormed(v)
  {
    var v := Obj(map["list" := Arr([Schema("list")]), "create" := Arr([Schema("create")])]);
    assert Name(Update) == "update" && Name(Create) == "create" && Name(List) == "list";
    assert Get(v, "list") == Arr([Schema("list")]) && Get(v, "create") == Arr([Schema("create")]);
    SchemaIsJoi("list");
    SchemaIsJoi("create");
    v
  }

  /**
   * lib/validate.test.js:119-133: a list request whose query the list
   * schema rejects should be a 400; as written it is never answered.
   */
  lemma AsWrittenNeverAnswersList(validate: Validator, query: Value, body: Value, e: Error)
    requires validate(query, Schema("list"), Undefined) == Err(e)
    ensures Answer(validate, TestValidations(), "GET", query, body) == BadRequest(e)
    ensures AnswerAsWritten(validate, TestValidations(), "GET", query, body) == Pending
  {
    assert AsciiUpper("GET") == "GET";
    assert Get(TestValidations(), "list") == Arr([Schema("list")]);
  }

  /**
   * lib/validate.test.js:136-152: a create request the create schema
   * accepts should pass on; as written it is never answered either.
   */
  lemma AsWrittenNeverAnswersCreate(validate: Validator, query: Value, body: Value)
    requires validate(body, Schema("create"), Undefined).Ok?
    ensures Answer(validate, TestValidations(), "POST", query, body) == PassOn
    ensures AnswerAsWritten(validate, TestValidations(), "POST", query, body) == Pending
  {
    assert AsciiUpper("POST") == "POST";
    assert Get(TestValidations(), "create") == Arr([Schema("create")]);
    assert [Schema("create")][1..] == [];
  }

  /** The middleware with the validations it was built from. */
  class LegacyValidator {
    const validations: Value

    predicate Valid() {
      LegacyWellFormed(validations)
    }

    /** `validateMiddleware(opts)`: default `opts.validations` on `opts` itself, then check it. */
    constructor (opts: Options)
      requires LegacyCheck(OrEmptyObject(opts.validations)) == Accepted
      modifies opts
      ensures opts.validations == OrEmptyObject(old(opts.validations))
      ensures opts.routeParamValidations == old(opts.routeParamValidations)
      ensures opts.bodyAndQueryValidations == old(opts.bodyAndQueryValidations)
      ensures validations == opts.validations
      ensures Valid()
    {
      opts.validations := OrEmptyObject(opts.validations);
      LegacyCheckAcceptsExactlyWellFormed(opts.validations);
      validations := opts.validations;
    }

    /**
     * `validationMiddleware(req, res, next)` as evidently intended: 400 with
     * "Bad Request - " and the error's text on the first failing schema,
     * `next()` otherwise. The request itself is never modified.
     */
    method Middleware(validate: Validator, req: Request, res: Response, stringify: Value -> string)
      returns (next: NextCall)
      requires Valid()
      modifies res
      ensures res.headers == old(res.headers)
      ensures match Answer(validate, validations, req.httpMethod, req.query, req.body)
              case BadRequest(e) =>
                next == NotCalled && res.statusCode == 400
                && res.body == Some(MsgBody("Bad Request - " + ToString(e, stringify)))
              case PassOn => next == Called && res.statusCode == old(res.statusCode) && res.body == old(res.body)
              case Pending => false
    {
      var err: Option<Error> := None;
      var t := LegacyType(req.httpMethod);
      if t.Some? {
        var rules := Get(validations, Name(t.value));
        if Truthy(rules) {
          err := RunSeries(validate, rules.items, LegacyData(t.value, req.query, req.body));
        }
      }
      if err.Some? {
        res.Status(400);
        res.Json(MsgBody("Bad Request - " + ToString(err.value, stringify)));
        next := NotCalled;
      } else {
        next := Called;
      }
    }
  }
}
