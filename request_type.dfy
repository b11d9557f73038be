/**
 * lib/get-request-type.js: which CRUDL operation a request asks for, from its
 * method and whether `req.params.id` is truthy.
 */
module RequestType {
  import opened JsValue
  import opened HttpMethods

  /** `req.params && req.params.id` */
  predicate HasId(params: Value) {
    Truthy(params) && Truthy(Get(params, "id"))
  }

  /** lib/get-request-type.js:13-19; `None` is the `undefined` an unknown method yields. */
  function GetRequestType(httpMethod: string, params: Value): Option<Op> {
    if httpMethod == "GET" && HasId(params) then Some(Read)
    else if httpMethod in Inverted() then Some(Inverted()[httpMethod])
    else None
  }

  /** The methods of the verb table, the ones a request type exists for. */
  predicate KnownMethod(httpMethod: string) {
    httpMethod in {"POST", "GET", "PUT", "DELETE"}
  }

  /** The request type of a request whose method is in the verb table. */
  function TypeOf(httpMethod: string, params: Value): (op: Op)
    requires KnownMethod(httpMethod)
    ensures GetRequestType(httpMethod, params) == Some(op)
    ensures Verb(op) == httpMethod
  {
    RequestTypeInvertsVerb(httpMethod, params);
    GetRequestType(httpMethod, params).value
  }

  /** The classification written out as a table, independently of lodash's `invert`. */
  function Classify(httpMethod: string, hasId: bool): Option<Op> {
    match httpMethod
    case "POST" => Some(Create)
    case "GET" => if hasId then Some(Read) else Some(List)
    case "PUT" => Some(Update)
    case "DELETE" => Some(Delete)
    case _ => None
  }

  /** The request type is the table's entry for the method and the truthiness of the id, and nothing else. */
  lemma RequestTypeIsTable(httpMethod: string, params: Value)
    ensures GetRequestType(httpMethod, params) == Classify(httpMethod, HasId(params))
  {
    InvertedTable();
  }

  /** Only the method and the truthiness of `params.id` matter. */
  lemma RequestTypeDependsOnlyOnIdTruthiness(httpMethod: string, p1: Value, p2: Value)
    requires HasId(p1) == HasId(p2)
    ensures GetRequestType(httpMethod, p1) == GetRequestType(httpMethod, p2)
  {
    RequestTypeIsTable(httpMethod, p1);
    RequestTypeIsTable(httpMethod, p2);
  }

  /** `read` exactly for a GET with a truthy id; `list` exactly for a GET without one. */
  lemma ReadAndListSplitGet(httpMethod: string, params: Value)
    ensures GetRequestType(httpMethod, params) == Some(Read) <==> httpMethod == "GET" && HasId(params)
    ensures GetRequestType(httpMethod, params) == Some(List) <==> httpMethod == "GET" && !HasId(params)
  {
    RequestTypeIsTable(httpMethod, params);
  }

  /** The classified operation's verb is the request's method: classification inverts the verb table. */
  lemma RequestTypeInvertsVerb(httpMethod: string, params: Value)
    ensures GetRequestType(httpMethod, params).Some? ==> Verb(GetRequestType(httpMethod, params).value) == httpMethod
    ensures GetRequestType(httpMethod, params).None? <==> httpMethod !in {"POST", "GET", "PUT", "DELETE"}
  {
    RequestTypeIsTable(httpMethod, params);
  }

  /** Sending each operation's own verb, with an id exactly for read, classifies back to that operation. */
  lemma RequestTypeRoundTrip(op: Op, params: Value)
    requires op == Read ==> HasId(params)
    requires op == List ==> !HasId(params)
    ensures GetRequestType(Verb(op), params) == Some(op)
  {
    RequestTypeIsTable(Verb(op), params);
  }

  /** lib/get-request-type.test.js:9-25, with the falsy-id cases the conjunction admits. */
  lemma RequestTypeExamples()
    ensures GetRequestType("GET", Obj(map["id" := Str("123")])) == Some(Read)
    ensures GetRequestType("GET", Obj(map[])) == Some(List)
    ensures GetRequestType("GET", Obj(map["id" := Str("")])) == Some(List)
    ensures GetRequestType("GET", Undefined) == Some(List)
    ensures GetRequestType("PATCH", Obj(map["id" := Str("1")])) == None
  {
    RequestTypeIsTable("GET", Obj(map["id" := Str("123")]));
    RequestTypeIsTable("GET", Obj(map[]));
    RequestTypeIsTable("GET", Obj(map["id" := Str("")]));
    RequestTypeIsTable("GET", Undefined);
    RequestTypeIsTable("PATCH", Obj(map["id" := Str("1")]));
  }
}
