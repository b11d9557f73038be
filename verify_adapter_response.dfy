/**
 * lib/verify-adapter-response.js: the shape an adapter's result must have for
 * each operation before the router accepts it as a success.
 */
module VerifyAdapterResponse {
  import opened JsValue
  import opened HttpMethods

  /** `validators[type](response)` (lib/verify-adapter-response.js:3-28, 44). */
  predicate ValidResponse(op: Op, response: Value) {
    match op
    case Create => IsObject(response) && HasOwn(response, "uid") && HasOwn(response, "data")
    case Read => IsObject(response)
    case Update => IsObject(response)
    case Delete => IsObject(response)
    case List => IsObject(response)
  }

  /** create is accepted exactly for a plain object owning both `uid` and `data`. */
  lemma CreateNeedsUidAndData(response: Value)
    ensures ValidResponse(Create, response)
        <==> response.Obj? && "uid" in response.fields && "data" in response.fields
  {
  }

  /** Every other operation accepts exactly the plain objects, `{}` included. */
  lemma OthersNeedAPlainObject(op: Op, response: Value)
    requires op != Create
    ensures ValidResponse(op, response) <==> response.Obj?
    ensures ValidResponse(op, Obj(map[]))
  {
  }

  /** Arrays, null, undefined and primitives are rejected for every operation. */
  lemma NonObjectsRejected(op: Op, response: Value)
    requires !response.Obj?
    ensures !ValidResponse(op, response)
  {
  }

  /** Whatever is valid for create is valid for every operation. */
  lemma CreateIsStrictest(op: Op, response: Value)
    requires ValidResponse(Create, response)
    ensures ValidResponse(op, response)
  {
  }

  /** Only which keys are present matters, not what `uid` and `data` hold. */
  lemma OnlyKeysMatter(op: Op, r1: Value, r2: Value)
    requires r1.Obj? && r2.Obj? && r1.fields.Keys == r2.fields.Keys
    ensures ValidResponse(op, r1) == ValidResponse(op, r2)
  {
  }

  /** lib/verify-adapter-response.test.js:21-74 */
  lemma ResponseExamples(op: Op)
    requires op != Create
    ensures ValidResponse(Create, Obj(map["uid" := Str("1234"), "data" := Obj(map[])]))
    ensures !ValidResponse(Create, Obj(map["uid" := Str("1234")]))
    ensures !ValidResponse(Create, Obj(map["data" := Obj(map[])]))
    ensures !ValidResponse(Create, Obj(map[]))
    ensures !ValidResponse(Create, Null)
    ensures !ValidResponse(Create, Arr([]))
    ensures ValidResponse(op, Obj(map[])) && !ValidResponse(op, Arr([]))
  {
  }
}
