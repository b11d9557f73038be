/**
 * lib/handlers.js: the versioned request handlers. Each picks the adapter
 * for the request's API version, answers 400 when there is none and 405 when
 * it does not own the operation, and otherwise runs the operation on the
 * parameters plucked from the request.
 */
module Handlers {
  import opened JsValue
  import opened Errors
  import opened HttpMethods
  import opened Adapters
  import opened AdapterExec
  import opened Http
  import opened EndpointSupport
  import opened SelectVersion
  import opened ExecComplete
  import Router

  /** A parameter definition: the bag key and the `_.get` path it is read from, split at the dots. */
  datatype ParamDef = ParamDef(key: string, path: seq<string>)

  /** `paramDefinitions` (lib/handlers.js:17-39), in key order. */
  function ParamDefinitions(op: Op): seq<ParamDef> {
    match op
    case List => [ParamDef("routeParams", ["params"]), ParamDef("query", ["query"])]
    case Read => [ParamDef("routeParams", ["params"]), ParamDef("id", ["params", "id"])]
    case Update => [ParamDef("routeParams", ["params"]), ParamDef("id", ["params", "id"]), ParamDef("data", ["body"])]
    case Create => [ParamDef("routeParams", ["params"]), ParamDef("data", ["body"])]
    case Delete => [ParamDef("routeParams", ["params"]), ParamDef("id", ["params", "id"])]
  }

  /** `verbMappings` (lib/handlers.js:42-48), the handlers' own copy of the verb table. */
  function VerbMappings(op: Op): string {
    match op
    case Create => "POST"
    case Read => "GET"
    case Update => "PUT"
    case Delete => "DELETE"
    case List => "GET"
  }

  /**
   * The handlers' copy agrees with lib/http-methods.js and has the same key
   * order, so their `generateAllowHeader` (lib/handlers.js:59-68) is the
   * endpoint-support fold.
   */
  lemma VerbMappingsAgree(op: Op)
    ensures VerbMappings(op) == Verb(op)
  {
  }

  /**
   * One step of `_.map(_.values(def), _.get.bind(_, req))`. `_.map` calls its
   * iteratee with the element's index as second argument, which `_.get` takes
   * as its default value: an undefined lookup yields the index.
   */
  function Pluck(req: Value, path: seq<string>, index: nat): Value {
    var v := GetPath(req, path);
    if v.Undefined? then Num(index) else v
  }

  /**
   * `_.zipObject(keys, values)` over the definitions, `index` being the
   * position of `defs[0]` among all the definitions.
   */
  function ZipFrom(defs: seq<ParamDef>, req: Value, acc: map<string, Value>, index: nat): map<string, Value>
    decreases defs
  {
    if defs == [] then acc
    else ZipFrom(defs[1..], req, acc[defs[0].key := Pluck(req, defs[0].path, index)], index + 1)
  }

  /** `getRequestParams(req, def)` as written. */
  function GetRequestParams(req: Value, defs: seq<ParamDef>): Value {
    Obj(ZipFrom(defs, req, map[], 0))
  }

  function DefKeys(defs: seq<ParamDef>): set<string> {
    set i | 0 <= i < |defs| :: defs[i].key
  }

  predicate DistinctKeys(defs: seq<ParamDef>) {
    forall i, j :: 0 <= i < j < |defs| ==> defs[i].key != defs[j].key
  }

  lemma DefKeysSplit(defs: seq<ParamDef>)
    requires defs != []
    ensures DefKeys(defs) == {defs[0].key} + DefKeys(defs[1..])
  {
    forall k | k in DefKeys(defs) ensures k == defs[0].key || k in DefKeys(defs[1..]) {
      var i :| 0 <= i < |defs| && defs[i].key == k;
      if i > 0 { assert defs[1..][i - 1].key == k; }
    }
  }

  /**
   * Zipping adds exactly the definitions' keys and keeps the other keys. Each
   * key holds its path lookup when that is defined, and its definition's
   * index otherwise.
   */
  lemma {:induction false} ZipFromSpec(defs: seq<ParamDef>, req: Value, acc: map<string, Value>, index: nat)
    requires DistinctKeys(defs)
    ensures ZipFrom(defs, req, acc, index).Keys == acc.Keys + DefKeys(defs)
    ensures forall i :: 0 <= i < |defs| && !GetPath(req, defs[i].path).Undefined? ==>
              ZipFrom(defs, req, acc, index)[defs[i].key] == GetPath(req, defs[i].path)
    ensures forall i :: 0 <= i < |defs| && GetPath(req, defs[i].path).Undefined? ==>
              ZipFrom(defs, req, acc, index)[defs[i].key] == Num(index + i)
    ensures forall k :: k in acc && k !in DefKeys(defs) ==> ZipFrom(defs, req, acc, index)[k] == acc[k]
    decreases defs
  {
    if defs != [] {
      var acc' := acc[defs[0].key := Pluck(req, defs[0].path, index)];
      ZipFromSpec(defs[1..], req, acc', index + 1);
      DefKeysSplit(defs);
      forall i | 0 <= i < |defs|
        ensures ZipFrom(defs, req, acc, index)[defs[i].key] == Pluck(req, defs[i].path, index + i)
      {
        if i == 0 {
          assert defs[0].key !in DefKeys(defs[1..]);
        } else {
          assert defs[1..][i - 1] == defs[i];
        }
      }
    }
  }

  /** GetRequestParamsSpec for any definition with distinct keys. */
  lemma BagValues(req: Value, defs: seq<ParamDef>)
    requires DistinctKeys(defs)
    ensures var bag := GetRequestParams(req, defs);
            bag.Obj? && bag.fields.Keys == DefKeys(defs)
            && (forall i :: 0 <= i < |defs| ==>
                  bag.fields[defs[i].key] == if GetPath(req, defs[i].path).Undefined? then Num(i) else GetPath(req, defs[i].path))
            && forall k :: k in bag.fields ==> !bag.fields[k].Undefined?
  {
    ZipFromSpec(defs, req, map[], 0);
    forall k | k in GetRequestParams(req, defs).fields
      ensures !GetRequestParams(req, defs).fields[k].Undefined?
    {
      var i :| 0 <= i < |defs| && defs[i].key == k;
    }
  }

  /**
   * The bag has exactly the definition's keys. Each holds the value at its
   * path on the request, or the definition's index where that is undefined,
   * so no value in the bag is undefined.
   */
  lemma GetRequestParamsSpec(req: Value, op: Op)
    ensures var defs := ParamDefinitions(op);
            var bag := GetRequestParams(req, defs);
            bag.Obj? && bag.fields.Keys == DefKeys(defs)
            && (forall i :: 0 <= i < |defs| ==>
                  bag.fields[defs[i].key] == if GetPath(req, defs[i].path).Undefined? then Num(i) else GetPath(req, defs[i].path))
            && forall k :: k in bag.fields ==> !bag.fields[k].Undefined?
  {
    var defs := ParamDefinitions(op);
    assert DistinctKeys(defs);
    BagValues(req, defs);
  }

  /** The request as `_.get` sees it. */
  function RequestValue(params: Value, query: Value, body: Value): Value {
    Obj(map["params" := params, "query" := query, "body" := body])
  }

  /** Every lookup in the operation's definition finds a defined value. */
  predicate LookupsDefined(op: Op, params: Value, query: Value, body: Value) {
    !params.Undefined?
    && (op == List ==> !query.Undefined?)
    && (op in {Read, Update, Delete} ==> !Get(params, "id").Undefined?)
    && (op in {Update, Create} ==> !body.Undefined?)
  }

  /**
   * When every lookup is defined, the handlers build the router's bags, except
   * that read gets no `query`: the definitions and lib/router.js:117-209 agree
   * on every other operation.
   */
  lemma HandlerBagsMatchRouterBags(op: Op, params: Value, query: Value, body: Value)
    requires LookupsDefined(op, params, query, body)
    ensures var bag := GetRequestParams(RequestValue(params, query, body), ParamDefinitions(op));
            var routerBag := Router.RouterParams(op, params, query, body);
            if op == Read then routerBag == Obj(bag.fields["query" := query])
            else bag == routerBag
  {
    var req := RequestValue(params, query, body);
    var defs := ParamDefinitions(op);
    var id := Get(params, "id");
    assert GetPath(req, ["params"]) == params && GetPath(req, ["params", "id"]) == id;
    assert GetPath(req, ["query"]) == query && GetPath(req, ["body"]) == body;
    var m1 := map["routeParams" := params];
    assert ZipFrom(defs, req, map[], 0) == ZipFrom(defs[1..], req, m1, 1);
    match op
    case List =>
      assert ZipFrom(defs[1..], req, m1, 1) == ZipFrom(defs[2..], req, m1["query" := query], 2);
    case Read =>
      assert ZipFrom(defs[1..], req, m1, 1) == ZipFrom(defs[2..], req, m1["id" := id], 2);
      assert m1["id" := id]["query" := query] == map["routeParams" := params, "query" := query, "id" := id];
    case Update =>
      assert ZipFrom(defs[1..], req, m1, 1) == ZipFrom(defs[2..], req, m1["id" := id], 2);
      assert ZipFrom(defs[2..], req, m1["id" := id], 2) == ZipFrom(defs[3..], req, m1["id" := id]["data" := body], 3);
    case Create =>
      assert ZipFrom(defs[1..], req, m1, 1) == ZipFrom(defs[2..], req, m1["data" := body], 2);
    case Delete =>
      assert ZipFrom(defs[1..], req, m1, 1) == ZipFrom(defs[2..], req, m1["id" := id], 2);
  }

  /**
   * A create or update without a body: the handlers pass the definition's
   * index as `data` (1 for create, 2 for update), where the router passes
   * `req.body`, undefined.
   */
  lemma MissingBodyBecomesIndex(op: Op, params: Value, query: Value)
    requires op in {Create, Update}
    ensures var bag := GetRequestParams(RequestValue(params, query, Undefined), ParamDefinitions(op));
            var routerBag := Router.RouterParams(op, params, query, Undefined);
            "data" in bag.fields && bag.fields["data"] == Num(if op == Create then 1 else 2)
            && routerBag.fields["data"] == Undefined
            && bag != routerBag
  {
    var defs := ParamDefinitions(op);
    GetRequestParamsSpec(RequestValue(params, query, Undefined), op);
    assert defs[|defs| - 1] == ParamDef("data", ["body"]);
  }

  /**
   * `_.get(req, path)` without a default, as the parameter plucking is
   * evidently meant to read: an undefined lookup stays undefined.
   */
  function IntendedZipFrom(defs: seq<ParamDef>, req: Value, acc: map<string, Value>): map<string, Value>
    decreases defs
  {
    if defs == [] then acc else IntendedZipFrom(defs[1..], req, acc[defs[0].key := GetPath(req, defs[0].path)])
  }

  /** `getRequestParams` with the lookups read without a default value. */
  function IntendedRequestParams(req: Value, defs: seq<ParamDef>): Value {
    Obj(IntendedZipFrom(defs, req, map[]))
  }

  /** The intended plucking builds the router's bags for every request, a missing body included. */
  lemma IntendedBagsMatchRouterBags(op: Op, params: Value, query: Value, body: Value)
    ensures var bag := IntendedRequestParams(RequestValue(params, query, body), ParamDefinitions(op));
            var routerBag := Router.RouterParams(op, params, query, body);
            if op == Read then routerBag == Obj(bag.fields["query" := query])
            else bag == routerBag
  {
    var req := RequestValue(params, query, body);
    var defs := ParamDefinitions(op);
    var id := Get(params, "id");
    assert GetPath(req, ["params"]) == params && GetPath(req, ["params", "id"]) == id;
    assert GetPath(req, ["query"]) == query && GetPath(req, ["body"]) == body;
    var m1 := map["routeParams" := params];
    assert IntendedZipFrom(defs, req, map[]) == IntendedZipFrom(defs[1..], req, m1);
    match op
    case List =>
      assert IntendedZipFrom(defs[1..], req, m1) == IntendedZipFrom(defs[2..], req, m1["query" := query]);
    case Read =>
      assert IntendedZipFrom(defs[1..], req, m1) == IntendedZipFrom(defs[2..], req, m1["id" := id]);
      assert m1["id" := id]["query" := query] == map["routeParams" := params, "query" := query, "id" := id];
    case Update =>
      assert IntendedZipFrom(defs[1..], req, m1) == IntendedZipFrom(defs[2..], req, m1["id" := id]);
      assert IntendedZipFrom(defs[2..], req, m1["id" := id]) == IntendedZipFrom(defs[3..], req, m1["id" := id]["data" := body]);
    case Create =>
      assert IntendedZipFrom(defs[1..], req, m1) == IntendedZipFrom(defs[2..], req, m1["data" := body]);
    case Delete =>
      assert IntendedZipFrom(defs[1..], req, m1) == IntendedZipFrom(defs[2..], req, m1["id" := id]);
  }

  /** Where every lookup is defined, the default value is never used. */
  lemma {:induction false} IntendedZipFromAgrees(defs: seq<ParamDef>, req: Value, acc: map<string, Value>, index: nat)
    requires forall i :: 0 <= i < |defs| ==> !GetPath(req, defs[i].path).Undefined?
    ensures IntendedZipFrom(defs, req, acc) == ZipFrom(defs, req, acc, index)
    decreases defs
  {
    if defs != [] {
      assert !GetPath(req, defs[0].path).Undefined?;
      forall i | 0 <= i < |defs[1..]| ensures !GetPath(req, defs[1..][i].path).Undefined? {
        assert defs[1..][i] == defs[i + 1];
      }
      IntendedZipFromAgrees(defs[1..], req, acc[defs[0].key := GetPath(req, defs[0].path)], index + 1);
    }
  }

  /**
   * The source's bag equals the intended one exactly when every lookup of the
   * operation's definition is defined.
   */
  lemma SourceBagIsIntendedExactlyWhenDefined(op: Op, params: Value, query: Value, body: Value)
    ensures GetRequestParams(RequestValue(params, query, body), ParamDefinitions(op))
            == IntendedRequestParams(RequestValue(params, query, body), ParamDefinitions(op))
            <==> LookupsDefined(op, params, query, body)
  {
    var req := RequestValue(params, query, body);
    var defs := ParamDefinitions(op);
    assert GetPath(req, ["params"]) == params && GetPath(req, ["params", "id"]) == Get(params, "id");
    assert GetPath(req, ["query"]) == query && GetPath(req, ["body"]) == body;
    if LookupsDefined(op, params, query, body) {
      IntendedZipFromAgrees(defs, req, map[], 0);
    } else {
      GetRequestParamsSpec(req, op);
      IntendedBagsMatchRouterBags(op, params, query, body);
      var bag := IntendedRequestParams(req, defs);
      var k := if params.Undefined? then "routeParams"
               else if op == List then "query"
               else if op in {Read, Update, Delete} && Get(params, "id").Undefined? then "id"
               else "data";
      assert k in bag.fields && bag.fields[k].Undefined?;
    }
  }

  /** `(version && version.adapter) ? version.adapter : version` */
  function ServingAdapter(version: Option<Adapter>): Option<Adapter> {
    if version.Some? && version.value.adapterProp.Some? then version.value.adapterProp else version
  }

  /** A version entry serves through its `adapter` property when it has one, and is the adapter itself otherwise. */
  lemma ServingAdapterSpec(version: Option<Adapter>)
    ensures ServingAdapter(version).None? <==> version.None?
    ensures version.Some? && version.value.adapterProp.Some? ==> ServingAdapter(version) == version.value.adapterProp
    ensures version.Some? && version.value.adapterProp.None? ==> ServingAdapter(version) == version
  {
  }

  /** What `_requestHandler` decides. */
  datatype Decision =
    | Throw(e: Error)
    | UnsupportedVersion
    | NotAllowed(allow: string)
    | Execute(adapter: Adapter, params: Value)

  /** The header value the selector reads. */
  function VersionOf(headers: map<string, string>): Option<string> {
    if VersionHeader in headers then Some(headers[VersionHeader]) else None
  }

  /**
   * The decision of `_requestHandler` (lib/handlers.js:154-194). The
   * selector's error branch cannot be taken: it always calls back with a null
   * error, so only a throw while selecting fails the request.
   */
  function Decide(fn: Op, sel: Selection, req: Value): Decision {
    if sel.SelectionThrew? then Throw(sel.e)
    else
      var adapter := ServingAdapter(sel.version);
      if adapter.None? then UnsupportedVersion
      else if !Owns(adapter.value, fn) then NotAllowed(GenerateAllowHeader(adapter.value))
      else Execute(adapter.value, GetRequestParams(req, ParamDefinitions(fn)))
  }

  /** Nothing runs unless the serving adapter owns the operation; then exactly its bag is passed. */
  lemma ExecutesOnlyOwnedOperations(fn: Op, sel: Selection, req: Value)
    ensures Decide(fn, sel, req).Execute? <==>
              sel.Picked? && ServingAdapter(sel.version).Some? && Owns(ServingAdapter(sel.version).value, fn)
    ensures Decide(fn, sel, req).Execute? ==>
              Decide(fn, sel, req).adapter == ServingAdapter(sel.version).value
              && Decide(fn, sel, req).params == GetRequestParams(req, ParamDefinitions(fn))
  {
  }

  /** The 405's Allow header lists the serving adapter's own operations in key order. */
  lemma NotAllowedListsOwnedVerbs(fn: Op, sel: Selection, req: Value)
    requires Decide(fn, sel, req).NotAllowed?
    ensures Decide(fn, sel, req).allow == Join(Verbs(Owned(Order, ServingAdapter(sel.version).value)))
    ensures !Owns(ServingAdapter(sel.version).value, fn)
  {
    AllowHeaderJoinsOwnedVerbs(ServingAdapter(sel.version).value);
  }

  /** An unknown version (null selection) is a 400, never a 405 or an execution. */
  lemma UnknownVersionIsBadRequest(fn: Op, req: Value)
    ensures Decide(fn, Picked(None), req) == UnsupportedVersion
  {
  }

  /**
   * `_requestHandler(req, res, next)` for operation `fn`, with the
   * selector's configuration: `single` is `opts.adapter` when it is an
   * adapter object, `versions` the versions table.
   */
  method RequestHandler(fn: Op, single: Option<Adapter>, versions: Option<map<string, Adapter>>,
                        defaultVersion: Value, events: Emitter, req: Request, res: Response)
    returns (next: NextCall)
    modifies events, res
    ensures var sel := Select(single, versions, defaultVersion, VersionOf(req.headers));
            var reqValue := RequestValue(req.params, req.query, req.body);
            match Decide(fn, sel, reqValue)
            case Throw(e) =>
              next == CalledWith(e) && events.log == old(events.log)
              && res.statusCode == old(res.statusCode) && res.headers == old(res.headers) && res.body == old(res.body)
            case UnsupportedVersion =>
              next == NotCalled && events.log == old(events.log)
              && res.statusCode == 400 && res.headers == old(res.headers)
              && res.body == Some(MsgBody("unsupported API version requested"))
            case NotAllowed(allow) =>
              next == NotCalled && events.log == old(events.log)
              && res.statusCode == 405 && res.headers == old(res.headers)["Allow" := allow]
              && res.body == Some(MsgBody(NotSupportedMessage(req.httpMethod, req.originalUrl)))
            case Execute(a, params) =>
              Reacted(fn, ExecAdapterFunction(a, fn, params), false, events, res, next)
  {
    var sel := Select(single, versions, defaultVersion, VersionOf(req.headers));
    if sel.SelectionThrew? {
      next := CalledWith(sel.e);
      return;
    }
    var adapter := ServingAdapter(sel.version);
    if adapter.None? {
      res.Status(400);
      res.Json(MsgBody("unsupported API version requested"));
      next := NotCalled;
    } else if !Owns(adapter.value, fn) {
      res.Set("Allow", GenerateAllowHeader(adapter.value));
      res.Status(405);
      res.Json(MsgBody(NotSupportedMessage(req.httpMethod, req.originalUrl)));
      next := NotCalled;
    } else {
      var params := GetRequestParams(RequestValue(req.params, req.query, req.body), ParamDefinitions(fn));
      var c := ExecAdapterFunction(adapter.value, fn, params);
      next := OnAdapterExecComplete(fn, c, false, events, res);
    }
  }
}
