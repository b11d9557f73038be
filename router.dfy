/**
 * lib/router.js: the single-adapter router. Its constructor checks the
 * options; each CRUDL handler builds the operation's parameter bag from the
 * request, runs the adapter function and reacts to its completion; update can
 * first read the old record so that the success event carries it.
 */
module Router {
  import opened JsValue
  import opened Errors
  import opened HttpMethods
  import opened Adapters
  import opened AdapterExec
  import opened Http
  import opened ExecComplete

  /** The assertions at lib/router.js:32-42: `None` when both hold, else the first failure. */
  function RouterOptionsError(name: Value, adapter: AdapterRef): Option<Error> {
    if !name.Str? then Some(AssertionError("opts.name must be a String"))
    else if adapter.Missing? || adapter.NotAnObject? then Some(AssertionError("opts.adapter must be an object with CRUDL methods"))
    else None
  }

  /** A router is built exactly for a string name and an adapter whose `typeof` is 'object', which null passes. */
  lemma RouterOptionsAccepted(name: Value, adapter: AdapterRef)
    ensures RouterOptionsError(name, adapter).None? <==> name.Str? && (adapter.Ref? || adapter.NullRef?)
    ensures !name.Str? ==> RouterOptionsError(name, adapter) == Some(AssertionError("opts.name must be a String"))
    ensures RouterOptionsError(Str(""), NullRef).None?
  {
  }

  /** The parameter bag each handler passes to the adapter (lib/router.js:117-209). */
  function RouterParams(op: Op, params: Value, query: Value, body: Value): (bag: Value)
    ensures bag.Obj? && "routeParams" in bag.fields && bag.fields["routeParams"] == params
    ensures "id" in bag.fields <==> op in {Read, Update, Delete}
    ensures "data" in bag.fields <==> op in {Update, Create}
    ensures "query" in bag.fields <==> op in {List, Read}
    ensures |bag.fields| == (if op == Update || op == Read then 3 else 2)
  {
    match op
    case List => Obj(map["routeParams" := params, "query" := query])
    case Read => Obj(map["routeParams" := params, "query" := query, "id" := Get(params, "id")])
    case Update => Obj(map["routeParams" := params, "id" := Get(params, "id"), "data" := body])
    case Create => Obj(map["routeParams" := params, "data" := body])
    case Delete => Obj(map["routeParams" := params, "id" := Get(params, "id")])
  }

  /** How a handler ends: a synchronous throw reaches Express, or the completion callback runs. */
  datatype Flow = Escaped(e: Error) | Completed(c: Completion)

  /** An update run: how it ended and which adapter functions were invoked, in order. */
  datatype UpdateRun = UpdateRun(flow: Flow, invoked: seq<Op>)

  /** The message of the TypeError raised by calling a missing `opts.adapter.read`. */
  const ReadNotAFunction: string := "opts.adapter.read is not a function"

  /**
   * `doUpdate` (lib/router.js:143-182). With `emitOldDataOnUpdate`, `read` is
   * called directly (not through the safe invoker) with `{id}`; a read error
   * or a falsy old record ends the request before update runs; otherwise
   * update runs and the old record becomes the extra data.
   */
  function UpdateFlow(a: Adapter, emitOld: bool, params: Value, body: Value): UpdateRun {
    var bag := RouterParams(Update, params, Undefined, body);
    if !emitOld then
      UpdateRun(Completed(ExecAdapterFunction(a, Update, bag)), if Invokes(a, Update) then [Update] else [])
    else match Lookup(a, Read)
      case Function(read) => (
        match read(Obj(map["id" := Get(params, "id")]))
        case Throws(e) => UpdateRun(Escaped(e), [Read])
        case CallsBack(prior) =>
          if prior.err.Some? then UpdateRun(Completed(Completion(prior.err, Undefined, Undefined)), [Read])
          else if !Truthy(prior.data) then UpdateRun(Completed(Completion(None, Null, Undefined)), [Read])
          else
            var u := ExecAdapterFunction(a, Update, bag);
            UpdateRun(Completed(Completion(u.err, u.data, prior.data)), [Read] + (if Invokes(a, Update) then [Update] else [])))
      case _ => UpdateRun(Escaped(TypeError(ReadNotAFunction)), [])
  }

  /** A read error fails the update (as `update-fail`, wrapping the read's error) and update never runs. */
  lemma ReadErrorSkipsUpdate(a: Adapter, params: Value, body: Value, e: Error)
    requires Invokes(a, Read)
    requires Lookup(a, Read).call(Obj(map["id" := Get(params, "id")])).CallsBack?
    requires Lookup(a, Read).call(Obj(map["id" := Get(params, "id")])).done.err == Some(e)
    ensures var run := UpdateFlow(a, true, params, body);
            Update !in run.invoked && run.flow.Completed?
            && Classify(Update, run.flow.c) == Fail(ExecFailed("update", e))
  {
  }

  /** No old record means 404, and update never runs. */
  lemma MissingOldRecordIsNotFound(a: Adapter, params: Value, body: Value)
    requires Invokes(a, Read)
    requires Lookup(a, Read).call(Obj(map["id" := Get(params, "id")])).CallsBack?
    requires Lookup(a, Read).call(Obj(map["id" := Get(params, "id")])).done.err.None?
    requires !Truthy(Lookup(a, Read).call(Obj(map["id" := Get(params, "id")])).done.data)
    ensures var run := UpdateFlow(a, true, params, body);
            Update !in run.invoked && run.flow.Completed? && Classify(Update, run.flow.c) == NotFound
  {
  }

  /** Update runs under `emitOldDataOnUpdate` only after a successful read of a truthy old record, which then rides along. */
  lemma UpdateRunsOnlyAfterRead(a: Adapter, params: Value, body: Value)
    requires Update in UpdateFlow(a, true, params, body).invoked
    ensures var idArg := Obj(map["id" := Get(params, "id")]);
            var run := UpdateFlow(a, true, params, body);
            Invokes(a, Read) && Lookup(a, Read).call(idArg).CallsBack?
            && Lookup(a, Read).call(idArg).done.err.None?
            && Truthy(Lookup(a, Read).call(idArg).done.data)
            && run.invoked == [Read, Update]
            && run.flow.Completed? && run.flow.c.extra == Lookup(a, Read).call(idArg).done.data
  {
  }

  /** The update's success event carries (new record, old record). */
  lemma OldDataInSuccessEvent(a: Adapter, params: Value, body: Value)
    requires var run := UpdateFlow(a, true, params, body);
             run.flow.Completed? && Classify(Update, run.flow.c).Success?
    ensures var run := UpdateFlow(a, true, params, body);
            var prior := Lookup(a, Read).call(Obj(map["id" := Get(params, "id")])).done.data;
            Emitted(Update, Classify(Update, run.flow.c), true)
              == [Event("update-success", [ValArg(run.flow.c.data), ValArg(prior)])]
  {
    var idArg := Obj(map["id" := Get(params, "id")]);
    assert Invokes(a, Read) && Lookup(a, Read).call(idArg).CallsBack?;
    var prior := Lookup(a, Read).call(idArg).done;
    assert prior.err.None? && Truthy(prior.data);
    assert UpdateFlow(a, true, params, body).flow.c.extra == prior.data;
    assert Name(Update) + "-success" == "update-success";
  }

  /** A missing `read` under `emitOldDataOnUpdate` throws out of the handler before any adapter call. */
  lemma MissingReadEscapes(a: Adapter, params: Value, body: Value)
    requires !Invokes(a, Read)
    ensures UpdateFlow(a, true, params, body) == UpdateRun(Escaped(TypeError(ReadNotAFunction)), [])
  {
  }

  /** Without `emitOldDataOnUpdate` the adapter's own third callback argument is the extra data. */
  lemma PlainUpdatePassesExtraThrough(a: Adapter, params: Value, body: Value)
    requires Invokes(a, Update)
    requires Lookup(a, Update).call(RouterParams(Update, params, Undefined, body)).CallsBack?
    ensures UpdateFlow(a, false, params, body)
         == UpdateRun(Completed(Lookup(a, Update).call(RouterParams(Update, params, Undefined, body)).done), [Update])
  {
  }

  /** The router: its options and `router.events`. */
  class FhRouter {
    const name: string
    const adapter: AdapterRef
    const emitOldDataOnUpdate: bool
    const events: Emitter

    constructor (name: Value, adapter: AdapterRef, emitOldDataOnUpdate: bool)
      requires RouterOptionsError(name, adapter).None?
      ensures this.name == name.s && this.adapter == adapter
      ensures this.emitOldDataOnUpdate == emitOldDataOnUpdate
      ensures fresh(events) && events.log == []
    {
      this.name := name.s;
      this.adapter := adapter;
      this.emitOldDataOnUpdate := emitOldDataOnUpdate;
      events := new Emitter();
    }

    /**
     * `doList`, `doRead`, `doCreate`, `doDelete`, and `doUpdate` without
     * `emitOldDataOnUpdate`: run the operation on its bag and react. The
     * adapter is an object here, since the support check before it throws on null.
     */
    method Do(op: Op, req: Request, res: Response) returns (next: NextCall)
      requires adapter.Ref?
      requires op == Update ==> !emitOldDataOnUpdate
      modifies events, res
      ensures Reacted(op, ExecAdapterFunction(adapter.adapter, op, RouterParams(op, req.params, req.query, req.body)),
                      true, events, res, next)
    {
      var c := ExecAdapterFunction(adapter.adapter, op, RouterParams(op, req.params, req.query, req.body));
      next := OnAdapterExecComplete(op, c, true, events, res);
    }

    /** `doUpdate`; `invoked` lists the adapter functions called, in order. */
    method DoUpdate(req: Request, res: Response) returns (next: NextCall, invoked: seq<Op>)
      requires adapter.Ref?
      modifies events, res
      ensures var run := UpdateFlow(adapter.adapter, emitOldDataOnUpdate, req.params, req.body);
              invoked == run.invoked
              && match run.flow
                 case Escaped(e) => next == CalledWith(e) && events.log == old(events.log)
                                    && res.statusCode == old(res.statusCode) && res.headers == old(res.headers)
                                    && res.body == old(res.body)
                 case Completed(c) => Reacted(Update, c, true, events, res, next)
    {
      var a := adapter.adapter;
      var bag := RouterParams(Update, req.params, req.query, req.body);
      assert bag == RouterParams(Update, req.params, Undefined, req.body);
      if !emitOldDataOnUpdate {
        next := Do(Update, req, res);
        invoked := if Invokes(a, Update) then [Update] else [];
        return;
      }
      var read := Lookup(a, Read);
      if !read.Function? {
        next := CalledWith(TypeError(ReadNotAFunction));
        invoked := [];
        return;
      }
      invoked := [Read];
      var outcome := read.call(Obj(map["id" := Get(req.params, "id")]));
      if outcome.Throws? {
        next := CalledWith(outcome.cause);
      } else if outcome.done.err.Some? {
        next := OnAdapterExecComplete(Update, Completion(outcome.done.err, Undefined, Undefined), true, events, res);
      } else if !Truthy(outcome.done.data) {
        next := OnAdapterExecComplete(Update, Completion(None, Null, Undefined), true, events, res);
      } else {
        var u := ExecAdapterFunction(a, Update, bag);
        if Invokes(a, Update) {
          invoked := invoked + [Update];
        }
        next := OnAdapterExecComplete(Update, Completion(u.err, u.data, outcome.done.data), true, events, res);
      }
    }
  }
}
