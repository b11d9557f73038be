/**
 * The adapter-callback handler shared in shape by lib/router.js:82-113 and
 * lib/handlers.js:77-111: an error or a wrongly shaped result fails, a truthy
 * valid result succeeds, and a falsy result is "not found".
 */
module ExecComplete {
  import opened JsValue
  import opened Errors
  import opened HttpMethods
  import opened Adapters
  import opened Http
  import opened VerifyAdapterResponse

  /** What `_execComplete` decides to do with a completion. */
  datatype Reaction =
    | Fail(e: Error)
    | Success(data: Value, extra: Value)
    | NotFound

  /** The decision table of `_execComplete(err, newData, extraData)`. */
  function Classify(fn: Op, c: Completion): Reaction {
    if c.err.Some? then Fail(ExecFailed(Name(fn), c.err.value))
    else if Truthy(c.data) && !ValidResponse(fn, c.data) then Fail(InvalidResponse(Name(fn), c.data))
    else if Truthy(c.data) then Success(c.data, c.extra)
    else NotFound
  }

  /** The events a reaction emits; the router's success event also carries the extra data. */
  function Emitted(fn: Op, r: Reaction, withExtra: bool): seq<Event> {
    match r
    case Fail(e) => [Event(Name(fn) + "-fail", [ErrArg(e)])]
    case Success(d, x) => [Event(Name(fn) + "-success", if withExtra then [ValArg(d), ValArg(x)] else [ValArg(d)])]
    case NotFound => []
  }

  /** An adapter error is wrapped and wins over whatever data came with it. */
  lemma ErrorTakesPrecedence(fn: Op, c: Completion)
    requires c.err.Some?
    ensures Classify(fn, c).Fail?
    ensures Classify(fn, c).e.ExecFailed? && Classify(fn, c).e.cause == c.err.value
  {
  }

  /** Success happens exactly for an error-free, truthy result that has the operation's shape. */
  lemma SuccessExactlyForValidData(fn: Op, c: Completion)
    ensures Classify(fn, c).Success? <==> c.err.None? && Truthy(c.data) && ValidResponse(fn, c.data)
    ensures Classify(fn, c).Success? ==> Classify(fn, c).data == c.data && Classify(fn, c).extra == c.extra
  {
  }

  /** "Not found" exactly for an error-free, falsy result; no event goes with it. */
  lemma NotFoundExactlyForFalsyData(fn: Op, c: Completion, withExtra: bool)
    ensures Classify(fn, c) == NotFound <==> c.err.None? && !Truthy(c.data)
    ensures Classify(fn, c) == NotFound <==> Emitted(fn, Classify(fn, c), withExtra) == []
  {
  }

  /** A successful create always answers with a plain object carrying `uid` and `data`. */
  lemma CreateSuccessHasUidAndData(c: Completion)
    requires Classify(Create, c).Success?
    ensures c.data.Obj? && "uid" in c.data.fields && "data" in c.data.fields
  {
  }

  /** Every failure is one of the two wrapped errors and names the operation. */
  lemma FailuresNameTheOperation(fn: Op, c: Completion, stringify: Value -> string)
    requires Classify(fn, c).Fail?
    ensures var e := Classify(fn, c).e;
            (e.ExecFailed? && e.fn == Name(fn) && c.err.Some?)
            || (e.InvalidResponse? && e.fn == Name(fn) && e.response == c.data && c.err.None?)
    ensures var m := Message(Classify(fn, c).e, stringify);
            var q := Quoted(Name(fn));
            m[..|"error executing adapter function " + q|] == "error executing adapter function " + q
            || m[..|"invalid response from adapter for " + q|] == "invalid response from adapter for " + q
  {
  }

  /** Exactly one event for a failure or a success, named after the operation. */
  lemma OneEventPerOutcome(fn: Op, c: Completion, withExtra: bool)
    ensures var r := Classify(fn, c);
            !r.NotFound? ==>
              |Emitted(fn, r, withExtra)| == 1
              && Emitted(fn, r, withExtra)[0].name == Name(fn) + (if r.Fail? then "-fail" else "-success")
  {
  }

  /** The effect `_execComplete` has on the event log, the response and `next`. */
  twostate predicate Reacted(fn: Op, c: Completion, withExtra: bool, events: Emitter, res: Response, next: NextCall)
    reads events, res
  {
    var r := Classify(fn, c);
    events.log == old(events.log) + Emitted(fn, r, withExtra)
    && res.headers == old(res.headers)
    && match r
       case Fail(e) => next == CalledWith(e) && res.statusCode == old(res.statusCode) && res.body == old(res.body)
       case Success(d, _) => next == NotCalled && res.statusCode == old(res.statusCode) && res.body == Some(d)
       case NotFound => next == NotCalled && res.statusCode == 404 && res.body == Some(MsgBody("not found"))
  }

  /**
   * `_execComplete`, for the router (`withExtra`: the success event carries
   * `(newData, extraData)`) and for the versioned handlers (only `data`).
   */
  method OnAdapterExecComplete(fn: Op, c: Completion, withExtra: bool, events: Emitter, res: Response)
    returns (next: NextCall)
    modifies events, res
    ensures Reacted(fn, c, withExtra, events, res, next)
  {
    if c.err.Some? {
      var e := ExecFailed(Name(fn), c.err.value);
      events.Emit(Name(fn) + "-fail", [ErrArg(e)]);
      next := CalledWith(e);
    } else if Truthy(c.data) && !ValidResponse(fn, c.data) {
      var e := InvalidResponse(Name(fn), c.data);
      events.Emit(Name(fn) + "-fail", [ErrArg(e)]);
      next := CalledWith(e);
    } else if Truthy(c.data) {
      events.Emit(Name(fn) + "-success", if withExtra then [ValArg(c.data), ValArg(c.extra)] else [ValArg(c.data)]);
      res.Json(c.data);
      next := NotCalled;
    } else {
      res.Status(404);
      res.Json(MsgBody("not found"));
      next := NotCalled;
    }
  }
}
