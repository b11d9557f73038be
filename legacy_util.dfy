/**
 * util.js: the older invoker and completion handler. The invoker differs
 * from lib/adapter-exec.js only in its error texts; the completion handler
 * has no "not found" case and no shape check.
 */
module LegacyUtil {
  import opened JsValue
  import opened Errors
  import opened HttpMethods
  import opened Adapters
  import opened AdapterExec
  import opened Http
  import opened ExecComplete

  /** `execAdapterFunction(adapter, fnName, params, callback)` (util.js:11-23): the arguments of `callback`. */
  function LegacyExec(a: Adapter, fn: Op, params: Value): Completion {
    match Lookup(a, fn)
    case FalsyMember =>
      Completion(Some(LegacyNotImplemented(Name(fn))), Undefined, Undefined)
    case NonFunction =>
      Completion(Some(LegacyExecThrew(Name(fn), TypeError("adapter[fnName] is not a function"))), Null, Undefined)
    case Function(call) =>
      match call(params)
      case Throws(cause) => Completion(Some(LegacyExecThrew(Name(fn), cause)), Null, Undefined)
      case CallsBack(done) => done
  }

  /**
   * Against the current invoker: the same adapter function runs, an error
   * comes exactly when one comes there, and without one the completion is
   * the same. A missing function is reported with the quoted name.
   */
  lemma LegacyExecAgreesWithCurrent(a: Adapter, fn: Op, params: Value)
    ensures LegacyExec(a, fn, params).err.None? <==> ExecAdapterFunction(a, fn, params).err.None?
    ensures LegacyExec(a, fn, params).err.None? ==> LegacyExec(a, fn, params) == ExecAdapterFunction(a, fn, params)
    ensures LegacyExec(a, fn, params).data == ExecAdapterFunction(a, fn, params).data
    ensures !Implements(a, fn) ==>
              LegacyExec(a, fn, params).err == Some(LegacyNotImplemented(Name(fn)))
              && ExecAdapterFunction(a, fn, params).err == Some(NotImplemented(Name(fn)))
  {
  }

  /** A thrown error is wrapped as "failed to execute adapter function "<fn>": <cause>" with null data. */
  lemma LegacyThrowIsWrapped(a: Adapter, fn: Op, params: Value, cause: Error, stringify: Value -> string)
    requires Invokes(a, fn) && Lookup(a, fn).call(params) == Throws(cause)
    ensures LegacyExec(a, fn, params).err == Some(LegacyExecThrew(Name(fn), cause))
    ensures LegacyExec(a, fn, params).data == Null
    ensures Message(LegacyExec(a, fn, params).err.value, stringify)
         == "failed to execute adapter function " + Quoted(Name(fn)) + ": " + Message(cause, stringify)
  {
  }

  /** What `_execComplete(err, data)` does: forward the error, or answer with the data. */
  datatype LegacyReaction = Forward(e: Error) | Respond(data: Value)

  function LegacyClassify(c: Completion): LegacyReaction {
    if c.err.Some? then Forward(c.err.value) else Respond(c.data)
  }

  /**
   * Unlike the router, every error-free completion is answered with its data:
   * a falsy result is not a 404 and a wrongly shaped one is not a failure.
   * Errors are passed on raw, without the router's wrapping.
   */
  lemma LegacyHasNoNotFoundOrShapeCheck(fn: Op, c: Completion)
    ensures LegacyClassify(c).Forward? <==> Classify(fn, c).Fail? && Classify(fn, c).e.ExecFailed?
    ensures LegacyClassify(c).Forward? ==> Classify(fn, c).e == ExecFailed(Name(fn), LegacyClassify(c).e)
    ensures Classify(fn, c).NotFound? ==> LegacyClassify(c) == Respond(c.data)
    ensures Classify(fn, c).Success? ==> LegacyClassify(c) == Respond(Classify(fn, c).data)
    ensures LegacyClassify(Completion(None, Null, Undefined)) == Respond(Null)
    ensures Classify(fn, Completion(None, Null, Undefined)) == NotFound
    ensures Classify(fn, Completion(None, Arr([]), Undefined)).Fail?
  {
  }

  /** `onAdapterExecComplete(res, next)` applied to a completion (util.js:26-33). */
  method OnLegacyExecComplete(c: Completion, res: Response) returns (next: NextCall)
    modifies res
    ensures res.headers == old(res.headers) && res.statusCode == old(res.statusCode)
    ensures match LegacyClassify(c)
            case Forward(e) => next == CalledWith(e) && res.body == old(res.body)
            case Respond(d) => next == NotCalled && res.body == Some(d)
  {
    if c.err.Some? {
      next := CalledWith(c.err.value);
    } else {
      res.Json(c.data);
      next := NotCalled;
    }
  }
}
