/**
 * The adapter a router serves requests from: an object that may own, inherit
 * or lack each of the five CRUDL functions. Each function, given its parameter
 * bag, either throws at once or calls its callback once.
 */
module Adapters {
  import opened JsValue
  import opened Errors
  import opened HttpMethods

  /** The arguments an adapter passes to its callback: `callback(err, result, extra)`. */
  datatype Completion = Completion(err: Option<Error>, data: Value, extra: Value)

  /** One call of an adapter function. */
  datatype Outcome = Throws(cause: Error) | CallsBack(done: Completion)

  /** What an adapter holds under an operation's name. */
  datatype Member =
    | FalsyMember
    | NonFunction
    | Function(call: Value -> Outcome)

  datatype Slot = Absent | Own(member: Member) | Inherited(member: Member)

  /**
   * An adapter object: its five operation slots and its own `adapter`
   * property (lib/handlers.js:167 lets a version entry carry its adapter there).
   */
  datatype Adapter = Adapter(slots: Op -> Slot, adapterProp: Option<Adapter>)

  /** `adapter.hasOwnProperty(name)` */
  predicate Owns(a: Adapter, op: Op) {
    a.slots(op).Own?
  }

  /** `adapter[name]`, own or inherited. */
  function Lookup(a: Adapter, op: Op): Member {
    match a.slots(op)
    case Absent => FalsyMember
    case Own(m) => m
    case Inherited(m) => m
  }

  /** `if (adapter[name])` */
  predicate Implements(a: Adapter, op: Op) {
    !Lookup(a, op).FalsyMember?
  }

  /** The router's `opts.adapter` as `typeof` sees it. */
  datatype AdapterRef = Missing | NullRef | Ref(adapter: Adapter) | NotAnObject

  /** `opts.adapter` when it is an adapter object; the model treats every other value as absent. */
  function AdapterOf(r: AdapterRef): Option<Adapter> {
    if r.Ref? then Some(r.adapter) else None
  }
}

/** lib/adapter-exec.js: call one adapter function safely. */
module AdapterExec {
  import opened JsValue
  import opened Errors
  import opened HttpMethods
  import opened Adapters

  /** The arguments `execAdapterFunction(adapter, fn, params, callback)` calls `callback` with. */
  function ExecAdapterFunction(a: Adapter, fn: Op, params: Value): Completion {
    match Lookup(a, fn)
    case FalsyMember =>
      Completion(Some(NotImplemented(Name(fn))), Undefined, Undefined)
    case NonFunction =>
      Completion(Some(ExecThrew(Name(fn), params, TypeError("adapter[fn] is not a function"))), Null, Undefined)
    case Function(call) =>
      match call(params)
      case Throws(cause) => Completion(Some(ExecThrew(Name(fn), params, cause)), Null, Undefined)
      case CallsBack(done) => done
  }

  /** The adapter function runs (once) exactly when `adapter[fn]` is a function. */
  predicate Invokes(a: Adapter, fn: Op) {
    Lookup(a, fn).Function?
  }

  /** A missing or falsy function gives the uniform "not implemented" error and runs nothing. */
  lemma MissingFunctionNotImplemented(a: Adapter, fn: Op, params: Value)
    requires !Implements(a, fn)
    ensures !Invokes(a, fn)
    ensures ExecAdapterFunction(a, fn, params)
         == Completion(Some(NotImplemented(Name(fn))), Undefined, Undefined)
  {
  }

  /** A synchronous throw is wrapped with the operation and its parameters, and the result is null. */
  lemma ThrowIsWrapped(a: Adapter, fn: Op, params: Value, cause: Error)
    requires Invokes(a, fn) && Lookup(a, fn).call(params) == Throws(cause)
    ensures ExecAdapterFunction(a, fn, params) == Completion(Some(ExecThrew(Name(fn), params, cause)), Null, Undefined)
  {
  }

  /** Whatever the adapter calls back with goes through unchanged. */
  lemma CallbackPassesThrough(a: Adapter, fn: Op, params: Value)
    requires Invokes(a, fn) && Lookup(a, fn).call(params).CallsBack?
    ensures ExecAdapterFunction(a, fn, params) == Lookup(a, fn).call(params).done
  {
  }

  /**
   * The invoker adds an error of its own only for a missing function or a
   * throw; an error-free completion is always the adapter's own callback.
   */
  lemma InvokerErrorsAreItsOwnOrTheAdapters(a: Adapter, fn: Op, params: Value)
    ensures var c := ExecAdapterFunction(a, fn, params);
            c.err.None? ==> Invokes(a, fn) && Lookup(a, fn).call(params) == CallsBack(c)
    ensures var c := ExecAdapterFunction(a, fn, params);
            c.err.Some? && !(Invokes(a, fn) && Lookup(a, fn).call(params).CallsBack?)
            ==> c.err.value == NotImplemented(Name(fn)) || c.err.value.ExecThrew?
  {
  }
}
