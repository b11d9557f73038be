/**
 * The errors the router creates or passes on. VError chains are kept as a
 * cause field; the JSON text that `%j` inserts is given by a `stringify`
 * function the caller supplies, since JSON.stringify is not modelled.
 */
module Errors {
  import opened JsValue

  datatype Error =
      /** An error made outside the core: an adapter's own error, an exception it threw, a Joi validation error. */
    | Raised(name: string, message: string)
      /** Thrown by `assert` while a router or middleware is constructed. */
    | AssertionError(message: string)
      /** A runtime TypeError, e.g. calling something that is not a function. */
    | TypeError(message: string)
      /** lib/adapter-exec.js:32-37 */
    | NotImplemented(fn: string)
      /** lib/adapter-exec.js:21-29 */
    | ExecThrew(fn: string, params: Value, cause: Error)
      /** util.js:21 */
    | LegacyNotImplemented(fn: string)
      /** util.js:15-18 */
    | LegacyExecThrew(fn: string, cause: Error)
      /** lib/router.js:86-90, lib/handlers.js:82-86 */
    | ExecFailed(fn: string, cause: Error)
      /** lib/router.js:96-100, lib/handlers.js:92-96 */
    | InvalidResponse(fn: string, response: Value)

  /** The `name` property, printed first by `toString()`. */
  function ErrorName(e: Error): string {
    match e
    case Raised(name, _) => name
    case AssertionError(_) => "AssertionError"
    case TypeError(_) => "TypeError"
    case _ => "VError"
  }

  /** A quoted operation name, as `"%s"` prints it. */
  function Quoted(s: string): string {
    "\"" + s + "\""
  }

  /**
   * The `message` property. A VError made with a cause appends ": " and the
   * cause's message to its own text.
   */
  function Message(e: Error, stringify: Value -> string): string
    decreases e
  {
    match e
    case Raised(_, message) => message
    case AssertionError(message) => message
    case TypeError(message) => message
    case NotImplemented(fn) => "adapter has not implemented function " + fn
    case ExecThrew(fn, params, cause) =>
      "failed to exec adapter function " + fn + " with params " + stringify(params)
      + ": " + Message(cause, stringify)
    case LegacyNotImplemented(fn) => "adapter has not implemented function " + Quoted(fn)
    case LegacyExecThrew(fn, cause) =>
      "failed to execute adapter function " + Quoted(fn) + ": " + Message(cause, stringify)
    case ExecFailed(fn, cause) =>
      "error executing adapter function " + Quoted(fn) + ": " + Message(cause, stringify)
    case InvalidResponse(fn, response) =>
      "invalid response from adapter for " + Quoted(fn) + " call. response: " + stringify(response)
  }

  /** `err.toString()`: the name, then ": " and the message; either alone when the other is empty. */
  function ToString(e: Error, stringify: Value -> string): string {
    var m := Message(e, stringify);
    if ErrorName(e) == "" then m
    else if m == "" then ErrorName(e)
    else ErrorName(e) + ": " + m
  }

  /** The text is the message when the name is empty, the name when the message is, and "name: message" otherwise. */
  lemma ToStringCases(name: string, message: string, stringify: Value -> string)
    ensures ToString(Raised("", message), stringify) == message
    ensures ToString(Raised(name, ""), stringify) == name
    ensures name != "" && message != "" ==> ToString(Raised(name, message), stringify) == name + ": " + message
  {
  }

  /** `s` occurs in `t` (what the source's tests check with `to.contain`). */
  predicate Contains(t: string, s: string)
    decreases |t|
  {
    (|s| <= |t| && t[..|s|] == s) || (t != [] && Contains(t[1..], s))
  }

  lemma {:induction false} ContainsAt(t: string, s: string, i: nat)
    requires i + |s| <= |t| && t[i..i + |s|] == s
    ensures Contains(t, s)
    decreases i
  {
    if i > 0 {
      assert t[1..][i - 1..i - 1 + |s|] == t[i..i + |s|];
      ContainsAt(t[1..], s, i - 1);
    }
  }

  /** A wrapped error's text ends with its cause's, so the cause stays readable in a 500 body. */
  lemma {:induction false} CauseMessageIsSuffix(e: Error, stringify: Value -> string)
    requires e.ExecThrew? || e.LegacyExecThrew? || e.ExecFailed?
    ensures var m := Message(e, stringify);
            var c := Message(e.cause, stringify);
            |c| + 2 <= |m| && m[|m| - |c| - 2..] == ": " + c
  {
  }

  /** The text the router's tests look for when an adapter call fails (lib/router.test.js:140-142, 164-167). */
  lemma ExecFailedShowsOperationAndCause(fn: string, cause: Error, stringify: Value -> string)
    ensures var t := ToString(ExecFailed(fn, cause), stringify);
            Contains(t, "error executing adapter function " + Quoted(fn) + ": " + Message(cause, stringify))
  {
    var t := ToString(ExecFailed(fn, cause), stringify);
    var s := "error executing adapter function " + Quoted(fn) + ": " + Message(cause, stringify);
    assert t == "VError: " + s;
    assert t[8..8 + |s|] == s;
    ContainsAt(t, s, 8);
  }
}
