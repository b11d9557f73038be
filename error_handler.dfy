/**
 * lib/error-handler.js: the router's default error handler. It logs the
 * error, with the request's details when `verboseErrors` is on, and always
 * answers 500 with the error's text.
 */
module ErrorHandler {
  import opened JsValue
  import opened Errors
  import opened Http

  /** The record handed to the logger with the error. */
  datatype LogRecord =
    | Brief(err: Error)
    | Verbose(err: Error, httpMethod: string, url: string, body: Value, query: Value,
              headers: map<string, string>, fhRouterName: Value)

  /** `errData` (lib/error-handler.js:18-33) for the handler's options and the failing request. */
  function ErrData(verboseErrors: Value, routerName: Value, err: Error, httpMethod: string, url: string,
                   body: Value, query: Value, headers: map<string, string>): LogRecord {
    if Truthy(verboseErrors) then Verbose(err, httpMethod, url, body, query, headers, routerName)
    else Brief(err)
  }

  /**
   * The record always holds the error; it carries the request's method,
   * original URL, body, query, headers and the router name exactly when
   * `verboseErrors` is truthy, and nothing of the request otherwise.
   */
  lemma ErrDataSpec(verboseErrors: Value, routerName: Value, err: Error, httpMethod: string, url: string,
                    body: Value, query: Value, headers: map<string, string>)
    ensures var r := ErrData(verboseErrors, routerName, err, httpMethod, url, body, query, headers);
            r.err == err
            && (r.Verbose? <==> Truthy(verboseErrors))
            && (r.Brief? ==> r == Brief(err))
            && (r.Verbose? ==> r.httpMethod == httpMethod && r.url == url && r.body == body && r.query == query
                               && r.headers == headers && r.fhRouterName == routerName)
  {
  }

  /** The response text of lib/error-hander.test.js:45-48: an `Error('oops')` answers `{msg: 'Error: oops'}`. */
  lemma ErrorBodyExample(stringify: Value -> string)
    ensures MsgBody(ToString(Raised("Error", "oops"), stringify)) == Obj(map["msg" := Str("Error: oops")])
  {
    assert "Error" + ": " + "oops" == "Error: oops";
  }

  /** `fhRestErrorHandler` with the options it closes over. */
  class FhRestErrorHandler {
    const verboseErrors: Value
    const routerName: Value

    constructor (verboseErrors: Value, routerName: Value)
      ensures this.verboseErrors == verboseErrors && this.routerName == routerName
    {
      this.verboseErrors := verboseErrors;
      this.routerName := routerName;
    }

    /**
     * `fhRestErrorHandler(err, req, res, next)`: `logged` is the record
     * given to the logger; the answer is 500 with the error's text whatever
     * the options, and `next` is never called.
     */
    method Handle(err: Error, req: Request, res: Response, stringify: Value -> string)
      returns (next: NextCall, logged: LogRecord)
      modifies res
      ensures logged == ErrData(verboseErrors, routerName, err, req.httpMethod, req.originalUrl,
                                req.body, req.query, req.headers)
      ensures next == NotCalled
      ensures res.statusCode == 500 && res.headers == old(res.headers)
      ensures res.body == Some(MsgBody(ToString(err, stringify)))
    {
      logged := Brief(err);
      if Truthy(verboseErrors) {
        logged := Verbose(err, req.httpMethod, req.originalUrl, req.body, req.query, req.headers, routerName);
      }
      res.Status(500);
      res.Json(MsgBody(ToString(err, stringify)));
      next := NotCalled;
    }
  }
}
