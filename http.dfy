/**
 * The Express objects the middleware works on: the request (whose params,
 * query and body are replaced in place by validation), the response it writes
 * a status, headers and a JSON body to, and the router's event emitter, kept
 * as the sequence of events emitted so far.
 */
module Http {
  import opened JsValue
  import opened Errors

  /** How a middleware hands on: not at all, `next()`, or `next(err)`. */
  datatype NextCall = NotCalled | Called | CalledWith(err: Error)

  datatype Arg = ErrArg(e: Error) | ValArg(v: Value)

  /** `emitter.emit(name, ...args)` */
  datatype Event = Event(name: string, args: seq<Arg>)

  class Request {
    const httpMethod: string
    const originalUrl: string
    const headers: map<string, string>
    var params: Value
    var query: Value
    var body: Value

    constructor (httpMethod: string, originalUrl: string, headers: map<string, string>,
                 params: Value, query: Value, body: Value)
      ensures this.httpMethod == httpMethod && this.originalUrl == originalUrl
      ensures this.headers == headers
      ensures this.params == params && this.query == query && this.body == body
    {
      this.httpMethod := httpMethod;
      this.originalUrl := originalUrl;
      this.headers := headers;
      this.params := params;
      this.query := query;
      this.body := body;
    }
  }

  class Response {
    var statusCode: int
    var headers: map<string, string>
    /** The JSON body sent, if any. */
    var body: Option<Value>

    constructor ()
      ensures statusCode == 200 && headers == map[] && body == None
    {
      statusCode := 200;
      headers := map[];
      body := None;
    }

    /** `res.set(name, value)` */
    method Set(name: string, value: string)
      modifies this
      ensures headers == old(headers)[name := value]
      ensures statusCode == old(statusCode) && body == old(body)
    {
      headers := headers[name := value];
    }

    /** `res.status(code)` */
    method Status(code: int)
      modifies this
      ensures statusCode == code
      ensures headers == old(headers) && body == old(body)
    {
      statusCode := code;
    }

    /** `res.json(v)` */
    method Json(v: Value)
      modifies this
      ensures body == Some(v)
      ensures statusCode == old(statusCode) && headers == old(headers)
    {
      body := Some(v);
    }
  }

  /** `router.events`: listeners are not modelled, only what was emitted, in order. */
  class Emitter {
    var log: seq<Event>

    constructor ()
      ensures log == []
    {
      log := [];
    }

    method Emit(name: string, args: seq<Arg>)
      modifies this
      ensures log == old(log) + [Event(name, args)]
    {
      log := log + [Event(name, args)];
    }
  }
}
