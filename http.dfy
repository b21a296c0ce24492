/** The request and response objects of the HTTP layer, as far as the guards,
    the exception filter and `sendResponse` use them. */
module Http {
  import opened Wrappers
  import opened Domain

  /** An incoming request. Header names are lower-case, as the HTTP layer
      delivers them; `user` is what an authentication guard attached. */
  class Request {
    var headers: map<string, string>
    var user: Option<Claims>
    var url: string

    constructor (headers: map<string, string>, url: string)
      ensures this.headers == headers && this.url == url && user == None
    {
      this.headers := headers;
      this.url := url;
      user := None;
    }

    /** `request.headers[name]`, `undefined` when absent. */
    function Header(name: string): Option<string>
      reads this
    {
      if name in headers then Some(headers[name]) else None
    }
  }

  /** One call made on a response object, in the order made. */
  datatype ResponseCall<B> = SetStatus(code: int) | SendJson(body: B)

  /** An outgoing response whose JSON body has type `B`; `calls` records what
      was done to it. */
  class Response<B> {
    var statusCode: int
    var calls: seq<ResponseCall<B>>

    constructor ()
      ensures statusCode == 200 && calls == []
    {
      statusCode := 200;
      calls := [];
    }

    /** `res.status(code)` */
    method Status(code: int)
      modifies this
      ensures statusCode == code
      ensures calls == old(calls) + [SetStatus(code)]
    {
      statusCode := code;
      calls := calls + [SetStatus(code)];
    }

    /** `res.json(body)` */
    method Json(body: B)
      modifies this
      ensures statusCode == old(statusCode)
      ensures calls == old(calls) + [SendJson(body)]
    {
      calls := calls + [SendJson(body)];
    }
  }
}
