/**
 * The parts of an Express exchange the request layer touches: the request
 * (whose `query` middleware may rewrite in place), the `next` callback (a
 * log of the calls made to it) and the reply written with
 * `res.status(code).json(body)`.
 */
module Http {
  import opened Wrappers
  import opened Js
  import opened Errors
  import Lib

  const OK := 200
  const CREATED := 201
  const BAD_REQUEST := 400
  const NOT_FOUND := 404
  const CONFLICT := 409
  const UNPROCESSABLE_ENTITY := 422
  const INTERNAL_SERVER_ERROR := 500

  class Request {
    var query: map<string, Value>
    const params: map<string, string>
    const body: Value
    const originalUrl: string
    const httpMethod: string

    constructor (query: map<string, Value>, params: map<string, string>, body: Value,
                 originalUrl: string, httpMethod: string)
      ensures this.query == query && this.params == params && this.body == body
      ensures this.originalUrl == originalUrl && this.httpMethod == httpMethod
    {
      this.query := query;
      this.params := params;
      this.body := body;
      this.originalUrl := originalUrl;
      this.httpMethod := httpMethod;
    }
  }

  /** `query[key]`, `undefined` when the key is absent. */
  function QueryGet(query: map<string, Value>, key: string): (v: Value)
    ensures key in query ==> v == query[key]
    ensures key !in query ==> v == Undefined
  {
    if key in query then query[key] else Undefined
  }

  /** The argument of one call to `next`: none, or an error. */
  datatype NextArg = Proceed | Fail(err: AppError)

  /** The `next` callback, recording every call made to it. */
  class NextLog {
    var calls: seq<NextArg>

    constructor ()
      ensures calls == []
    {
      calls := [];
    }

    method Call(arg: NextArg)
      modifies this
      ensures calls == old(calls) + [arg]
    {
      calls := calls + [arg];
    }
  }

  /** A JSON body as the handlers produce it. */
  datatype Body =
    | Json(value: Value)                   // a service result, sent as it is
    | Mapped(response: Lib.MappedResponse) // `mapResponse(...)`
    | ErrorJson(errorType: string, messsage: Option<string>)  // `{type, messsage}`; an undefined value is dropped

  datatype Reply = Reply(status: int, body: Body)

  /** The body `mapResponse(text)` of a guard failure. */
  function MessageBody(text: string): (b: Body)
    requires text != ""
    ensures b == Mapped(Lib.MappedResponse(Some(Str(text)), None))
  {
    Lib.MapResponseMessageOnly(text);
    Mapped(Lib.MapResponse(Str(text), Undefined))
  }
}
