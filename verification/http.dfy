/**
 * How a controller's result reaches the client (src/@decorators/http.decorator.ts),
 * together with the three plain result records of src/controllers/index.ts.
 */
module Http {
  import opened Wrappers
  import opened Types

  /** What a controller may return: a `Response` or a `Redirect`. */
  datatype Returned<T> = Response(status: int, message: T) | Redirect(route: string)

  /** What a controller may throw: a `ResponseError` or any other error. */
  datatype Thrown = ResponseError(status: int, message: string) | OtherError(message: string)

  /** How a controller call ends. */
  datatype Completion<T> = Returns(result: Returned<T>) | Throws(error: Thrown)

  /** The body written to the client: the controller's message, or `{message}` for an error. */
  datatype SentBody<T> = Payload(content: T) | ErrorMessage(message: string)

  /** What the client receives. */
  datatype Sent<T> = Redirected(route: string) | Sent(status: int, body: SentBody<T>)

  /** The parts of an incoming request a controller can see. */
  datatype Request = Request(body: Fields, query: Fields, headers: Fields, params: Fields)

  function Ok<T>(status: int, message: T): Completion<T> {
    Returns(Response(status, message))
  }

  function Fail<T>(status: int, message: string): Completion<T> {
    Throws(ResponseError(status, message))
  }

  /** Field paths joined as a list. */
  function JoinPaths(paths: seq<string>): string {
    if paths == [] then ""
    else if |paths| == 1 then paths[0]
    else paths[0] + ", " + JoinPaths(paths[1..])
  }

  /** The message of a rejected save: the model name and the failing field paths. */
  function ValidationFailed(model: string, paths: seq<string>): string {
    model + " validation failed: " + JoinPaths(paths)
  }

  /** The error the runtime raises when a property of `null` is read. */
  function NullRead<T>(property: string): Completion<T> {
    Throws(OtherError("Cannot read properties of null (reading '" + property + "')"))
  }

  /**
   * The record a controller is first called with: the request's body, query,
   * headers and route parameters; claims and page are added later by the
   * authorization and pagination wrappers.
   */
  function HandlerContext(req: Request): (ctx: ControllerData)
    ensures ctx.body == req.body && ctx.query == req.query
    ensures ctx.headers == req.headers && ctx.params == req.params
    ensures ctx.claims.None? && ctx.page.None?
  {
    ControllerData(req.body, req.params, req.query, req.headers, None, None)
  }

  /** Maps a controller's completion to what is sent back. */
  function Send<T>(c: Completion<T>): (s: Sent<T>)
    ensures s.Redirected? <==> c.Returns? && c.result.Redirect?
    ensures s.Redirected? ==> s.route == c.result.route
    ensures c.Returns? && c.result.Response? ==>
              s.status == c.result.status && s.body == Payload(c.result.message)
    ensures c.Throws? ==> s.Sent? && s.body == ErrorMessage(c.error.message)
    ensures c.Throws? && c.error.ResponseError? ==> s.status == c.error.status
    ensures c.Throws? && c.error.OtherError? ==> s.status == 500
  {
    match c
    case Returns(Redirect(route)) => Redirected(route)
    case Returns(Response(status, message)) => Sent(status, Payload(message))
    case Throws(ResponseError(status, message)) => Sent(status, ErrorMessage(message))
    case Throws(OtherError(message)) => Sent(500, ErrorMessage(message))
  }

  /** Only a thrown error can produce an error body, and only a non-`ResponseError` forces status 500. */
  lemma ErrorBodyOnlyFromThrow<T>(c: Completion<T>)
    requires Send(c).Sent? && Send(c).body.ErrorMessage?
    ensures c.Throws?
    ensures Send(c).status != 500 ==> c.error.ResponseError?
  {
  }
}
