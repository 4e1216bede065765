/** What a handler hands back to Express: a status code, a JSON body and the cookies it
    set, plus the request object the middleware annotates. */
module Http {
  import opened Base
  import opened Signing

  /** An `ErrorHandler(message, statusCode)` passed to `next`. */
  datatype HttpError = HttpError(status: int, message: string)

  /** The result of a guard chain: the value the handler goes on with, or the error it
      passes to `next`. */
  datatype Outcome<+T> = Done(value: T) | Refused(error: HttpError)

  /** The response envelope `{success?, message?, user?, accessToken?, activationToken?}`;
      `None` fields are not sent. */
  datatype Body = Body(
    success: Option<bool>,
    message: Option<string>,
    user: Option<User>,
    accessToken: Option<Token>,
    activationToken: Option<Token>)

  const EMPTY_BODY := Body(None, None, None, None, None)

  /** Options of `res.cookie`. `None` and `false` stand for an absent field. */
  datatype CookieOptions = CookieOptions(
    expires: Option<JsNumber>,
    maxAge: JsNumber,
    httpOnly: bool,
    sameSite: Option<string>,
    secure: bool)

  /** A cookie value: the empty string, or a signed token. */
  datatype CookieValue = Cleared | Carrying(token: Token)

  datatype SetCookie = SetCookie(name: string, value: CookieValue, options: CookieOptions)

  datatype Reply = Reply(status: int, body: Body, cookies: seq<SetCookie>)

  /** What the error middleware sends for an error passed to `next`: `{success: false, message}`. */
  function ErrorReply(e: HttpError): Reply
  {
    Reply(e.status, EMPTY_BODY.(success := Some(false), message := Some(e.message)), [])
  }

  /** An Express request: the two credential cookies (`None` when missing or empty) and the
      `req.user` field that the authorisation gate and the refresh handler assign. */
  class Request {
    const accessToken: Option<Token>
    const refreshToken: Option<Token>
    var user: Option<User>

    constructor (accessToken: Option<Token>, refreshToken: Option<Token>)
      ensures this.accessToken == accessToken && this.refreshToken == refreshToken
      ensures user == None
    {
      this.accessToken := accessToken;
      this.refreshToken := refreshToken;
      user := None;
    }
  }
}
