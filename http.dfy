/**
 * What a handler can learn from one `fetch` call, and the three ways the login
 * page turns it into either a parsed success or a thrown error.
 */
module Http {
  import opened Wrappers

  /** The user object the token-verification endpoint returns. */
  datatype UserInfo = UserInfo(email: Option<string>)

  /** The fields of a JSON reply that the pages read; a missing field is None. */
  datatype Body = Body(
    message: Option<string>,
    code: Option<string>,
    error: Option<string>,
    token: Option<string>,
    signupToken: Option<string>,
    user: Option<UserInfo>)

  /** The result of `response.json()`: a body, or the message of the parse error. */
  datatype Parsed = Unreadable(reason: string) | Json(body: Body)

  /** A request either never reached a server (fetch rejected) or got a response. */
  datatype Reply = FetchFailed(reason: string) | Responded(ok: bool, parsed: Parsed)

  /** Where a handler's `try` block ends: past the `ok` check, or in `catch` with an error. */
  datatype Outcome = Success(body: Body) | Thrown(message: string, code: Option<string>)

  /** The reply is an `ok` response whose body parsed. */
  predicate Accepted(reply: Reply)
  {
    reply.Responded? && reply.ok && reply.parsed.Json?
  }

  /**
   * The common pattern `data = await response.json(); if (!response.ok) throw new
   * Error(data.message || fallback)`: the body is parsed before the status is looked at.
   */
  function PlainOutcome(reply: Reply, fallback: string): (o: Outcome)
    ensures o.Success? <==> Accepted(reply)
    ensures o.Success? ==> o.body == reply.parsed.body
    ensures o.Thrown? ==> o.code.None?
    ensures reply.FetchFailed? ==> o == Thrown(reply.reason, None)
    ensures reply.Responded? && reply.parsed.Unreadable? ==> o == Thrown(reply.parsed.reason, None)
    ensures reply.Responded? && !reply.ok && reply.parsed.Json? ==>
              o == Thrown(OrElse(reply.parsed.body.message, fallback), None)
  {
    match reply
    case FetchFailed(reason) => Thrown(reason, None)
    case Responded(ok, Unreadable(reason)) => Thrown(reason, None)
    case Responded(ok, Json(body)) => if ok then Success(body) else Thrown(OrElse(body.message, fallback), None)
  }

  const ParseFailureMessage := "Failed to parse server response"

  /**
   * The login handler: a parse failure is rewritten, and a refused login carries
   * the server's `code` along with its message.
   */
  function LoginOutcome(reply: Reply): (o: Outcome)
    ensures o.Success? <==> Accepted(reply)
    ensures o.Success? ==> o.body == reply.parsed.body
    ensures reply.FetchFailed? ==> o == Thrown(reply.reason, None)
    ensures reply.Responded? && reply.parsed.Unreadable? ==> o == Thrown(ParseFailureMessage, None)
    ensures reply.Responded? && !reply.ok && reply.parsed.Json? ==>
              o == Thrown(OrElse(reply.parsed.body.message, "Login failed"), reply.parsed.body.code)
  {
    match reply
    case FetchFailed(reason) => Thrown(reason, None)
    case Responded(_, Unreadable(_)) => Thrown(ParseFailureMessage, None)
    case Responded(ok, Json(body)) =>
      if ok then Success(body) else Thrown(OrElse(body.message, "Login failed"), body.code)
  }

  /**
   * The password-reset handler: a parse failure is rewritten, and a refusal
   * reports `message`, else `error`, else a fixed text.
   */
  function ResetOutcome(reply: Reply): (o: Outcome)
    ensures o.Success? <==> Accepted(reply)
    ensures o.Success? ==> o.body == reply.parsed.body
    ensures o.Thrown? ==> o.code.None?
    ensures reply.FetchFailed? ==> o == Thrown(reply.reason, None)
    ensures reply.Responded? && reply.parsed.Unreadable? ==> o == Thrown(ParseFailureMessage, None)
    ensures reply.Responded? && !reply.ok && reply.parsed.Json? ==>
              o == Thrown(OrElse(reply.parsed.body.message, OrElse(reply.parsed.body.error, "Failed to reset password")), None)
  {
    match reply
    case FetchFailed(reason) => Thrown(reason, None)
    case Responded(_, Unreadable(_)) => Thrown(ParseFailureMessage, None)
    case Responded(ok, Json(body)) =>
      if ok then Success(body)
      else Thrown(OrElse(body.message, OrElse(body.error, "Failed to reset password")), None)
  }
}
