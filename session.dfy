/**
 * The browser's `auth-token` slot in local storage, and the login page's
 * `checkAuth` helper that asks the server whether the stored token is still good.
 */
module Session {
  import opened Wrappers
  import opened Http

  /** The single local-storage entry both pages use. */
  class TokenStore {
    var authToken: Option<string>

    constructor()
      ensures authToken == None
    {
      authToken := None;
    }

    /** `localStorage.setItem('auth-token', token)`. */
    method Save(token: string)
      modifies this
      ensures authToken == Some(token)
    {
      authToken := Some(token);
    }

    /** `localStorage.removeItem('auth-token')`. */
    method Remove()
      modifies this
      ensures authToken == None
    {
      authToken := None;
    }
  }

  /** `if (!token)`: an empty stored token counts as no token. */
  predicate HasToken(slot: Option<string>)
  {
    Truthy(slot)
  }

  /**
   * `checkAuth()`: the user of an `ok` verification reply whose body parsed, and
   * null in every other case. It has no error path of its own (everything is
   * caught) and it never touches the stored token.
   */
  function CheckAuth(slot: Option<string>, reply: Reply): (user: Option<UserInfo>)
    ensures user.Some? <==> HasToken(slot) && Accepted(reply) && reply.parsed.body.user.Some?
    ensures user.Some? ==> user == reply.parsed.body.user
  {
    if !HasToken(slot) then None
    else if reply.Responded? && reply.ok then
      match reply.parsed
      case Unreadable(_) => None
      case Json(body) => body.user
    else None
  }
}
