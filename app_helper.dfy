/**
 * `AppHelper` (helper/app): the response envelopes and session issuance of the modular code path.
 * Writing to the Express response is replaced by returning what would be written.
 */
module AppHelper {
  import opened Wrappers
  import opened Crypto
  import opened Users

  const DayMillis := 24 * 60 * 60 * 1000

  /** The environment the helpers read: `NODE_ENV == "production"`, `COOKIE_EXPIRES` (days), `JWT_EXPIRES` (ms). */
  datatype Env = Env(production: bool, cookieExpiresDays: int, jwtExpires: int)

  /** A response's `data`: `{ user }`, or a session's `{ ...user._doc, access_token }`. */
  datatype Payload =
    | UserPayload(user: Option<UserRecord>)
    | SessionPayload(fields: Option<UserRecord>, accessToken: Option<Jwt>)

  datatype Envelope = Envelope(success: bool, statusCode: int, message: string, data: Option<Payload>)

  /** `if (user && user.password) user.password = undefined`. */
  function Blank(user: Option<UserRecord>): (b: Option<UserRecord>)
    ensures b.Some? <==> user.Some?
    ensures b.Some? ==> b.value.password.None? && b.value.(password := user.value.password) == user.value
  {
    if user.Some? then Some(user.value.(password := None)) else None
  }

  /** No user inside the payload carries a password. */
  predicate PasswordFree(data: Option<Payload>) {
    data.Some? ==>
      match data.value
      case UserPayload(u) => u.Some? ==> u.value.password.None?
      case SessionPayload(u, _) => u.Some? ==> u.value.password.None?
  }

  /** `success(res, code, message, data)`: blanks `data.user.password` and changes nothing else. */
  function Success(code: int, message: string, data: Option<Payload>): (e: Envelope)
    ensures e.success && e.statusCode == code && e.message == message
    ensures e.data.Some? <==> data.Some?
    ensures data.Some? && data.value.UserPayload? ==>
              e.data.value.UserPayload? && PasswordFree(e.data) &&
              (e.data.value.user.Some? <==> data.value.user.Some?) &&
              (e.data.value.user.Some? ==> e.data.value.user.value.(password := data.value.user.value.password) == data.value.user.value)
    ensures data.Some? && data.value.SessionPayload? ==> e.data == data
  {
    match data
    case Some(UserPayload(u)) => Envelope(true, code, message, Some(UserPayload(Blank(u))))
    case _ => Envelope(true, code, message, data)
  }

  /** `error(res, code, message)`: a failure envelope never carries data. */
  function Error(code: int, message: string): (e: Envelope)
    ensures !e.success && e.statusCode == code && e.message == message && e.data.None?
  {
    Envelope(false, code, message, None)
  }

  datatype CookieOptions = CookieOptions(httpOnly: bool, secure: bool, sameSite: string, expires: int)

  /** The `access_token` cookie options; a cross-site (`none`) cookie is always `secure`. */
  function CookieOptionsFor(env: Env, now: int): (o: CookieOptions)
    ensures o.httpOnly
    ensures o.secure <==> env.production
    ensures o.sameSite == "none" <==> env.production
    ensures o.sameSite == "none" || o.sameSite == "lax"
    ensures o.sameSite == "none" ==> o.secure
    ensures o.expires - now == env.cookieExpiresDays * 86_400_000
  {
    CookieOptions(true, env.production, if env.production then "none" else "lax", now + env.cookieExpiresDays * DayMillis)
  }

  datatype Cookie = Cookie(name: string, value: Option<Jwt>, options: CookieOptions)

  datatype TokenResponse = TokenResponse(status: int, cookie: Cookie, body: Envelope)

  /** `user?.generateToken?.()`: a token for the user's id, taken before the password is blanked. */
  function SessionToken(user: Option<UserRecord>, env: Env, now: int): (t: Option<Jwt>)
    ensures t.Some? <==> user.Some?
    ensures t.Some? ==> t.value.claims.userId == user.value.userId
    ensures t.Some? ==> forall later :: now <= later < now + env.jwtExpires ==> Verify(t.value, later).Ok?
  {
    if user.Some? then Some(Sign(user.value.userId, now, env.jwtExpires)) else None
  }

  /**
   * `sendToken(res, code, message, user)`: sets the `access_token` cookie to a fresh token for the user
   * and answers with the user's fields, without the password, plus `access_token`.
   */
  function SendToken(code: int, message: string, user: Option<UserRecord>, env: Env, now: int): (r: TokenResponse)
    ensures r.status == code && r.body.statusCode == code && r.body.success && r.body.message == message
    ensures r.cookie.name == "access_token" && r.cookie.options == CookieOptionsFor(env, now)
    ensures r.cookie.value == SessionToken(user, env, now)
    ensures r.body.data == Some(SessionPayload(Blank(user), r.cookie.value))
    ensures PasswordFree(r.body.data)
  {
    var token := SessionToken(user, env, now);
    TokenResponse(code, Cookie("access_token", token, CookieOptionsFor(env, now)),
                  Envelope(true, code, message, Some(SessionPayload(Blank(user), token))))
  }

  /** `optionalGenerator(first, last)`: the full name, from which both parts can be cut back out. */
  function OptionalGenerator(first: string, last: string): (full: string)
    ensures |full| == |first| + 1 + |last|
    ensures full[..|first|] == first && full[|first|] == ' ' && full[|first| + 1..] == last
  {
    first + " " + last
  }
}
