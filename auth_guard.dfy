/**
 * `authenticateUser` (middleware/auth): the cache-less route guard of the legacy routes. It reads
 * the `access_token` cookie, verifies it, looks the user up on every request, and either answers
 * 401 or attaches the user to the request and calls `next` once.
 */
module AuthGuard {
  import opened Wrappers
  import opened Crypto
  import opened Users
  import AppHelper
  import SendToken
  import LegacyUsers

  const NoCookie := "Unauthorized access."
  const NoSuchUser := "User not found."
  const BadToken := "Invalid or expired token."

  /** Either the request proceeds with this user, or it is answered with a status and message. */
  datatype Gate = Next(user: UserRecord) | Deny(status: int, message: string)

  /** The guard's decision for a request carrying `cookie` (absent or empty is `None`). */
  function AuthenticateUserStep(docs: seq<UserRecord>, cookie: Option<Jwt>, now: int): (g: Gate)
    ensures cookie.None? ==> g == Deny(401, NoCookie)
    ensures cookie.Some? && Verify(cookie.value, now).Err? ==> g == Deny(401, BadToken)
    ensures cookie.Some? && Verify(cookie.value, now).Ok? && FindOne(docs, ById(cookie.value.claims.userId)).None? ==>
              g == Deny(401, NoSuchUser)
    ensures g.Next? <==>
              cookie.Some? && Verify(cookie.value, now).Ok? && FindOne(docs, ById(cookie.value.claims.userId)).Some?
    ensures g.Next? ==> g.user == Projected(docs[FindOne(docs, ById(cookie.value.claims.userId)).value])
    ensures g.Deny? ==> g.status == 401 && |g.message| > 0 && g.message[|g.message| - 1] == '.'
  {
    if cookie.None? then Deny(401, NoCookie)
    else match Verify(cookie.value, now)
      case Err(_) => Deny(401, BadToken)
      case Ok(claims) =>
        match FindOne(docs, ById(claims.userId))
        case None => Deny(401, NoSuchUser)
        case Some(i) => Next(Projected(docs[i]))
  }

  /** The parts of an Express request the guards read and write. */
  class Request {
    const cookie: Option<Jwt>
    var user: Option<UserRecord>
    /** How many times `next` has been called for this request. */
    var nextCalls: nat

    constructor (cookie: Option<Jwt>)
      ensures this.cookie == cookie && user.None? && nextCalls == 0
    {
      this.cookie := cookie;
      user := None;
      nextCalls := 0;
    }
  }

  /** Runs the guard on `req`: either answers (and leaves `req` alone) or attaches the user and calls `next` once. */
  method AuthenticateUser(req: Request, users: UserCollection, now: int) returns (answer: Option<LegacyUsers.Reply>)
    modifies req
    ensures match AuthenticateUserStep(users.docs, req.cookie, now)
            case Next(u) => req.user == Some(u) && req.nextCalls == old(req.nextCalls) + 1 && answer.None?
            case Deny(s, m) =>
              req.user == old(req.user) && req.nextCalls == old(req.nextCalls) && answer == Some(LegacyUsers.Negative(s, m))
  {
    if req.cookie.None? {
      return Some(LegacyUsers.Negative(401, NoCookie));
    }
    var decoded := Verify(req.cookie.value, now);
    if decoded.Err? {
      return Some(LegacyUsers.Negative(401, BadToken));
    }
    var found := FindOne(users.docs, ById(decoded.value.userId));
    if found.None? {
      return Some(LegacyUsers.Negative(401, NoSuchUser));
    }
    req.user := Some(Projected(users.docs[found.value]));
    req.nextCalls := req.nextCalls + 1;
    answer := None;
  }

  /**
   * The cookie a sign-up or login sets lets its holder through the guard, as that same account,
   * for the whole lifetime of the token.
   */
  lemma SessionPassesGuard(docs: seq<UserRecord>, i: nat, code: int, message: string, env: AppHelper.Env,
                           issuedAt: int, later: int)
    requires IdsUnique(docs) && i < |docs|
    requires issuedAt <= later < issuedAt + env.jwtExpires
    ensures var session := SendToken.SendToken(code, message, Some(docs[i]), env, issuedAt);
            AuthenticateUserStep(docs, session.cookie.value, later) == Next(Projected(docs[i]))
  {
    FindById(docs, i);
  }

  /** Once the token has expired the same cookie is refused, whatever the store holds. */
  lemma ExpiredSessionDenied(docs: seq<UserRecord>, user: UserRecord, code: int, message: string, env: AppHelper.Env,
                             issuedAt: int, later: int)
    requires later >= issuedAt + env.jwtExpires
    ensures var session := SendToken.SendToken(code, message, Some(user), env, issuedAt);
            AuthenticateUserStep(docs, session.cookie.value, later) == Deny(401, BadToken)
  {
  }
}
