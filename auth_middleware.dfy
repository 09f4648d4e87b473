/**
 * `AuthMiddleware.authenticateUser` (middleware/authMiddleware): the guard of the modular routes.
 * It keeps a process-wide map from user id to the user looked up and the instant that lookup
 * stops being trusted; a live entry spares the store lookup, and entries are never removed.
 */
module CachedAuth {
  import opened Wrappers
  import opened Crypto
  import opened Users
  import AppHelper
  import AuthGuard

  /** `10 * 60 * 1000`: how long a looked-up user is served from the cache. */
  const TenMinutes := 10 * 60 * 1000

  const NoCookie := "Unauthorized access"
  const NoSuchUser := "User not found"
  const BadToken := "Invalid or expired token"

  datatype CacheEntry = CacheEntry(user: UserRecord, expires: int)

  type Cache = map<UserId, CacheEntry>

  /** `cached && cached.expires > Date.now()`. */
  predicate Live(cache: Cache, id: UserId, now: int) {
    id in cache && cache[id].expires > now
  }

  /** Either the request proceeds with this user, or it is answered with `AppHelper.error`'s envelope. */
  datatype Outcome = Proceed(user: UserRecord) | Reject(body: AppHelper.Envelope)

  datatype Checked = Checked(outcome: Outcome, cache: Cache)

  /** The decision for one request, and the cache after it. */
  function AuthenticateStep(cache: Cache, docs: seq<UserRecord>, cookie: Option<Jwt>, now: int): (c: Checked)
    ensures cookie.None? ==> c == Checked(Reject(AppHelper.Error(401, NoCookie)), cache)
    ensures cookie.Some? && Verify(cookie.value, now).Err? ==> c == Checked(Reject(AppHelper.Error(401, BadToken)), cache)
    ensures c.outcome.Reject? ==> c.cache == cache && c.outcome.body.statusCode == 401 && !c.outcome.body.success
    ensures cookie.Some? && Verify(cookie.value, now).Ok? && Live(cache, cookie.value.claims.userId, now) ==>
              c == Checked(Proceed(cache[cookie.value.claims.userId].user), cache)
    ensures (cookie.Some? && Verify(cookie.value, now).Ok? && !Live(cache, cookie.value.claims.userId, now) &&
             FindOne(docs, ById(cookie.value.claims.userId)).None?)
              ==> c == Checked(Reject(AppHelper.Error(401, NoSuchUser)), cache)
    ensures (cookie.Some? && Verify(cookie.value, now).Ok? && !Live(cache, cookie.value.claims.userId, now) &&
             FindOne(docs, ById(cookie.value.claims.userId)).Some?)
              ==> var user := Projected(docs[FindOne(docs, ById(cookie.value.claims.userId)).value]);
                  c == Checked(Proceed(user), cache[cookie.value.claims.userId := CacheEntry(user, now + TenMinutes)])
    // entries are only ever added or overwritten, and only the requesting user's
    ensures cache.Keys <= c.cache.Keys
    ensures c.cache != cache ==>
              && cookie.Some? && c.outcome.Proceed?
              && c.cache == cache[cookie.value.claims.userId := CacheEntry(c.outcome.user, now + TenMinutes)]
  {
    if cookie.None? then Checked(Reject(AppHelper.Error(401, NoCookie)), cache)
    else match Verify(cookie.value, now)
      case Err(_) => Checked(Reject(AppHelper.Error(401, BadToken)), cache)
      case Ok(claims) =>
        if Live(cache, claims.userId, now) then Checked(Proceed(cache[claims.userId].user), cache)
        else match FindOne(docs, ById(claims.userId))
          case None => Checked(Reject(AppHelper.Error(401, NoSuchUser)), cache)
          case Some(i) =>
            var user := Projected(docs[i]);
            Checked(Proceed(user), cache[claims.userId := CacheEntry(user, now + TenMinutes)])
  }

  /** The middleware, with the module-level `userCache` as its one field. */
  class AuthMiddleware {
    var userCache: Cache
    const users: UserCollection

    constructor (users: UserCollection)
      ensures this.users == users && userCache == map[]
    {
      this.users := users;
      userCache := map[];
    }

    method AuthenticateUser(req: AuthGuard.Request, now: int) returns (answer: Option<AppHelper.Envelope>)
      modifies this, req
      ensures var c := AuthenticateStep(old(userCache), users.docs, req.cookie, now);
              && userCache == c.cache
              && match c.outcome
                 case Proceed(u) => req.user == Some(u) && req.nextCalls == old(req.nextCalls) + 1 && answer.None?
                 case Reject(e) => req.user == old(req.user) && req.nextCalls == old(req.nextCalls) && answer == Some(e)
    {
      if req.cookie.None? {
        return Some(AppHelper.Error(401, NoCookie));
      }
      var decoded := Verify(req.cookie.value, now);
      if decoded.Err? {
        return Some(AppHelper.Error(401, BadToken));
      }
      var id := decoded.value.userId;
      if id in userCache && userCache[id].expires > now {
        req.user := Some(userCache[id].user);
        req.nextCalls := req.nextCalls + 1;
        return None;
      }
      var found := FindOne(users.docs, ById(id));
      if found.None? {
        return Some(AppHelper.Error(401, NoSuchUser));
      }
      var user := Projected(users.docs[found.value]);
      userCache := userCache[id := CacheEntry(user, now + TenMinutes)];
      req.user := Some(user);
      req.nextCalls := req.nextCalls + 1;
      answer := None;
    }
  }

  // ---------------------------------------------------------------------------------------------
  // Properties of the cache

  /** A live entry answers without the store: any two stores give the same decision and cache. */
  lemma HitIgnoresStore(cache: Cache, a: seq<UserRecord>, b: seq<UserRecord>, token: Jwt, now: int)
    requires Verify(token, now).Ok? && Live(cache, token.claims.userId, now)
    ensures AuthenticateStep(cache, a, Some(token), now) == AuthenticateStep(cache, b, Some(token), now)
  {
  }

  /**
   * After a lookup, the same token is served from the cache for ten minutes, whatever the store
   * then holds: a profile or password change in between is not seen until the entry expires.
   */
  lemma RefillThenHit(cache: Cache, docs: seq<UserRecord>, token: Jwt, now: int, later: int, changed: seq<UserRecord>)
    requires !Live(cache, token.claims.userId, now) && AuthenticateStep(cache, docs, Some(token), now).outcome.Proceed?
    requires now <= later < now + TenMinutes && Verify(token, later).Ok?
    ensures var c := AuthenticateStep(cache, docs, Some(token), now);
            AuthenticateStep(c.cache, changed, Some(token), later) == Checked(c.outcome, c.cache)
  {
  }

  /** Entries are never evicted: a request that rejects or hits leaves even expired entries in place. */
  lemma EntriesPersist(cache: Cache, docs: seq<UserRecord>, cookie: Option<Jwt>, now: int, id: UserId)
    requires id in cache
    requires cookie.Some? ==> cookie.value.claims.userId != id
    ensures var c := AuthenticateStep(cache, docs, cookie, now);
            id in c.cache && c.cache[id] == cache[id]
  {
  }

  /**
   * Without a live entry the cached middleware decides as the cache-less guard does, with the
   * same status and the guard's message minus its final full stop.
   */
  lemma ColdAgreesWithGuard(cache: Cache, docs: seq<UserRecord>, cookie: Option<Jwt>, now: int)
    requires cookie.Some? ==> !Live(cache, cookie.value.claims.userId, now)
    ensures var g := AuthGuard.AuthenticateUserStep(docs, cookie, now);
            var c := AuthenticateStep(cache, docs, cookie, now);
            match g
            case Next(u) => c.outcome == Proceed(u)
            case Deny(s, m) => c.outcome == Reject(AppHelper.Error(s, m[..|m| - 1]))
  {
  }
}
