/**
 * Stand-ins for the two foreign primitives the core relies on: bcrypt and jsonwebtoken.
 * Both are symbolic: a digest is a term over the password, a token is a term over its claims.
 */
module Crypto {
  import opened Wrappers
  import opened Decimal

  /** A bcrypt digest, as an ideal hash: equal digests come from equal passwords; the salt is not modelled. */
  datatype PasswordHash = Digest(of: string)

  /** `bcrypt.hash(password, 10)`. */
  function Hash(plain: string): PasswordHash {
    Digest(plain)
  }

  /** `bcrypt.compare(plain, hashed)`. */
  predicate Compare(plain: string, hashed: PasswordHash) {
    hashed == Hash(plain)
  }

  /** What bcrypt throws for a missing plaintext, and for a missing plaintext or digest in a comparison. */
  const NoPlaintext := "data and salt arguments required"
  const NoDigest := "data and hash arguments required"

  /** `bcrypt.hash(plain, 10)` on a request field that may be absent. */
  function HashPassword(plain: Option<string>): (r: Result<PasswordHash>)
    ensures r.Ok? <==> plain.Some?
    ensures r.Ok? ==> Compare(plain.value, r.value)
    ensures r.Err? ==> r.message == NoPlaintext
  {
    if plain.None? then Err(NoPlaintext) else Ok(Hash(plain.value))
  }

  /** `bcrypt.compare(plain, hashed)` where either side may be absent (a document read without its password). */
  function CheckPassword(plain: Option<string>, stored: Option<PasswordHash>): (r: Result<bool>)
    ensures r.Ok? <==> plain.Some? && stored.Some?
    ensures r.Ok? ==> (r.value <==> Compare(plain.value, stored.value))
    ensures r.Err? ==> r.message == NoDigest
  {
    if plain.None? || stored.None? then Err(NoDigest) else Ok(Compare(plain.value, stored.value))
  }

  /** The payload `{ user_id }` together with the `exp` claim that `expiresIn` adds (milliseconds here). */
  datatype Claims = Claims(userId: string, expiresAt: int)

  /** A presented token: its claims, and whether its signature checks against `JWT_SECRET`. */
  datatype Jwt = Jwt(claims: Claims, signedWithSecret: bool)

  /** `jwt.sign({ user_id }, JWT_SECRET, { expiresIn })` issued at `now`. */
  function Sign(userId: string, now: int, lifetime: int): Jwt {
    Jwt(Claims(userId, now + lifetime), true)
  }

  /** `jwt.verify(token, JWT_SECRET)`: the claims, or the error it throws. */
  function Verify(token: Jwt, now: int): Result<Claims> {
    if !token.signedWithSecret then Err("invalid signature")
    else if now >= token.claims.expiresAt then Err("jwt expired")
    else Ok(token.claims)
  }

  /** A signed token verifies to its own user id exactly while it has not expired. */
  lemma VerifySigned(userId: string, issuedAt: int, lifetime: int, now: int)
    ensures Verify(Sign(userId, issuedAt, lifetime), now).Ok? <==> now < issuedAt + lifetime
    ensures Verify(Sign(userId, issuedAt, lifetime), now).Ok? ==>
              Verify(Sign(userId, issuedAt, lifetime), now).value.userId == userId
  {
  }

  /** Stand-in for the token's compact serialisation, used only where a token is written into a URL. */
  function Compact(token: Jwt): string {
    "jwt:" + Show(token.claims.expiresAt) + ":" + token.claims.userId
  }
}
