/**
 * `AuthService` (module/v1/auth/service): sign-up, login, and the one-time-code lifecycle on a
 * user document. Each operation is a pure step function over the collection (`...Step`), and the
 * class `AuthService` performs it in place on a `UserCollection`, proved equal to its step.
 */
module Auth {
  import opened Wrappers
  import opened Crypto
  import opened Users
  import opened EmailHelper
  import AppHelper

  /** `3 * 60 * 60 * 1000`: the life of a mailed code and of a stored reset token. */
  const ThreeHours := 3 * 60 * 60 * 1000

  const MissingFields := "Please provide all required fields."
  const EmailTaken := "User already exists with same email."
  const DuplicateId := "E11000 duplicate key error"
  const InvalidLogin := "Provided credentials are Invalid."
  const MissingEmail := "Please provide email address"
  const UnknownEmail := "Invalid credentials"
  const BadCode := "Invalid or expired code"
  const LinkNotSent := "Failed to send reset password link"
  const UserNotFound := "User not found"
  /** What jsonwebtoken throws for an empty token. */
  const NoToken := "jwt must be provided"

  datatype SignupInput = SignupInput(firstName: Option<string>, lastName: Option<string>,
                                     email: Option<string>, password: Option<string>)

  datatype LoginInput = LoginInput(email: Option<string>, password: Option<string>)

  /** The result of one operation, the collection after it, and the mail it handed to the provider. */
  datatype Step<T> = Step(result: Result<T>, docs: seq<UserRecord>, sent: Option<Message>)

  predicate SignupComplete(input: SignupInput) {
    Truthy(input.firstName) && Truthy(input.lastName) && Truthy(input.email) && Truthy(input.password)
  }

  /** The document `UserModel.create` stores for a new account. */
  function NewUser(id: UserId, first: string, last: string, email: string, password: string, now: int): UserRecord {
    UserRecord(id, first, last, Some(AppHelper.OptionalGenerator(first, last)), None, email, None, [],
               Some(Hash(password)), None, NoAvatar, EmptyCode, EmptyCode, EmptyToken, now, now)
  }

  /** `signup(data)` with `newId` the uuid drawn for the account. */
  function SignupStep(docs: seq<UserRecord>, input: SignupInput, newId: UserId, now: int): (s: Step<UserRecord>)
    ensures s.sent.None?
    ensures !SignupComplete(input) ==> s.result == Err(MissingFields)
    ensures s.result.Ok? <==>
              SignupComplete(input) && FindOne(docs, ByEmail(input.email.value)).None? && FindOne(docs, ById(newId)).None?
    ensures SignupComplete(input) && FindOne(docs, ByEmail(input.email.value)).Some? ==> s.result == Err(EmailTaken)
    ensures s.result.Err? ==> s.docs == docs
    ensures s.result.Ok? ==> s.docs == docs + [s.result.value]
    ensures s.result.Ok? ==>
              && s.result.value.userId == newId
              && s.result.value.email == input.email.value
              && s.result.value.fullName == Some(input.firstName.value + " " + input.lastName.value)
              && s.result.value.password == Some(Hash(input.password.value))
              && s.result.value.verification == EmptyCode && s.result.value.signIn == EmptyCode
              && s.result.value.reset == EmptyToken
  {
    if !SignupComplete(input) then Step(Err(MissingFields), docs, None)
    else if FindOne(docs, ByEmail(input.email.value)).Some? then Step(Err(EmailTaken), docs, None)
    else if FindOne(docs, ById(newId)).Some? then Step(Err(DuplicateId), docs, None)
    else
      var user := NewUser(newId, input.firstName.value, input.lastName.value, input.email.value, input.password.value, now);
      Step(Ok(user), docs + [user], None)
  }

  predicate LoginComplete(input: LoginInput) {
    Truthy(input.email) && Truthy(input.password)
  }

  /** `login(data)`: reads only; the same message for an unknown email and for a wrong password. */
  function LoginStep(docs: seq<UserRecord>, input: LoginInput): (r: Result<UserRecord>)
    ensures !LoginComplete(input) ==> r == Err(MissingFields)
    ensures r.Ok? <==>
              LoginComplete(input) && FindOne(docs, ByEmail(input.email.value)).Some? &&
              CheckPassword(input.password, docs[FindOne(docs, ByEmail(input.email.value)).value].password) == Ok(true)
    ensures r.Ok? ==> r.value == docs[FindOne(docs, ByEmail(input.email.value)).value]
    ensures r.Err? && LoginComplete(input) && PasswordsPresent(docs) ==> r.message == InvalidLogin
  {
    if !LoginComplete(input) then Err(MissingFields)
    else match FindOne(docs, ByEmail(input.email.value))
      case None => Err(InvalidLogin)
      case Some(i) =>
        match CheckPassword(input.password, docs[i].password)
        case Err(m) => Err(m)
        case Ok(valid) => if valid then Ok(docs[i]) else Err(InvalidLogin)
  }

  function MailTypeOf(slot: OtpSlot): MailType {
    match slot
    case VerificationSlot => VerificationCode
    case SignInSlot => SignInCode
  }

  function NotSent(slot: OtpSlot): string {
    match slot
    case VerificationSlot => "Failed to send verification code"
    case SignInSlot => "Failed to send sign in code"
  }

  /**
   * `sendForgotPasswordCode(email)` (slot `VerificationSlot`) and `sendSignInCode(email)` (slot
   * `SignInSlot`): mail a fresh code and persist it, with a three-hour expiry, only once the
   * provider confirmed the send with an id.
   */
  function SendCodeStep(docs: seq<UserRecord>, slot: OtpSlot, email: Option<string>, draw: int,
                        reply: ProviderReply, now: int): (s: Step<bool>)
    requires 0 <= draw < 900000
    ensures !Truthy(email) ==> s.result == Err(MissingEmail)
    ensures Truthy(email) && FindOne(docs, ByEmail(email.value)).None? ==> s.result == Err(UnknownEmail)
    ensures s.sent.Some? <==> Truthy(email) && FindOne(docs, ByEmail(email.value)).Some?
    ensures s.result.Ok? <==> s.sent.Some? && reply.error.None? && Confirmed(reply.data)
    ensures s.result.Err? ==> s.docs == docs
    ensures s.result.Ok? ==>
              var i := FindOne(docs, ByEmail(email.value)).value;
              && s.sent.Some?
              && CodeInText(MailTypeOf(slot), s.sent.value.text).Some?
              && var code := CodeInText(MailTypeOf(slot), s.sent.value.text).value;
                 && 100000 <= code <= 999999
                 && s.docs == docs[i := WithSlot(docs[i], slot, CodeSlot(Some(code), Some(now + ThreeHours))).(updatedAt := now)]
  {
    if !Truthy(email) then Step(Err(MissingEmail), docs, None)
    else match FindOne(docs, ByEmail(email.value))
      case None => Step(Err(UnknownEmail), docs, None)
      case Some(i) =>
        var out := SendOtp(MailTypeOf(slot), docs[i].email, draw, reply);
        if out.result.Err? then Step(Err(out.result.message), docs, Some(out.message))
        else if !Confirmed(out.result.value) then Step(Err(NotSent(slot)), docs, Some(out.message))
        else
          var updated := WithSlot(docs[i], slot, CodeSlot(Some(out.value), Some(now + ThreeHours))).(updatedAt := now);
          Step(Ok(true), docs[i := updated], Some(out.message))
  }

  /**
   * `verifyForgotPasswordCode(email, code)`: on a live matching code, mail the reset link and only
   * then clear the code and store the token with a three-hour expiry.
   */
  function VerifyForgotStep(docs: seq<UserRecord>, email: Option<string>, code: Submitted, reply: ProviderReply,
                            now: int, lifetime: int): (s: Step<Jwt>)
    ensures FindOne(docs, EmailFilter(email)).None? ==> s.result == Err(UnknownEmail)
    ensures (FindOne(docs, EmailFilter(email)).Some? &&
             !CodeAccepted(docs[FindOne(docs, EmailFilter(email)).value].verification, code, now))
              ==> s.result == Err(BadCode)
    ensures s.result.Ok? <==>
              FindOne(docs, EmailFilter(email)).Some? &&
              CodeAccepted(docs[FindOne(docs, EmailFilter(email)).value].verification, code, now) &&
              reply.error.None? && Confirmed(reply.data)
    ensures s.result.Err? ==> s.docs == docs
    ensures s.result.Ok? ==>
              var i := FindOne(docs, EmailFilter(email)).value;
              && s.result.value.claims.userId == docs[i].userId
              && s.docs == docs[i := docs[i].(verification := EmptyCode,
                                                reset := TokenSlot(Some(s.result.value), Some(now + ThreeHours)),
                                                updatedAt := now)]
              && s.sent.Some? && UrlInText(ResetLink, s.sent.value.text) == Some(ResetUrl(s.result.value))
  {
    match FindOne(docs, EmailFilter(email))
    case None => Step(Err(UnknownEmail), docs, None)
    case Some(i) =>
      if !CodeAccepted(docs[i].verification, code, now) then Step(Err(BadCode), docs, None)
      else
        var out := SendLink(docs[i].userId, docs[i].email, now, lifetime, reply);
        if out.result.Err? then Step(Err(out.result.message), docs, Some(out.message))
        else if !Confirmed(out.result.value) then Step(Err(LinkNotSent), docs, Some(out.message))
        else
          var updated := docs[i].(verification := EmptyCode,
                                  reset := TokenSlot(Some(out.value), Some(now + ThreeHours)),
                                  updatedAt := now);
          Step(Ok(out.value), docs[i := updated], Some(out.message))
  }

  /** `verifySignInCode(email, code)`: on a live matching code, clear it and return the user as read. */
  function VerifySignInStep(docs: seq<UserRecord>, email: Option<string>, code: Submitted, now: int): (s: Step<UserRecord>)
    ensures s.sent.None?
    ensures FindOne(docs, EmailFilter(email)).None? ==> s.result == Err(UnknownEmail)
    ensures s.result.Ok? <==>
              FindOne(docs, EmailFilter(email)).Some? && CodeAccepted(docs[FindOne(docs, EmailFilter(email)).value].signIn, code, now)
    ensures FindOne(docs, EmailFilter(email)).Some? && !s.result.Ok? ==> s.result == Err(BadCode)
    ensures s.result.Err? ==> s.docs == docs
    ensures s.result.Ok? ==>
              var i := FindOne(docs, EmailFilter(email)).value;
              && s.result.value == Projected(docs[i])
              && s.docs == docs[i := docs[i].(signIn := EmptyCode, updatedAt := now)]
  {
    match FindOne(docs, EmailFilter(email))
    case None => Step(Err(UnknownEmail), docs, None)
    case Some(i) =>
      if !CodeAccepted(docs[i].signIn, code, now) then Step(Err(BadCode), docs, None)
      else Step(Ok(Projected(docs[i])), docs[i := docs[i].(signIn := EmptyCode, updatedAt := now)], None)
  }

  /**
   * `resetPassword(token, newPassword)` as written: the token's own signature and expiry are the
   * only check; the stored `resetPasswordToken` is cleared but never compared.
   */
  function ResetPasswordStep(docs: seq<UserRecord>, token: Option<Jwt>, newPassword: Option<string>, now: int)
    : (s: Step<Option<UserRecord>>)
    ensures s.sent.None?
    ensures s.result.Ok? <==> token.Some? && Verify(token.value, now).Ok? && newPassword.Some?
    ensures s.result.Err? ==> s.docs == docs
    ensures s.result.Ok? ==>
              match FindOne(docs, ById(token.value.claims.userId))
              case None => s.result.value.None? && s.docs == docs
              case Some(i) =>
                && s.result.value == Some(Projected(docs[i]))
                && s.docs == docs[i := docs[i].(reset := EmptyToken, password := Some(Hash(newPassword.value)), updatedAt := now)]
  {
    if token.None? then Step(Err(NoToken), docs, None)
    else match Verify(token.value, now)
      case Err(m) => Step(Err(m), docs, None)
      case Ok(claims) =>
        if newPassword.None? then Step(Err(NoPlaintext), docs, None)
        else match FindOne(docs, ById(claims.userId))
          case None => Step(Ok(None), docs, None)
          case Some(i) =>
            var updated := docs[i].(reset := EmptyToken, password := Some(Hash(newPassword.value)), updatedAt := now);
            Step(Ok(Some(Projected(docs[i]))), docs[i := updated], None)
  }

  /** The reset the stored slot implies: the presented token must be the stored one, and still live. */
  predicate ResetTokenLive(r: UserRecord, token: Jwt, now: int) {
    r.reset.token == Some(token) && r.reset.expiresAt.Some? && now < r.reset.expiresAt.value
  }

  const ResetTokenUsed := "Invalid or expired reset token"

  /** `resetPassword` corrected: it also requires the stored reset token to match and be live. */
  function ResetPasswordOnceStep(docs: seq<UserRecord>, token: Option<Jwt>, newPassword: Option<string>, now: int)
    : (s: Step<Option<UserRecord>>)
    ensures s.sent.None?
    ensures s.result.Ok? <==>
              token.Some? && Verify(token.value, now).Ok? && newPassword.Some? &&
              match FindOne(docs, ById(token.value.claims.userId))
              case None => true
              case Some(i) => ResetTokenLive(docs[i], token.value, now)
    ensures s.result.Err? ==> s.docs == docs
    ensures s.result.Ok? ==>
              match FindOne(docs, ById(token.value.claims.userId))
              case None => s.result.value.None? && s.docs == docs
              case Some(i) =>
                && s.result.value == Some(Projected(docs[i]))
                && s.docs == docs[i := docs[i].(reset := EmptyToken, password := Some(Hash(newPassword.value)), updatedAt := now)]
  {
    if token.None? then Step(Err(NoToken), docs, None)
    else match Verify(token.value, now)
      case Err(m) => Step(Err(m), docs, None)
      case Ok(claims) =>
        if newPassword.None? then Step(Err(NoPlaintext), docs, None)
        else match FindOne(docs, ById(claims.userId))
          case None => Step(Ok(None), docs, None)
          case Some(i) =>
            if !ResetTokenLive(docs[i], token.value, now) then Step(Err(ResetTokenUsed), docs, None)
            else
              var updated := docs[i].(reset := EmptyToken, password := Some(Hash(newPassword.value)), updatedAt := now);
              Step(Ok(Some(Projected(docs[i]))), docs[i := updated], None)
  }

  /** `getUser(userId)`. */
  function GetUserStep(docs: seq<UserRecord>, userId: UserId): (r: Result<UserRecord>)
    ensures r.Err? <==> FindOne(docs, ById(userId)).None?
    ensures r.Err? ==> r.message == UserNotFound
    ensures r.Ok? ==> r.value.userId == userId && r.value.password.None?
    ensures r.Ok? ==> r.value == Projected(docs[FindOne(docs, ById(userId)).value])
  {
    match FindOne(docs, ById(userId))
    case None => Err(UserNotFound)
    case Some(i) => Ok(Projected(docs[i]))
  }

  // ---------------------------------------------------------------------------------------------
  // The lifecycle, across operations

  /** Sign-up keeps ids unique, emails unique and every document's digest present. */
  lemma SignupPreservesInvariants(docs: seq<UserRecord>, input: SignupInput, newId: UserId, now: int)
    requires IdsUnique(docs) && PasswordsPresent(docs)
    ensures IdsUnique(SignupStep(docs, input, newId, now).docs)
    ensures PasswordsPresent(SignupStep(docs, input, newId, now).docs)
    ensures EmailsUnique(docs) ==> EmailsUnique(SignupStep(docs, input, newId, now).docs)
  {
    var s := SignupStep(docs, input, newId, now);
    if s.result.Ok? {
      var u := s.result.value;
      assert forall j :: 0 <= j < |docs| ==> !Matches(docs[j], ById(newId)) && !Matches(docs[j], ByEmail(u.email));
      assert forall j :: 0 <= j < |docs| ==> s.docs[j] == docs[j];
    }
  }

  /** The account a sign-up creates is the one `getUser` then returns for its id, without the password. */
  lemma SignupThenGetUser(docs: seq<UserRecord>, input: SignupInput, newId: UserId, now: int)
    requires SignupStep(docs, input, newId, now).result.Ok?
    ensures GetUserStep(SignupStep(docs, input, newId, now).docs, newId)
              == Ok(Projected(SignupStep(docs, input, newId, now).result.value))
  {
    var s := SignupStep(docs, input, newId, now);
    FindOneAfterAppend(docs, s.result.value, ById(newId));
  }

  /** After a sign-up, logging in with the same email and password returns the new account; another password fails. */
  lemma SignupThenLogin(docs: seq<UserRecord>, input: SignupInput, newId: UserId, now: int, other: string)
    requires SignupStep(docs, input, newId, now).result.Ok?
    requires other != input.password.value && other != ""
    ensures LoginStep(SignupStep(docs, input, newId, now).docs, LoginInput(input.email, input.password))
              == SignupStep(docs, input, newId, now).result
    ensures LoginStep(SignupStep(docs, input, newId, now).docs, LoginInput(input.email, Some(other)))
              == Err(InvalidLogin)
  {
    var s := SignupStep(docs, input, newId, now);
    FindOneAfterAppend(docs, s.result.value, ByEmail(input.email.value));
  }

  /**
   * A code persisted by `sendForgotPasswordCode` / `sendSignInCode` is accepted, when typed in from
   * the mail, by the matching verification at any time before its three hours run out.
   */
  lemma MailedCodeVerifies(docs: seq<UserRecord>, slot: OtpSlot, email: string, draw: int, reply: ProviderReply,
                           sentAt: int, later: int, linkReply: ProviderReply, lifetime: int)
    requires 0 <= draw < 900000
    requires SendCodeStep(docs, slot, Some(email), draw, reply, sentAt).result.Ok?
    requires sentAt <= later < sentAt + ThreeHours
    ensures var s := SendCodeStep(docs, slot, Some(email), draw, reply, sentAt);
            var typed := Numeric(CodeInText(MailTypeOf(slot), s.sent.value.text).value);
            match slot
            case VerificationSlot =>
              (VerifyForgotStep(s.docs, Some(email), typed, linkReply, later, lifetime).result.Ok? <==>
               linkReply.error.None? && Confirmed(linkReply.data))
            case SignInSlot => VerifySignInStep(s.docs, Some(email), typed, later).result.Ok?
  {
    var s := SendCodeStep(docs, slot, Some(email), draw, reply, sentAt);
    var i := FindOne(docs, ByEmail(email)).value;
    FindOneAfterUpdate(docs, i, s.docs[i], ByEmail(email));
  }

  /**
   * Neither verification checks that an email was given: without one the lookup is `findOne({})`,
   * so the submitted code is checked against the first document in the store.
   */
  lemma MissingEmailChecksFirstDocument(docs: seq<UserRecord>, code: Submitted, reply: ProviderReply, now: int,
                                        lifetime: int)
    requires docs != []
    ensures VerifySignInStep(docs, None, code, now).result.Ok? <==> CodeAccepted(docs[0].signIn, code, now)
    ensures VerifyForgotStep(docs, None, code, reply, now, lifetime).result.Ok? <==>
              CodeAccepted(docs[0].verification, code, now) && reply.error.None? && Confirmed(reply.data)
  {
    assert Matches(docs[0], EmailFilter(None));
  }

  /** A sign-in code works once: the same submission right after a success fails. */
  lemma SignInCodeIsOneTime(docs: seq<UserRecord>, email: Option<string>, code: Submitted, now: int, later: int)
    requires VerifySignInStep(docs, email, code, now).result.Ok?
    ensures VerifySignInStep(VerifySignInStep(docs, email, code, now).docs, email, code, later).result == Err(BadCode)
  {
    var s := VerifySignInStep(docs, email, code, now);
    var i := FindOne(docs, EmailFilter(email)).value;
    FindOneAfterUpdate(docs, i, s.docs[i], EmailFilter(email));
  }

  /** A verification code works once: after a success the same code is rejected. */
  lemma VerificationCodeIsOneTime(docs: seq<UserRecord>, email: Option<string>, code: Submitted, reply: ProviderReply,
                                  now: int, later: int, reply2: ProviderReply, lifetime: int)
    requires VerifyForgotStep(docs, email, code, reply, now, lifetime).result.Ok?
    ensures VerifyForgotStep(VerifyForgotStep(docs, email, code, reply, now, lifetime).docs, email, code, reply2, later, lifetime).result
              == Err(BadCode)
  {
    var s := VerifyForgotStep(docs, email, code, reply, now, lifetime);
    var i := FindOne(docs, EmailFilter(email)).value;
    FindOneAfterUpdate(docs, i, s.docs[i], EmailFilter(email));
  }

  /** When the reset link cannot be mailed the code stays live: a retry with a confirmed send succeeds. */
  lemma FailedSendKeepsCodeLive(docs: seq<UserRecord>, email: Option<string>, code: Submitted, reply: ProviderReply,
                                now: int, retry: ProviderReply, later: int, lifetime: int)
    requires FindOne(docs, EmailFilter(email)).Some?
    requires CodeAccepted(docs[FindOne(docs, EmailFilter(email)).value].verification, code, now)
    requires !(reply.error.None? && Confirmed(reply.data))
    requires now <= later && CodeAccepted(docs[FindOne(docs, EmailFilter(email)).value].verification, code, later)
    requires retry.error.None? && Confirmed(retry.data)
    ensures VerifyForgotStep(docs, email, code, reply, now, lifetime).docs == docs
    ensures VerifyForgotStep(VerifyForgotStep(docs, email, code, reply, now, lifetime).docs, email, code, retry, later, lifetime).result.Ok?
  {
  }

  /** As written, a reset token can be used again: a second reset with the same token also succeeds. */
  lemma ResetTokenReplayable(docs: seq<UserRecord>, token: Jwt, first: string, second: string, now: int, later: int)
    requires ResetPasswordStep(docs, Some(token), Some(first), now).result.Ok?
    requires FindOne(docs, ById(token.claims.userId)).Some?
    requires later < token.claims.expiresAt
    ensures var s := ResetPasswordStep(docs, Some(token), Some(first), now);
            var t := ResetPasswordStep(s.docs, Some(token), Some(second), later);
            var i := FindOne(docs, ById(token.claims.userId)).value;
            t.result.Ok? && t.docs[i].password == Some(Hash(second))
  {
    var s := ResetPasswordStep(docs, Some(token), Some(first), now);
    var i := FindOne(docs, ById(token.claims.userId)).value;
    FindOneAfterUpdate(docs, i, s.docs[i], ById(token.claims.userId));
  }

  /** Corrected, a reset token is one-time: after a reset that changed the password, the same token is refused. */
  lemma ResetTokenIsOneTime(docs: seq<UserRecord>, token: Jwt, first: string, second: string, now: int, later: int)
    requires ResetPasswordOnceStep(docs, Some(token), Some(first), now).result.Ok?
    requires FindOne(docs, ById(token.claims.userId)).Some?
    requires later < token.claims.expiresAt
    ensures var s := ResetPasswordOnceStep(docs, Some(token), Some(first), now);
            ResetPasswordOnceStep(s.docs, Some(token), Some(second), later) == Step(Err(ResetTokenUsed), s.docs, None)
  {
    var s := ResetPasswordOnceStep(docs, Some(token), Some(first), now);
    var i := FindOne(docs, ById(token.claims.userId)).value;
    FindOneAfterUpdate(docs, i, s.docs[i], ById(token.claims.userId));
  }

  /** A token stored by a successful code verification is accepted once by the corrected reset. */
  lemma IssuedResetTokenWorks(docs: seq<UserRecord>, email: Option<string>, code: Submitted, reply: ProviderReply,
                              now: int, later: int, lifetime: int, password: string)
    requires IdsUnique(docs)
    requires VerifyForgotStep(docs, email, code, reply, now, lifetime).result.Ok?
    requires now <= later < now + ThreeHours && later < now + lifetime
    ensures var s := VerifyForgotStep(docs, email, code, reply, now, lifetime);
            ResetPasswordOnceStep(s.docs, Some(s.result.value), Some(password), later).result.Ok?
  {
    var s := VerifyForgotStep(docs, email, code, reply, now, lifetime);
    var i := FindOne(docs, EmailFilter(email)).value;
    FindById(docs, i);
    FindOneAfterUpdate(docs, i, s.docs[i], ById(docs[i].userId));
  }

  /** After a reset, the new password logs in and the old one no longer does. */
  lemma ResetThenLogin(docs: seq<UserRecord>, token: Jwt, newPassword: string, oldPassword: string, now: int)
    requires EmailsUnique(docs) && IdsUnique(docs)
    requires ResetPasswordStep(docs, Some(token), Some(newPassword), now).result.Ok?
    requires FindOne(docs, ById(token.claims.userId)).Some?
    requires docs[FindOne(docs, ById(token.claims.userId)).value].email != ""
    requires newPassword != "" && oldPassword != "" && oldPassword != newPassword
    ensures var s := ResetPasswordStep(docs, Some(token), Some(newPassword), now);
            var email := docs[FindOne(docs, ById(token.claims.userId)).value].email;
            && LoginStep(s.docs, LoginInput(Some(email), Some(newPassword))).Ok?
            && LoginStep(s.docs, LoginInput(Some(email), Some(oldPassword))) == Err(InvalidLogin)
  {
    var s := ResetPasswordStep(docs, Some(token), Some(newPassword), now);
    var i := FindOne(docs, ById(token.claims.userId)).value;
    FindByEmail(docs, i);
    FindOneAfterUpdate(docs, i, s.docs[i], ByEmail(docs[i].email));
  }

  // ---------------------------------------------------------------------------------------------
  // The service, performing each step in place

  class AuthService {
    const users: UserCollection

    constructor (users: UserCollection)
      ensures this.users == users
    {
      this.users := users;
    }

    method Signup(input: SignupInput, newId: UserId, now: int) returns (r: Result<UserRecord>)
      modifies users
      ensures SignupStep(old(users.docs), input, newId, now) == Step(r, users.docs, None)
    {
      if !SignupComplete(input) {
        return Err(MissingFields);
      }
      var existing := FindOne(users.docs, ByEmail(input.email.value));
      if existing.Some? {
        return Err(EmailTaken);
      }
      if FindOne(users.docs, ById(newId)).Some? {
        return Err(DuplicateId);
      }
      var user := NewUser(newId, input.firstName.value, input.lastName.value, input.email.value, input.password.value, now);
      users.Insert(user);
      r := Ok(user);
    }

    method Login(input: LoginInput) returns (r: Result<UserRecord>)
      ensures r == LoginStep(users.docs, input)
    {
      if !LoginComplete(input) {
        return Err(MissingFields);
      }
      var found := FindOne(users.docs, ByEmail(input.email.value));
      if found.None? {
        return Err(InvalidLogin);
      }
      var user := users.docs[found.value];
      var valid := CheckPassword(input.password, user.password);
      if valid.Err? {
        return Err(valid.message);
      }
      if !valid.value {
        return Err(InvalidLogin);
      }
      r := Ok(user);
    }

    /** The shared body of `sendForgotPasswordCode` and `sendSignInCode`. */
    method SendCode(slot: OtpSlot, email: Option<string>, draw: int, reply: ProviderReply, now: int)
      returns (r: Result<bool>, sent: Option<Message>)
      requires 0 <= draw < 900000
      modifies users
      ensures SendCodeStep(old(users.docs), slot, email, draw, reply, now) == Step(r, users.docs, sent)
    {
      if !Truthy(email) {
        return Err(MissingEmail), None;
      }
      var found := FindOne(users.docs, ByEmail(email.value));
      if found.None? {
        return Err(UnknownEmail), None;
      }
      var i := found.value;
      var out := SendOtp(MailTypeOf(slot), users.docs[i].email, draw, reply);
      sent := Some(out.message);
      if out.result.Err? {
        return Err(out.result.message), sent;
      }
      if !Confirmed(out.result.value) {
        return Err(NotSent(slot)), sent;
      }
      var updated := WithSlot(users.docs[i], slot, CodeSlot(Some(out.value), Some(now + ThreeHours)));
      users.Replace(i, updated.(updatedAt := now));
      r := Ok(true);
    }

    method SendForgotPasswordCode(email: Option<string>, draw: int, reply: ProviderReply, now: int)
      returns (r: Result<bool>, sent: Option<Message>)
      requires 0 <= draw < 900000
      modifies users
      ensures SendCodeStep(old(users.docs), VerificationSlot, email, draw, reply, now) == Step(r, users.docs, sent)
    {
      r, sent := SendCode(VerificationSlot, email, draw, reply, now);
    }

    method SendSignInCode(email: Option<string>, draw: int, reply: ProviderReply, now: int)
      returns (r: Result<bool>, sent: Option<Message>)
      requires 0 <= draw < 900000
      modifies users
      ensures SendCodeStep(old(users.docs), SignInSlot, email, draw, reply, now) == Step(r, users.docs, sent)
    {
      r, sent := SendCode(SignInSlot, email, draw, reply, now);
    }

    method VerifyForgotPasswordCode(email: Option<string>, code: Submitted, reply: ProviderReply, now: int, lifetime: int)
      returns (r: Result<Jwt>, sent: Option<Message>)
      modifies users
      ensures VerifyForgotStep(old(users.docs), email, code, reply, now, lifetime) == Step(r, users.docs, sent)
    {
      var found := FindOne(users.docs, EmailFilter(email));
      if found.None? {
        return Err(UnknownEmail), None;
      }
      var i := found.value;
      var user := users.docs[i];
      if !CodeAccepted(user.verification, code, now) {
        return Err(BadCode), None;
      }
      var out := SendLink(user.userId, user.email, now, lifetime, reply);
      sent := Some(out.message);
      if out.result.Err? {
        return Err(out.result.message), sent;
      }
      if !Confirmed(out.result.value) {
        return Err(LinkNotSent), sent;
      }
      users.Replace(i, user.(verification := EmptyCode,
                             reset := TokenSlot(Some(out.value), Some(now + ThreeHours)),
                             updatedAt := now));
      r := Ok(out.value);
    }

    method VerifySignInCode(email: Option<string>, code: Submitted, now: int) returns (r: Result<UserRecord>)
      modifies users
      ensures VerifySignInStep(old(users.docs), email, code, now) == Step(r, users.docs, None)
    {
      var found := FindOne(users.docs, EmailFilter(email));
      if found.None? {
        return Err(UnknownEmail);
      }
      var i := found.value;
      var user := users.docs[i];
      if !CodeAccepted(user.signIn, code, now) {
        return Err(BadCode);
      }
      users.Replace(i, user.(signIn := EmptyCode, updatedAt := now));
      r := Ok(Projected(user));
    }

    method ResetPassword(token: Option<Jwt>, newPassword: Option<string>, now: int) returns (r: Result<Option<UserRecord>>)
      modifies users
      ensures ResetPasswordStep(old(users.docs), token, newPassword, now) == Step(r, users.docs, None)
    {
      if token.None? {
        return Err(NoToken);
      }
      var decoded := Verify(token.value, now);
      if decoded.Err? {
        return Err(decoded.message);
      }
      if newPassword.None? {
        return Err(NoPlaintext);
      }
      var hashed := Hash(newPassword.value);
      var found := FindOne(users.docs, ById(decoded.value.userId));
      if found.None? {
        return Ok(None);
      }
      var before := users.docs[found.value];
      users.Replace(found.value, before.(reset := EmptyToken, password := Some(hashed), updatedAt := now));
      r := Ok(Some(Projected(before)));
    }

    /** `resetPassword` with the stored reset token checked and consumed: each emailed link resets once. */
    method ResetPasswordOnce(token: Option<Jwt>, newPassword: Option<string>, now: int) returns (r: Result<Option<UserRecord>>)
      modifies users
      ensures ResetPasswordOnceStep(old(users.docs), token, newPassword, now) == Step(r, users.docs, None)
    {
      if token.None? {
        return Err(NoToken);
      }
      var decoded := Verify(token.value, now);
      if decoded.Err? {
        return Err(decoded.message);
      }
      if newPassword.None? {
        return Err(NoPlaintext);
      }
      var found := FindOne(users.docs, ById(decoded.value.userId));
      if found.None? {
        return Ok(None);
      }
      var before := users.docs[found.value];
      if !ResetTokenLive(before, token.value, now) {
        return Err(ResetTokenUsed);
      }
      users.Replace(found.value, before.(reset := EmptyToken, password := Some(Hash(newPassword.value)), updatedAt := now));
      r := Ok(Some(Projected(before)));
    }

    method GetUser(userId: UserId) returns (r: Result<UserRecord>)
      ensures r == GetUserStep(users.docs, userId)
    {
      var found := FindOne(users.docs, ById(userId));
      if found.None? {
        return Err(UserNotFound);
      }
      r := Ok(Projected(users.docs[found.value]));
    }
  }
}
