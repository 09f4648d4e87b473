/**
 * The legacy Express handlers (controller/user): the same account operations written directly
 * against the store, answering with status codes. Each handler is a pure step giving the reply
 * and the collection after it; the class `UserController` performs it in place.
 */
module LegacyUsers {
  import opened Wrappers
  import opened Crypto
  import opened Users
  import opened EmailHelper
  import SendEmail
  import SendToken
  import AppHelper
  import Auth
  import Profile

  const MissingFields := "Please provide all required fields."
  const EmailTaken := "User already exists with same email."
  const InvalidCredentials := "Provided credentials are Invalid."
  const BadCode := "Provided code are invalid or expired."
  const Oops := "Something went wrong."
  const NoUserInToken := "Something went wrong check."

  /** What a handler writes: `negativeHandler`, `positiveHandler`, `SendResponse` with `{ user }`, or `sendToken`. */
  datatype Reply =
    | Negative(status: int, message: string)
    | Positive(status: int, message: string)
    | Data(status: int, message: string, user: Option<UserRecord>)
    | Session(response: SendToken.LegacyTokenResponse)

  function Status(r: Reply): int {
    match r
    case Negative(s, _) => s
    case Positive(s, _) => s
    case Data(s, _, _) => s
    case Session(t) => t.status
  }

  /** `SendResponse(res, code, message, { user })`, which blanks the user's password. */
  function Respond(code: int, message: string, user: Option<UserRecord>): (r: Reply)
    ensures r.Data? && r.status == code && r.message == message
    ensures r.user.Some? <==> user.Some?
    ensures r.user.Some? ==> r.user.value.password.None?
    ensures r.user == AppHelper.Blank(user)
  {
    Data(code, message, AppHelper.Blank(user))
  }

  /** The reply, the collection after the handler, and the mail it handed to the provider. */
  datatype Handled = Handled(reply: Reply, docs: seq<UserRecord>, sent: Option<Message>)

  /** `SignUpUser`: the same store change as the service's `signup`, answered with 400, 500 or 201. */
  function SignUpStep(docs: seq<UserRecord>, input: Auth.SignupInput, newId: UserId, env: AppHelper.Env, now: int)
    : (h: Handled)
    ensures h.sent.None?
    ensures h.docs == Auth.SignupStep(docs, input, newId, now).docs
    ensures Status(h.reply) == 201 <==> Auth.SignupStep(docs, input, newId, now).result.Ok?
    ensures Status(h.reply) == 400 <==>
              !Auth.SignupComplete(input) || FindOne(docs, ByEmail(input.email.value)).Some?
    ensures Status(h.reply) == 201 ==>
              h.reply.Session? && h.reply.response.body.values.SessionPayload? &&
              h.reply.response.body.values.fields == Some(Projected(Auth.SignupStep(docs, input, newId, now).result.value))
  {
    if !Auth.SignupComplete(input) then Handled(Negative(400, MissingFields), docs, None)
    else if FindOne(docs, ByEmail(input.email.value)).Some? then Handled(Negative(400, EmailTaken), docs, None)
    else if FindOne(docs, ById(newId)).Some? then Handled(Negative(500, Oops), docs, None)
    else
      var user := Auth.NewUser(newId, input.firstName.value, input.lastName.value, input.email.value, input.password.value, now);
      Handled(Session(SendToken.SendToken(201, "User and organization created successfully", Some(user), env, now)),
              docs + [user], None)
  }

  /** `loginUser`: 201 with a session exactly when the service's `login` accepts; 403 for either kind of bad credential. */
  function LoginStep(docs: seq<UserRecord>, input: Auth.LoginInput, env: AppHelper.Env, now: int): (r: Reply)
    ensures !Auth.LoginComplete(input) ==> r == Negative(400, MissingFields)
    ensures Status(r) == 201 <==> Auth.LoginStep(docs, input).Ok?
    ensures Status(r) == 201 ==>
              r.Session? && r.response.body.values.SessionPayload? && r.response.body.values.fields == Some(Projected(Auth.LoginStep(docs, input).value)) &&
              r.response.cookie.value == Some(Sign(Auth.LoginStep(docs, input).value.userId, now, env.jwtExpires))
    ensures Auth.LoginComplete(input) && PasswordsPresent(docs) && Status(r) != 201 ==>
              r == Negative(403, InvalidCredentials)
  {
    if !Auth.LoginComplete(input) then Negative(400, MissingFields)
    else match FindOne(docs, ByEmail(input.email.value))
      case None => Negative(403, InvalidCredentials)
      case Some(i) =>
        match CheckPassword(input.password, docs[i].password)
        case Err(_) => Negative(500, Oops)
        case Ok(valid) =>
          if !valid then Negative(403, InvalidCredentials)
          else Session(SendToken.SendToken(201, "User login successful", Some(docs[i]), env, now))
  }

  /**
   * `sendForgotPasswordCode`: mails a fresh code with `sendForgotPasswordMail` and persists it for
   * three hours only when the provider answered with an id.
   */
  function SendForgotPasswordCodeStep(docs: seq<UserRecord>, email: Option<string>, draw: int, reply: ProviderReply,
                                      now: int): (h: Handled)
    requires 0 <= draw < 900000
    ensures !Truthy(email) ==> h == Handled(Negative(400, MissingFields), docs, None)
    ensures Truthy(email) && FindOne(docs, ByEmail(email.value)).None? ==>
              h == Handled(Negative(403, InvalidCredentials), docs, None)
    ensures Status(h.reply) == 200 <==>
              Truthy(email) && FindOne(docs, ByEmail(email.value)).Some? && reply.error.None? && Confirmed(reply.data)
    ensures (Truthy(email) && FindOne(docs, ByEmail(email.value)).Some? && !(reply.error.None? && Confirmed(reply.data)))
              ==> h.reply == Negative(500, Oops) && h.docs == docs
    ensures Status(h.reply) != 200 ==> h.docs == docs
    ensures h.docs == Auth.SendCodeStep(docs, VerificationSlot, email, draw, reply, now).docs
    ensures h.sent == Auth.SendCodeStep(docs, VerificationSlot, email, draw, reply, now).sent
  {
    if !Truthy(email) then Handled(Negative(400, MissingFields), docs, None)
    else match FindOne(docs, ByEmail(email.value))
      case None => Handled(Negative(403, InvalidCredentials), docs, None)
      case Some(i) =>
        var code := GenerateOtp(draw);
        var d := SendEmail.SendForgotPasswordMail(VerificationCode, docs[i].email, Some(code), None, reply);
        if d.result.Err? || !Confirmed(d.result.value) then Handled(Negative(500, Oops), docs, Some(d.message))
        else
          var updated := docs[i].(verification := CodeSlot(Some(code), Some(now + Auth.ThreeHours)), updatedAt := now);
          Handled(Positive(200, "Verification code Sended Successfully"), docs[i := updated], Some(d.message))
  }

  /**
   * `verifyForgotPasswordCode` as written: on a live matching code it stores the reset token and
   * clears the code first, then mails the link; a failed send answers 500 with the code gone.
   */
  function VerifyForgotPasswordCodeStep(docs: seq<UserRecord>, email: Option<string>, code: Submitted,
                                        reply: ProviderReply, now: int, lifetime: int): (h: Handled)
    ensures !Truthy(email) || code.Missing? ==> h == Handled(Negative(400, MissingFields), docs, None)
    ensures Truthy(email) && !code.Missing? && FindOne(docs, ByEmail(email.value)).None? ==>
              h == Handled(Negative(403, InvalidCredentials), docs, None)
    ensures (Truthy(email) && FindOne(docs, ByEmail(email.value)).Some? &&
             !CodeAccepted(docs[FindOne(docs, ByEmail(email.value)).value].verification, code, now))
              ==> h == Handled(Negative(if code.Missing? then 400 else 402, if code.Missing? then MissingFields else BadCode), docs, None)
    ensures h.docs != docs ==> h.sent.Some?
    ensures h.sent.Some? <==>
              Truthy(email) && FindOne(docs, ByEmail(email.value)).Some? &&
              CodeAccepted(docs[FindOne(docs, ByEmail(email.value)).value].verification, code, now)
    ensures h.sent.Some? ==>
              var i := FindOne(docs, ByEmail(email.value)).value;
              var token := GenerateJwt(docs[i].userId, now, lifetime);
              && h.docs == docs[i := docs[i].(verification := EmptyCode,
                                                reset := TokenSlot(Some(token), Some(now + Auth.ThreeHours)),
                                                updatedAt := now)]
              && UrlInText(ResetLink, h.sent.value.text) == Some(ResetUrl(token))
              && (Status(h.reply) == 200 <==> reply.error.None? && Confirmed(reply.data))
              && (Status(h.reply) != 200 ==> h.reply == Negative(500, Oops))
  {
    if !Truthy(email) || code.Missing? then Handled(Negative(400, MissingFields), docs, None)
    else match FindOne(docs, ByEmail(email.value))
      case None => Handled(Negative(403, InvalidCredentials), docs, None)
      case Some(i) =>
        if !CodeAccepted(docs[i].verification, code, now) then Handled(Negative(402, BadCode), docs, None)
        else
          var token := GenerateJwt(docs[i].userId, now, lifetime);
          var updated := docs[i].(verification := EmptyCode,
                                  reset := TokenSlot(Some(token), Some(now + Auth.ThreeHours)),
                                  updatedAt := now);
          var d := SendEmail.SendForgotPasswordMail(ResetLink, docs[i].email, None, Some(ResetUrl(token)), reply);
          if d.result.Err? || !Confirmed(d.result.value) then Handled(Negative(500, Oops), docs[i := updated], Some(d.message))
          else Handled(Positive(200, "Reset password link sended successfully"), docs[i := updated], Some(d.message))
  }

  /**
   * `resetPassword`: the token from the query string decides whose password is replaced; the
   * stored reset token is cleared but never compared.
   */
  function ResetPasswordStep(docs: seq<UserRecord>, token: Option<Jwt>, newPassword: Option<string>, now: int)
    : (h: Handled)
    ensures h.sent.None?
    ensures !Truthy(newPassword) || token.None? ==> h == Handled(Negative(500, Oops), docs, None)
    ensures Truthy(newPassword) && token.Some? && Verify(token.value, now).Err? ==> h == Handled(Negative(500, Oops), docs, None)
    ensures (Truthy(newPassword) && token.Some? && Verify(token.value, now).Ok? && token.value.claims.userId == "")
              ==> h == Handled(Negative(500, NoUserInToken), docs, None)
    ensures Status(h.reply) == 200 <==>
              Truthy(newPassword) && token.Some? && Verify(token.value, now).Ok? && token.value.claims.userId != ""
    ensures Status(h.reply) != 200 ==> h.docs == docs
    ensures Status(h.reply) == 200 ==> h.docs == Auth.ResetPasswordStep(docs, token, newPassword, now).docs
  {
    if !Truthy(newPassword) || token.None? then Handled(Negative(500, Oops), docs, None)
    else match Verify(token.value, now)
      case Err(_) => Handled(Negative(500, Oops), docs, None)
      case Ok(claims) =>
        if claims.userId == "" then Handled(Negative(500, NoUserInToken), docs, None)
        else
          var done := Positive(200, "Password updated successfully.");
          match FindOne(docs, ById(claims.userId))
          case None => Handled(done, docs, None)
          case Some(i) =>
            var updated := docs[i].(reset := EmptyToken, password := Some(Hash(newPassword.value)), updatedAt := now);
            Handled(done, docs[i := updated], None)
  }

  /** A reply together with the collection after it. */
  datatype Answer = Answer(reply: Reply, docs: seq<UserRecord>)

  /** `changePassword` for the authenticated `userId`: only the digest (and update time) change, on 200. */
  function ChangePasswordStep(docs: seq<UserRecord>, userId: UserId, current: Option<string>, newPassword: Option<string>,
                              now: int): (a: Answer)
    ensures !Truthy(current) || !Truthy(newPassword) ==> a == Answer(Negative(400, MissingFields), docs)
    ensures (Truthy(current) && Truthy(newPassword) &&
             (FindOne(docs, ById(userId)).None? ||
              CheckPassword(current, docs[FindOne(docs, ById(userId)).value].password) == Ok(false)))
              ==> a == Answer(Negative(403, InvalidCredentials), docs)
    ensures Status(a.reply) != 200 ==> a.docs == docs
    ensures Truthy(current) && Truthy(newPassword) ==>
              && a.docs == Profile.ChangePasswordStep(docs, userId, current, newPassword, now).docs
              && (Status(a.reply) == 200 <==> Profile.ChangePasswordStep(docs, userId, current, newPassword, now).result.Ok?)
    ensures Status(a.reply) == 200 ==>
              a.reply == Respond(200, "Password changed successfully",
                                 Some(Profile.ChangePasswordStep(docs, userId, current, newPassword, now).result.value))
  {
    if !Truthy(current) || !Truthy(newPassword) then Answer(Negative(400, MissingFields), docs)
    else match FindOne(docs, ById(userId))
      case None => Answer(Negative(403, InvalidCredentials), docs)
      case Some(i) =>
        match CheckPassword(current, docs[i].password)
        case Err(_) => Answer(Negative(500, Oops), docs)
        case Ok(valid) =>
          if !valid then Answer(Negative(403, InvalidCredentials), docs)
          else
            var updated := docs[i].(password := Some(Hash(newPassword.value)), updatedAt := now);
            Answer(Respond(200, "Password changed successfully", Some(Projected(docs[i]))), docs[i := updated])
  }

  /** The avatar written when no file is supplied: every field an empty string. */
  const EmptyAvatar := Avatar(Some(""), Some(""), Some(""), Some(""))

  /** A reply, the collection after it, and the remote asset the handler asked to destroy. */
  datatype Updated = Updated(reply: Reply, docs: seq<UserRecord>, destroyed: Option<string>)

  /**
   * `updateUserDetails`: the four name and email fields of the body, and an avatar that is the
   * upload's descriptor when a file came and the all-empty descriptor otherwise.
   */
  function UpdateUserDetailsStep(docs: seq<UserRecord>, userId: UserId, firstName: Option<string>, lastName: Option<string>,
                                 userName: Option<string>, email: Option<string>, file: Option<Profile.Upload>,
                                 destroyError: Option<string>, now: int): (u: Updated)
    ensures FindOne(docs, ById(userId)).None? ==> u == Updated(Negative(403, InvalidCredentials), docs, None)
    ensures Status(u.reply) != 200 ==> u.docs == docs
    ensures (FindOne(docs, ById(userId)).Some? &&
             ((file.Some? && file.value.UploadFailed?) ||
              (file.Some? && Profile.DestroyTarget(docs[FindOne(docs, ById(userId)).value], file).Some? && destroyError.Some?)))
              ==> u.reply == Negative(500, Oops) && u.docs == docs
    ensures FindOne(docs, ById(userId)).Some? ==>
              (u.destroyed == if file.Some? && file.value.Uploaded?
                              then Profile.DestroyTarget(docs[FindOne(docs, ById(userId)).value], file)
                              else None)
    ensures Status(u.reply) == 200 <==>
              FindOne(docs, ById(userId)).Some? && (file.Some? ==> file.value.Uploaded?) &&
              (u.destroyed.Some? ==> destroyError.None?)
    ensures Status(u.reply) == 200 ==>
              var i := FindOne(docs, ById(userId)).value;
              && |u.docs| == |docs|
              && u.docs[i].avatar == (if file.Some? then Profile.Descriptor(file.value) else EmptyAvatar)
              && u.docs == docs[i := Profile.ApplyPatch(docs[i], u.docs[i].avatar,
                                                          Profile.Patch(firstName, lastName, userName, email, None, None, None, None), now)]
              && u.reply == Respond(200, "User details updated successfully", Some(Projected(u.docs[i])))
  {
    match FindOne(docs, ById(userId))
    case None => Updated(Negative(403, InvalidCredentials), docs, None)
    case Some(i) =>
      if file.Some? && file.value.UploadFailed? then Updated(Negative(500, Oops), docs, None)
      else
        var destroyed := Profile.DestroyTarget(docs[i], file);
        if destroyed.Some? && destroyError.Some? then Updated(Negative(500, Oops), docs, destroyed)
        else
          var avatar := if file.Some? then Profile.Descriptor(file.value) else EmptyAvatar;
          var patch := Profile.Patch(firstName, lastName, userName, email, None, None, None, None);
          var updated := Profile.ApplyPatch(docs[i], avatar, patch, now);
          Updated(Respond(200, "User details updated successfully", Some(Projected(updated))), docs[i := updated], destroyed)
  }

  // ---------------------------------------------------------------------------------------------
  // The legacy code path against the modular one

  /**
   * As written, the legacy verification consumes the code even when the link mail then fails: the
   * user is told 500, and submitting the same code again is refused with 402.
   */
  lemma FailedSendConsumesCode(docs: seq<UserRecord>, email: string, code: Submitted, reply: ProviderReply,
                               now: int, lifetime: int, retry: ProviderReply, later: int)
    requires email != "" && !code.Missing?
    requires FindOne(docs, ByEmail(email)).Some?
    requires CodeAccepted(docs[FindOne(docs, ByEmail(email)).value].verification, code, now)
    requires !(reply.error.None? && Confirmed(reply.data))
    ensures var h := VerifyForgotPasswordCodeStep(docs, Some(email), code, reply, now, lifetime);
            && h.reply == Negative(500, Oops)
            && VerifyForgotPasswordCodeStep(h.docs, Some(email), code, retry, later, lifetime).reply == Negative(402, BadCode)
  {
    var h := VerifyForgotPasswordCodeStep(docs, Some(email), code, reply, now, lifetime);
    var i := FindOne(docs, ByEmail(email)).value;
    FindOneAfterUpdate(docs, i, h.docs[i], ByEmail(email));
  }

  /** The two profile updates differ only in the avatar they write when no file is supplied. */
  lemma UpdateVariantsDiffer(docs: seq<UserRecord>, userId: UserId, firstName: Option<string>, lastName: Option<string>,
                             userName: Option<string>, email: Option<string>, now: int)
    requires FindOne(docs, ById(userId)).Some?
    ensures var legacy := UpdateUserDetailsStep(docs, userId, firstName, lastName, userName, email, None, None, now);
            var modular := Profile.UpdateUserDetailsStep(docs, userId,
                             Profile.Patch(firstName, lastName, userName, email, None, None, None, None), None, None, now);
            var i := FindOne(docs, ById(userId)).value;
            && modular.result.Ok? && Status(legacy.reply) == 200
            && modular.docs[i].avatar == NoAvatar && legacy.docs[i].avatar == EmptyAvatar
            && legacy.docs == modular.docs[i := modular.docs[i].(avatar := EmptyAvatar)]
  {
  }

  // ---------------------------------------------------------------------------------------------
  // The handlers, performing each step in place

  class UserController {
    const users: UserCollection

    constructor (users: UserCollection)
      ensures this.users == users
    {
      this.users := users;
    }

    method SignUpUser(input: Auth.SignupInput, newId: UserId, env: AppHelper.Env, now: int) returns (reply: Reply)
      modifies users
      ensures SignUpStep(old(users.docs), input, newId, env, now) == Handled(reply, users.docs, None)
    {
      if !Auth.SignupComplete(input) {
        return Negative(400, MissingFields);
      }
      var existing := FindOne(users.docs, ByEmail(input.email.value));
      if existing.Some? {
        return Negative(400, EmailTaken);
      }
      if FindOne(users.docs, ById(newId)).Some? {
        return Negative(500, Oops);
      }
      var user := Auth.NewUser(newId, input.firstName.value, input.lastName.value, input.email.value, input.password.value, now);
      users.Insert(user);
      reply := Session(SendToken.SendToken(201, "User and organization created successfully", Some(user), env, now));
    }

    method LoginUser(input: Auth.LoginInput, env: AppHelper.Env, now: int) returns (reply: Reply)
      ensures reply == LoginStep(users.docs, input, env, now)
    {
      if !Auth.LoginComplete(input) {
        return Negative(400, MissingFields);
      }
      var found := FindOne(users.docs, ByEmail(input.email.value));
      if found.None? {
        return Negative(403, InvalidCredentials);
      }
      var user := users.docs[found.value];
      var valid := CheckPassword(input.password, user.password);
      if valid.Err? {
        return Negative(500, Oops);
      }
      if !valid.value {
        return Negative(403, InvalidCredentials);
      }
      reply := Session(SendToken.SendToken(201, "User login successful", Some(user), env, now));
    }

    method SendForgotPasswordCode(email: Option<string>, draw: int, reply: ProviderReply, now: int)
      returns (answer: Reply, sent: Option<Message>)
      requires 0 <= draw < 900000
      modifies users
      ensures SendForgotPasswordCodeStep(old(users.docs), email, draw, reply, now) == Handled(answer, users.docs, sent)
    {
      if !Truthy(email) {
        return Negative(400, MissingFields), None;
      }
      var found := FindOne(users.docs, ByEmail(email.value));
      if found.None? {
        return Negative(403, InvalidCredentials), None;
      }
      var user := users.docs[found.value];
      var code := GenerateOtp(draw);
      var d := SendEmail.SendForgotPasswordMail(VerificationCode, user.email, Some(code), None, reply);
      sent := Some(d.message);
      if d.result.Err? || !Confirmed(d.result.value) {
        return Negative(500, Oops), sent;
      }
      users.Replace(found.value, user.(verification := CodeSlot(Some(code), Some(now + Auth.ThreeHours)), updatedAt := now));
      answer := Positive(200, "Verification code Sended Successfully");
    }

    method VerifyForgotPasswordCode(email: Option<string>, code: Submitted, reply: ProviderReply, now: int, lifetime: int)
      returns (answer: Reply, sent: Option<Message>)
      modifies users
      ensures VerifyForgotPasswordCodeStep(old(users.docs), email, code, reply, now, lifetime) == Handled(answer, users.docs, sent)
    {
      if !Truthy(email) || code.Missing? {
        return Negative(400, MissingFields), None;
      }
      var found := FindOne(users.docs, ByEmail(email.value));
      if found.None? {
        return Negative(403, InvalidCredentials), None;
      }
      var user := users.docs[found.value];
      if !CodeAccepted(user.verification, code, now) {
        return Negative(402, BadCode), None;
      }
      var token := GenerateJwt(user.userId, now, lifetime);
      users.Replace(found.value, user.(verification := EmptyCode,
                                       reset := TokenSlot(Some(token), Some(now + Auth.ThreeHours)),
                                       updatedAt := now));
      var d := SendEmail.SendForgotPasswordMail(ResetLink, user.email, None, Some(ResetUrl(token)), reply);
      sent := Some(d.message);
      if d.result.Err? || !Confirmed(d.result.value) {
        return Negative(500, Oops), sent;
      }
      answer := Positive(200, "Reset password link sended successfully");
    }

    method ResetPassword(token: Option<Jwt>, newPassword: Option<string>, now: int) returns (answer: Reply)
      modifies users
      ensures ResetPasswordStep(old(users.docs), token, newPassword, now) == Handled(answer, users.docs, None)
    {
      if !Truthy(newPassword) || token.None? {
        return Negative(500, Oops);
      }
      var decoded := Verify(token.value, now);
      if decoded.Err? {
        return Negative(500, Oops);
      }
      var hashed := Hash(newPassword.value);
      if decoded.value.userId == "" {
        return Negative(500, NoUserInToken);
      }
      var found := FindOne(users.docs, ById(decoded.value.userId));
      if found.Some? {
        var user := users.docs[found.value];
        users.Replace(found.value, user.(reset := EmptyToken, password := Some(hashed), updatedAt := now));
      }
      answer := Positive(200, "Password updated successfully.");
    }

    method ChangePassword(userId: UserId, current: Option<string>, newPassword: Option<string>, now: int)
      returns (answer: Reply)
      modifies users
      ensures ChangePasswordStep(old(users.docs), userId, current, newPassword, now) == Answer(answer, users.docs)
    {
      if !Truthy(current) || !Truthy(newPassword) {
        return Negative(400, MissingFields);
      }
      var found := FindOne(users.docs, ById(userId));
      if found.None? {
        return Negative(403, InvalidCredentials);
      }
      var user := users.docs[found.value];
      var valid := CheckPassword(current, user.password);
      if valid.Err? {
        return Negative(500, Oops);
      }
      if !valid.value {
        return Negative(403, InvalidCredentials);
      }
      users.Replace(found.value, user.(password := Some(Hash(newPassword.value)), updatedAt := now));
      answer := Respond(200, "Password changed successfully", Some(Projected(user)));
    }

    method UpdateUserDetails(userId: UserId, firstName: Option<string>, lastName: Option<string>, userName: Option<string>,
                             email: Option<string>, file: Option<Profile.Upload>, destroyError: Option<string>, now: int)
      returns (answer: Reply, destroyed: Option<string>)
      modifies users
      ensures UpdateUserDetailsStep(old(users.docs), userId, firstName, lastName, userName, email, file, destroyError, now)
                == Updated(answer, users.docs, destroyed)
    {
      var found := FindOne(users.docs, ById(userId));
      if found.None? {
        return Negative(403, InvalidCredentials), None;
      }
      var user := users.docs[found.value];
      var imagData := EmptyAvatar;
      destroyed := None;
      if file.Some? {
        if file.value.UploadFailed? {
          return Negative(500, Oops), None;
        }
        imagData := Profile.Descriptor(file.value);
        if Truthy(user.avatar.publicId) {
          destroyed := user.avatar.publicId;
          if destroyError.Some? {
            return Negative(500, Oops), destroyed;
          }
        }
      }
      var updated := Profile.ApplyPatch(user, imagData, Profile.Patch(firstName, lastName, userName, email, None, None, None, None), now);
      users.Replace(found.value, updated);
      answer := Respond(200, "User details updated successfully", Some(Projected(updated)));
    }
  }
}
