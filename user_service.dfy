/**
 * `UserService` (module/v1/user/service): profile update with avatar replacement, the
 * cookie-authenticated profile read, and password change. As in `Auth`, each operation is a pure
 * step over the collection and the class performs it in place.
 */
module Profile {
  import opened Wrappers
  import opened Crypto
  import opened Users
  import Auth

  const UserNotFound := "User not found"
  const Unauthorized := "Unauthorize access."
  const WrongCurrent := "Invalid current password"

  /**
   * The keys of the request body that name profile fields; `None` is an absent key. Keys the
   * schema does not declare are dropped by the store.
   */
  datatype Patch = Patch(
    firstName: Option<string>,
    lastName: Option<string>,
    userName: Option<string>,
    email: Option<string>,
    userBio: Option<string>,
    userType: Option<string>,
    preferences: Option<seq<string>>,
    avatar: Option<Avatar>)

  /** The image host's answer to the upload of the supplied file. */
  datatype Upload = Uploaded(url: string, format: string, publicId: string, assetId: string) | UploadFailed(message: string)

  /** `imagData`: the four fields copied from a successful upload. */
  function Descriptor(u: Upload): (a: Avatar)
    requires u.Uploaded?
    ensures a.url == Some(u.url) && a.format == Some(u.format)
    ensures a.publicId == Some(u.publicId) && a.assetId == Some(u.assetId)
  {
    Avatar(Some(u.url), Some(u.format), Some(u.publicId), Some(u.assetId))
  }

  /** A key of the patch overrides the document's value when present. */
  function Pick<T>(patched: Option<T>, current: T): T {
    if patched.Some? then patched.value else current
  }

  function PickOptional<T>(patched: Option<T>, current: Option<T>): Option<T> {
    if patched.Some? then patched else current
  }

  /** `{ avatar: computed, ...data }` written over a document, with the update timestamp. */
  function ApplyPatch(r: UserRecord, computed: Avatar, p: Patch, now: int): (r': UserRecord)
    ensures p.firstName.Some? ==> r'.firstName == p.firstName.value
    ensures p.lastName.Some? ==> r'.lastName == p.lastName.value
    ensures p.email.Some? ==> r'.email == p.email.value
    ensures p.userName.Some? ==> r'.userName == p.userName
    ensures p.userBio.Some? ==> r'.userBio == p.userBio
    ensures p.userType.Some? ==> r'.userType == p.userType
    ensures p.preferences.Some? ==> r'.preferences == p.preferences.value
    ensures r'.avatar == if p.avatar.Some? then p.avatar.value else computed
    // an absent key leaves its field as it was
    ensures p.firstName.None? ==> r'.firstName == r.firstName
    ensures p.lastName.None? ==> r'.lastName == r.lastName
    ensures p.email.None? ==> r'.email == r.email
    ensures p.userName.None? ==> r'.userName == r.userName
    ensures p.userBio.None? ==> r'.userBio == r.userBio
    ensures p.userType.None? ==> r'.userType == r.userType
    ensures p.preferences.None? ==> r'.preferences == r.preferences
    ensures r'.updatedAt == now
    // no other field (id, password, codes, full name) is touched
    ensures p == Patch(None, None, None, None, None, None, None, Some(r.avatar)) ==> r' == r.(updatedAt := now)
    ensures r'.(firstName := r.firstName, lastName := r.lastName, userName := r.userName, email := r.email,
                userBio := r.userBio, userType := r.userType, preferences := r.preferences,
                avatar := r.avatar, updatedAt := r.updatedAt) == r
  {
    r.(firstName := Pick(p.firstName, r.firstName),
       lastName := Pick(p.lastName, r.lastName),
       userName := PickOptional(p.userName, r.userName),
       email := Pick(p.email, r.email),
       userBio := PickOptional(p.userBio, r.userBio),
       userType := PickOptional(p.userType, r.userType),
       preferences := Pick(p.preferences, r.preferences),
       avatar := Pick(p.avatar, computed),
       updatedAt := now)
  }

  /** The public id handed to the image host's `destroy`: the old one, when a file came and it is non-empty. */
  function DestroyTarget(r: UserRecord, file: Option<Upload>): (target: Option<string>)
    ensures target.Some? <==> file.Some? && Truthy(r.avatar.publicId)
    ensures target.Some? ==> target == r.avatar.publicId
  {
    if file.Some? && Truthy(r.avatar.publicId) then r.avatar.publicId else None
  }

  /** An update's reply, the collection after it, and the remote asset it asked to destroy. */
  datatype ProfileStep = ProfileStep(result: Result<UserRecord>, docs: seq<UserRecord>, destroyed: Option<string>)

  /**
   * `updateUserDetails(userId, data, file)`: upload the file if any, destroy the previous asset,
   * then overwrite the document with `{ avatar: imagData || {}, ...data }` and return it as stored.
   */
  function UpdateUserDetailsStep(docs: seq<UserRecord>, userId: UserId, p: Patch, file: Option<Upload>,
                                 destroyError: Option<string>, now: int): (s: ProfileStep)
    ensures FindOne(docs, ById(userId)).None? ==> s == ProfileStep(Err(UserNotFound), docs, None)
    ensures s.result.Err? ==> s.docs == docs
    ensures s.destroyed.Some? <==>
              FindOne(docs, ById(userId)).Some? && file.Some? && file.value.Uploaded? &&
              Truthy(docs[FindOne(docs, ById(userId)).value].avatar.publicId)
    ensures s.destroyed.Some? ==> s.destroyed == docs[FindOne(docs, ById(userId)).value].avatar.publicId
    ensures s.result.Ok? <==>
              FindOne(docs, ById(userId)).Some? && (file.Some? ==> file.value.Uploaded?) &&
              (s.destroyed.Some? ==> destroyError.None?)
    ensures s.result.Ok? ==>
              var i := FindOne(docs, ById(userId)).value;
              && |s.docs| == |docs|
              && (forall j :: 0 <= j < |docs| && j != i ==> s.docs[j] == docs[j])
              && s.result.value == Projected(s.docs[i])
              && s.docs[i].avatar == (if p.avatar.Some? then p.avatar.value
                                      else if file.Some? then Descriptor(file.value)
                                      else NoAvatar)
              && s.docs[i] == ApplyPatch(docs[i], s.docs[i].avatar, p.(avatar := None), now)
  {
    match FindOne(docs, ById(userId))
    case None => ProfileStep(Err(UserNotFound), docs, None)
    case Some(i) =>
      if file.Some? && file.value.UploadFailed? then ProfileStep(Err(file.value.message), docs, None)
      else
        var destroyed := DestroyTarget(docs[i], file);
        if destroyed.Some? && destroyError.Some? then ProfileStep(Err(destroyError.value), docs, destroyed)
        else
          var computed := if file.Some? then Descriptor(file.value) else NoAvatar;
          var updated := ApplyPatch(docs[i], computed, p, now);
          ProfileStep(Ok(Projected(updated)), docs[i := updated], destroyed)
  }

  /** `getUser(req)`: the profile of the user the `access_token` cookie names. */
  function GetUserStep(docs: seq<UserRecord>, cookie: Option<Jwt>, now: int): (r: Result<UserRecord>)
    ensures cookie.None? ==> r == Err(Unauthorized)
    ensures cookie.Some? && Verify(cookie.value, now).Err? ==> r == Err(Verify(cookie.value, now).message)
    ensures cookie.Some? && Verify(cookie.value, now).Ok? && cookie.value.claims.userId == "" ==> r == Err(Unauthorized)
    ensures (cookie.Some? && Verify(cookie.value, now).Ok? && cookie.value.claims.userId != "" &&
             FindOne(docs, ById(cookie.value.claims.userId)).None?)
              ==> r == Err(UserNotFound)
    ensures r.Ok? <==>
              cookie.Some? && Verify(cookie.value, now).Ok? && cookie.value.claims.userId != "" &&
              FindOne(docs, ById(cookie.value.claims.userId)).Some?
    ensures r.Ok? ==> r.value == Projected(docs[FindOne(docs, ById(cookie.value.claims.userId)).value])
    ensures r.Ok? ==> r.value.userId == cookie.value.claims.userId && r.value.password.None?
  {
    if cookie.None? then Err(Unauthorized)
    else match Verify(cookie.value, now)
      case Err(m) => Err(m)
      case Ok(claims) =>
        if claims.userId == "" then Err(Unauthorized)
        else match FindOne(docs, ById(claims.userId))
          case None => Err(UserNotFound)
          case Some(i) => Ok(Projected(docs[i]))
  }

  /** A reply together with the collection after it. */
  datatype Outcome<T> = Outcome(result: Result<T>, docs: seq<UserRecord>)

  /** `changePassword(userId, current, new)`: returns the document as it was before the update. */
  function ChangePasswordStep(docs: seq<UserRecord>, userId: UserId, current: Option<string>,
                              newPassword: Option<string>, now: int): (s: Outcome<UserRecord>)
    ensures FindOne(docs, ById(userId)).None? ==> s.result == Err(UserNotFound)
    ensures (FindOne(docs, ById(userId)).Some? &&
             CheckPassword(current, docs[FindOne(docs, ById(userId)).value].password) == Ok(false))
              ==> s.result == Err(WrongCurrent)
    ensures s.result.Ok? <==>
              FindOne(docs, ById(userId)).Some? &&
              CheckPassword(current, docs[FindOne(docs, ById(userId)).value].password) == Ok(true) &&
              newPassword.Some?
    ensures s.result.Err? ==> s.docs == docs
    ensures s.result.Ok? ==>
              var i := FindOne(docs, ById(userId)).value;
              && |s.docs| == |docs|
              && (forall j :: 0 <= j < |docs| && j != i ==> s.docs[j] == docs[j])
              && s.docs[i].password == Some(Hash(newPassword.value))
              && s.docs[i].(password := docs[i].password, updatedAt := docs[i].updatedAt) == docs[i]
              && s.result.value == Projected(docs[i])
  {
    match FindOne(docs, ById(userId))
    case None => Outcome(Err(UserNotFound), docs)
    case Some(i) =>
      match CheckPassword(current, docs[i].password)
      case Err(m) => Outcome(Err(m), docs)
      case Ok(valid) =>
        if !valid then Outcome(Err(WrongCurrent), docs)
        else match HashPassword(newPassword)
          case Err(m) => Outcome(Err(m), docs)
          case Ok(hashed) => Outcome(Ok(Projected(docs[i])), docs[i := docs[i].(password := Some(hashed), updatedAt := now)])
  }

  // ---------------------------------------------------------------------------------------------
  // Properties across operations

  /** A profile update never touches ids or digests, so it keeps ids unique and passwords present. */
  lemma UpdatePreservesInvariants(docs: seq<UserRecord>, userId: UserId, p: Patch, file: Option<Upload>,
                                  destroyError: Option<string>, now: int)
    requires IdsUnique(docs) && PasswordsPresent(docs)
    ensures IdsUnique(UpdateUserDetailsStep(docs, userId, p, file, destroyError, now).docs)
    ensures PasswordsPresent(UpdateUserDetailsStep(docs, userId, p, file, destroyError, now).docs)
  {
    var s := UpdateUserDetailsStep(docs, userId, p, file, destroyError, now);
    if s.result.Ok? {
      var i := FindOne(docs, ById(userId)).value;
      assert s.docs[i].userId == docs[i].userId && s.docs[i].password == docs[i].password;
      assert forall j :: 0 <= j < |docs| ==> s.docs[j].userId == docs[j].userId && s.docs[j].password == docs[j].password;
    }
  }

  /**
   * The store has no unique index on the email: an update may give one account the email of
   * another, after which logins by that email reach only the first of the two.
   */
  lemma UpdateCanDuplicateEmail(docs: seq<UserRecord>, i: nat, j: nat, now: int)
    requires IdsUnique(docs) && i < |docs| && j < |docs| && i != j
    ensures var s := UpdateUserDetailsStep(docs, docs[i].userId,
                                           Patch(None, None, None, Some(docs[j].email), None, None, None, None),
                                           None, None, now);
            s.result.Ok? && !EmailsUnique(s.docs)
  {
    var s := UpdateUserDetailsStep(docs, docs[i].userId,
                                   Patch(None, None, None, Some(docs[j].email), None, None, None, None), None, None, now);
    FindById(docs, i);
    assert s.docs[i].email == s.docs[j].email;
    if i < j {
      assert !(s.docs[i].email != s.docs[j].email);
    } else {
      assert !(s.docs[j].email != s.docs[i].email);
    }
  }

  /** What an update returns is what a later read of the same account returns, while its session is valid. */
  lemma UpdateThenGetUser(docs: seq<UserRecord>, p: Patch, file: Option<Upload>, destroyError: Option<string>,
                          now: int, cookie: Jwt, later: int)
    requires Verify(cookie, later).Ok? && cookie.claims.userId != ""
    requires UpdateUserDetailsStep(docs, cookie.claims.userId, p, file, destroyError, now).result.Ok?
    ensures var s := UpdateUserDetailsStep(docs, cookie.claims.userId, p, file, destroyError, now);
            GetUserStep(s.docs, Some(cookie), later) == s.result
  {
    var s := UpdateUserDetailsStep(docs, cookie.claims.userId, p, file, destroyError, now);
    var i := FindOne(docs, ById(cookie.claims.userId)).value;
    FindOneAfterUpdate(docs, i, s.docs[i], ById(cookie.claims.userId));
  }

  /** After a password change the new password logs in and the current one no longer does. */
  lemma ChangePasswordThenLogin(docs: seq<UserRecord>, userId: UserId, current: string, newPassword: string, now: int)
    requires EmailsUnique(docs)
    requires ChangePasswordStep(docs, userId, Some(current), Some(newPassword), now).result.Ok?
    requires docs[FindOne(docs, ById(userId)).value].email != ""
    requires newPassword != "" && current != "" && current != newPassword
    ensures var s := ChangePasswordStep(docs, userId, Some(current), Some(newPassword), now);
            var email := docs[FindOne(docs, ById(userId)).value].email;
            && Auth.LoginStep(s.docs, Auth.LoginInput(Some(email), Some(newPassword))).Ok?
            && Auth.LoginStep(s.docs, Auth.LoginInput(Some(email), Some(current))) == Err(Auth.InvalidLogin)
  {
    var s := ChangePasswordStep(docs, userId, Some(current), Some(newPassword), now);
    var i := FindOne(docs, ById(userId)).value;
    FindByEmail(docs, i);
    FindOneAfterUpdate(docs, i, s.docs[i], ByEmail(docs[i].email));
  }

  // ---------------------------------------------------------------------------------------------
  // The service, performing each step in place

  class UserService {
    const users: UserCollection

    constructor (users: UserCollection)
      ensures this.users == users
    {
      this.users := users;
    }

    method UpdateUserDetails(userId: UserId, p: Patch, file: Option<Upload>, destroyError: Option<string>, now: int)
      returns (r: Result<UserRecord>, destroyed: Option<string>)
      modifies users
      ensures UpdateUserDetailsStep(old(users.docs), userId, p, file, destroyError, now) == ProfileStep(r, users.docs, destroyed)
    {
      var found := FindOne(users.docs, ById(userId));
      if found.None? {
        return Err(UserNotFound), None;
      }
      var user := users.docs[found.value];
      var imagData: Option<Avatar> := None;
      destroyed := None;
      if file.Some? {
        if file.value.UploadFailed? {
          return Err(file.value.message), None;
        }
        imagData := Some(Descriptor(file.value));
        if Truthy(user.avatar.publicId) {
          destroyed := user.avatar.publicId;
          if destroyError.Some? {
            return Err(destroyError.value), destroyed;
          }
        }
      }
      var computed := if imagData.Some? then imagData.value else NoAvatar;
      var updated := ApplyPatch(user, computed, p, now);
      users.Replace(found.value, updated);
      r := Ok(Projected(updated));
    }

    method GetUser(cookie: Option<Jwt>, now: int) returns (r: Result<UserRecord>)
      ensures r == GetUserStep(users.docs, cookie, now)
    {
      if cookie.None? {
        return Err(Unauthorized);
      }
      var decoded := Verify(cookie.value, now);
      if decoded.Err? {
        return Err(decoded.message);
      }
      if decoded.value.userId == "" {
        return Err(Unauthorized);
      }
      var found := FindOne(users.docs, ById(decoded.value.userId));
      if found.None? {
        return Err(UserNotFound);
      }
      r := Ok(Projected(users.docs[found.value]));
    }

    method ChangePassword(userId: UserId, current: Option<string>, newPassword: Option<string>, now: int)
      returns (r: Result<UserRecord>)
      modifies users
      ensures ChangePasswordStep(old(users.docs), userId, current, newPassword, now) == Outcome(r, users.docs)
    {
      var found := FindOne(users.docs, ById(userId));
      if found.None? {
        return Err(UserNotFound);
      }
      var user := users.docs[found.value];
      var valid := CheckPassword(current, user.password);
      if valid.Err? {
        return Err(valid.message);
      }
      if !valid.value {
        return Err(WrongCurrent);
      }
      var hashed := HashPassword(newPassword);
      if hashed.Err? {
        return Err(hashed.message);
      }
      users.Replace(found.value, user.(password := Some(hashed.value), updatedAt := now));
      r := Ok(Projected(user));
    }
  }
}
