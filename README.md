# Account backend: credential and one-time-code lifecycle, in Dafny

This project models the core of a small TypeScript account backend (Express over a MongoDB
`users` collection). The modelled core covers:

- **Sign-up and login.** Both live in the modular `AuthService` and in the legacy controller.
- **The one-time-code lifecycle.** A user record has three slots: a password-reset code, a
  sign-in code, and a reset-link token. Each is issued, mailed, checked against `now`, and
  cleared on use.
- **Password reset and password change.**
- **Profile update.** This includes the avatar-replacement rule and the order in which request
  fields are spread over the document.
- **The two session guards.** One looks the user up on every request. The other keeps a
  process-wide ten-minute cache that is never evicted.
- **The helpers they rely on.** These are code generation, mail content by type, response
  envelopes, password blanking, and session cookies.

The files are:

| file | module | models |
|---|---|---|
| `wrappers.dfy` | `Wrappers` | `Option`, `Result` (a thrown `Error` is `Err(message)`), JavaScript truthiness of a request field |
| `decimal.dfy` | `Decimal` | how a template literal prints an integer, and reading it back |
| `crypto.dfy` | `Crypto` | symbolic bcrypt and jsonwebtoken |
| `users.dfy` | `Users` | the user document, `findOne` as the first match in natural order, the collection as a class |
| `email_helper.dfy` | `EmailHelper` | `helper/emails/index.ts` |
| `send_email.dfy` | `SendEmail` | `helper/sendEmail.ts` |
| `app_helper.dfy` | `AppHelper` | `helper/app/index.ts` |
| `send_token.dfy` | `SendToken` | `helper/sendToken.ts` |
| `auth_service.dfy` | `Auth` | `module/v1/auth/service/auth.service.ts` |
| `user_service.dfy` | `Profile` | `module/v1/user/service/user.service.ts` |
| `user_controller.dfy` | `LegacyUsers` | `controller/user/index.ts` |
| `auth_guard.dfy` | `AuthGuard` | `middleware/auth.ts` |
| `auth_middleware.dfy` | `CachedAuth` | `middleware/authMiddleware/index.ts` |

**How the operations are modelled.** Each operation that changes the store appears twice:

- A pure *step* function (`SignupStep`, `SendCodeStep`, ...) gives the reply, the collection
  afterwards, and any side output. The side output is the mail handed to the provider, or the
  remote asset it asked to destroy. The step's contract states the outcome rules.
- A method on a class does the same work in place. The classes are `Auth.AuthService`,
  `Profile.UserService`, `LegacyUsers.UserController` and `CachedAuth.AuthMiddleware`. Each
  holds a `Users.UserCollection`, or the `userCache` map. Each method is proved to leave exactly
  the step's state and to return the step's reply.

The lemmas relate operations to each other:

- sign-up then login;
- a mailed code then its verification;
- a second use of a code or a token;
- an update then a read;
- the legacy handlers against the modular service;
- the cached guard against the cache-less one.

**Inputs supplied as parameters.** Nothing here talks to the outside world. The following
become parameters of the operations:

- the clock: `now`, in milliseconds, one instant per request;
- `Math.random`: the draw `floor(r * 900000)`, in `[0, 900000)`;
- `uuid`: `newId`;
- the mail provider's `{ data, error }` answer: `ProviderReply`;
- the image host's upload result: `Upload`;
- its `destroy` failure: `destroyError`;
- the environment: `Env`, which holds `NODE_ENV`, `COOKIE_EXPIRES` and `JWT_EXPIRES`.

**Modelled symbolically.** Two things are terms rather than computations:

- A bcrypt digest is the term `Digest(password)`.
- A token is its claims `(user_id, exp)` plus a flag saying whether its signature checks.
  `Verify` throws jsonwebtoken's own messages.

**Intended behaviour the code does not enforce.** Three places in the source point to a rule that
the code as a whole does not keep. The model follows the code in each case:

- **Unique emails.** Sign-up refuses an email that is already in use (`auth.service.ts:25-26`). But
  the schema puts a unique index only on `user_id` (`model/user/index.ts:19`), and the profile
  update does not check. `Profile.UpdateCanDuplicateEmail` shows that an update can give two
  accounts the same email.
- **One-time reset tokens.** Verification stores the reset token with its expiry
  (`auth.service.ts:130-137`), but the reset never compares the presented token with it (see
  Findings).
- **Password-free responses.** `AppHelper.Blank` (`helper/app/index.ts:40-42`) removes only the
  password. The code, token and expiry fields stay in what is sent back, and the model keeps
  them too.

## Model

| member | source | states |
|---|---|---|
| `Decimal.ValueOfDigits` | helper/emails/index.ts:58-60 | the decimal text a template literal prints for a non-negative code parses back to that code |
| `Crypto.HashPassword` | module/v1/auth/service/auth.service.ts:193-195 | hashing succeeds exactly when the plaintext is present; the digest compares equal to that plaintext; otherwise it throws bcrypt's "data and salt arguments required" |
| `Crypto.CheckPassword` | module/v1/auth/service/auth.service.ts:197-199 | the comparison answers exactly when plaintext and digest are both present, and is true iff the digest is that plaintext's; otherwise it throws bcrypt's "data and hash arguments required" |
| `Crypto.VerifySigned` | model/user/index.ts:44-51 | a token signed for a user verifies, to that user id, exactly while `now` is before its expiry |
| `Users.FindOne` | module/v1/auth/service/auth.service.ts:64-65 | `findOne` returns the first document in natural order that matches the filter, and returns none only when no document matches |
| `Users.UserCollection.Insert` | module/v1/auth/service/auth.service.ts:31-40 | `create` appends exactly the new document |
| `Users.UserCollection.Replace` | module/v1/auth/service/auth.service.ts:75-81 | `findOneAndUpdate` rewrites exactly the found document and leaves the others alone |
| `EmailHelper.SubjectsDistinct` | helper/emails/index.ts:49-54 | the three mail types get three different subjects |
| `EmailHelper.CodeReadBack` | helper/emails/index.ts:56-60 | the plain-text body of a code mail carries the code, and a reader gets back exactly the code sent |
| `EmailHelper.UrlReadBack` | helper/emails/index.ts:56-61 | the plain-text body of a link mail carries the reset URL, and a code mail never reads as a link |
| `EmailHelper.GenerateOtp` | helper/emails/index.ts:14-16 | the code lies in [100000, 999999] and always prints as six digits |
| `EmailHelper.GenerateJwt` | helper/emails/index.ts:18-24 | the token's `user_id` claim is the given id, and it verifies to its claims for its whole lifetime |
| `EmailHelper.ResetUrl` | helper/emails/index.ts:35-37 | the reset URL is the fixed `http://localhost:3000/reset-password/?reset_token=` prefix followed by the token |
| `EmailHelper.Deliver` | helper/emails/index.ts:70-84 | a provider error is thrown with its message; otherwise the provider's data is returned unchanged |
| `EmailHelper.SendOtp` | helper/emails/index.ts:26-33 | `sendOTP` returns a six-digit code, the same code a reader finds in the mail it sent, and the send result |
| `EmailHelper.SendLink` | helper/emails/index.ts:35-40 | `sendLink` returns a token for the user, and the mail it sent carries that token's reset URL |
| `SendEmail.SendForgotPasswordMail` | helper/sendEmail.ts:10-56 | the legacy sender composes the same message by type as `EmailHelper`, with the code or URL readable back; it throws on a provider error and otherwise returns the data unchanged |
| `AppHelper.Blank` | helper/app/index.ts:40-42 | the user's password is removed and every other field is kept |
| `AppHelper.Success` | helper/app/index.ts:4-20 | the success envelope carries the code and message; a `{ user }` payload loses only the password; other data passes unchanged |
| `AppHelper.Error` | helper/app/index.ts:22-29 | the failure envelope always has `success: false`, the code and message, and no data |
| `AppHelper.CookieOptionsFor` | helper/app/index.ts:44-49 | the cookie is http-only; it is `secure` iff production; `sameSite` is `none` iff production and `lax` otherwise, so a `none` cookie is always secure; it expires `COOKIE_EXPIRES` days after `now` |
| `AppHelper.SessionToken` | helper/app/index.ts:38 | the token is issued from the user document before its password is blanked, names that user, and verifies for `JWT_EXPIRES` |
| `AppHelper.SendToken` | helper/app/index.ts:31-60 | the response sets the `access_token` cookie to the user's fresh token and returns the user's fields without the password, plus `access_token` |
| `AppHelper.OptionalGenerator` | helper/app/index.ts:62-64 | the full name is the first name, one space and the last name, and both parts can be cut back out |
| `SendToken.SendToken` | helper/sendToken.ts:11-32 | the legacy session response sets the same cookie and returns the password-free fields plus `access_token` under `values` |
| `SendToken.SendTokenVariantsAgree` | helper/sendToken.ts:24-31 | both `sendToken`s set the same cookie and return the same session fields, one under `values` and the other under `data` |
| `Auth.SignupStep` | module/v1/auth/service/auth.service.ts:18-43 | sign-up needs all four fields and an unused email. On failure the store is unchanged. On success exactly one document is appended, with the new id, `full_name = first + " " + last`, the hashed password and empty slots |
| `Auth.LoginStep` | module/v1/auth/service/auth.service.ts:45-59 | login succeeds iff both fields are present, a document has the email, and the password matches its digest; an unknown email and a wrong password give the same "Provided credentials are Invalid." |
| `Auth.SendCodeStep` | module/v1/auth/service/auth.service.ts:61-109 | the code is persisted iff the email is known and the provider confirmed the send with an id. The persisted code is the one in the mail, and it expires three hours after `now`. Every failure leaves the store unchanged |
| `Auth.VerifyForgotStep` | module/v1/auth/service/auth.service.ts:111-141 | the user is the first match for the email, or the first document when the email is absent; success requires the stored code to equal the submitted one, an expiry, `now` strictly before it, and a confirmed link mail. Success clears the code and stores the mailed token for three hours. Every failure leaves the store unchanged |
| `Auth.VerifySignInStep` | module/v1/auth/service/auth.service.ts:143-160 | the user is the first match for the email, or the first document when the email is absent; a live matching sign-in code is cleared and the user is returned as read; anything else is "Invalid or expired code" or "Invalid credentials", with the store unchanged |
| `Auth.ResetPasswordStep` | module/v1/auth/service/auth.service.ts:162-177 | reset succeeds iff the token verifies and a new password is given. It rehashes the password of the user the token names and clears the stored token, without ever comparing it |
| `Auth.ResetPasswordOnceStep` | module/v1/auth/service/auth.service.ts:162-177 | corrected reset: a change happens only if the presented token equals the stored, unexpired one, and the change clears that token |
| `Auth.GetUserStep` | module/v1/auth/service/auth.service.ts:179-183 | the stored document with that id is returned, without its password; the read fails with "User not found" exactly when there is none |
| `Auth.SignupPreservesInvariants` | module/v1/auth/service/auth.service.ts:25-40 | sign-up keeps user ids unique, keeps every document's digest present, and keeps emails unique when they were |
| `Auth.SignupThenGetUser` | module/v1/auth/service/auth.service.ts:179-183 | the account a sign-up creates is what `getUser` then returns for its id, without the password |
| `Auth.SignupThenLogin` | module/v1/auth/service/auth.service.ts:28-58 | after a sign-up, logging in with that email and password returns the new account, and any other password is refused |
| `Auth.MailedCodeVerifies` | module/v1/auth/service/auth.service.ts:75-120 | a code persisted by `sendForgotPasswordCode` or `sendSignInCode`, typed in from the mail, is accepted by the matching verification throughout the following three hours |
| `Users.EmailFilter` | module/v1/auth/service/auth.service.ts:112 | the query `{ email_address: email }` filters by that email when one is given, and matches every document when the email is absent |
| `Auth.MissingEmailChecksFirstDocument` | module/v1/auth/service/auth.service.ts:111-160 | with no email in the request, both verifications check the submitted code against the first document in the store |
| `Auth.SignInCodeIsOneTime` | module/v1/auth/service/auth.service.ts:147-157 | once a sign-in code has been accepted, the same submission is refused |
| `Auth.VerificationCodeIsOneTime` | module/v1/auth/service/auth.service.ts:115-137 | once a verification code has been accepted, the same code is refused |
| `Auth.FailedSendKeepsCodeLive` | module/v1/auth/service/auth.service.ts:122-138 | when the link mail fails the store is unchanged, and a retry with the same live code and a confirmed send succeeds |
| `Auth.ResetTokenReplayable` | module/v1/auth/service/auth.service.ts:162-176 | as written, a second reset with the same unexpired token succeeds again and sets the second password |
| `Auth.ResetTokenIsOneTime` | module/v1/auth/service/auth.service.ts:162-176 | with the corrected reset, a token that has reset a password is refused afterwards |
| `Auth.IssuedResetTokenWorks` | module/v1/auth/service/auth.service.ts:130-137 | the token stored by a successful code verification is accepted by the corrected reset while both it and its stored expiry are live |
| `Auth.ResetThenLogin` | module/v1/auth/service/auth.service.ts:162-174 | after a reset the new password logs in and the old one is refused |
| `Auth.AuthService.Signup` | module/v1/auth/service/auth.service.ts:18-43 | in place: the reply and the collection afterwards are those of `SignupStep` |
| `Auth.AuthService.Login` | module/v1/auth/service/auth.service.ts:45-59 | the reply is that of `LoginStep`, and nothing changes |
| `Auth.AuthService.SendCode` | module/v1/auth/service/auth.service.ts:61-109 | in place: the shared body of both code senders performs `SendCodeStep` on the chosen slot |
| `Auth.AuthService.SendForgotPasswordCode` | module/v1/auth/service/auth.service.ts:61-84 | in place: `SendCodeStep` on the verification slot |
| `Auth.AuthService.SendSignInCode` | module/v1/auth/service/auth.service.ts:86-109 | in place: `SendCodeStep` on the sign-in slot |
| `Auth.AuthService.VerifyForgotPasswordCode` | module/v1/auth/service/auth.service.ts:111-141 | in place: `VerifyForgotStep`, mailing before writing |
| `Auth.AuthService.VerifySignInCode` | module/v1/auth/service/auth.service.ts:143-160 | in place: `VerifySignInStep` |
| `Auth.AuthService.ResetPassword` | module/v1/auth/service/auth.service.ts:162-177 | in place: `ResetPasswordStep`, as written |
| `Auth.AuthService.ResetPasswordOnce` | module/v1/auth/service/auth.service.ts:162-177 | in place: the corrected `ResetPasswordOnceStep` |
| `Auth.AuthService.GetUser` | module/v1/auth/service/auth.service.ts:179-183 | the reply is that of `GetUserStep`, and nothing changes |
| `Profile.Descriptor` | module/v1/user/service/user.service.ts:42-47 | the avatar copies exactly the upload's url, format, public id and asset id |
| `Profile.ApplyPatch` | module/v1/user/service/user.service.ts:54-61 | every key present in the body overrides its field, `data.avatar` included over the computed avatar; each absent key leaves its own field unchanged; the modelled keys never touch id, password, codes or `full_name` |
| `Profile.DestroyTarget` | module/v1/user/service/user.service.ts:49-51 | the old asset is destroyed iff a file was supplied and the old `public_id` is non-empty |
| `Profile.UpdateUserDetailsStep` | module/v1/user/service/user.service.ts:30-64 | "User not found" changes nothing; so do an upload failure and a destroy failure. On success the avatar is `data.avatar`, else the upload's descriptor, else `{}`; other documents are untouched; the stored document is returned |
| `Profile.GetUserStep` | module/v1/user/service/user.service.ts:66-77 | a missing cookie or an empty `user_id` claim gives "Unauthorize access."; a bad token gives jsonwebtoken's error; an unknown user gives "User not found"; otherwise the named user without a password |
| `Profile.ChangePasswordStep` | module/v1/user/service/user.service.ts:94-112 | the change succeeds iff the user exists, the current password matches, and a new one is given. Then only the digest (and `updated_at`) of that document change, and the pre-update document is returned |
| `Profile.UpdatePreservesInvariants` | module/v1/user/service/user.service.ts:54-61 | a profile update keeps user ids unique and every digest present |
| `Profile.UpdateCanDuplicateEmail` | module/v1/user/service/user.service.ts:54-61 | an update that sets one account's email to another's succeeds and leaves two documents with the same email |
| `Profile.UpdateThenGetUser` | module/v1/user/service/user.service.ts:60-76 | what an update returns is what a later read of the same account returns while the session is valid |
| `Profile.ChangePasswordThenLogin` | module/v1/user/service/user.service.ts:104-111 | after a password change the new password logs in and the current one is refused |
| `Profile.UserService.UpdateUserDetails` | module/v1/user/service/user.service.ts:30-64 | in place: `UpdateUserDetailsStep`, building `imagData` before the single update |
| `Profile.UserService.GetUser` | module/v1/user/service/user.service.ts:66-77 | the reply is that of `GetUserStep`, and nothing changes |
| `Profile.UserService.ChangePassword` | module/v1/user/service/user.service.ts:94-112 | in place: `ChangePasswordStep` |
| `LegacyUsers.Respond` | helper/sendResponse.ts:3-16 | `SendResponse` answers with the code and message and a `{ user }` payload that is the given user with only the password removed |
| `LegacyUsers.SignUpStep` | controller/user/index.ts:50-83 | 400 for a missing field or a used email; 201 with a session exactly when the service's sign-up succeeds; the store changes exactly as under the service's sign-up |
| `LegacyUsers.LoginStep` | controller/user/index.ts:85-107 | 201 with a session exactly when the service's login accepts; 400 for a missing field; 403 for an unknown email or a wrong password |
| `LegacyUsers.SendForgotPasswordCodeStep` | controller/user/index.ts:109-150 | 400/403 for a missing or unknown email. 200 iff the send was confirmed; a provider error or a send without an id gives 500 "Something went wrong." with the store unchanged. The store and the mail are exactly those of the service's `sendForgotPasswordCode` |
| `LegacyUsers.VerifyForgotPasswordCodeStep` | controller/user/index.ts:152-214 | 400, 403 or 402 leave the store unchanged. A live matching code clears the code and stores the token before the link is mailed; the reply is 200 iff that mail is confirmed and 500 otherwise |
| `LegacyUsers.ResetPasswordStep` | controller/user/index.ts:216-246 | 500 "Something went wrong." for a missing password or token or a bad token, and 500 "Something went wrong check." for a token without a `user_id`, each with nothing changed; 200 iff the token verifies to a non-empty id, with the same store change as the service's reset |
| `LegacyUsers.ChangePasswordStep` | controller/user/index.ts:248-282 | 400 when either password is missing; 403 "Provided credentials are Invalid." for an unknown user or a wrong current password; otherwise the store change and success agree with the service's `changePassword`, and 200 returns the password-free pre-update user |
| `LegacyUsers.UpdateUserDetailsStep` | controller/user/index.ts:284-371 | 403 for an unknown user; 500 "Something went wrong." on an upload failure or a failed destroy of the old avatar, with the store unchanged; on 200 only that user's document changes: first name, last name, user name and email are written where given, the avatar is the upload descriptor or the all-empty-string descriptor when no file came, and the stored document is returned without its password |
| `LegacyUsers.FailedSendConsumesCode` | controller/user/index.ts:184-209 | as written, a valid code whose link mail fails is answered 500 and is already consumed: resubmitting it gives 402 |
| `LegacyUsers.UpdateVariantsDiffer` | controller/user/index.ts:343-360 | without a file the legacy update and the service update leave the same store except for the avatar, which is all-empty strings in one and `{}` in the other |
| `LegacyUsers.UserController.SignUpUser` | controller/user/index.ts:50-83 | in place: `SignUpStep` |
| `LegacyUsers.UserController.LoginUser` | controller/user/index.ts:85-107 | the reply is that of `LoginStep`, and nothing changes |
| `LegacyUsers.UserController.SendForgotPasswordCode` | controller/user/index.ts:109-150 | in place: `SendForgotPasswordCodeStep` |
| `LegacyUsers.UserController.VerifyForgotPasswordCode` | controller/user/index.ts:152-214 | in place: `VerifyForgotPasswordCodeStep`, writing before mailing |
| `LegacyUsers.UserController.ResetPassword` | controller/user/index.ts:216-246 | in place: `ResetPasswordStep` |
| `LegacyUsers.UserController.ChangePassword` | controller/user/index.ts:248-282 | in place: `ChangePasswordStep` |
| `LegacyUsers.UserController.UpdateUserDetails` | controller/user/index.ts:284-371 | in place: `UpdateUserDetailsStep` |
| `AuthGuard.AuthenticateUserStep` | middleware/auth.ts:12-40 | 401 "Unauthorized access." without a cookie, 401 "Invalid or expired token." for a bad token, and 401 "User not found." when no document has the token's id. The request passes exactly when the token verifies and names a stored user, who is then attached without a password |
| `AuthGuard.AuthenticateUser` | middleware/auth.ts:17-39 | in place: on a pass, `req.user` is set and `next` is called exactly once; on a denial, `req` is left alone and the 401 reply is written |
| `AuthGuard.SessionPassesGuard` | middleware/auth.ts:24-35 | the cookie set by a sign-up or login lets its holder through as that same account for the whole token lifetime |
| `AuthGuard.ExpiredSessionDenied` | middleware/auth.ts:24-39 | once the token has expired, the same cookie is refused with "Invalid or expired token.", whatever the store holds |
| `CachedAuth.AuthenticateStep` | middleware/authMiddleware/index.ts:12-47 | no cookie, a bad token, or a miss on an unknown user gives 401 ("Unauthorized access", "Invalid or expired token", "User not found") with the cache unchanged. A live entry (`expires > now`, strictly) answers without the store. A miss that finds the user proceeds with it, password-free, and stores `(user, now + 600000)` under that id. Entries are never removed and other keys are never changed |
| `CachedAuth.AuthMiddleware.AuthenticateUser` | middleware/authMiddleware/index.ts:12-47 | in place: `userCache` becomes the step's cache; a pass sets `req.user` and calls `next` once; a rejection leaves `req` alone |
| `CachedAuth.HitIgnoresStore` | middleware/authMiddleware/index.ts:27-31 | with a live entry, the decision and the cache are the same whatever the store holds |
| `CachedAuth.RefillThenHit` | middleware/authMiddleware/index.ts:27-42 | after a lookup, the same token is answered from the cache for ten minutes, even if the store changed meanwhile |
| `CachedAuth.EntriesPersist` | middleware/authMiddleware/index.ts:9 | an entry for another user, expired or not, survives every request unchanged |
| `CachedAuth.ColdAgreesWithGuard` | middleware/authMiddleware/index.ts:17-46 | without a live entry the cached middleware decides as the cache-less guard does, with the same status and the guard's message minus its final full stop |

## Left out

- Logout (`auth.service.ts:185-191`, `controller/user/index.ts:373-385`): it only clears the cookie, so it has no store effect to model.
- The legacy `getUser` handler (`controller/user/index.ts:387-410`): not modelled. Its rules are those of `Profile.GetUserStep`, with statuses 500/401/200.
- Routes, the thin module controllers, `asyncHandler`, multer disk storage and `fs.unlink`: framework plumbing without store effects.
- Database and network failures in mongoose calls: not modelled. Every store call succeeds.
- Concurrency: requests are sequential. Two simultaneous submissions of one code, or two simultaneous sign-ups with one email, are not modelled.
- Time: one `now` per request, in milliseconds. The source reads `Date.now()` more than once per request, and jsonwebtoken's `exp` has a granularity of seconds.
- bcrypt: salts and cost are not modelled. A digest is an ideal function of the password, so the stored digest is never the plaintext.
- jsonwebtoken: the secret, `iat`, and malformed-token errors are reduced to one "signature checks" flag. `Crypto.Compact` is a stand-in for the token's serialised form inside the reset URL.
- Auth.SignupStep: a colliding `uuid` is reported with the stand-in message "E11000 duplicate key error". The driver's full message is not modelled.
- The sign-in code: the mongoose schema declares no `signInCode` fields, although the interface does. Under strict mode the store would drop them. The model follows the service as written, as if the fields were stored.
- Profile.UpdateUserDetailsStep: models only the body keys that name profile fields. A body that also carries `password`, `user_id`, `full_name`, `created_by`, `updated_by`, a code field or a timestamp is not modelled, and `...data` would write those verbatim too.
- Profile.ApplyPatch: the promise that `full_name`, id, password and codes are untouched holds only for the modelled keys; the source's spread would overwrite them from a body that carries them.
- The avatar interface names the URL field `ur`; the model follows the schema, which names it `url`.
- AppHelper.Blank: returns a blanked copy. The source blanks `password` on the caller's object in place, and that aliasing is not modelled.
- CachedAuth.AuthenticateStep: the cache holds the user as a value. The source shares the same object by reference.
- Sessions: `{ ...user._doc, access_token }` is modelled as the document's fields plus the token. Mongoose bookkeeping fields such as `_id` and `__v` are not modelled.
- Submitted codes: an absent, empty or numeric-zero `verification_code` is `Missing`, which is falsy for the legacy check. The modular service converts with `Number(code)`, where absent gives NaN and never matches.

## Findings

| source | as written | input that shows it | evidently intended | confidence | as-written member | corrected member |
|---|---|---|---|---|---|---|
| module/v1/auth/service/auth.service.ts:162-176 | `resetPassword` checks only the token's signature and expiry. It clears the stored `resetPasswordToken` but never compares the presented token with it. The legacy handler at `controller/user/index.ts:225-238` does the same | a reset link used a second time before its JWT expires, with another password: the second reset also succeeds | a reset link resets once: the presented token must equal the stored, unexpired `resetPasswordToken`, which the reset then clears | high, not executed | `Auth.ResetTokenReplayable` | `Auth.ResetTokenIsOneTime` |
| controller/user/index.ts:184-209 | the legacy `verifyForgotPasswordCode` clears the code and stores the reset token before mailing the link. A failed send answers 500 with the code already consumed | a valid, live code submitted while the mail provider returns an error: the reply is 500, and resubmitting the same code gets 402 | persist only after a confirmed send, as the modular service does at `auth.service.ts:122-138`, so that a failed send leaves the code usable | medium, not executed | `LegacyUsers.FailedSendConsumesCode` | `Auth.FailedSendKeepsCodeLive` |
