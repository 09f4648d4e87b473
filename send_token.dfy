/** `sendToken` (helper/sendToken), the session issuance of the legacy controller. */
module SendToken {
  import opened Wrappers
  import opened Users
  import AppHelper

  /** The legacy body: `{ success, message, values }`, with no `statusCode`. */
  datatype LegacyBody = LegacyBody(success: bool, message: string, values: AppHelper.Payload)

  datatype LegacyTokenResponse = LegacyTokenResponse(status: int, cookie: AppHelper.Cookie, body: LegacyBody)

  /** `sendToken(code, message, res, data)`. */
  function SendToken(code: int, message: string, data: Option<UserRecord>, env: AppHelper.Env, now: int): (r: LegacyTokenResponse)
    ensures r.status == code && r.body.success && r.body.message == message
    ensures r.cookie.name == "access_token" && r.cookie.options == AppHelper.CookieOptionsFor(env, now)
    ensures r.cookie.value == AppHelper.SessionToken(data, env, now)
    ensures r.body.values == AppHelper.SessionPayload(AppHelper.Blank(data), r.cookie.value)
    ensures AppHelper.PasswordFree(Some(r.body.values))
  {
    var token := AppHelper.SessionToken(data, env, now);
    LegacyTokenResponse(code, AppHelper.Cookie("access_token", token, AppHelper.CookieOptionsFor(env, now)),
                        LegacyBody(true, message, AppHelper.SessionPayload(AppHelper.Blank(data), token)))
  }

  /** The two `sendToken`s set the same cookie and return the same session fields, under `values` here and `data` there. */
  lemma SendTokenVariantsAgree(code: int, message: string, user: Option<UserRecord>, env: AppHelper.Env, now: int)
    ensures SendToken(code, message, user, env, now).cookie == AppHelper.SendToken(code, message, user, env, now).cookie
    ensures Some(SendToken(code, message, user, env, now).body.values) == AppHelper.SendToken(code, message, user, env, now).body.data
  {
  }
}
