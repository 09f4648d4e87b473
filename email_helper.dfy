/**
 * `EmailHelper` (helper/emails): the one-time code, the reset-link token, and the message
 * chosen by mail type. The Resend client is foreign: what it answers is a `ProviderReply` input.
 */
module EmailHelper {
  import opened Wrappers
  import opened Decimal
  import opened Crypto

  datatype MailType = VerificationCode | SignInCode | ResetLink

  const Sender := "Task Management System <onboarding@resend.dev>"
  const ResetUrlPrefix := "http://localhost:3000/reset-password/?reset_token="

  /** `${x}` for a code that may be null. */
  function RenderCode(code: Option<int>): string {
    if code.None? then "null" else Show(code.value)
  }

  /** `${x}` for a URL that may be null. */
  function RenderUrl(url: Option<string>): string {
    if url.None? then "null" else url.value
  }

  function Subject(t: MailType): string {
    match t
    case VerificationCode => "Your Verification Code"
    case SignInCode => "Your Sign In Code"
    case ResetLink => "Reset Password Link"
  }

  /** The sentence the plain-text body starts with, before the code or the URL. */
  function TextLead(t: MailType): string {
    match t
    case VerificationCode => "Your verification code is: "
    case SignInCode => "Your sign in code is: "
    case ResetLink => "Reset your password here: "
  }

  function Text(t: MailType, code: Option<int>, url: Option<string>): string {
    if t == ResetLink then TextLead(t) + RenderUrl(url) else TextLead(t) + RenderCode(code)
  }

  function Html(t: MailType, code: Option<int>, url: Option<string>): string {
    match t
    case VerificationCode => "<p>Your verification code is: <strong>" + RenderCode(code) + "</strong></p>"
    case SignInCode => "<p>Your sign in code is: <strong>" + RenderCode(code) + "</strong></p>"
    case ResetLink =>
      "<p>Click the link to reset your password: <a href=\"" + RenderUrl(url) + "\">" + RenderUrl(url) + "</a></p>"
  }

  datatype Message = Message(from: string, to: string, subject: string, text: string, html: string)

  /** The message `sendMail` hands to the provider. */
  function Compose(t: MailType, to: string, code: Option<int>, url: Option<string>): Message {
    Message(Sender, to, Subject(t), Text(t, code, url), Html(t, code, url))
  }

  /** What a recipient reads back as the code from a plain-text body, if it is one of ours. */
  function CodeInText(t: MailType, text: string): Option<int> {
    var lead := TextLead(t);
    if t != ResetLink && |lead| < |text| && text[..|lead|] == lead && AllDigits(text[|lead|..])
    then Some(Value(text[|lead|..]))
    else None
  }

  /** What a recipient reads back as the link from a plain-text body, if it is one of ours. */
  function UrlInText(t: MailType, text: string): Option<string> {
    var lead := TextLead(t);
    if t == ResetLink && |lead| <= |text| && text[..|lead|] == lead then Some(text[|lead|..]) else None
  }

  /** The three mail types have three different subjects. */
  lemma SubjectsDistinct(t: MailType, u: MailType)
    ensures Subject(t) == Subject(u) <==> t == u
  {
  }

  /** The plain-text body of a code mail carries the code: the reader gets back exactly the code sent. */
  lemma CodeReadBack(t: MailType, code: nat, url: Option<string>)
    requires t != ResetLink
    ensures CodeInText(t, Text(t, Some(code), url)) == Some(code)
  {
    var lead, text := TextLead(t), Text(t, Some(code), url);
    assert text == lead + Digits(code);
    assert text[|lead|..] == Digits(code);
    ValueOfDigits(code);
  }

  /** The plain-text body of a link mail carries the URL; a code mail never reads as a link. */
  lemma UrlReadBack(t: MailType, code: Option<int>, url: string)
    ensures UrlInText(t, Text(t, code, Some(url))) == if t == ResetLink then Some(url) else None
  {
    if t == ResetLink {
      var lead := TextLead(t);
      assert Text(t, code, Some(url))[|lead|..] == url;
    }
  }

  /** `generateOtp`: `Math.floor(100000 + Math.random() * 900000)`, with the random draw `floor(r * 900000)` as input. */
  function GenerateOtp(draw: int): (code: int)
    requires 0 <= draw < 900000
    ensures 100000 <= code <= 999999
    ensures |Show(code)| == 6
  {
    var code := 100000 + draw;
    SixDigits(code);
    code
  }

  lemma SixDigits(n: nat)
    requires 100000 <= n <= 999999
    ensures |Show(n)| == 6
  {
    assert Digits(n) == Digits(n / 10) + [DigitChar(n % 10)];
    assert Digits(n / 10) == Digits(n / 100) + [DigitChar(n / 10 % 10)];
    assert Digits(n / 100) == Digits(n / 1000) + [DigitChar(n / 100 % 10)];
    assert Digits(n / 1000) == Digits(n / 10000) + [DigitChar(n / 1000 % 10)];
    assert Digits(n / 10000) == Digits(n / 100000) + [DigitChar(n / 10000 % 10)];
  }

  /** `generateJwt`: a token whose `user_id` claim is the given id. */
  function GenerateJwt(userId: string, now: int, lifetime: int): (t: Jwt)
    ensures t.claims.userId == userId && t.claims.expiresAt == now + lifetime
    ensures forall later :: now <= later < now + lifetime ==> Verify(t, later) == Ok(t.claims)
  {
    Sign(userId, now, lifetime)
  }

  /** The reset URL: the fixed prefix followed by the token. */
  function ResetUrl(token: Jwt): (url: string)
    ensures |url| > |ResetUrlPrefix| && url[..|ResetUrlPrefix|] == ResetUrlPrefix
    ensures url[|ResetUrlPrefix|..] == Compact(token)
  {
    ResetUrlPrefix + Compact(token)
  }

  /** The provider's `{ data, error }` answer; `data` carries the message id. */
  datatype MailData = MailData(id: string)
  datatype ProviderReply = ProviderReply(data: Option<MailData>, error: Option<string>)

  /** `sendMail` after the send call: a provider error is thrown, otherwise its data is returned. */
  function Deliver(reply: ProviderReply): (r: Result<Option<MailData>>)
    ensures r.Err? <==> reply.error.Some?
    ensures r.Err? ==> r.message == reply.error.value
    ensures r.Ok? ==> r.value == reply.data
  {
    if reply.error.Some? then Err(reply.error.value) else Ok(reply.data)
  }

  /** `result?.id` is truthy. */
  predicate Confirmed(result: Option<MailData>) {
    result.Some? && result.value.id != ""
  }

  /** What `sendOTP` / `sendLink` produce: the code or token, the message sent, and the send result. */
  datatype Sent<T> = Sent(value: T, message: Message, result: Result<Option<MailData>>)

  /** `sendOTP(type, email)`: draws a code, mails it, and returns that same code with the send result. */
  function SendOtp(t: MailType, email: string, draw: int, reply: ProviderReply): (s: Sent<int>)
    requires t != ResetLink
    requires 0 <= draw < 900000
    ensures 100000 <= s.value <= 999999
    ensures s.message.to == email && s.message.subject == Subject(t)
    ensures CodeInText(t, s.message.text) == Some(s.value)
    ensures s.result == Deliver(reply)
  {
    var code := GenerateOtp(draw);
    CodeReadBack(t, code, None);
    Sent(code, Compose(t, email, Some(code), None), Deliver(reply))
  }

  /** `sendLink(user_id, email)`: signs a token for the user and mails the reset URL that carries it. */
  function SendLink(userId: string, email: string, now: int, lifetime: int, reply: ProviderReply): (s: Sent<Jwt>)
    ensures s.value.claims.userId == userId
    ensures s.message.to == email && s.message.subject == Subject(ResetLink)
    ensures UrlInText(ResetLink, s.message.text) == Some(ResetUrl(s.value))
    ensures s.result == Deliver(reply)
  {
    var token := GenerateJwt(userId, now, lifetime);
    UrlReadBack(ResetLink, None, ResetUrl(token));
    Sent(token, Compose(ResetLink, email, None, Some(ResetUrl(token))), Deliver(reply))
  }
}
