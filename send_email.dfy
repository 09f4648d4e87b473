/** `sendForgotPasswordMail` (helper/sendEmail), the mail sender the legacy controller uses. */
module SendEmail {
  import opened Wrappers
  import opened EmailHelper

  /** The message handed to the provider and what the call returns or throws. */
  datatype Delivery = Delivery(message: Message, result: Result<Option<MailData>>)

  /**
   * Chooses subject, text and html by `type` exactly as `EmailHelper` does, sends, throws the
   * provider's error and otherwise returns the provider's data unchanged.
   */
  function SendForgotPasswordMail(t: MailType, email: string, code: Option<int>, resetUrl: Option<string>,
                                  reply: ProviderReply): (d: Delivery)
    ensures d.message == Compose(t, email, code, resetUrl)
    ensures d.message.subject == Subject(t)
    ensures t != ResetLink && code.Some? && code.value >= 0 ==> CodeInText(t, d.message.text) == code
    ensures t == ResetLink && resetUrl.Some? ==> UrlInText(t, d.message.text) == resetUrl
    ensures d.result.Err? <==> reply.error.Some?
    ensures d.result.Ok? ==> d.result.value == reply.data
  {
    ReadsBack(t, code, resetUrl);
    Delivery(Compose(t, email, code, resetUrl), Deliver(reply))
  }

  lemma ReadsBack(t: MailType, code: Option<int>, resetUrl: Option<string>)
    ensures t != ResetLink && code.Some? && code.value >= 0 ==> CodeInText(t, Text(t, code, resetUrl)) == code
    ensures t == ResetLink && resetUrl.Some? ==> UrlInText(t, Text(t, code, resetUrl)) == resetUrl
  {
    if t != ResetLink && code.Some? && code.value >= 0 {
      CodeReadBack(t, code.value, resetUrl);
    }
    if resetUrl.Some? {
      UrlReadBack(t, code, resetUrl.value);
    }
  }
}
