/** The two notification senders of `src/Helpers/notification.py`. Each one
    checks its credentials in the process environment, builds what it hands
    to its transport (SMTP over SSL, or the Twilio messages API), and lets a
    transport failure propagate. The transport itself is abstract: the
    caller says whether it delivered. */
module Notification {
  import opened Common
  import Text

  const SmtpServer: string := "smtp.gmail.com"
  const SmtpPort: nat := 465

  const SenderEmailVar: string := "SENDER_EMAIL"
  const SenderPasswordVar: string := "SENDER_PASSWORD"
  const TwilioSidVar: string := "TWILIO_ACCOUNT_SID"
  const TwilioTokenVar: string := "TWILIO_AUTH_TOKEN"
  const TwilioPhoneVar: string := "TWILIO_PHONE_NUMBER"

  /** One call of a sender: either its credential guard raised `ValueError`
      before any transport call, or it handed `request` to the transport,
      which delivered it or raised. */
  datatype Dispatch<M> = Rejected | Handed(request: M, delivered: bool)
  {
    /** The call raised to its caller: the guard's `ValueError`, or the
        transport's exception re-raised unchanged. */
    predicate Raises()
    {
      Rejected? || !delivered
    }
  }

  /** The `MIMEText` message with its three headers. */
  datatype MimeText = MimeText(body: string, subject: string, from: string, to: string)

  /** Everything the SMTP transport is given: where to connect, the login,
      the envelope sender and recipients, and the message. */
  datatype SmtpSubmission = SmtpSubmission(
    server: string, port: nat,
    user: string, password: string,
    envelopeFrom: string, envelopeTo: seq<string>,
    message: MimeText)

  /** The arguments of `client.messages.create`, with the client's
      credentials. The recipient is passed through as the caller gave it,
      possibly `None`. */
  datatype SmsRequest = SmsRequest(
    accountSid: string, authToken: string,
    body: string, from: string, to: Option<string>)

  predicate EmailConfigured(env: Env)
  {
    Truthy(GetEnv(env, SenderEmailVar)) && Truthy(GetEnv(env, SenderPasswordVar))
  }

  predicate SmsConfigured(env: Env)
  {
    Truthy(GetEnv(env, TwilioSidVar)) && Truthy(GetEnv(env, TwilioTokenVar))
    && Truthy(GetEnv(env, TwilioPhoneVar))
  }

  /** `send_email(subject, body, recipients)`. */
  function SendEmail(env: Env, subject: string, body: string, recipients: seq<string>,
                     transportDelivers: bool): (r: Dispatch<SmtpSubmission>)
    ensures r.Rejected? <==> !EmailConfigured(env)
    ensures r.Handed? ==>
      var sender := env[SenderEmailVar];
      && r.request.server == SmtpServer && r.request.port == SmtpPort
      && r.request.user == sender && r.request.password == env[SenderPasswordVar]
      && r.request.envelopeFrom == sender && r.request.envelopeTo == recipients
      && r.request.message.subject == subject && r.request.message.body == body
      && r.request.message.from == sender
      && r.request.message.to == Text.Join(recipients, ", ")
    ensures r.Handed? ==> r.delivered == transportDelivers
    ensures r.Raises() <==> !EmailConfigured(env) || !transportDelivers
  {
    if !EmailConfigured(env) then Rejected
    else
      var sender := env[SenderEmailVar];
      var msg := MimeText(body, subject, sender, Text.Join(recipients, ", "));
      Handed(SmtpSubmission(SmtpServer, SmtpPort, sender, env[SenderPasswordVar],
                            sender, recipients, msg),
             transportDelivers)
  }

  /** `send_sms_alert(message, recipient_phone)`. */
  function SendSms(env: Env, message: string, recipientPhone: Option<string>,
                   transportDelivers: bool): (r: Dispatch<SmsRequest>)
    ensures r.Rejected? <==> !SmsConfigured(env)
    ensures r.Handed? ==>
      && r.request.accountSid == env[TwilioSidVar]
      && r.request.authToken == env[TwilioTokenVar]
      && r.request.body == message
      && r.request.from == env[TwilioPhoneVar]
      && r.request.to == recipientPhone
    ensures r.Handed? ==> r.delivered == transportDelivers
    ensures r.Raises() <==> !SmsConfigured(env) || !transportDelivers
  {
    if !SmsConfigured(env) then Rejected
    else
      Handed(SmsRequest(env[TwilioSidVar], env[TwilioTokenVar], message,
                        env[TwilioPhoneVar], recipientPhone),
             transportDelivers)
  }

  /** With one recipient, the `To` header is exactly that address. */
  lemma SingleRecipientHeader(env: Env, subject: string, body: string, recipient: string,
                              transportDelivers: bool)
    requires EmailConfigured(env)
    ensures SendEmail(env, subject, body, [recipient], transportDelivers).request.message.to == recipient
  {
  }

  /** Adding recipients appends to the `To` header: the header of the longer
      list is that of the shorter one, a comma and a space, then the new
      addresses. */
  lemma {:induction false} ToHeaderExtends(env: Env, subject: string, body: string,
                                           xs: seq<string>, ys: seq<string>, transportDelivers: bool)
    requires EmailConfigured(env) && xs != [] && ys != []
    ensures SendEmail(env, subject, body, xs + ys, transportDelivers).request.message.to
         == SendEmail(env, subject, body, xs, transportDelivers).request.message.to
            + ", " + Text.Join(ys, ", ")
  {
    Text.JoinAppend(xs, ys, ", ");
  }
}
