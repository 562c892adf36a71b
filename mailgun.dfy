/** The Mailgun adapter: sender verification through the address validator, and
    send through a client bound to the sender's domain. The Mailgun SDK is an
    oracle: functions from the credentials and the request to the answer. */
module MailgunAdapter {
  import opened Common
  import Text

  /** What `ValidateEmail` answers: the verdict's `IsValid` and the call's error. */
  datatype Validation = Validation(isValid: bool, err: Option<Error>)

  /** `mailgun.NewEmailValidator(token).ValidateEmail(email, false)`. */
  type Validator = (string, string) -> Validation

  const NotValid := "email is not valid"

  /** `VerifyEmailConfig`: the sender is accepted iff the validator reports no
      error and judges the address valid. */
  function VerifyEmailConfig(validate: Validator, token: string, email: string): (err: Option<Error>)
    ensures err.None? <==> validate(token, email).err.None? && validate(token, email).isValid
    ensures validate(token, email).err.Some? ==> err == validate(token, email).err
    ensures validate(token, email).err.None? && err.Some? ==> err == Some(NotValid)
  {
    var e := validate(token, email);
    if e.err.Some? then e.err
    else if e.isValid then None
    else Some(NotValid)
  }

  /** `mailgun.NewMailgun(domain, apiKey)`. */
  datatype Client = Client(domain: string, apiKey: string)

  /** `mg.NewMessage(from, subject, text, to...)`. */
  datatype Message = Message(from: string, subject: string, text: string, to: seq<string>)

  /** What `mg.Send` answers: the service's response text, the message id and the error. */
  datatype Reply = Reply(response: string, id: string, err: Option<Error>)

  type Sender = (Client, Message) -> Reply

  /** The client and message a send used, and what the adapter returned. */
  datatype Dispatch = Dispatch(client: Client, message: Message, ret: SendReturn)

  /** `SendEmail`: panics when the sender has no '@'; otherwise sends one message
      through a client for the sender's domain and returns the id and error as the
      service gave them. */
  function SendEmail(send: Sender, apiToken: string, senderEmail: string, recipientEmail: string,
                     subject: string, body: string): (r: Run<Dispatch>)
    ensures r.Panics? <==> '@' !in senderEmail
    ensures r.Returns? ==>
      && r.value.client.apiKey == apiToken
      && r.value.client.domain == Text.DomainOf(senderEmail)
      && r.value.message.from == senderEmail
      && r.value.message.to == [recipientEmail]
      && r.value.message.subject == subject
      && r.value.message.text == body
      && r.value.ret.id == send(r.value.client, r.value.message).id
      && r.value.ret.err == send(r.value.client, r.value.message).err
  {
    var parts := Text.Split(senderEmail, '@');
    Text.SplitHasSecond(senderEmail, '@');
    if |parts| < 2 then Panics(IndexOutOfRange)
    else
      var mg := Client(parts[1], apiToken);
      var message := Message(senderEmail, subject, body, [recipientEmail]);
      var reply := send(mg, message);
      Returns(Dispatch(mg, message, SendReturn(reply.id, reply.err)))
  }
}
