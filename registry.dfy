/** Provider selection, shared by both reconcilers: the lower-cased provider name
    picks the MailerSend or the Mailgun adapter; any other name is unsupported.
    Also the bundle of SDK oracles and the dispatch of send and verify. */
module Registry {
  import opened Common
  import Text
  import MailerSendAdapter
  import MailgunAdapter

  datatype Provider = MailerSend | Mailgun

  /** The two names the registry knows are already in lower case. */
  lemma KnownNamesAreLower()
    ensures Text.ToLower("mailersend") == "mailersend"
    ensures Text.ToLower("mailgun") == "mailgun"
  {
    Text.LowerOfLower("mailersend");
    Text.LowerOfLower("mailgun");
  }

  /** The `switch strings.ToLower(provider)` of both reconcilers. */
  function Select(name: string): (p: Option<Provider>)
    ensures p == Some(MailerSend) <==> Text.EqualFold(name, "mailersend")
    ensures p == Some(Mailgun) <==> Text.EqualFold(name, "mailgun")
    ensures p == None <==> !Text.EqualFold(name, "mailersend") && !Text.EqualFold(name, "mailgun")
  {
    KnownNamesAreLower();
    Text.LowerEqualIffFold(name, "mailersend");
    Text.LowerEqualIffFold(name, "mailgun");
    var lower := Text.ToLower(name);
    if lower == "mailersend" then Some(MailerSend)
    else if lower == "mailgun" then Some(Mailgun)
    else None
  }

  /** Names that differ only in letter case select the same provider. */
  lemma SelectIgnoresCase(a: string, b: string)
    requires Text.EqualFold(a, b)
    ensures Select(a) == Select(b)
  {
    Text.LowerEqualIffFold(a, b);
    Text.LowerEqualIffFold(a, "mailersend");
    Text.LowerEqualIffFold(b, "mailersend");
    Text.LowerEqualIffFold(a, "mailgun");
    Text.LowerEqualIffFold(b, "mailgun");
  }

  /** What the provider SDKs answer, as functions of credentials and request. */
  datatype Sdk = Sdk(
    listDomains: MailerSendAdapter.Lister,
    msSend: MailerSendAdapter.Sender,
    validate: MailgunAdapter.Validator,
    mgSend: MailgunAdapter.Sender)

  /** What an adapter handed to its SDK's send call. */
  datatype Submission =
    | ToMailerSend(token: string, envelope: MailerSendAdapter.Envelope)
    | ToMailgun(client: MailgunAdapter.Client, message: MailgunAdapter.Message)
  {
    function Credential(): string
    {
      match this
      case ToMailerSend(token, _) => token
      case ToMailgun(client, _) => client.apiKey
    }

    function From(): string
    {
      match this
      case ToMailerSend(_, e) => e.from
      case ToMailgun(_, m) => m.from
    }

    function Recipients(): seq<string>
    {
      match this
      case ToMailerSend(_, e) => e.recipients
      case ToMailgun(_, m) => m.to
    }

    function Subject(): string
    {
      match this
      case ToMailerSend(_, e) => e.subject
      case ToMailgun(_, m) => m.subject
    }

    function Body(): string
    {
      match this
      case ToMailerSend(_, e) => e.text
      case ToMailgun(_, m) => m.text
    }
  }

  /** What the provider answers to a submission, as the adapter returns it. */
  function Answer(sdk: Sdk, s: Submission): SendReturn
  {
    match s
    case ToMailerSend(token, e) => MailerSendAdapter.Delivered(sdk.msSend(token, e))
    case ToMailgun(client, m) =>
      var reply := sdk.mgSend(client, m);
      SendReturn(reply.id, reply.err)
  }

  /** The selected adapter's send: one single-recipient message from the sender,
      with the given token, subject and body; the result is the provider's answer. */
  function Send(p: Provider, sdk: Sdk, token: string, senderEmail: string, recipientEmail: string,
                subject: string, body: string): (r: Run<(Submission, SendReturn)>)
    ensures r.Panics? <==> p == Mailgun && '@' !in senderEmail
    ensures r.Returns? ==>
      var (s, ret) := r.value;
      && (p == MailerSend <==> s.ToMailerSend?)
      && s.Credential() == token
      && s.From() == senderEmail
      && s.Recipients() == [recipientEmail]
      && s.Subject() == subject
      && s.Body() == body
      && (s.ToMailgun? ==> '@' in senderEmail && s.client.domain == Text.DomainOf(senderEmail))
      && ret == Answer(sdk, s)
  {
    match p
    case MailerSend =>
      var e := MailerSendAdapter.Outgoing(senderEmail, recipientEmail, subject, body);
      Returns((ToMailerSend(token, e), MailerSendAdapter.Delivered(sdk.msSend(token, e))))
    case Mailgun =>
      match MailgunAdapter.SendEmail(sdk.mgSend, token, senderEmail, recipientEmail, subject, body)
      case Panics(why) => Panics(why)
      case Returns(d) => Returns((ToMailgun(d.client, d.message), d.ret))
  }

  /** The selected adapter's verify. */
  function Verify(p: Provider, sdk: Sdk, token: string, senderEmail: string): (r: Run<Option<Error>>)
    ensures p == Mailgun ==> r.Returns?
    ensures r.Panics? <==>
      p == MailerSend && sdk.listDomains(token, MailerSendAdapter.FirstPage).data.Some? && '@' !in senderEmail
    ensures p == Mailgun && sdk.validate(token, senderEmail).err.Some? ==>
      r == Returns(sdk.validate(token, senderEmail).err)
    ensures p == Mailgun && sdk.validate(token, senderEmail).err.None? && !sdk.validate(token, senderEmail).isValid ==>
      r == Returns(Some(MailgunAdapter.NotValid))
    ensures p == MailerSend && sdk.listDomains(token, MailerSendAdapter.FirstPage).data.None? ==>
      r == Returns(Some(MailerSendAdapter.NoDomainList))
    ensures p == MailerSend && sdk.listDomains(token, MailerSendAdapter.FirstPage).data.Some? && r.Returns? && r.value.Some? ==>
      r.value == sdk.listDomains(token, MailerSendAdapter.FirstPage).err
    ensures r == Returns(None) <==>
      match p
      case MailerSend =>
        var listing := sdk.listDomains(token, MailerSendAdapter.FirstPage);
        && listing.data.Some? && '@' in senderEmail
        && (MailerSendAdapter.Listed(listing.data.value, Text.DomainOf(senderEmail)) || listing.err.None?)
      case Mailgun =>
        sdk.validate(token, senderEmail).err.None? && sdk.validate(token, senderEmail).isValid
  {
    match p
    case MailerSend =>
      MailerSendAdapter.VerifyResult(sdk.listDomains(token, MailerSendAdapter.FirstPage), senderEmail)
    case Mailgun =>
      Returns(MailgunAdapter.VerifyEmailConfig(sdk.validate, token, senderEmail))
  }

  /** MailerSend verification consults one listing only, that of the first page:
      SDKs that agree on it agree on the verdict. */
  lemma VerifyReadsFirstPageOnly(sdk: Sdk, other: Sdk, token: string, senderEmail: string)
    requires sdk.listDomains(token, MailerSendAdapter.FirstPage) == other.listDomains(token, MailerSendAdapter.FirstPage)
    ensures Verify(MailerSend, sdk, token, senderEmail) == Verify(MailerSend, other, token, senderEmail)
    ensures MailerSendAdapter.FirstPage.page == 1 && MailerSendAdapter.FirstPage.limit == 25
  {
  }
}
