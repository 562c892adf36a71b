/** The MailerSend adapter: sender verification by membership of the sender's
    domain in the account's first page of sending domains, and plain-text send.
    The MailerSend SDK is an oracle: a function from the API token and the
    request to what the service answers. */
module MailerSendAdapter {
  import opened Common
  import Text

  /** `mailersend.ListDomainOptions`. */
  datatype ListDomainOptions = ListDomainOptions(page: int, limit: int)

  /** The one listing request verification makes: page 1, at most 25 domains. */
  const FirstPage := ListDomainOptions(1, 25)

  /** A sending domain of the account (only its name is consulted). */
  datatype Domain = Domain(name: string)

  /** What `Domain.List` answers: the decoded domain root's `Data` (`None` when the
      root is nil) and the call's error. */
  datatype DomainList = DomainList(data: Option<seq<Domain>>, err: Option<Error>)

  /** `mailersend.NewMailersend(token).Domain.List(ctx, options)`. */
  type Lister = (string, ListDomainOptions) -> DomainList

  const NoDomainList := "no domain list available"

  /** Some listed domain carries exactly (case-sensitively) this name. */
  predicate Listed(domains: seq<Domain>, name: string)
  {
    exists i | 0 <= i < |domains| :: domains[i].name == name
  }

  /** What verification answers, given the listing of the first page. */
  function VerifyResult(listing: DomainList, email: string): (r: Run<Option<Error>>)
    ensures r.Panics? <==> listing.data.Some? && '@' !in email
    ensures r.Returns? && r.value.Some? ==> r.value == Some(NoDomainList) || r.value == listing.err
  {
    if listing.data.None? then Returns(Some(NoDomainList))
    else if '@' !in email then Panics(IndexOutOfRange)
    else if Listed(listing.data.value, Text.DomainOf(email)) then Returns(None)
    else Returns(listing.err)
  }

  /** `VerifyEmailConfig`: one listing call, then a scan of the listed names. */
  method VerifyEmailConfig(list: Lister, token: string, email: string) returns (r: Run<Option<Error>>)
    ensures r == VerifyResult(list(token, FirstPage), email)
  {
    var a := list(token, FirstPage);
    if a.data.None? {
      return Returns(Some(NoDomainList));
    }
    var parts := Text.Split(email, '@');
    Text.SplitHasSecond(email, '@');
    if |parts| < 2 {
      return Panics(IndexOutOfRange);
    }
    var domain := parts[1];
    var data := a.data.value;
    var i := 0;
    while i < |data|
      invariant 0 <= i <= |data|
      invariant forall j :: 0 <= j < i ==> data[j].name != domain
    {
      if data[i].name == domain {
        return Returns(None);
      }
      i := i + 1;
    }
    return Returns(a.err);
  }

  /** Verification only fails on a nil listing or on a listing error, never
      because the domain is missing from a listing that succeeded. */
  lemma VerifyFailsOnlyOnListing(listing: DomainList, email: string)
    requires '@' in email
    ensures VerifyResult(listing, email).Returns?
    ensures VerifyResult(listing, email) == Returns(None) <==>
      listing.data.Some? && (Listed(listing.data.value, Text.DomainOf(email)) || listing.err.None?)
    ensures VerifyResult(listing, email).value.Some? ==>
      VerifyResult(listing, email).value == Some(NoDomainList) || VerifyResult(listing, email).value == listing.err
  {
  }

  /** A sender whose domain is absent from a successful listing still verifies. */
  lemma UnlistedDomainVerifies()
    ensures VerifyResult(DomainList(Some([Domain("other.org")]), None), "a@example.com") == Returns(None)
    ensures !Listed([Domain("other.org")], Text.DomainOf("a@example.com"))
  {
    Text.DomainOfAddress("a", "example.com");
    assert "a" + "@" + "example.com" == "a@example.com";
    assert [Domain("other.org")][0].name != "example.com";
  }

  /** `mailersend.Message`: the SDK's message object, filled in through setters. */
  class Message {
    var from: string
    var recipients: seq<string>
    var subject: string
    var text: string

    /** `ms.Email.NewMessage()`. */
    constructor ()
      ensures from == "" && recipients == [] && subject == "" && text == ""
    {
      from, recipients, subject, text := "", [], "", "";
    }

    method SetFrom(email: string)
      modifies this
      ensures from == email
      ensures recipients == old(recipients) && subject == old(subject) && text == old(text)
    {
      from := email;
    }

    method SetRecipients(emails: seq<string>)
      modifies this
      ensures recipients == emails
      ensures from == old(from) && subject == old(subject) && text == old(text)
    {
      recipients := emails;
    }

    method SetSubject(s: string)
      modifies this
      ensures subject == s
      ensures from == old(from) && recipients == old(recipients) && text == old(text)
    {
      subject := s;
    }

    method SetText(t: string)
      modifies this
      ensures text == t
      ensures from == old(from) && recipients == old(recipients) && subject == old(subject)
    {
      text := t;
    }

    /** The message as handed to `Email.Send`. */
    function Contents(): Envelope
      reads this
    {
      Envelope(from, recipients, subject, text)
    }
  }

  /** A message's contents: sender, recipient addresses, subject and plain text. */
  datatype Envelope = Envelope(from: string, recipients: seq<string>, subject: string, text: string)

  /** What `Email.Send` answers: the HTTP response headers and the call's error. */
  datatype Response = Response(header: map<string, string>, err: Option<Error>)

  /** `mailersend.NewMailersend(token).Email.Send(ctx, message)`. */
  type Sender = (string, Envelope) -> Response

  const MessageIdHeader := "X-Message-Id"

  /** `http.Header.Get`: the empty string for an absent header. */
  function HeaderGet(header: map<string, string>, key: string): string
  {
    if key in header then header[key] else ""
  }

  /** The single-recipient plain-text message SendEmail builds. */
  function Outgoing(senderEmail: string, recipientEmail: string, subject: string, body: string): Envelope
  {
    Envelope(senderEmail, [recipientEmail], subject, body)
  }

  /** The adapter's result for a response: the message id header and the error. */
  function Delivered(resp: Response): SendReturn
  {
    SendReturn(HeaderGet(resp.header, MessageIdHeader), resp.err)
  }

  /** `SendEmail`: builds the message through the SDK's setters, sends it once,
      and returns the response's message id with the send error unchanged. */
  method SendEmail(send: Sender, apiToken: string, senderEmail: string, recipientEmail: string,
                   subject: string, body: string)
    returns (envelope: Envelope, ret: SendReturn)
    ensures envelope.from == senderEmail && envelope.recipients == [recipientEmail]
    ensures envelope.subject == subject && envelope.text == body
    ensures ret.id == HeaderGet(send(apiToken, envelope).header, MessageIdHeader)
    ensures ret.err == send(apiToken, envelope).err
  {
    var message := new Message();
    message.SetFrom(senderEmail);
    message.SetRecipients([recipientEmail]);
    message.SetSubject(subject);
    message.SetText(body);
    envelope := message.Contents();
    var res := send(apiToken, envelope);
    ret := SendReturn(HeaderGet(res.header, MessageIdHeader), res.err);
  }
}
