/** The Email reconciler: loads an Email, seeds its message id, resolves its
    sender config and the config's secret, sends through the selected provider,
    and writes the resulting status back once. The cluster, the secret store,
    the id generator and the providers are inputs (`Env`); the status
    sub-resource is a `StatusStore` object. */
module EmailController {
  import opened Common
  import opened Api
  import Text
  import Registry
  import MailerSendAdapter
  import MailgunAdapter

  /** The loaded Email object, which the reconcile changes in place. */
  class Email {
    const spec: EmailSpec
    var status: EmailStatus

    /** `r.Get` filling a fresh `emailv1.Email` from the stored record. */
    constructor (record: EmailRecord)
      ensures spec == record.spec && status == record.status
    {
      spec := record.spec;
      status := record.status;
    }
  }

  /** The status sub-resource of the Email being reconciled. Every write is
      counted; a write is accepted unless the store answers with `rejection`
      (a stale object or an unavailable store). */
  class StatusStore {
    var accepted: seq<EmailStatus>
    var attempts: nat
    const rejection: Option<Error>

    constructor (rejection: Option<Error>)
      ensures accepted == [] && attempts == 0 && this.rejection == rejection
    {
      accepted, attempts := [], 0;
      this.rejection := rejection;
    }

    /** `r.Status().Update(ctx, email)`. */
    method Update(email: Email) returns (err: Option<Error>)
      modifies this
      ensures attempts == old(attempts) + 1
      ensures accepted == if rejection.None? then old(accepted) + [email.status] else old(accepted)
      ensures err == rejection
    {
      attempts := attempts + 1;
      if rejection.None? {
        accepted := accepted + [email.status];
      }
      err := rejection;
    }
  }

  /** What the world answers during one reconcile of one Email. */
  datatype Env = Env(
    loaded: Lookup<EmailRecord>,               // r.Get of the requested Email
    configs: string -> Lookup<SenderConfig>,   // utils.GetEmailConfig, by name in the request's namespace
    secrets: string -> Lookup<Secret>,         // utils.GetSecret, by name in the request's namespace
    freshId: string,                           // uuid.NewString()
    sdk: Registry.Sdk)

  /** Everything one reconcile does: how it ends (the error it returns, or a
      panic), what it submitted to a provider, the statuses it wrote, and the
      loaded object's status when it ends (`None` if nothing was loaded). */
  datatype Cycle = Cycle(
    exit: Run<Option<Error>>,
    submitted: Option<Registry.Submission>,
    writes: seq<EmailStatus>,
    status: Option<EmailStatus>)

  /** The sender config the loaded Email refers to. */
  function ConfigOf(env: Env): Lookup<SenderConfig>
    requires env.loaded.Found?
  {
    env.configs(env.loaded.value.spec.senderConfigRef)
  }

  /** The secret that sender config refers to. */
  function SecretOf(env: Env): Lookup<Secret>
    requires env.loaded.Found? && ConfigOf(env).Found?
  {
    env.secrets(ConfigOf(env).value.apiTokenSecretRef)
  }

  /** The Email, its sender config and the config's secret all resolve. */
  predicate Resolved(env: Env)
  {
    env.loaded.Found? && ConfigOf(env).Found? && SecretOf(env).Found?
  }

  /** An empty message id is replaced by the fresh one; a set one is kept. */
  function Seed(st: EmailStatus, freshId: string): (seeded: EmailStatus)
    ensures seeded.(messageId := st.messageId) == st
    ensures st.messageId != "" ==> seeded == st
    ensures st.messageId == "" ==> seeded.messageId == freshId
    ensures freshId != "" ==> seeded.messageId != ""
  {
    if st.messageId == "" then st.(messageId := freshId) else st
  }

  const UnsupportedPrefix := "unsupported provider: "

  /** The status written for a provider name the registry does not know. */
  function UnsupportedStatus(provider: string): EmailStatus
  {
    EmailStatus(DeliveryStatus.Failed, "", UnsupportedPrefix + provider)
  }

  /** The status written after a send. */
  function SentStatus(ret: SendReturn): EmailStatus
  {
    if ret.err.Some? then EmailStatus(DeliveryStatus.Failed, ret.id, ret.err.value)
    else EmailStatus(Success, ret.id, "")
  }

  /** One reconcile, as a function of the world's answers and of the store's
      answer to a status write. */
  function Outcome(env: Env, rejection: Option<Error>): (c: Cycle)
    ensures env.loaded.Found? <==> c.status.Some?
    ensures |c.writes| <= 1
    ensures c.writes != [] ==> c.exit == Returns(rejection) && c.status == Some(c.writes[0])
    ensures c.submitted.Some? ==> |c.writes| == 1
  {
    match env.loaded
    case NotFound(_) => Cycle(Returns(None), None, [], None)
    case Failed(e) => Cycle(Returns(Some(e)), None, [], None)
    case Found(record) =>
      var seeded := Seed(record.status, env.freshId);
      if !ConfigOf(env).Found? then
        // the failed lookup yields a nil config, dereferenced when logging
        Cycle(Panics(NilDereference), None, [], Some(seeded))
      else
        var cfg := ConfigOf(env).value;
        var secret := SecretOf(env);
        if !secret.Found? then Cycle(Returns(Some(secret.err)), None, [], Some(seeded))
        else
          match Registry.Select(cfg.provider)
          case None =>
            var st := UnsupportedStatus(cfg.provider);
            Cycle(Returns(rejection), None, [st], Some(st))
          case Some(p) =>
            var spec := record.spec;
            match Registry.Send(p, env.sdk, Token(secret.value), cfg.senderEmail,
                                spec.recipientEmail, spec.subject, spec.body)
            case Panics(why) => Cycle(Panics(why), None, [], Some(seeded))
            case Returns((s, ret)) =>
              var st := SentStatus(ret);
              Cycle(Returns(rejection), Some(s), [st], Some(st))
  }

  class EmailReconciler {
    const store: StatusStore

    constructor (store: StatusStore)
      ensures this.store == store
    {
      this.store := store;
    }

    /** `EmailReconciler.Reconcile`. The `ctrl.Result` it returns is always empty
        (no requeue), so only the error, or a panic, is modelled. */
    method Reconcile(env: Env) returns (exit: Run<Option<Error>>, email: Email?, sent: Option<Registry.Submission>)
      modifies store
      ensures var c := Outcome(env, store.rejection);
        && exit == c.exit
        && sent == c.submitted
        && store.attempts == old(store.attempts) + |c.writes|
        && store.accepted == old(store.accepted) + (if store.rejection.None? then c.writes else [])
        && (email != null <==> env.loaded.Found?)
        && (email != null ==> fresh(email) && email.spec == env.loaded.value.spec && c.status == Some(email.status))
    {
      email, sent := null, None;
      if !env.loaded.Found? {
        return Returns(IgnoreNotFound(env.loaded)), email, sent;
      }
      email := new Email(env.loaded.value);

      if email.status.messageId == "" {
        email.status := email.status.(messageId := env.freshId);
      }

      var config := env.configs(email.spec.senderConfigRef);
      if !config.Found? {
        // utils.GetEmailConfig returned a nil config; logging its secret name panics
        return Panics(NilDereference), email, sent;
      }
      var cfg := config.value;

      var secret := env.secrets(cfg.apiTokenSecretRef);
      if !secret.Found? {
        return Returns(Some(secret.err)), email, sent;
      }
      var apiKey := Token(secret.value);

      var provider := Registry.Select(cfg.provider);
      if provider.None? {
        email.status := UnsupportedStatus(cfg.provider);
        // the guard checks the provider error, which is never nil, so the
        // write's own error is what is returned
        var errUpdate := store.Update(email);
        return Returns(errUpdate), email, sent;
      }

      var ret: SendReturn;
      match provider.value {
        case MailerSend =>
          var envelope;
          envelope, ret := MailerSendAdapter.SendEmail(env.sdk.msSend, apiKey, cfg.senderEmail,
            email.spec.recipientEmail, email.spec.subject, email.spec.body);
          sent := Some(Registry.ToMailerSend(apiKey, envelope));
        case Mailgun =>
          var r := MailgunAdapter.SendEmail(env.sdk.mgSend, apiKey, cfg.senderEmail,
            email.spec.recipientEmail, email.spec.subject, email.spec.body);
          if r.Panics? {
            return Panics(r.reason), email, sent;
          }
          ret := r.value.ret;
          sent := Some(Registry.ToMailgun(r.value.client, r.value.message));
      }

      email.status := SentStatus(ret);
      var err := store.Update(email);
      return Returns(err), email, sent;
    }
  }

  /** An Email that cannot be loaded is not touched: a NotFound ends the
      reconcile without error, any other lookup error is returned. */
  lemma LoadFailureIsNoop(env: Env, rejection: Option<Error>)
    requires !env.loaded.Found?
    ensures var c := Outcome(env, rejection);
      && c.exit == Returns(if env.loaded.NotFound? then None else Some(env.loaded.err))
      && c.submitted == None && c.writes == []
  {
  }

  /** A sender config that does not resolve crashes the reconcile, and a secret
      that does not resolve ends it with the lookup's error; either way nothing
      is sent or written and only the in-memory message id was seeded. */
  lemma ResolutionFailureWritesNothing(env: Env, rejection: Option<Error>)
    requires env.loaded.Found? && !Resolved(env)
    ensures var c := Outcome(env, rejection);
      && c.submitted == None && c.writes == []
      && c.status == Some(Seed(env.loaded.value.status, env.freshId))
      && (if ConfigOf(env).Found? then c.exit == Returns(Some(SecretOf(env).err)) else c.exit.Panics?)
  {
  }

  /** An unknown provider name is recorded as a failure naming the provider as
      written, with an empty message id, and nothing is sent; the reconcile
      returns the status write's error. */
  lemma UnsupportedProviderIsRecorded(env: Env, rejection: Option<Error>)
    requires Resolved(env) && Registry.Select(ConfigOf(env).value.provider).None?
    ensures var c := Outcome(env, rejection);
      && c.submitted == None
      && c.writes == [EmailStatus(DeliveryStatus.Failed, "", UnsupportedPrefix + ConfigOf(env).value.provider)]
      && c.exit == Returns(rejection)
  {
  }

  /** With everything resolved and a known provider, the reconcile sends one
      message built from the secret's token, the config's sender and the
      Email's recipient, subject and body (unless Mailgun panics on a sender
      without '@'), then writes one status that records the provider's answer:
      Success iff no error, the provider's message id, the error's text. */
  lemma SendIsRecorded(env: Env, rejection: Option<Error>)
    requires Resolved(env) && Registry.Select(ConfigOf(env).value.provider).Some?
    ensures var c := Outcome(env, rejection);
      var cfg := ConfigOf(env).value;
      var spec := env.loaded.value.spec;
      && (c.submitted.None? <==> Registry.Select(cfg.provider) == Some(Registry.Mailgun) && '@' !in cfg.senderEmail)
      && (c.submitted.None? ==> c.exit.Panics? && c.writes == [])
      && (c.submitted.Some? ==>
            var s := c.submitted.value;
            var ret := Registry.Answer(env.sdk, s);
            && (s.ToMailerSend? <==> Registry.Select(cfg.provider) == Some(Registry.MailerSend))
            && s.Credential() == Token(SecretOf(env).value)
            && s.From() == cfg.senderEmail
            && s.Recipients() == [spec.recipientEmail]
            && s.Subject() == spec.subject && s.Body() == spec.body
            && |c.writes| == 1
            && c.writes[0].messageId == ret.id
            && (c.writes[0].deliveryStatus == Success <==> ret.err.None?)
            && c.writes[0].deliveryStatus != Unset
            && c.writes[0].error == (if ret.err.Some? then ret.err.value else "")
            && c.exit == Returns(rejection))
  {
  }

  /** Whatever the loaded status and the generated id, the reconcile sends and
      writes the same: the seeded id is never persisted, an existing message id
      is not preserved, and an Email already delivered is sent again. */
  lemma PriorStatusIsIgnored(env: Env, rejection: Option<Error>, prior: EmailStatus, freshId: string)
    requires env.loaded.Found?
    ensures var env' := env.(loaded := Found(env.loaded.value.(status := prior)), freshId := freshId);
      var c, c' := Outcome(env, rejection), Outcome(env', rejection);
      c.exit == c'.exit && c.submitted == c'.submitted && c.writes == c'.writes
  {
  }

  /** Each written message id is the provider's answer, or empty when the
      provider is unsupported; it never comes from the loaded status. */
  lemma WrittenIdIsProviders(env: Env, rejection: Option<Error>)
    ensures var c := Outcome(env, rejection);
      forall st | st in c.writes ::
        if c.submitted.Some? then st.messageId == Registry.Answer(env.sdk, c.submitted.value).id
        else st.messageId == ""
  {
    if Resolved(env) && Registry.Select(ConfigOf(env).value.provider).Some? {
      SendIsRecorded(env, rejection);
    }
  }

  /** A delivery through Mailgun that the service accepts with id "abc123" is
      recorded as `{Success, "abc123"}`. */
  lemma MailgunAcceptedScenario(env: Env, rejection: Option<Error>)
    requires Resolved(env) && Text.EqualFold(ConfigOf(env).value.provider, "mailgun")
    requires '@' in ConfigOf(env).value.senderEmail
    requires forall client, m :: env.sdk.mgSend(client, m).id == "abc123" && env.sdk.mgSend(client, m).err.None?
    ensures Outcome(env, rejection).writes == [EmailStatus(Success, "abc123", "")]
  {
    SendIsRecorded(env, rejection);
  }

  /** A Mailgun send that times out is recorded as a failure carrying the
      timeout's text, and the reconcile does not ask to be retried when the
      status write succeeds. */
  lemma MailgunTimeoutScenario(env: Env, timeout: Error)
    requires Resolved(env) && Text.EqualFold(ConfigOf(env).value.provider, "mailgun")
    requires '@' in ConfigOf(env).value.senderEmail
    requires forall client, m :: env.sdk.mgSend(client, m).id == "" && env.sdk.mgSend(client, m).err == Some(timeout)
    ensures Outcome(env, None).writes == [EmailStatus(DeliveryStatus.Failed, "", timeout)]
    ensures Outcome(env, None).exit == Returns(None)
  {
    SendIsRecorded(env, None);
  }

  /** The Email controller's event filter: only creations are reconciled. */
  function EventFilter(kind: EventKind): (admit: bool)
    ensures admit <==> kind == Create
  {
    match kind
    case Create => true
    case Update => false
    case Delete => false
    case Generic => false
  }
}
