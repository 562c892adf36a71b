/** The EmailSenderConfig reconciler: loads a sender config, resolves its secret
    and verifies the sender with the selected provider. It only reads: the
    result is the error it returns to the runtime (nil means done, an error
    means retry), or a panic. */
module ConfigController {
  import opened Common
  import opened Api
  import Registry
  import MailerSendAdapter

  /** `EmailSenderConfigReconciler.Reconcile`, from the store's answer for the
      config, the secret lookup by name and the provider SDKs. */
  function Reconcile(loaded: Lookup<SenderConfig>, secrets: string -> Lookup<Secret>, sdk: Registry.Sdk)
    : (r: Run<Option<Error>>)
    ensures r.Panics? <==>
      && loaded.Found? && secrets(loaded.value.apiTokenSecretRef).Found?
      && Registry.Select(loaded.value.provider) == Some(Registry.MailerSend)
      && sdk.listDomains(Token(secrets(loaded.value.apiTokenSecretRef).value), MailerSendAdapter.FirstPage).data.Some?
      && '@' !in loaded.value.senderEmail
    ensures r == Returns(None) <==>
      || loaded.NotFound?
      || (&& loaded.Found? && secrets(loaded.value.apiTokenSecretRef).Found?
          && match Registry.Select(loaded.value.provider)
             case None => true
             case Some(p) =>
               Registry.Verify(p, sdk, Token(secrets(loaded.value.apiTokenSecretRef).value),
                               loaded.value.senderEmail) == Returns(None))
  {
    match loaded
    case NotFound(_) => Returns(None)
    case Failed(e) => Returns(Some(e))
    case Found(config) =>
      var secret := secrets(config.apiTokenSecretRef);
      if !secret.Found? then Returns(Some(secret.err))
      else
        var apiKey := Token(secret.value);
        match Registry.Select(config.provider)
        case None => Returns(None)
        case Some(p) => Registry.Verify(p, sdk, apiKey, config.senderEmail)
  }

  /** A config that cannot be loaded: NotFound is done, any other error is returned. */
  lemma LoadFailure(loaded: Lookup<SenderConfig>, secrets: string -> Lookup<Secret>, sdk: Registry.Sdk)
    requires !loaded.Found?
    ensures Reconcile(loaded, secrets, sdk) == Returns(IgnoreNotFound(loaded))
  {
  }

  /** A secret that cannot be resolved is returned as the error, whatever the
      providers would answer: no verification is attempted. */
  lemma SecretFailureSkipsVerify(config: SenderConfig, secrets: string -> Lookup<Secret>,
                                 sdk: Registry.Sdk, other: Registry.Sdk)
    requires !secrets(config.apiTokenSecretRef).Found?
    ensures Reconcile(Found(config), secrets, sdk) == Returns(Some(secrets(config.apiTokenSecretRef).err))
    ensures Reconcile(Found(config), secrets, sdk) == Reconcile(Found(config), secrets, other)
  {
  }

  /** An unknown provider ends the reconcile without error (no retry) and
      without consulting any provider. */
  lemma UnsupportedProviderIsDone(config: SenderConfig, secrets: string -> Lookup<Secret>,
                                  sdk: Registry.Sdk, other: Registry.Sdk)
    requires secrets(config.apiTokenSecretRef).Found?
    requires Registry.Select(config.provider).None?
    ensures Reconcile(Found(config), secrets, sdk) == Returns(None)
    ensures Reconcile(Found(config), secrets, sdk) == Reconcile(Found(config), secrets, other)
  {
  }

  /** With the secret resolved and a known provider, the reconcile returns
      exactly what that provider's verification answers for the secret's token
      and the configured sender. */
  lemma VerifyDecides(config: SenderConfig, secrets: string -> Lookup<Secret>, sdk: Registry.Sdk)
    requires secrets(config.apiTokenSecretRef).Found?
    requires Registry.Select(config.provider).Some?
    ensures Reconcile(Found(config), secrets, sdk) ==
      Registry.Verify(Registry.Select(config.provider).value, sdk,
                      Token(secrets(config.apiTokenSecretRef).value), config.senderEmail)
  {
  }

  /** The sender-config controller's event filter: creations and updates are
      reconciled, deletions and generic events are not. */
  function EventFilter(kind: EventKind): (admit: bool)
    ensures admit <==> kind == Create || kind == Update
  {
    match kind
    case Create => true
    case Update => true
    case Delete => false
    case Generic => false
  }
}
