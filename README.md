# Email-dispatch reconcilers, modelled in Dafny

This project models the core of a Kubernetes operator that sends email. Users create
`Email` objects (a recipient, a subject, a body and a reference to a sender config) and
`EmailSenderConfig` objects (a provider name, a sender address and a reference to the
Secret holding the provider's API token). Two reconcilers react to these objects:

- the **Email reconciler** loads the Email and seeds an empty message id. It then resolves
  the sender config and its secret, picks the provider case-insensitively and sends the
  message. Finally it overwrites the Email's status and writes it back once;
- the **sender-config reconciler** loads the config and resolves its secret. It then picks
  the provider and asks that provider to verify the sender. It returns the verification's
  error (retry) or nil (done) and writes nothing.

The two provider adapters are also modelled:

- **MailerSend**: verification looks for the sender's domain in the first page of the
  account's sending domains; send builds a single-recipient plain-text message through
  setters.
- **Mailgun**: verification maps the address validator's verdict to an error; send uses
  a client bound to the sender's domain.

The store lookups, the secret lookup, the id generator and the provider SDKs are inputs.
A lookup is a `Lookup` value. An SDK is a function from credentials and request to the
service's answer, so what an adapter sends is visible in what it returns. The Email's
status sub-resource is a `StatusStore` object that counts writes and accepts or rejects
them. A Go panic (a nil dereference, an index out of range) is the `Panics` case of `Run`.

Modules: `Common` (error, lookup and panic shapes, event kinds), `Api` (the resources as
values), `Text` (ASCII `ToLower`, `Split`/`Join`, `IndexOf`, the `Split(x, "@")[1]` domain),
`MailerSendAdapter`, `MailgunAdapter`, `Registry` (provider selection, the SDK bundle, send
and verify dispatch), `EmailController` and `ConfigController`.

### Where the code departs from what a reconciler of this kind is expected to do

The model follows the code. The lemmas named here state what the code actually does.

- A sender config that fails to load makes the Email reconciler panic. The lookup
  returns a nil config, and the code dereferences it while logging. A reconciler would
  be expected to return the lookup error for retry (`EmailController.ResolutionFailureWritesNothing`).
- The message id is not stable. Every status write replaces the whole status, so the
  seeded id is never persisted. An existing id is replaced by the provider's id, or by ""
  for an unsupported provider. Nothing stops an Email that was already delivered from
  being sent again (`EmailController.PriorStatusIsIgnored`,
  `EmailController.WrittenIdIsProviders`).
- MailerSend verification has no "domain not found" error. If the listing succeeds but
  does not contain the domain, verification returns the listing's nil error and the sender
  verifies (`MailerSendAdapter.UnlistedDomainVerifies`).
- In the unsupported-provider branch of the Email reconciler, the guard checks the
  provider error, which is never nil, instead of the write's error. The reconcile
  therefore always returns the write's error and the final `return nil` is unreachable.
  The observable behaviour is the same as the evidently intended check
  (`EmailController.UnsupportedProviderIsRecorded`).
- A sender address without '@' panics in Mailgun's send and in MailerSend's verification
  (after a non-nil listing) (`MailgunAdapter.SendEmail`, `Text.SplitHasSecond`).

## Model

| member | source | states |
|---|---|---|
| Text.ToLower | internal/controller/email_controller.go:86 | the lower-cased name has the input's length, each character lower-cased, and no upper-case letter left |
| Text.LowerEqualIffFold | internal/controller/email_controller.go:86 | two names have the same lower-cased form exactly when they are equal ignoring case |
| Text.LowerOfLower | internal/controller/emailsenderconfig_controller.go:74 | a name without upper-case letters is its own lower-cased form (so lower-casing is idempotent) |
| Text.IndexOf | pkg/mailer_send/mailer_send.go:34 | the position found holds the separator and no earlier position does |
| Text.IndexOfUnique | pkg/mailer_send/mailer_send.go:34 | the first occurrence of a character is unique |
| Text.Split | pkg/mailgun/mailgun.go:34 | splitting yields at least one piece and no piece contains the separator |
| Text.JoinSplit | pkg/mailgun/mailgun.go:34 | joining the pieces with the separator gives back the original string |
| Text.SplitFirst | pkg/mailer_send/mailer_send.go:34 | the first piece is the separator-free prefix; if the separator occurs it follows that prefix and the other pieces split the remainder |
| Text.SplitHasSecond | pkg/mailer_send/mailer_send.go:34 | piece 1 exists (no index-out-of-range panic) exactly when the address contains '@' |
| Text.DomainOf | pkg/mailgun/mailgun.go:34 | `strings.Split(address, "@")[1]` for an address holding '@': it contains no '@' and is shorter than the address |
| Text.DomainAfterFirstAt | pkg/mailgun/mailgun.go:34 | the domain is the text after the first '@', up to the next '@' or the end |
| Text.DomainOfAddress | pkg/mailer_send/mailer_send.go:34 | the domain of local@domain is domain when neither part contains '@' |
| MailerSendAdapter.VerifyResult | pkg/mailer_send/mailer_send.go:27-42 | the verdict for a first-page listing: it panics exactly when a list came back and the address has no '@'; any error is "no domain list available" or the listing's own error |
| MailerSendAdapter.VerifyEmailConfig | pkg/mailer_send/mailer_send.go:12-44 | one listing of page 1 (limit 25); a nil list gives "no domain list available"; no '@' panics; an exact name match gives nil; otherwise the listing's error |
| MailerSendAdapter.VerifyFailsOnlyOnListing | pkg/mailer_send/mailer_send.go:29-42 | for an address with '@', verification succeeds iff a list came back and it either names the domain or the listing reported no error; any error is the nil-list error or the listing's own |
| MailerSendAdapter.UnlistedDomainVerifies | pkg/mailer_send/mailer_send.go:36-42 | a successful listing of other.org alone still verifies a@example.com |
| MailerSendAdapter.Message.constructor | pkg/mailer_send/mailer_send.go:64 | a new message starts with no sender, recipients, subject or text |
| MailerSendAdapter.Message.SetFrom | pkg/mailer_send/mailer_send.go:66 | sets the sender and changes nothing else |
| MailerSendAdapter.Message.SetRecipients | pkg/mailer_send/mailer_send.go:67 | sets the recipients and changes nothing else |
| MailerSendAdapter.Message.SetSubject | pkg/mailer_send/mailer_send.go:68 | sets the subject and changes nothing else |
| MailerSendAdapter.Message.SetText | pkg/mailer_send/mailer_send.go:69 | sets the plain text and changes nothing else |
| MailerSendAdapter.SendEmail | pkg/mailer_send/mailer_send.go:46-74 | the message sent is from the sender, to exactly the one recipient, with the subject and the body as text; the result is the response's X-Message-Id header (empty if absent) and the send error unchanged |
| MailgunAdapter.VerifyEmailConfig | pkg/mailgun/mailgun.go:12-31 | nil iff the validator reports no error and a valid address; a validator error is returned unchanged; otherwise "email is not valid" |
| MailgunAdapter.SendEmail | pkg/mailgun/mailgun.go:33-47 | panics iff the sender has no '@'; otherwise the client is for the sender's domain with the API token, the message is from the sender with the subject, body and exactly one recipient, and the id and error are the service's |
| Registry.KnownNamesAreLower | internal/controller/email_controller.go:87-90 | the case labels "mailersend" and "mailgun" are already lower-case |
| Registry.Select | internal/controller/email_controller.go:86-92 | MailerSend iff the name equals "mailersend" ignoring case, Mailgun iff it equals "mailgun" ignoring case, unsupported otherwise |
| Registry.SelectIgnoresCase | internal/controller/emailsenderconfig_controller.go:74-79 | names differing only in case select the same provider |
| Registry.Send | internal/controller/email_controller.go:84-105 | the selected adapter submits the token, the sender, the single recipient, the subject and the body; it panics only for Mailgun with a sender lacking '@'; the result is the provider's answer to that submission |
| Registry.Verify | internal/controller/emailsenderconfig_controller.go:72-86 | the failing error is the adapter's own: for Mailgun the validator's error unchanged, else "email is not valid"; for MailerSend "no domain list available" for a nil list, else the listing's error; verification succeeds iff, for MailerSend, a page-1 list came back for an address with '@' that either names its domain or reported no listing error, and, for Mailgun, the validator reported no error and a valid address; it panics exactly for MailerSend when a page-1 list came back and the sender has no '@' |
| Registry.VerifyReadsFirstPageOnly | pkg/mailer_send/mailer_send.go:22-27 | MailerSend verification depends only on the listing of page 1 with limit 25 |
| EmailController.Email.constructor | internal/controller/email_controller.go:60-61 | the loaded Email carries the stored spec and status |
| EmailController.StatusStore.Update | internal/controller/email_controller.go:122 | each status write is counted; it is stored unless the store rejects it, and the rejection is the returned error |
| EmailController.Seed | internal/controller/email_controller.go:65-68 | only the message id may change; a set id is kept; an empty one becomes the fresh id (non-empty when the fresh id is) |
| EmailController.Outcome | internal/controller/email_controller.go:57-128 | at most one status write; a write makes the in-memory status the written one and the reconcile's error the write's error; every send is followed by exactly one write |
| EmailController.EmailReconciler.constructor | internal/controller/email_controller.go:39-42 | the reconciler uses the given store |
| EmailController.EmailReconciler.Reconcile | internal/controller/email_controller.go:57-128 | the in-place reconcile returns, submits, writes and leaves in memory exactly what Outcome prescribes; the store gains one attempt per write |
| EmailController.LoadFailureIsNoop | internal/controller/email_controller.go:60-63 | NotFound returns nil, another lookup error is returned unchanged; no send and no write |
| EmailController.ResolutionFailureWritesNothing | internal/controller/email_controller.go:70-80 | a config that does not load panics and a secret that does not load returns its error; no send, no write, only the seeded id in memory |
| EmailController.UnsupportedProviderIsRecorded | internal/controller/email_controller.go:91-102 | no send; one write of {Failed, "unsupported provider: " + name as written, id ""}; the reconcile returns the write's error |
| EmailController.SendIsRecorded | internal/controller/email_controller.go:82-127 | send goes to the provider Select chose (MailerSend iff the name folds to "mailersend") and uses the secret's token, the config's sender and the Email's recipient, subject and body; one write follows, Success iff no error, with the provider's id and the error's text; the reconcile returns the write's error |
| EmailController.PriorStatusIsIgnored | internal/controller/email_controller.go:66-118 | what is returned, sent and written does not depend on the loaded status or on the fresh id |
| EmailController.WrittenIdIsProviders | internal/controller/email_controller.go:94-118 | every written message id is the provider's answer, or "" when the provider is unsupported |
| EmailController.MailgunAcceptedScenario | internal/controller/email_controller.go:113-119 | Mailgun accepting with id "abc123" is recorded as {Success, "abc123"} |
| EmailController.MailgunTimeoutScenario | internal/controller/email_controller.go:106-112 | a Mailgun timeout is recorded as {Failed, "", timeout text} and, with the write accepted, nothing is retried |
| EmailController.EventFilter | internal/controller/email_controller.go:134-147 | only creation events are reconciled; update, delete and generic events are not |
| ConfigController.Reconcile | internal/controller/emailsenderconfig_controller.go:56-95 | it only reads (a function: no object or status write); the reconcile ends without error iff the config is gone, or it loaded with its secret and either the provider is unsupported or that provider verifies the sender; it panics exactly when the config and its secret load, the provider is MailerSend, a page-1 list came back for the secret's token, and the sender has no '@' |
| ConfigController.LoadFailure | internal/controller/emailsenderconfig_controller.go:59-62 | NotFound returns nil; another lookup error is returned unchanged |
| ConfigController.SecretFailureSkipsVerify | internal/controller/emailsenderconfig_controller.go:64-68 | a secret that does not load returns its error, independently of every provider |
| ConfigController.UnsupportedProviderIsDone | internal/controller/emailsenderconfig_controller.go:79-84 | an unknown provider returns nil, independently of every provider |
| ConfigController.VerifyDecides | internal/controller/emailsenderconfig_controller.go:86-94 | otherwise the reconcile returns exactly the selected provider's verification of the token and the sender |
| ConfigController.EventFilter | internal/controller/emailsenderconfig_controller.go:101-114 | creation and update events are reconciled; delete and generic events are not |

## Left out

- pkg/utils/utils.go: its two `client.Get` wrappers appear only as `Lookup` answers. Their nil result on failure is kept, as the panic in the Email reconciler.
- The namespace of the request is not modelled. Every config and secret lookup is by name, in that namespace.
- The Kubernetes client, the manager and builder wiring, the scheme, the RBAC markers and all logging are not modelled. Only the event-filter booleans of `SetupWithManager` are kept.
- What the controller runtime does with a panic (recover it and requeue) is not modelled. A panic ends the model's reconcile with `Panics`.
- The MailerSend and Mailgun SDKs are functions from credentials and request to their answer. Retries inside the SDKs and the services' own behaviour are not modelled.
- MailerSendAdapter.SendEmail: assumes the SDK always returns a response. The nil-response dereference at pkg/mailer_send/mailer_send.go:73 after a transport failure is not modelled.
- MailerSendAdapter.HeaderGet: looks the header up by the exact key "X-Message-Id". It does not canonicalise header names.
- Registry.VerifyReadsFirstPageOnly: states that only the page-1/limit-25 request is made. Whether the service honours the limit of 25 is outside the model.
- Timeouts and contexts (`context.WithTimeout`) are not modelled. A timeout is just an error the SDK answers with.
- `uuid.NewString` is the `freshId` input. Its randomness and uniqueness are not modelled; Seed's contract states the non-empty id for a non-empty `freshId`, as `uuid.NewString` always returns.
- Registry.Select: lower-cases ASCII letters only. Go's `strings.ToLower` is Unicode-aware (it maps U+0130 to 'i', for example), so some non-ASCII spellings that the code accepts are unsupported in the model.
- Api.Token: secret values are read as strings. The byte-to-string conversion of `secret.Data["token"]` is not modelled.
- Concurrency is not modelled. The runtime runs one reconcile per object at a time, and the model reconciles one object at a time.
- The Email object's metadata (its name, used only in log lines) is not modelled.
