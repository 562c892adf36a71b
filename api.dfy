/** The two custom resources and the secret the reconcilers read, as values. */
module Api {

  /** `EmailStatus.DeliveryStatus`: the empty string, "Success" or "Failed". */
  datatype DeliveryStatus = Unset | Success | Failed

  datatype EmailSpec = EmailSpec(
    senderConfigRef: string,
    recipientEmail: string,
    subject: string,
    body: string)

  datatype EmailStatus = EmailStatus(
    deliveryStatus: DeliveryStatus,
    messageId: string,
    error: string)

  /** An Email object as the store holds it. */
  datatype EmailRecord = EmailRecord(spec: EmailSpec, status: EmailStatus)

  /** The spec of an EmailSenderConfig object (it has no status). */
  datatype SenderConfig = SenderConfig(
    provider: string,
    senderEmail: string,
    apiTokenSecretRef: string)

  /** A Secret's data, each value already read as a string. */
  datatype Secret = Secret(data: map<string, string>)

  /** `string(secret.Data["token"])`: the empty string when the key is absent. */
  function Token(s: Secret): string
  {
    if "token" in s.data then s.data["token"] else ""
  }
}
