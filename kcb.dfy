/**
 * The KCB integration: initiation accepted on a `success` flag, verification
 * on the lower-case status `completed`, notifications authenticated by an
 * HMAC over five of their fields, and a case-insensitive status mapping.
 *
 * The HMAC (SHA-256 over the JSON text of the fields, keyed by the API
 * secret) is the parameter `sign`.
 */
module Kcb {
  import opened Wrappers
  import opened Strings
  import opened BankBase

  /** What the initiation endpoint answered. */
  datatype KcbReply = KcbReplied(success: bool, transactionId: string, message: Option<string>)
                    | KcbTransportError(error: string)

  /** An incoming notification as the bank posts it. */
  datatype KcbNotification = KcbNotification(
    signature: string,
    transactionId: string,
    reference: string,
    amount: int,
    status: string,
    timestamp: string)

  /** The fields the notification signature covers, in signing order. */
  datatype SignedFields = SignedFields(transactionId: string, reference: string, amount: int, status: string, timestamp: string)

  function FieldsOf(n: KcbNotification): SignedFields {
    SignedFields(n.transactionId, n.reference, n.amount, n.status, n.timestamp)
  }

  /** The bank status after upper-casing: COMPLETED and SUCCESS succeed, FAILED and CANCELLED fail. */
  function MapKcbStatus(status: string): WebhookStatus {
    var u := ToUpperCase(status);
    if u == "COMPLETED" || u == "SUCCESS" then WebhookSuccess
    else if u == "FAILED" || u == "CANCELLED" then WebhookFailed
    else WebhookPending
  }

  /** The mapping ignores case: a status and its upper-case form map alike. */
  lemma MapKcbStatusIgnoresCase(status: string)
    ensures MapKcbStatus(ToUpperCase(status)) == MapKcbStatus(status)
  {
    ToUpperCaseIdempotent(status);
  }

  /** The lower-case spellings of the success statuses succeed as well. */
  lemma MapKcbLowerCaseSuccess()
    ensures MapKcbStatus("completed") == WebhookSuccess
    ensures MapKcbStatus("success") == WebhookSuccess
  {
    ToUpperCaseByChar("completed", "COMPLETED");
    ToUpperCaseByChar("success", "SUCCESS");
  }

  /** The lower-case spellings of the failure statuses fail as well. */
  lemma MapKcbLowerCaseFailure()
    ensures MapKcbStatus("failed") == WebhookFailed
    ensures MapKcbStatus("cancelled") == WebhookFailed
  {
    ToUpperCaseByChar("failed", "FAILED");
    ToUpperCaseByChar("cancelled", "CANCELLED");
  }

  /** `validateWebhook`: rejected exactly when the signature differs from the one computed with the school's secret. */
  function ValidateKcbWebhook(config: BankConfig, sign: (string, SignedFields) -> string, n: KcbNotification)
    : (r: Result<WebhookData, string>)
    ensures r.Err? <==> n.signature != sign(config.apiSecret, FieldsOf(n))
    ensures r.Err? ==> r.error == "Invalid webhook signature"
    ensures r.Ok? ==> r.value.bankType == "kcb" && r.value.status == MapKcbStatus(n.status)
  {
    if n.signature != sign(config.apiSecret, FieldsOf(n)) then Err("Invalid webhook signature")
    else Ok(WebhookData("kcb", n.transactionId, n.reference, n.amount, MapKcbStatus(n.status), n.timestamp))
  }

  /** A signing function that gives distinct fields distinct signatures under `key`. */
  ghost predicate Injective(sign: (string, SignedFields) -> string, key: string) {
    forall a: SignedFields, b: SignedFields :: sign(key, a) == sign(key, b) ==> a == b
  }

  /** A notification signed with the school's secret is accepted and carries its own fields. */
  lemma SignedNotificationAccepted(config: BankConfig, sign: (string, SignedFields) -> string, f: SignedFields)
    ensures var n := KcbNotification(sign(config.apiSecret, f), f.transactionId, f.reference, f.amount, f.status, f.timestamp);
      ValidateKcbWebhook(config, sign, n)
        == Ok(WebhookData("kcb", f.transactionId, f.reference, f.amount, MapKcbStatus(f.status), f.timestamp))
  {
  }

  /**
   * With an injective signature, a notification whose signed fields were
   * altered while its signature was kept is rejected.
   */
  lemma AlteredNotificationRejected(config: BankConfig, sign: (string, SignedFields) -> string,
                                    n: KcbNotification, m: KcbNotification)
    requires Injective(sign, config.apiSecret)
    requires ValidateKcbWebhook(config, sign, n).Ok?
    requires m.signature == n.signature && FieldsOf(m) != FieldsOf(n)
    ensures ValidateKcbWebhook(config, sign, m) == Err("Invalid webhook signature")
  {
  }

  /** The initiation outcome: accepted on a true `success` flag; otherwise the bank's message or the default. */
  function KcbAttempt(reply: KcbReply): (a: InitAttempt)
    ensures a.AttemptAccepted? <==> reply.KcbReplied? && reply.success
    ensures a.AttemptAccepted? ==> a.transactionId == reply.transactionId
    ensures reply.KcbReplied? && !reply.success ==>
              a.message == (if reply.message.Some? && reply.message.value != "" then reply.message.value else DefaultInitError)
    ensures reply.KcbTransportError? ==> a == AttemptRefused(reply.error)
  {
    match reply
    case KcbReplied(success, tx, m) => if success then AttemptAccepted(tx) else AttemptRefused(RefusalMessage(m))
    case KcbTransportError(e) => AttemptRefused(e)
  }

  /** `initiatePayment` on a KCB service. */
  method InitiatePayment(svc: BankService, feeId: string, reply: KcbReply, now1: nat, now2: nat, stamp: string,
                         f1: FeeFaults, f2: FeeFaults) returns (r: Result<BankPaymentResponse, Thrown>)
    modifies svc.backend
    ensures (svc.backend.State(), r)
         == InitiationSpec(svc.config, old(svc.backend.State()), feeId, KcbAttempt(reply), now1, now2, stamp, f1, f2)
  {
    r := svc.SettleInitiation(feeId, KcbAttempt(reply), now1, now2, stamp, f1, f2);
  }

  /** `verifyPayment`: success only on the exact, lower-case status `completed`. */
  function VerifyPayment(tx: string, reply: VerifyReply): (r: BankPaymentResponse)
    ensures r.success <==> reply.VerifyReplied? && reply.status == "completed"
    ensures r.transactionId == Some(tx)
    ensures reply.VerifyError? ==> r.reference == ""
  {
    VerifyOutcome("completed", tx, reply)
  }

  /**
   * Verification compares case-sensitively while notifications do not: a
   * `COMPLETED` verification reply is not a success, a `COMPLETED`
   * notification is.
   */
  lemma VerifyIsCaseSensitive(tx: string, reference: string, message: string)
    ensures !VerifyPayment(tx, VerifyReplied("COMPLETED", reference, message)).success
    ensures MapKcbStatus("COMPLETED") == WebhookSuccess
  {
    assert "COMPLETED"[0] != "completed"[0];
    ToUpperCaseCapitals("COMPLETED");
  }
}
