/**
 * The I&M Bank integration: initiation accepted on status
 * `INITIATED`, verification on `SUCCESSFUL`, a status mapping that ignores
 * case, and a signature check that accepts everything.
 */
module Im {
  import opened Wrappers
  import opened Strings
  import opened BankBase

  /** An incoming notification as the bank posts it. */
  datatype ImNotification = ImNotification(
    signature: string,
    transactionId: string,
    paymentReference: string,
    amount: int,
    status: string,
    timestamp: string)

  /** The bank status after upper-casing: SUCCESSFUL succeeds, FAILED and CANCELLED fail. */
  function MapImStatus(status: string): WebhookStatus {
    var u := ToUpperCase(status);
    if u == "SUCCESSFUL" then WebhookSuccess
    else if u == "FAILED" || u == "CANCELLED" then WebhookFailed
    else WebhookPending
  }

  /** The mapping ignores case. */
  lemma MapImStatusIgnoresCase(status: string)
    ensures MapImStatus(ToUpperCase(status)) == MapImStatus(status)
  {
    ToUpperCaseIdempotent(status);
  }

  /** Lower-case spellings map like upper-case ones. */
  lemma MapImSpellings()
    ensures MapImStatus("successful") == WebhookSuccess
    ensures MapImStatus("cancelled") == WebhookFailed
  {
    ToUpperCaseByChar("successful", "SUCCESSFUL");
    ToUpperCaseByChar("cancelled", "CANCELLED");
  }

  /** `SUCCESS`, a success status for KCB, is left pending here. */
  lemma MapImKcbSuccessPending()
    ensures MapImStatus("SUCCESS") == WebhookPending
  {
    ToUpperCaseByChar("SUCCESS", "SUCCESS");
  }

  /** The signature check is a placeholder that accepts every signature. */
  function VerifySignature(signature: string, n: ImNotification): bool {
    true
  }

  /** `validateWebhook`: every notification is accepted, its reference taken from `payment_reference`. */
  function ValidateImWebhook(n: ImNotification): (r: Result<WebhookData, string>)
    ensures r.Ok?
    ensures r.value.bankType == "im" && r.value.reference == n.paymentReference
    ensures r.value.transactionId == n.transactionId && r.value.amount == n.amount
    ensures r.value.status == MapImStatus(n.status)
  {
    if !VerifySignature(n.signature, n) then Err("Invalid webhook signature")
    else Ok(WebhookData("im", n.transactionId, n.paymentReference, n.amount, MapImStatus(n.status), n.timestamp))
  }

  /** Whatever signature a notification carries, it validates the same. */
  lemma SignatureIgnored(n: ImNotification, forged: string)
    ensures ValidateImWebhook(n.(signature := forged)) == ValidateImWebhook(n)
  {
  }

  /** The initiation outcome: accepted exactly on the status `INITIATED`, compared case-sensitively. */
  function ImAttempt(reply: StatusReply): (a: InitAttempt)
    ensures a.AttemptAccepted? <==> reply.StatusReplied? && reply.status == "INITIATED"
    ensures a.AttemptAccepted? ==> a.transactionId == reply.transactionId
    ensures a.AttemptRefused? && reply.StatusReplied? ==> a.message == RefusalMessage(reply.message)
    ensures reply.StatusTransportError? ==> a == AttemptRefused(reply.error)
  {
    StatusAttempt("INITIATED", reply)
  }

  /** `initiatePayment` on an I&M Bank service. */
  method InitiatePayment(svc: BankService, feeId: string, reply: StatusReply, now1: nat, now2: nat, stamp: string,
                         f1: FeeFaults, f2: FeeFaults) returns (r: Result<BankPaymentResponse, Thrown>)
    modifies svc.backend
    ensures (svc.backend.State(), r)
         == InitiationSpec(svc.config, old(svc.backend.State()), feeId, ImAttempt(reply), now1, now2, stamp, f1, f2)
  {
    r := svc.SettleInitiation(feeId, ImAttempt(reply), now1, now2, stamp, f1, f2);
  }

  /** `verifyPayment`: success exactly on the status `SUCCESSFUL`. */
  function VerifyPayment(tx: string, reply: VerifyReply): (r: BankPaymentResponse)
    ensures r.success <==> reply.VerifyReplied? && reply.status == "SUCCESSFUL"
    ensures r.transactionId == Some(tx)
    ensures reply.VerifyError? ==> r.reference == ""
  {
    VerifyOutcome("SUCCESSFUL", tx, reply)
  }
}
