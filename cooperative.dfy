/**
 * The Co-operative Bank integration: initiation accepted on status
 * `ACCEPTED`, verification on `COMPLETED`, a status mapping that ignores
 * case, and a signature check that accepts everything.
 */
module Cooperative {
  import opened Wrappers
  import opened Strings
  import opened BankBase

  /** An incoming notification as the bank posts it. */
  datatype CooperativeNotification = CooperativeNotification(
    signature: string,
    transactionId: string,
    referenceNumber: string,
    amount: int,
    status: string,
    timestamp: string)

  /** The bank status after upper-casing: COMPLETED succeeds, FAILED and REJECTED fail. */
  function MapCooperativeStatus(status: string): WebhookStatus {
    var u := ToUpperCase(status);
    if u == "COMPLETED" then WebhookSuccess
    else if u == "FAILED" || u == "REJECTED" then WebhookFailed
    else WebhookPending
  }

  /** The mapping ignores case. */
  lemma MapCooperativeStatusIgnoresCase(status: string)
    ensures MapCooperativeStatus(ToUpperCase(status)) == MapCooperativeStatus(status)
  {
    ToUpperCaseIdempotent(status);
  }

  /** Lower-case spellings map like upper-case ones. */
  lemma MapCooperativeSpellings()
    ensures MapCooperativeStatus("completed") == WebhookSuccess
    ensures MapCooperativeStatus("rejected") == WebhookFailed
  {
    ToUpperCaseByChar("completed", "COMPLETED");
    ToUpperCaseByChar("rejected", "REJECTED");
  }

  /** `SUCCESS`, a success status for KCB, is left pending here. */
  lemma MapCooperativeKcbSuccessPending()
    ensures MapCooperativeStatus("SUCCESS") == WebhookPending
  {
    ToUpperCaseByChar("SUCCESS", "SUCCESS");
  }

  /** The signature check is a placeholder that accepts every signature. */
  function VerifySignature(signature: string, n: CooperativeNotification): bool {
    true
  }

  /** `validateWebhook`: every notification is accepted, its reference taken from `reference_number`. */
  function ValidateCooperativeWebhook(n: CooperativeNotification): (r: Result<WebhookData, string>)
    ensures r.Ok?
    ensures r.value.bankType == "cooperative" && r.value.reference == n.referenceNumber
    ensures r.value.transactionId == n.transactionId && r.value.amount == n.amount
    ensures r.value.status == MapCooperativeStatus(n.status)
  {
    if !VerifySignature(n.signature, n) then Err("Invalid webhook signature")
    else Ok(WebhookData("cooperative", n.transactionId, n.referenceNumber, n.amount, MapCooperativeStatus(n.status), n.timestamp))
  }

  /** Whatever signature a notification carries, it validates the same. */
  lemma SignatureIgnored(n: CooperativeNotification, forged: string)
    ensures ValidateCooperativeWebhook(n.(signature := forged)) == ValidateCooperativeWebhook(n)
  {
  }

  /** The initiation outcome: accepted exactly on the status `ACCEPTED`, compared case-sensitively. */
  function CooperativeAttempt(reply: StatusReply): (a: InitAttempt)
    ensures a.AttemptAccepted? <==> reply.StatusReplied? && reply.status == "ACCEPTED"
    ensures a.AttemptAccepted? ==> a.transactionId == reply.transactionId
    ensures a.AttemptRefused? && reply.StatusReplied? ==> a.message == RefusalMessage(reply.message)
    ensures reply.StatusTransportError? ==> a == AttemptRefused(reply.error)
  {
    StatusAttempt("ACCEPTED", reply)
  }

  /** `initiatePayment` on a Co-operative Bank service. */
  method InitiatePayment(svc: BankService, feeId: string, reply: StatusReply, now1: nat, now2: nat, stamp: string,
                         f1: FeeFaults, f2: FeeFaults) returns (r: Result<BankPaymentResponse, Thrown>)
    modifies svc.backend
    ensures (svc.backend.State(), r)
         == InitiationSpec(svc.config, old(svc.backend.State()), feeId, CooperativeAttempt(reply), now1, now2, stamp, f1, f2)
  {
    r := svc.SettleInitiation(feeId, CooperativeAttempt(reply), now1, now2, stamp, f1, f2);
  }

  /** `verifyPayment`: success exactly on the status `COMPLETED`. */
  function VerifyPayment(tx: string, reply: VerifyReply): (r: BankPaymentResponse)
    ensures r.success <==> reply.VerifyReplied? && reply.status == "COMPLETED"
    ensures r.transactionId == Some(tx)
    ensures reply.VerifyError? ==> r.reference == ""
  {
    VerifyOutcome("COMPLETED", tx, reply)
  }
}
