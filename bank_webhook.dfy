/**
 * The bank notification endpoint: header guards, the school's service,
 * validation by that service, the fee id recovered from the payment
 * reference, the fee update and the receipt for successful payments.
 *
 * The request body is the record `RawNotification` holding every field any
 * bank posts (a body that is not JSON is an `Err`); Equity's notification
 * validation is the parameter `equityValidate`, and receipt generation is
 * reported as the request it would make, with its failure as a parameter.
 */
module BankWebhook {
  import opened Wrappers
  import opened Strings
  import opened BankBase
  import opened BankFactory
  import Kcb
  import Cooperative
  import Im

  /** The JSON body of a notification, as whichever bank sent it. */
  datatype RawNotification = RawNotification(
    signature: string,
    transactionId: string,
    reference: string,
    referenceNumber: string,
    paymentReference: string,
    amount: int,
    status: string,
    timestamp: string)

  datatype WebhookResponse = WebhookResponse(status: nat, error: Option<string>, details: Option<string>)

  /** A request to generate a receipt and notify the payer. */
  datatype ReceiptRequest = ReceiptRequest(feeId: string, transactionId: string, amount: int)

  const HeadersRequired: string := "School ID and Bank Type are required"
  const ServiceNotFound: string := "Bank service not found for school"
  const ProcessingFailed: string := "Failed to process webhook"
  const Accepted: WebhookResponse := WebhookResponse(200, None, None)

  function Failure(details: string): WebhookResponse {
    WebhookResponse(500, Some(ProcessingFailed), Some(details))
  }

  /** `validateWebhook` of the service of the given kind. */
  function ValidateFor(kind: BankKind, config: BankConfig, sign: (string, Kcb.SignedFields) -> string,
                       equityValidate: RawNotification -> Result<WebhookData, string>, n: RawNotification)
    : Result<WebhookData, string>
  {
    match kind
    case Kcb =>
      Kcb.ValidateKcbWebhook(config, sign, Kcb.KcbNotification(n.signature, n.transactionId, n.reference, n.amount, n.status, n.timestamp))
    case Cooperative =>
      Cooperative.ValidateCooperativeWebhook(Cooperative.CooperativeNotification(n.signature, n.transactionId, n.referenceNumber, n.amount, n.status, n.timestamp))
    case Im =>
      Im.ValidateImWebhook(Im.ImNotification(n.signature, n.transactionId, n.paymentReference, n.amount, n.status, n.timestamp))
    case Equity => equityValidate(n)
  }

  /** The fee id inside a reference: after the first `TEST-` when there is one, up to the next `-`. */
  function ExtractFeeId(reference: string): string {
    if Contains(reference, "TEST-") then BeforeFirst(Split(reference, "TEST-")[1], "-")
    else BeforeFirst(reference, "-")
  }

  /** Only a successful notification completes the payment; a pending one is passed on as failed. */
  function PaymentStatusFor(s: WebhookStatus): PaymentStatus {
    if s == WebhookSuccess then PayCompleted else PayFailed
  }

  /** The fee update a validated notification makes. */
  function ApplyNotification(config: BankConfig, st: Backend, d: WebhookData, stamp: string, faults: FeeFaults)
    : (Backend, Result<(), Thrown>)
  {
    UpdateSpec(config, st, ExtractFeeId(d.reference), PaymentStatusFor(d.status), Some(d.transactionId),
               if d.status == WebhookFailed then Some("Payment failed") else None, Some(d.amount), stamp, faults)
  }

  predicate Present(header: Option<string>) {
    header.Some? && header.value != ""
  }

  /** The whole route: the new tables, the response and the receipt request made. */
  function WebhookSpec(st: Backend, schoolId: Option<string>, bankType: Option<string>,
                       body: Result<RawNotification, string>, lookup: SettingsLookup,
                       sign: (string, Kcb.SignedFields) -> string,
                       equityValidate: RawNotification -> Result<WebhookData, string>,
                       stamp: string, faults: FeeFaults, receiptError: Option<Thrown>)
    : (Backend, WebhookResponse, Option<ReceiptRequest>)
  {
    if !Present(schoolId) || !Present(bankType) then (st, WebhookResponse(400, Some(HeadersRequired), None), None)
    else if body.Err? then (st, Failure(body.error), None)
    else match SchoolConfig(schoolId.value, lookup)
      case None => (st, WebhookResponse(404, Some(ServiceNotFound), None), None)
      case Some(config) =>
        match KindOf(config.bankType)
        case None => (st, Failure("Unsupported bank type: " + config.bankType), None)
        case Some(kind) =>
          match ValidateFor(kind, config, sign, equityValidate, body.value)
          case Err(e) => (st, Failure(e), None)
          case Ok(d) =>
            var (st1, u) := ApplyNotification(config, st, d, stamp, faults);
            if u.Err? then (st1, Failure(CaughtMessage(u.error, UnknownError)), None)
            else if d.status != WebhookSuccess then (st1, Accepted, None)
            else
              var receipt := Some(ReceiptRequest(ExtractFeeId(d.reference), d.transactionId, d.amount));
              if receiptError.Some? then (st1, Failure(CaughtMessage(receiptError.value, UnknownError)), receipt)
              else (st1, Accepted, receipt)
  }

  /** `POST /api/webhooks/bank`. */
  method HandleWebhook(backend: PaymentBackend, schoolId: Option<string>, bankType: Option<string>,
                       body: Result<RawNotification, string>, lookup: SettingsLookup,
                       sign: (string, Kcb.SignedFields) -> string,
                       equityValidate: RawNotification -> Result<WebhookData, string>,
                       stamp: string, faults: FeeFaults, receiptError: Option<Thrown>)
    returns (response: WebhookResponse, receipt: Option<ReceiptRequest>)
    modifies backend
    ensures (backend.State(), response, receipt)
         == WebhookSpec(old(backend.State()), schoolId, bankType, body, lookup, sign, equityValidate, stamp, faults, receiptError)
  {
    receipt := None;
    if !Present(schoolId) || !Present(bankType) {
      return WebhookResponse(400, Some(HeadersRequired), None), None;
    }
    if body.Err? {
      return Failure(body.error), None;
    }
    var found := GetSchoolBankService(schoolId.value, lookup, backend);
    if found.Err? {
      return Failure(found.error), None;
    }
    if found.value.None? {
      return WebhookResponse(404, Some(ServiceNotFound), None), None;
    }
    var service := found.value.value;
    var validated := ValidateFor(service.kind, service.config, sign, equityValidate, body.value);
    if validated.Err? {
      return Failure(validated.error), None;
    }
    var d := validated.value;
    var feeId := ExtractFeeId(d.reference);
    var updated := service.UpdatePaymentStatus(feeId, PaymentStatusFor(d.status), Some(d.transactionId),
                                               if d.status == WebhookFailed then Some("Payment failed") else None,
                                               Some(d.amount), stamp, faults);
    if updated.Err? {
      return Failure(CaughtMessage(updated.error, UnknownError)), None;
    }
    if d.status == WebhookSuccess {
      receipt := Some(ReceiptRequest(feeId, d.transactionId, d.amount));
      if receiptError.Some? {
        return Failure(CaughtMessage(receiptError.value, UnknownError)), receipt;
      }
    }
    response := Accepted;
  }

  /** A missing or empty header answers 400 before anything is written or requested. */
  lemma HeaderGuard(st: Backend, schoolId: Option<string>, bankType: Option<string>,
                           body: Result<RawNotification, string>, lookup: SettingsLookup,
                           sign: (string, Kcb.SignedFields) -> string,
                           equityValidate: RawNotification -> Result<WebhookData, string>,
                           stamp: string, faults: FeeFaults, receiptError: Option<Thrown>)
    requires !Present(schoolId) || !Present(bankType)
    ensures var (st', response, receipt) := WebhookSpec(st, schoolId, bankType, body, lookup, sign, equityValidate, stamp, faults, receiptError);
      response.status == 400 && st' == st && receipt.None?
  {
  }

  /** A school without a bank service answers 404, after the body is read and before anything is written. */
  lemma MissingServiceGuard(st: Backend, schoolId: Option<string>, bankType: Option<string>,
                           body: Result<RawNotification, string>, lookup: SettingsLookup,
                           sign: (string, Kcb.SignedFields) -> string,
                           equityValidate: RawNotification -> Result<WebhookData, string>,
                           stamp: string, faults: FeeFaults, receiptError: Option<Thrown>)
    requires Present(schoolId) && Present(bankType) && body.Ok?
    requires SchoolConfig(schoolId.value, lookup).None?
    ensures var (st', response, receipt) := WebhookSpec(st, schoolId, bankType, body, lookup, sign, equityValidate, stamp, faults, receiptError);
      response.status == 404 && st' == st && receipt.None?
  {
  }

  /** An answer other than 200 without a receipt request leaves every fee as it was. */
  lemma FailureKeepsFees(st: Backend, schoolId: Option<string>, bankType: Option<string>,
                           body: Result<RawNotification, string>, lookup: SettingsLookup,
                           sign: (string, Kcb.SignedFields) -> string,
                           equityValidate: RawNotification -> Result<WebhookData, string>,
                           stamp: string, faults: FeeFaults, receiptError: Option<Thrown>)
    ensures var (st', response, receipt) := WebhookSpec(st, schoolId, bankType, body, lookup, sign, equityValidate, stamp, faults, receiptError);
      response.status != 200 && receipt.None? ==> st'.fees == st.fees
  {
    if Present(schoolId) && Present(bankType) && body.Ok? && SchoolConfig(schoolId.value, lookup).Some? {
      var config := SchoolConfig(schoolId.value, lookup).value;
      if KindOf(config.bankType).Some? {
        var v := ValidateFor(KindOf(config.bankType).value, config, sign, equityValidate, body.value);
        if v.Ok? {
          var d := v.value;
          UpdateWritesAllOrNothing(config, st, ExtractFeeId(d.reference), PaymentStatusFor(d.status), Some(d.transactionId),
            if d.status == WebhookFailed then Some("Payment failed") else None, Some(d.amount), stamp, faults);
        }
      }
    }
  }

  /** The bank is chosen by the school's settings: the `x-bank-type` header is only checked for presence. */
  lemma BankTypeHeaderIgnored(st: Backend, schoolId: Option<string>, a: string, b: string,
                              body: Result<RawNotification, string>, lookup: SettingsLookup,
                              sign: (string, Kcb.SignedFields) -> string,
                              equityValidate: RawNotification -> Result<WebhookData, string>,
                              stamp: string, faults: FeeFaults, receiptError: Option<Thrown>)
    requires a != "" && b != ""
    ensures WebhookSpec(st, schoolId, Some(a), body, lookup, sign, equityValidate, stamp, faults, receiptError)
         == WebhookSpec(st, schoolId, Some(b), body, lookup, sign, equityValidate, stamp, faults, receiptError)
  {
  }

  /**
   * Once a notification is validated, the tables become those of its fee
   * update, a receipt is requested exactly when the update went through for
   * a successful notification, and the answer is 200 exactly when the
   * update went through and no receipt failed. A failed update answers 500
   * with its message as details, or `Unknown error` for a plain error object.
   */
  lemma ValidatedNotificationOutcome(st: Backend, schoolId: Option<string>, bankType: Option<string>,
                                     n: RawNotification, lookup: SettingsLookup,
                                     sign: (string, Kcb.SignedFields) -> string,
                                     equityValidate: RawNotification -> Result<WebhookData, string>,
                                     stamp: string, faults: FeeFaults, receiptError: Option<Thrown>,
                                     config: BankConfig, kind: BankKind, d: WebhookData)
    requires Present(schoolId) && Present(bankType)
    requires SchoolConfig(schoolId.value, lookup) == Some(config)
    requires KindOf(config.bankType) == Some(kind)
    requires ValidateFor(kind, config, sign, equityValidate, n) == Ok(d)
    ensures var (st', response, receipt) := WebhookSpec(st, schoolId, bankType, Ok(n), lookup, sign, equityValidate, stamp, faults, receiptError);
      var (st1, u) := ApplyNotification(config, st, d, stamp, faults);
      && st' == st1
      && (receipt.Some? <==> u.Ok? && d.status == WebhookSuccess)
      && (receipt.Some? ==> receipt.value == ReceiptRequest(ExtractFeeId(d.reference), d.transactionId, d.amount))
      && (response.status == 200 <==> u.Ok? && (d.status != WebhookSuccess || receiptError.None?))
      && (u.Err? ==> response == Failure(CaughtMessage(u.error, UnknownError)))
      && (u.Err? && u.error.PlainObject? ==> response.details == Some(UnknownError))
  {
  }

  /**
   * The fee update of a notification: only a successful one adds to the
   * amount paid (the notified amount, or the whole fee when it is zero) and
   * sets a payment date; only a failed one records `Payment failed`.
   */
  lemma NotificationEffect(config: BankConfig, st: Backend, d: WebhookData, stamp: string, faults: FeeFaults)
    ensures var (st', u) := ApplyNotification(config, st, d, stamp, faults);
      var feeId := ExtractFeeId(d.reference);
      u.Ok? ==>
        && feeId in st.fees && feeId in st'.fees
        && st'.fees[feeId].amountPaid
             == Some(if d.status == WebhookSuccess then CurrentPaid(st.fees[feeId]) + Charge(st.fees[feeId], Some(d.amount))
                     else CurrentPaid(st.fees[feeId]))
        && (st'.fees[feeId].paymentDate.Some? <==> d.status == WebhookSuccess)
        && st'.fees[feeId].paymentDetails.value.errorMessage
             == (if d.status == WebhookFailed then Some("Payment failed") else None)
        && st'.fees[feeId].paymentReference == Some(d.transactionId)
  {
  }

  predicate NoDash(s: string) {
    forall i :: 0 <= i < |s| ==> s[i] != '-'
  }

  predicate EndsWithTest(s: string) {
    |s| >= 4 && s[|s| - 4..] == "TEST"
  }

  /** The only `-` of `feeId-digits` is the one after the fee id. */
  lemma OneDash(feeId: string, digits: string, i: int)
    requires NoDash(feeId) && AllDigits(digits)
    requires 0 <= i < |feeId| + 1 + |digits|
    ensures (feeId + "-" + digits)[i] == '-' <==> i == |feeId|
  {
    var r := feeId + "-" + digits;
    if i < |feeId| {
      assert r[i] == feeId[i];
    } else if i > |feeId| {
      assert r[i] == digits[i - |feeId| - 1];
      assert IsDigit(digits[i - |feeId| - 1]);
    }
  }

  /** `TEST-` starts nowhere in `feeId-digits` when the fee id has no `-` and does not end in `TEST`. */
  lemma NoTestDashAt(feeId: string, digits: string, j: nat)
    requires NoDash(feeId) && AllDigits(digits) && !EndsWithTest(feeId)
    ensures !OccursAt(feeId + "-" + digits, "TEST-", j)
  {
    var r := feeId + "-" + digits;
    if j + 5 <= |r| {
      OneDash(feeId, digits, j + 4);
      if j + 4 == |feeId| {
        assert r[j..j + 4] == feeId[|feeId| - 4..];
        assert r[j..j + 5][..4] == r[j..j + 4];
      } else {
        assert r[j..j + 5][4] == r[j + 4];
      }
    }
  }

  /** In `feeId-digits`, with no `-` in the fee id and no `TEST` at its end, the first `-` ends the fee id and `TEST-` does not occur. */
  lemma LiveTail(feeId: string, digits: string)
    requires NoDash(feeId) && AllDigits(digits) && !EndsWithTest(feeId)
    ensures !Contains(feeId + "-" + digits, "TEST-")
    ensures BeforeFirst(feeId + "-" + digits, "-") == feeId
  {
    var r := feeId + "-" + digits;
    if IndexOf(r, "TEST-").Some? {
      NoTestDashAt(feeId, digits, IndexOf(r, "TEST-").value);
    }
    match IndexOf(r, "-")
    case None =>
      assert OccursAt(r, "-", |feeId|);
    case Some(k) =>
      assert r[k..k + 1] == "-";
      OneDash(feeId, digits, k);
      assert r[..k] == feeId;
  }

  /** Behind a leading `TEST-`, the extraction reads the rest as a live reference. */
  lemma TestPrefixSkipped(tail: string)
    requires !Contains(tail, "TEST-")
    ensures ExtractFeeId("TEST-" + tail) == BeforeFirst(tail, "-")
  {
    var r := "TEST-" + tail;
    assert r[..5] == "TEST-";
    assert IndexOf(r, "TEST-") == Some(0);
    assert r[5..] == tail;
    assert Split(r, "TEST-") == [r[..0]] + Split(tail, "TEST-");
  }

  /** The digits of a reference's clock part. */
  lemma ClockDigits(now: nat)
    ensures AllDigits(LastN(NatToString(now), 6))
  {
    LastDigitsValue(now, 6);
  }

  /**
   * `ExtractFeeId` recovers the fee id from every reference `GenerateReference`
   * builds, in both modes, for a fee id with no `-` that does not end in `TEST`.
   */
  lemma ExtractInvertsReference(testMode: bool, feeId: string, now: nat)
    requires NoDash(feeId) && !EndsWithTest(feeId)
    ensures ExtractFeeId(GenerateReference(testMode, feeId, now)) == feeId
  {
    var digits := LastN(NatToString(now), 6);
    ClockDigits(now);
    var tail := feeId + "-" + digits;
    LiveTail(feeId, digits);
    ReferenceIsTail(testMode, feeId, now);
    if testMode {
      TestPrefixSkipped(tail);
    }
  }

  /** A reference is its live part, behind `TEST-` in test mode. */
  lemma ReferenceIsTail(testMode: bool, feeId: string, now: nat)
    ensures var tail := feeId + "-" + LastN(NatToString(now), 6);
      GenerateReference(testMode, feeId, now) == if testMode then "TEST-" + tail else tail
  {
    var digits := LastN(NatToString(now), 6);
    if testMode {
      assert "TEST-" + feeId + "-" + digits == "TEST-" + (feeId + "-" + digits);
    } else {
      assert "" + feeId == feeId;
    }
  }

  /** A fee id containing `-`, such as a UUID, is cut at its first `-`. */
  lemma DashedFeeIdTruncated()
    ensures GenerateReference(false, "a-b", 5) == "a-b-5"
    ensures ExtractFeeId("a-b-5") == "a"
  {
    assert NatToString(5) == "5";
    assert LastN("5", 6) == "5";
    assert "a-b-5"[..5] != "TEST-" by {
      assert "a-b-5"[..5][0] == 'a';
    }
    assert IndexOf("a-b-5"[1..], "TEST-").None?;
    assert IndexOf("a-b-5", "TEST-").None?;
    assert OccursAt("a-b-5", "-", 1);
    assert !OccursAt("a-b-5", "-", 0);
  }
}
