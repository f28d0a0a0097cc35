/**
 * What every bank integration shares: the fee update that records a payment
 * attempt (amount-paid arithmetic, derived paid/pending status, webhook log on
 * failure), the payment reference, the test-mode simulations and the way an
 * initiation or verification outcome is turned into a response.
 *
 * The remote `fees` and `bank_webhook_logs` tables are the fields of
 * `PaymentBackend`; the faults the remote store can answer with are
 * parameters (`FeeFaults`).
 */
module BankBase {
  import opened Wrappers
  import opened Strings

  /** The bank a service instance talks to. */
  datatype BankKind = Kcb | Equity | Cooperative | Im

  /** `bank_api_settings`; `bank_type` is whatever text the settings hold. */
  datatype BankConfig = BankConfig(
    bankType: string,
    apiEndpoint: string,
    apiKey: string,
    apiSecret: string,
    webhookUrl: string,
    isLive: bool,
    schoolId: Option<string>)

  /** A school's `payment_settings`; `others` holds any further keys, as JSON text. */
  datatype PaymentSettings = PaymentSettings(
    bankName: string,
    paybillNumber: string,
    accountNumber: string,
    referenceFormat: string,
    bankApiSettings: Option<BankConfig>,
    others: map<string, string>)

  /** The status a caller reports for a payment attempt. */
  datatype PaymentStatus = PayPending | PayCompleted | PayFailed

  /** The normalised status of a bank notification. */
  datatype WebhookStatus = WebhookSuccess | WebhookFailed | WebhookPending

  /** `payment_details`; `None` is a key left out of the JSON. */
  datatype PaymentDetails = PaymentDetails(
    bankName: string,
    transactionId: Option<string>,
    errorMessage: Option<string>,
    paymentAmount: Option<int>)

  /** The columns of a `fees` row the payment code reads or writes. */
  datatype FeeRow = FeeRow(
    amount: int,
    amountPaid: Option<int>,
    status: string,
    paymentMethod: Option<string>,
    paymentReference: Option<string>,
    paymentDate: Option<string>,
    paymentDetails: Option<PaymentDetails>)

  /** A `bank_webhook_logs` row written when a fee update fails. */
  datatype WebhookLog = WebhookLog(
    schoolId: Option<string>,
    bankType: string,
    feeId: string,
    callStatus: PaymentStatus,
    status: WebhookStatus,
    errorMessage: string)

  datatype BankPaymentResponse = BankPaymentResponse(
    success: bool,
    transactionId: Option<string>,
    reference: string,
    message: string)

  datatype WebhookData = WebhookData(
    bankType: string,
    transactionId: string,
    reference: string,
    amount: int,
    status: WebhookStatus,
    timestamp: string)

  /** What the remote store answers to the fee read and the fee update of one call. */
  datatype FeeFaults = FeeFaults(fetchError: Option<Thrown>, updateError: Option<Thrown>)

  /**
   * The error `.single()` reports when no row matches: PostgREST's PGRST116,
   * a plain error object. A missing fee therefore arrives as a fetch error,
   * and the source's separate `Fee not found` branch is never reached.
   */
  const NoSingleRow: Thrown := PlainObject("JSON object requested, multiple (or no) rows returned")

  /** The fetch error of the fee read: the store's own error, else `NoSingleRow` for a missing fee. */
  function FetchFault(st: Backend, feeId: string, faults: FeeFaults): Option<Thrown> {
    if faults.fetchError.Some? then faults.fetchError
    else if feeId !in st.fees then Some(NoSingleRow)
    else None
  }

  const NoFaults: FeeFaults := FeeFaults(None, None)

  /** The remote tables touched by payment processing. */
  datatype Backend = Backend(fees: map<string, FeeRow>, logs: seq<WebhookLog>)

  /** `fee.amount_paid || 0`. */
  function CurrentPaid(row: FeeRow): int {
    row.amountPaid.GetOr(0)
  }

  /** `paymentAmount || fee.amount`: an absent or zero payment amount counts as the whole fee. */
  function Charge(row: FeeRow, paymentAmount: Option<int>): int {
    if paymentAmount.Some? && paymentAmount.value != 0 then paymentAmount.value else row.amount
  }

  /** Only a completed payment adds to what has been paid. */
  function NewAmountPaid(row: FeeRow, status: PaymentStatus, paymentAmount: Option<int>): int {
    if status == PayCompleted then CurrentPaid(row) + Charge(row, paymentAmount) else CurrentPaid(row)
  }

  function FeeStatusFor(paid: int, amount: int): string {
    if paid >= amount then "paid" else "pending"
  }

  /** The row after a successful update. */
  function ApplyPayment(row: FeeRow, bankType: string, status: PaymentStatus, transactionId: Option<string>,
                        errorMessage: Option<string>, paymentAmount: Option<int>, stamp: string): FeeRow
  {
    var paid := NewAmountPaid(row, status, paymentAmount);
    row.(status := FeeStatusFor(paid, row.amount),
         paymentMethod := Some("bank"),
         paymentReference := if transactionId.Some? then transactionId else row.paymentReference,
         paymentDate := if status == PayCompleted then Some(stamp) else None,
         amountPaid := Some(paid),
         paymentDetails := Some(PaymentDetails(bankType, transactionId, errorMessage, paymentAmount)))
  }

  /**
   * With a non-negative fee and a non-negative payment amount, the amount
   * paid never goes down, and only a completed payment raises it.
   */
  lemma AmountPaidNeverDecreases(row: FeeRow, status: PaymentStatus, paymentAmount: Option<int>)
    requires row.amount >= 0
    requires paymentAmount.Some? ==> paymentAmount.value >= 0
    ensures NewAmountPaid(row, status, paymentAmount) >= CurrentPaid(row)
    ensures status != PayCompleted ==> NewAmountPaid(row, status, paymentAmount) == CurrentPaid(row)
  {
  }

  /**
   * The written status is `paid` exactly when the new amount paid covers the
   * fee, whatever status the call reported: a failed attempt on a covered fee
   * writes `paid`, on an uncovered one `pending`.
   */
  lemma StatusFollowsCoverage(row: FeeRow, bankType: string, status: PaymentStatus, tx: Option<string>,
                              err: Option<string>, pa: Option<int>, stamp: string)
    ensures var r := ApplyPayment(row, bankType, status, tx, err, pa, stamp);
      && r.amountPaid.Some?
      && (r.status == "paid" <==> r.amountPaid.value >= row.amount)
      && (r.status == "pending" <==> r.amountPaid.value < row.amount)
      && (status == PayFailed ==> (r.status == "paid" <==> CurrentPaid(row) >= row.amount))
      && r.amount == row.amount
  {
  }

  /**
   * The payment date is set only for a completed payment, the method is
   * always `bank`, and the reference is the transaction id when one is given.
   */
  lemma PaymentColumns(row: FeeRow, bankType: string, status: PaymentStatus, tx: Option<string>,
                       err: Option<string>, pa: Option<int>, stamp: string)
    ensures var r := ApplyPayment(row, bankType, status, tx, err, pa, stamp);
      && (r.paymentDate.Some? <==> status == PayCompleted)
      && r.paymentMethod == Some("bank")
      && (tx.Some? ==> r.paymentReference == tx)
      && r.paymentDetails == Some(PaymentDetails(bankType, tx, err, pa))
  {
  }

  /** A completed payment of the default amount on a fee with nothing paid settles it exactly. */
  lemma DefaultPaymentSettles(row: FeeRow, bankType: string, tx: Option<string>, stamp: string)
    requires CurrentPaid(row) == 0
    ensures var r := ApplyPayment(row, bankType, PayCompleted, tx, None, None, stamp);
      r.amountPaid == Some(row.amount) && r.status == "paid"
  {
  }

  /**
   * `updatePaymentStatus`: read the fee, fail with a log entry when the read
   * errs or finds nothing, otherwise write the updated row, failing with a
   * log entry when the write errs.
   */
  function UpdateSpec(config: BankConfig, st: Backend, feeId: string, status: PaymentStatus,
                      tx: Option<string>, err: Option<string>, pa: Option<int>, stamp: string,
                      faults: FeeFaults): (Backend, Result<(), Thrown>)
  {
    var fetched := FetchFault(st, feeId, faults);
    if fetched.Some? then
      (Logged(config, st, feeId, status, "Failed to fetch fee details: " + fetched.value.message),
       Err(fetched.value))
    else if faults.updateError.Some? then
      (Logged(config, st, feeId, status, "Failed to update payment status: " + faults.updateError.value.message),
       Err(faults.updateError.value))
    else
      (st.(fees := st.fees[feeId := ApplyPayment(st.fees[feeId], config.bankType, status, tx, err, pa, stamp)]), Ok(()))
  }

  /** The state after one failure entry is appended to the webhook log. */
  function Logged(config: BankConfig, st: Backend, feeId: string, status: PaymentStatus, msg: string): Backend {
    st.(logs := st.logs + [WebhookLog(config.schoolId, config.bankType, feeId, status, WebhookFailed, msg)])
  }

  /**
   * A failed update writes no fee and appends exactly one failure log entry;
   * a successful one rewrites exactly the named fee and logs nothing.
   */
  lemma UpdateWritesAllOrNothing(config: BankConfig, st: Backend, feeId: string, status: PaymentStatus,
                                 tx: Option<string>, err: Option<string>, pa: Option<int>, stamp: string,
                                 faults: FeeFaults)
    ensures var (st', r) := UpdateSpec(config, st, feeId, status, tx, err, pa, stamp, faults);
      && (r.Err? ==> st'.fees == st.fees && |st'.logs| == |st.logs| + 1
                     && st'.logs[..|st.logs|] == st.logs && st'.logs[|st.logs|].status == WebhookFailed)
      && (r.Ok? <==> faults.fetchError.None? && feeId in st.fees && faults.updateError.None?)
      && (faults.fetchError.None? && feeId !in st.fees ==> r == Err(NoSingleRow))
      && (r.Ok? ==> st'.logs == st.logs && st'.fees.Keys == st.fees.Keys
                    && st'.fees[feeId] == ApplyPayment(st.fees[feeId], config.bankType, status, tx, err, pa, stamp)
                    && forall k :: k in st.fees && k != feeId ==> st'.fees[k] == st.fees[k])
  {
    var fetched := FetchFault(st, feeId, faults);
    if fetched.Some? {
      LoggedAppendsOne(config, st, feeId, status, "Failed to fetch fee details: " + fetched.value.message);
    } else if faults.updateError.Some? {
      LoggedAppendsOne(config, st, feeId, status, "Failed to update payment status: " + faults.updateError.value.message);
    }
  }

  /** Logging a failure appends one failed entry and touches nothing else. */
  lemma LoggedAppendsOne(config: BankConfig, st: Backend, feeId: string, status: PaymentStatus, msg: string)
    ensures var st' := Logged(config, st, feeId, status, msg);
      && st'.fees == st.fees && |st'.logs| == |st.logs| + 1
      && st'.logs[..|st.logs|] == st.logs && st'.logs[|st.logs|].status == WebhookFailed
  {
    var st' := Logged(config, st, feeId, status, msg);
    assert st'.logs[..|st.logs|] == st.logs;
  }

  /** `generateReference`: `TEST-` in test mode, the fee id, `-`, the last six digits of the clock. */
  function GenerateReference(testMode: bool, feeId: string, now: nat): string {
    (if testMode then "TEST-" else "") + feeId + "-" + LastN(NatToString(now), 6)
  }

  /**
   * The reference is the mode prefix, the fee id and `-`, followed by one to
   * six digits that denote the clock modulo one million.
   */
  lemma ReferenceShape(testMode: bool, feeId: string, now: nat)
    ensures var r := GenerateReference(testMode, feeId, now);
      var prefix := if testMode then "TEST-" else "";
      var tail := r[|prefix| + |feeId| + 1..];
      && |prefix| + |feeId| + 1 <= |r|
      && r[..|prefix| + |feeId| + 1] == prefix + feeId + "-"
      && 1 <= |tail| <= 6 && AllDigits(tail)
      && DigitsValue(tail) == now % 1000000
  {
    var r := GenerateReference(testMode, feeId, now);
    var prefix := if testMode then "TEST-" else "";
    assert r == (prefix + feeId + "-") + LastN(NatToString(now), 6);
    LastDigitsValue(now, 6);
    assert Pow10(6) == 1000000;
  }

  /** The outcome of the bank call that starts a payment. */
  datatype InitAttempt = AttemptAccepted(transactionId: string) | AttemptRefused(message: string)

  /** A reply carrying a `status` text, as the Co-operative and I&M APIs answer. */
  datatype StatusReply = StatusReplied(status: string, transactionId: string, message: Option<string>)
                       | StatusTransportError(error: string)

  const DefaultInitError: string := "Failed to initiate payment"
  const InitiatedMessage: string := "Payment initiated successfully"

  /** `response.data.message || 'Failed to initiate payment'`. */
  function RefusalMessage(m: Option<string>): string {
    if m.Some? && m.value != "" then m.value else DefaultInitError
  }

  /** A status reply is accepted exactly when its status equals `accepted`. */
  function StatusAttempt(accepted: string, reply: StatusReply): (a: InitAttempt)
    ensures a.AttemptAccepted? <==> reply.StatusReplied? && reply.status == accepted
  {
    match reply
    case StatusReplied(status, tx, m) => if status == accepted then AttemptAccepted(tx) else AttemptRefused(RefusalMessage(m))
    case StatusTransportError(m) => AttemptRefused(m)
  }

  /**
   * `initiatePayment` once the bank has answered: an accepted attempt marks
   * the fee pending with the transaction id and succeeds; any refusal, or a
   * failure of that first update, marks the fee failed with the error and
   * answers `success: false` under a freshly generated reference; a failure
   * of that second update is the error of the whole call.
   */
  function InitiationSpec(config: BankConfig, st: Backend, feeId: string, attempt: InitAttempt,
                          now1: nat, now2: nat, stamp: string, f1: FeeFaults, f2: FeeFaults)
    : (Backend, Result<BankPaymentResponse, Thrown>)
  {
    match attempt
    case AttemptRefused(m) => FailureSpec(config, st, feeId, ErrorInstance(m), now2, stamp, f2)
    case AttemptAccepted(tx) =>
      var (st1, r1) := UpdateSpec(config, st, feeId, PayPending, Some(tx), None, None, stamp, f1);
      if r1.Ok? then (st1, Ok(BankPaymentResponse(true, Some(tx), GenerateReference(!config.isLive, feeId, now1), InitiatedMessage)))
      else FailureSpec(config, st1, feeId, r1.error, now2, stamp, f2)
  }

  /** The catch of `initiatePayment` records this for a thrown non-`Error` value. */
  const UnknownError: string := "Unknown error"

  /**
   * The catch branch of `initiatePayment`: mark the fee failed with the
   * caught message (`Unknown error` for a non-`Error`), then answer
   * `success: false` with that message (`Failed to initiate payment` for a non-`Error`).
   */
  function FailureSpec(config: BankConfig, st: Backend, feeId: string, error: Thrown, now2: nat, stamp: string,
                       f2: FeeFaults): (Backend, Result<BankPaymentResponse, Thrown>)
  {
    var (st2, r2) := UpdateSpec(config, st, feeId, PayFailed, None, Some(CaughtMessage(error, UnknownError)), None, stamp, f2);
    if r2.Err? then (st2, Err(r2.error))
    else (st2, Ok(BankPaymentResponse(false, None, GenerateReference(!config.isLive, feeId, now2),
                                      CaughtMessage(error, DefaultInitError))))
  }

  /**
   * The initiation succeeds exactly when the bank accepted and the fee could
   * be marked pending; then the amount paid is unchanged and the fee carries
   * the transaction id. A refused attempt whose failure update goes through
   * answers `success: false` with the refusal as message and leaves the
   * amount paid as it was.
   */
  lemma InitiationOutcome(config: BankConfig, st: Backend, feeId: string, attempt: InitAttempt,
                          now1: nat, now2: nat, stamp: string, f1: FeeFaults, f2: FeeFaults)
    ensures var (st', r) := InitiationSpec(config, st, feeId, attempt, now1, now2, stamp, f1, f2);
      && (r.Ok? && r.value.success <==>
            attempt.AttemptAccepted? && f1.fetchError.None? && feeId in st.fees && f1.updateError.None?)
      && (r.Ok? && r.value.success ==>
            && r.value.transactionId == Some(attempt.transactionId)
            && st'.fees[feeId].amountPaid == Some(CurrentPaid(st.fees[feeId]))
            && st'.fees[feeId].paymentReference == Some(attempt.transactionId))
      && (attempt.AttemptRefused? && f2.fetchError.None? && feeId in st.fees && f2.updateError.None? ==>
            && r == Ok(BankPaymentResponse(false, None, GenerateReference(!config.isLive, feeId, now2), attempt.message))
            && st'.fees[feeId].amountPaid == Some(CurrentPaid(st.fees[feeId]))
            && st'.fees[feeId].paymentDetails.value.errorMessage == Some(attempt.message))
      && (r.Err? ==> attempt.AttemptRefused? || UpdateSpec(config, st, feeId, PayPending, Some(attempt.transactionId), None, None, stamp, f1).1.Err?)
      && (attempt.AttemptAccepted? && f1.fetchError.None? && feeId in st.fees && f1.updateError.Some?
          && f1.updateError.value.PlainObject? && f2.fetchError.None? && f2.updateError.None? ==>
            && r == Ok(BankPaymentResponse(false, None, GenerateReference(!config.isLive, feeId, now2), DefaultInitError))
            && st'.fees[feeId].paymentDetails.value.errorMessage == Some(UnknownError))
  {
  }

  /** What a verification request got back from the bank. */
  datatype VerifyReply = VerifyReplied(status: string, reference: string, message: string)
                       | VerifyError(error: string)

  /** `verifyPayment`: success exactly when the bank reports `successStatus`; an error gives an empty reference. */
  function VerifyOutcome(successStatus: string, tx: string, reply: VerifyReply): (r: BankPaymentResponse)
    ensures r.success <==> reply.VerifyReplied? && reply.status == successStatus
    ensures r.transactionId == Some(tx)
    ensures reply.VerifyError? ==> r.reference == "" && r.message == reply.error
    ensures reply.VerifyReplied? ==> r.reference == reply.reference && r.message == reply.message
  {
    match reply
    case VerifyReplied(status, reference, message) => BankPaymentResponse(status == successStatus, Some(tx), reference, message)
    case VerifyError(message) => BankPaymentResponse(false, Some(tx), "", message)
  }

  /** The remote payment tables. */
  class PaymentBackend {
    var fees: map<string, FeeRow>
    var webhookLogs: seq<WebhookLog>

    function State(): Backend
      reads this
    {
      Backend(fees, webhookLogs)
    }

    constructor (fees: map<string, FeeRow>)
      ensures this.fees == fees && webhookLogs == []
    {
      this.fees := fees;
      webhookLogs := [];
    }
  }

  /** `BaseBankService`: one school's bank configuration and the tables it writes. */
  class BankService {
    const kind: BankKind
    const config: BankConfig
    const backend: PaymentBackend

    constructor (kind: BankKind, config: BankConfig, backend: PaymentBackend)
      ensures this.kind == kind && this.config == config && this.backend == backend
    {
      this.kind := kind;
      this.config := config;
      this.backend := backend;
    }

    method UpdatePaymentStatus(feeId: string, status: PaymentStatus, tx: Option<string>, err: Option<string>,
                               pa: Option<int>, stamp: string, faults: FeeFaults) returns (r: Result<(), Thrown>)
      modifies backend
      ensures (backend.State(), r) == UpdateSpec(config, old(backend.State()), feeId, status, tx, err, pa, stamp, faults)
    {
      var logEntry := WebhookLog(config.schoolId, config.bankType, feeId, status, WebhookFailed, "");
      var fetchError := if faults.fetchError.Some? then faults.fetchError
                        else if feeId !in backend.fees then Some(NoSingleRow) else None;
      if fetchError.Some? {
        backend.webhookLogs := backend.webhookLogs + [logEntry.(errorMessage := "Failed to fetch fee details: " + fetchError.value.message)];
        return Err(fetchError.value);
      }
      var fee := backend.fees[feeId];
      if faults.updateError.Some? {
        backend.webhookLogs := backend.webhookLogs + [logEntry.(errorMessage := "Failed to update payment status: " + faults.updateError.value.message)];
        return Err(faults.updateError.value);
      }
      backend.fees := backend.fees[feeId := ApplyPayment(fee, config.bankType, status, tx, err, pa, stamp)];
      r := Ok(());
    }

    /** Test mode is the absence of `is_live`. */
    predicate IsTestMode() {
      !config.isLive
    }

    /** The shared tail of every `initiatePayment` once the bank call has an outcome. */
    method SettleInitiation(feeId: string, attempt: InitAttempt, now1: nat, now2: nat, stamp: string,
                            f1: FeeFaults, f2: FeeFaults) returns (r: Result<BankPaymentResponse, Thrown>)
      modifies backend
      ensures (backend.State(), r) == InitiationSpec(config, old(backend.State()), feeId, attempt, now1, now2, stamp, f1, f2)
    {
      var reference := GenerateReference(IsTestMode(), feeId, now1);
      var error: Thrown;
      if attempt.AttemptAccepted? {
        var u := UpdatePaymentStatus(feeId, PayPending, Some(attempt.transactionId), None, None, stamp, f1);
        if u.Ok? {
          return Ok(BankPaymentResponse(true, Some(attempt.transactionId), reference, InitiatedMessage));
        }
        error := u.error;
      } else {
        error := ErrorInstance(attempt.message);
      }
      var u2 := UpdatePaymentStatus(feeId, PayFailed, None, Some(CaughtMessage(error, UnknownError)), None, stamp, f2);
      if u2.Err? {
        return Err(u2.error);
      }
      r := Ok(BankPaymentResponse(false, None, GenerateReference(IsTestMode(), feeId, now2), CaughtMessage(error, DefaultInitError)));
    }

    /**
     * `simulateTestPayment`: refused outside test mode; otherwise a successful
     * response. The reference and the transaction id read the clock
     * separately, at `now` and `now2`.
     */
    function SimulateTestPayment(feeId: string, now: nat, now2: nat): (r: Result<BankPaymentResponse, string>)
      ensures r.Err? <==> !IsTestMode()
      ensures r.Err? ==> r.error == "Test mode is not enabled"
      ensures r.Ok? ==> r.value.success && r.value.reference == GenerateReference(true, feeId, now)
                        && r.value.transactionId == Some("TEST-" + NatToString(now2))
    {
      if !IsTestMode() then Err("Test mode is not enabled")
      else Ok(BankPaymentResponse(true, Some("TEST-" + NatToString(now2)), GenerateReference(IsTestMode(), feeId, now),
                                  "Test payment initiated successfully"))
    }

    /** `simulateTestWebhook`: refused outside test mode; otherwise always a `success` notification. */
    function SimulateTestWebhook(tx: string, reference: string, amount: int, stamp: string): (r: Result<WebhookData, string>)
      ensures r.Err? <==> !IsTestMode()
      ensures r.Err? ==> r.error == "Test mode is not enabled"
      ensures r.Ok? ==> r.value == WebhookData(config.bankType, tx, reference, amount, WebhookSuccess, stamp)
    {
      if !IsTestMode() then Err("Test mode is not enabled")
      else Ok(WebhookData(config.bankType, tx, reference, amount, WebhookSuccess, stamp))
    }
  }
}
