/**
 * Manual (paybill) payments: a reference code stored as a pending
 * `payment_references` row, the instructions text shown to the payer, and
 * the confirmation that completes the reference and then marks the fee paid.
 *
 * The clock, the random number and the answers of the remote store are
 * parameters.
 */
module Payment {
  import opened Wrappers
  import opened Strings
  import opened BankBase

  /** A `payment_references` row. */
  datatype ReferenceRow = ReferenceRow(
    schoolId: string,
    feeId: string,
    amount: int,
    studentAdmissionNumber: string,
    studentName: string,
    status: string,
    createdAt: string,
    transactionId: Option<string>,
    paymentDate: Option<string>,
    paymentMethod: Option<string>)

  /** What `generatePaymentReference` hands back. */
  datatype PaymentReference = PaymentReference(
    schoolId: string,
    feeId: string,
    reference: string,
    amount: int,
    studentAdmissionNumber: string,
    studentName: string)

  datatype PaymentMethod = Mpesa | Bank

  function MethodName(m: PaymentMethod): string {
    match m
    case Mpesa => "mpesa"
    case Bank => "bank"
  }

  datatype ConfirmDetails = ConfirmDetails(amount: int, transactionId: string, paymentDate: string, paymentMethod: PaymentMethod)

  /** The answers of the remote store to the three steps of a confirmation. */
  datatype ConfirmFaults = ConfirmFaults(lookupError: Option<string>, referenceUpdateError: Option<string>,
                                         feeUpdateError: Option<string>)

  /** `REF`, the last six digits of the clock, then the random number in 0..999 padded to three digits. */
  function ReferenceCode(now: nat, random: nat): string
    requires random < 1000
  {
    "REF" + LastN(NatToString(now), 6) + PadStart(NatToString(random), 3, '0')
  }

  /**
   * The code is `REF` followed by digits only: the last three denote the
   * random number, the ones before them the clock modulo one million, and
   * from the clock value 100000 on the code is always twelve characters.
   */
  lemma ReferenceCodeShape(now: nat, random: nat)
    requires random < 1000
    ensures var r := ReferenceCode(now, random);
      && 7 <= |r| <= 12 && r[..3] == "REF" && AllDigits(r[3..])
      && AllDigits(r[|r| - 3..]) && DigitsValue(r[|r| - 3..]) == random
      && AllDigits(r[3..|r| - 3]) && DigitsValue(r[3..|r| - 3]) == now % 1000000
      && (now >= 100000 ==> |r| == 12)
  {
    var r := ReferenceCode(now, random);
    var clock := LastN(NatToString(now), 6);
    var padded := PadStart(NatToString(random), 3, '0');
    ClockDigitsValue(now);
    ClockDigitsLength(now);
    PaddedRandomShape(random);
    ThreeParts("REF", clock, padded);
    AllDigitsAppend(clock, padded);
  }

  /** Slicing a three-part concatenation at the part boundaries gives the parts back. */
  lemma ThreeParts(a: string, b: string, c: string)
    ensures var s := a + b + c;
      && |s| == |a| + |b| + |c|
      && s[..|a|] == a && s[|a|..] == b + c
      && s[|a|..|s| - |c|] == b && s[|s| - |c|..] == c
  {
  }

  /** The clock part denotes the clock modulo one million. */
  lemma ClockDigitsValue(now: nat)
    ensures var clock := LastN(NatToString(now), 6);
      AllDigits(clock) && DigitsValue(clock) == now % 1000000
  {
    LastDigitsValue(now, 6);
    assert Pow10(6) == 1000000;
  }

  /** The clock part has one to six digits, six from 100000 on. */
  lemma ClockDigitsLength(now: nat)
    ensures var clock := LastN(NatToString(now), 6);
      1 <= |clock| <= 6 && (now >= 100000 ==> |clock| == 6)
  {
    if now >= 100000 {
      NatToStringLength(now, 5);
      assert Pow10(5) == 100000;
    }
  }

  /** The random part: three digits denoting the random number. */
  lemma PaddedRandomShape(random: nat)
    requires random < 1000
    ensures var padded := PadStart(NatToString(random), 3, '0');
      |padded| == 3 && AllDigits(padded) && DigitsValue(padded) == random
  {
    var digits := NatToString(random);
    NatToStringLength(random, 3);
    assert Pow10(3) == 1000;
    NatToStringValue(random);
    LeadingZerosValue(3 - |digits|, digits);
    assert PadStart(digits, 3, '0') == Repeat('0', 3 - |digits|) + digits;
  }

  /** The payer's account reference: the account number, `#`, then the admission number or the name. */
  function AccountReference(settings: PaymentSettings, ref: PaymentReference): (r: string)
    ensures settings.referenceFormat == "admission_number" ==>
              r == settings.accountNumber + "#" + ref.studentAdmissionNumber
    ensures settings.referenceFormat != "admission_number" ==>
              r == settings.accountNumber + "#" + ref.studentName
  {
    settings.accountNumber + "#"
      + (if settings.referenceFormat == "admission_number" then ref.studentAdmissionNumber else ref.studentName)
  }

  /** The four instruction lines, joined by the template's line breaks and indentation. */
  function InstructionLines(settings: PaymentSettings, ref: PaymentReference): string {
    "Paybill Number: " + settings.paybillNumber
      + "\n    Account Number: " + AccountReference(settings, ref)
      + "\n    Amount: KES " + IntToString(ref.amount)
      + "\n    Reference: " + ref.reference
  }

  /** `formatPaymentInstructions`: the template, trimmed. */
  function FormatPaymentInstructions(settings: PaymentSettings, ref: PaymentReference): string {
    Trim("\n    " + InstructionLines(settings, ref) + "\n  ")
  }

  /**
   * Trimming removes exactly the template's leading line break and trailing
   * indentation whenever the reference does not end in white space, as every
   * generated reference does.
   */
  lemma InstructionsTrimmed(settings: PaymentSettings, ref: PaymentReference)
    requires ref.reference != [] && !IsJsSpace(ref.reference[|ref.reference| - 1])
    ensures FormatPaymentInstructions(settings, ref) == InstructionLines(settings, ref)
    ensures StartsWith(FormatPaymentInstructions(settings, ref), "Paybill Number: " + settings.paybillNumber)
  {
    var body := InstructionLines(settings, ref);
    LinesFrame(settings, ref);
    assert AllJsSpace("\n    ");
    assert AllJsSpace("\n  ");
    TrimFramed("\n    ", body, "\n  ");
  }

  /** The instruction lines begin with the paybill line and end with the reference. */
  lemma LinesFrame(settings: PaymentSettings, ref: PaymentReference)
    requires ref.reference != []
    ensures var body := InstructionLines(settings, ref);
      && StartsWith(body, "Paybill Number: " + settings.paybillNumber)
      && body[0] == 'P'
      && body[|body| - 1] == ref.reference[|ref.reference| - 1]
  {
    var head := "Paybill Number: " + settings.paybillNumber;
    var s2 := head + "\n    Account Number: ";
    var s3 := s2 + AccountReference(settings, ref);
    var s4 := s3 + "\n    Amount: KES ";
    var s5 := s4 + IntToString(ref.amount);
    var s6 := s5 + "\n    Reference: ";
    assert InstructionLines(settings, ref) == s6 + ref.reference;
    assert StartsWith(head, head);
    StartsWithAppend(head, "\n    Account Number: ", head);
    StartsWithAppend(s2, AccountReference(settings, ref), head);
    StartsWithAppend(s3, "\n    Amount: KES ", head);
    StartsWithAppend(s4, IntToString(ref.amount), head);
    StartsWithAppend(s5, "\n    Reference: ", head);
    StartsWithAppend(s6, ref.reference, head);
    assert head[0] == 'P';
  }

  /** Generated references never need trimming: they end in a digit. */
  lemma GeneratedReferenceEndsInDigit(now: nat, random: nat)
    requires random < 1000
    ensures var r := ReferenceCode(now, random); r != [] && !IsJsSpace(r[|r| - 1])
  {
    var r := ReferenceCode(now, random);
    var digits := NatToString(random);
    var padded := PadStart(digits, 3, '0');
    assert r == ("REF" + LastN(NatToString(now), 6)) + padded;
    assert r[|r| - 1] == padded[|padded| - 1];
    assert padded[|padded| - |digits|..] == digits;
    assert padded[|padded| - 1] == digits[|digits| - 1];
    assert IsDigit(digits[|digits| - 1]);
    DigitNotSpace(digits[|digits| - 1]);
  }

  lemma DigitNotSpace(c: char)
    requires IsDigit(c)
    ensures !IsJsSpace(c)
  {
  }

  /** The confirmation's end state: the reference completed, then the fee paid. */
  function CompletedReference(row: ReferenceRow, d: ConfirmDetails): ReferenceRow {
    row.(status := "completed", transactionId := Some(d.transactionId), paymentDate := Some(d.paymentDate),
         paymentMethod := Some(MethodName(d.paymentMethod)))
  }

  function PaidFee(row: FeeRow, reference: string, d: ConfirmDetails): FeeRow {
    row.(status := "paid", paymentMethod := Some(MethodName(d.paymentMethod)), paymentReference := Some(reference),
         paymentDate := Some(d.paymentDate), amountPaid := Some(d.amount))
  }

  /** The fee update matches by id: a fee that does not exist is simply not touched. */
  function PayFee(fees: map<string, FeeRow>, feeId: string, reference: string, d: ConfirmDetails): map<string, FeeRow> {
    if feeId in fees then fees[feeId := PaidFee(fees[feeId], reference, d)] else fees
  }

  /** `confirmPayment`: the new tables and the outcome. */
  function ConfirmSpec(refs: map<string, ReferenceRow>, fees: map<string, FeeRow>, reference: string,
                       d: ConfirmDetails, faults: ConfirmFaults)
    : (map<string, ReferenceRow>, map<string, FeeRow>, Result<(), string>)
  {
    if faults.lookupError.Some? || reference !in refs then (refs, fees, Err("Payment reference not found"))
    else if faults.referenceUpdateError.Some? then (refs, fees, Err("Failed to update payment reference"))
    else
      var refs' := refs[reference := CompletedReference(refs[reference], d)];
      if faults.feeUpdateError.Some? then (refs', fees, Err("Failed to update fee status"))
      else (refs', PayFee(fees, refs[reference].feeId, reference, d), Ok(()))
  }

  /**
   * The fee is never marked paid unless its reference has been completed,
   * and a failed fee update leaves the reference completed all the same.
   */
  lemma ConfirmOrdering(refs: map<string, ReferenceRow>, fees: map<string, FeeRow>, reference: string,
                        d: ConfirmDetails, faults: ConfirmFaults)
    ensures var (refs', fees', r) := ConfirmSpec(refs, fees, reference, d, faults);
      && (fees' != fees ==> reference in refs' && refs'[reference].status == "completed" && r.Ok?)
      && (r == Err("Payment reference not found") <==> faults.lookupError.Some? || reference !in refs)
      && (r == Err("Payment reference not found") ==> refs' == refs && fees' == fees)
      && (r == Err("Failed to update fee status") ==>
            fees' == fees && refs'[reference].status == "completed" && refs'.Keys == refs.Keys)
      && (r.Ok? <==> reference in refs && faults == ConfirmFaults(None, None, None))
  {
  }

  /**
   * A confirmed fee's amount paid is the confirmed amount: it replaces, not
   * adds to, whatever had been paid before, unlike a bank payment.
   */
  lemma ConfirmReplacesAmountPaid(refs: map<string, ReferenceRow>, fees: map<string, FeeRow>, reference: string,
                                  d: ConfirmDetails)
    requires reference in refs && refs[reference].feeId in fees
    ensures var (_, fees', r) := ConfirmSpec(refs, fees, reference, d, ConfirmFaults(None, None, None));
      var feeId := refs[reference].feeId;
      && r.Ok?
      && fees'[feeId].amountPaid == Some(d.amount) && fees'[feeId].status == "paid"
      && fees'[feeId].paymentReference == Some(reference)
      && forall k :: k in fees && k != feeId ==> k in fees' && fees'[k] == fees[k]
  {
  }

  /** The `payment_references` and `fees` tables. */
  class PaymentTables {
    var references: map<string, ReferenceRow>
    var fees: map<string, FeeRow>

    constructor (references: map<string, ReferenceRow>, fees: map<string, FeeRow>)
      ensures this.references == references && this.fees == fees
    {
      this.references := references;
      this.fees := fees;
    }

    /**
     * `generatePaymentReference`: store a pending row under a new code and
     * echo the request. The code is the table's key, so a code already taken
     * (the same clock digits and random number as an earlier one) makes the
     * insert fail like any other insert error; an existing row is never replaced.
     */
    method GeneratePaymentReference(schoolId: string, feeId: string, amount: int, admissionNumber: string,
                                    studentName: string, now: nat, random: nat, stamp: string,
                                    insertError: Option<string>) returns (r: Result<PaymentReference, string>)
      requires random < 1000
      modifies this`references
      ensures r.Err? <==> insertError.Some? || ReferenceCode(now, random) in old(references)
      ensures r.Err? ==> r.error == "Failed to generate payment reference" && references == old(references)
      ensures r.Ok? ==>
        && r.value == PaymentReference(schoolId, feeId, ReferenceCode(now, random), amount, admissionNumber, studentName)
        && r.value.reference !in old(references)
        && references == old(references)[r.value.reference :=
             ReferenceRow(schoolId, feeId, amount, admissionNumber, studentName, "pending", stamp, None, None, None)]
    {
      var code := ReferenceCode(now, random);
      if insertError.Some? || code in references {
        return Err("Failed to generate payment reference");
      }
      references := references[code := ReferenceRow(schoolId, feeId, amount, admissionNumber, studentName, "pending", stamp, None, None, None)];
      r := Ok(PaymentReference(schoolId, feeId, code, amount, admissionNumber, studentName));
    }

    /** `confirmPayment`. */
    method ConfirmPayment(reference: string, d: ConfirmDetails, faults: ConfirmFaults) returns (r: Result<(), string>)
      modifies this
      ensures (references, fees, r) == ConfirmSpec(old(references), old(fees), reference, d, faults)
    {
      if faults.lookupError.Some? || reference !in references {
        return Err("Payment reference not found");
      }
      var row := references[reference];
      if faults.referenceUpdateError.Some? {
        return Err("Failed to update payment reference");
      }
      references := references[reference := CompletedReference(row, d)];
      if faults.feeUpdateError.Some? {
        return Err("Failed to update fee status");
      }
      if row.feeId in fees {
        fees := fees[row.feeId := PaidFee(fees[row.feeId], reference, d)];
      }
      r := Ok(());
    }
  }
}
