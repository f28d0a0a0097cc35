/**
 * Outgoing notifications: Kenyan mobile number validation and formatting,
 * the SMS send with its guards, three attempts and exponential back-off,
 * and the WhatsApp payment confirmation that is sent as an SMS.
 *
 * The SMS endpoint's answer to each attempt is the parameter `reply`; the
 * waits are returned as the delays asked for rather than slept.
 */
module Notification {
  import opened Wrappers
  import opened Strings

  const MaxRetries: nat := 3
  const SmsLengthLimit: nat := 160

  /** Characters the cleaning step removes: JavaScript `\s`, `-`, `(` and `)`. */
  predicate Removable(c: char) {
    IsJsSpace(c) || c == '-' || c == '(' || c == ')'
  }

  predicate IsClean(s: string) {
    forall i :: 0 <= i < |s| ==> !Removable(s[i])
  }

  /** `replace(/[\s\-\(\)]/g, '')`. */
  function Clean(s: string): (r: string)
    ensures IsClean(r) && |r| <= |s|
    decreases |s|
  {
    if s == [] then [] else (if Removable(s[0]) then [] else [s[0]]) + Clean(s[1..])
  }

  lemma {:induction false} CleanAppend(a: string, b: string)
    ensures Clean(a + b) == Clean(a) + Clean(b)
    decreases |a|
  {
    if a != [] {
      assert (a + b)[1..] == a[1..] + b;
      CleanAppend(a[1..], b);
    } else {
      assert a + b == b;
    }
  }

  /** Cleaning leaves a clean string as it is. */
  lemma {:induction false} CleanFixesClean(s: string)
    requires IsClean(s)
    ensures Clean(s) == s
    decreases |s|
  {
    if s != [] {
      assert !Removable(s[0]);
      CleanFixesClean(s[1..]);
    }
  }

  /** `^(?:\+254|0)[17]\d{8}$` on a cleaned number. */
  predicate KenyanMobile(c: string) {
    || (StartsWith(c, "+254") && |c| == 13 && (c[4] == '1' || c[4] == '7') && AllDigits(c[5..]))
    || (StartsWith(c, "0") && |c| == 10 && (c[1] == '1' || c[1] == '7') && AllDigits(c[2..]))
  }

  /** `isValidPhoneNumber`. */
  predicate IsValidPhoneNumber(phone: string) {
    KenyanMobile(Clean(phone))
  }

  /** `formatPhoneNumber`: a leading `0` becomes `+254`, a leading `+254` stays, anything else gets `+254` in front. */
  function FormatPhoneNumber(phone: string): (f: string)
    ensures StartsWith(f, "+254") && IsClean(f)
  {
    var c := Clean(phone);
    assert IsClean("+254");
    if StartsWith(c, "0") then
      assert forall i :: 4 <= i < |"+254" + c[1..]| ==> ("+254" + c[1..])[i] == c[i - 3];
      "+254" + c[1..]
    else if StartsWith(c, "+254") then c
    else
      assert forall i :: 4 <= i < |"+254" + c| ==> ("+254" + c)[i] == c[i - 4];
      "+254" + c
  }

  /** The international form of a valid number: `+254`, then nine digits beginning with 1 or 7. */
  predicate International(f: string) {
    |f| == 13 && f[..4] == "+254" && (f[4] == '1' || f[4] == '7') && AllDigits(f[4..])
  }

  /** Every valid number formats to the international form, which is itself valid. */
  lemma ValidFormatsInternational(phone: string)
    requires IsValidPhoneNumber(phone)
    ensures International(FormatPhoneNumber(phone))
    ensures IsValidPhoneNumber(FormatPhoneNumber(phone))
  {
    var c := Clean(phone);
    var f := FormatPhoneNumber(phone);
    if StartsWith(c, "0") {
      assert f == "+254" + c[1..];
      assert f[4..] == c[1..];
      assert forall i :: 1 <= i < |c[1..]| ==> c[1..][i] == c[2..][i - 1];
    } else {
      assert f == c;
      assert f[4..][0] == c[4];
      assert forall i :: 1 <= i < |f[4..]| ==> f[4..][i] == c[5..][i - 1];
    }
    assert IsClean(f) by {
      assert forall i :: 0 <= i < 4 ==> f[i] in "+254";
    }
    CleanFixesClean(f);
    assert f[5..] == f[4..][1..];
  }

  /** Formatting twice is formatting once, for every input. */
  lemma FormatIdempotent(phone: string)
    ensures FormatPhoneNumber(FormatPhoneNumber(phone)) == FormatPhoneNumber(phone)
  {
    var f := FormatPhoneNumber(phone);
    CleanFixesClean(f);
    assert StartsWith(f, "+254");
    assert !StartsWith(f, "0");
  }

  /** What the SMS endpoint answered to one attempt. */
  datatype SmsReply =
    | SmsHttpError(status: int)
    | SmsAnswered(success: bool, error: Option<string>)
    | SmsNetworkError(message: string)

  /** A request posted to the SMS endpoint. */
  datatype SmsRequest = SmsRequest(phoneNumber: string, message: string)

  predicate Delivered(reply: SmsReply) {
    reply.SmsAnswered? && reply.success
  }

  /** The error an undelivered attempt raises. */
  function FailureMessage(reply: SmsReply): string {
    match reply
    case SmsHttpError(status) => "SMS API returned " + IntToString(status)
    case SmsAnswered(_, error) => if error.Some? && error.value != "" then error.value else "Failed to send SMS"
    case SmsNetworkError(message) => message
  }

  /** Whether `sendSMS` returns rather than throws: both guards pass and one of the three attempts is delivered. */
  predicate SmsWouldDeliver(phone: string, message: string, reply: nat -> SmsReply) {
    && IsValidPhoneNumber(phone)
    && Utf16Length(message) <= SmsLengthLimit
    && (Delivered(reply(1)) || Delivered(reply(2)) || Delivered(reply(3)))
  }

  function Pow2(k: nat): (r: nat)
    ensures r >= 1
  {
    if k == 0 then 1 else 2 * Pow2(k - 1)
  }

  /** The waits after the first `n` failed attempts: 2^attempt seconds each, in milliseconds. */
  function Backoff(n: nat): (r: seq<nat>)
    ensures |r| == n
    ensures forall i :: 0 <= i < n ==> r[i] == Pow2(i + 1) * 1000
  {
    if n == 0 then [] else Backoff(n - 1) + [Pow2(n) * 1000]
  }

  /**
   * `sendSMS`: the two guards before any attempt, then up to three attempts,
   * stopping at the first delivery, with a back-off wait after every failed
   * attempt but the last.
   */
  method SendSms(phone: string, message: string, reply: nat -> SmsReply)
    returns (r: Result<bool, string>, requests: seq<SmsRequest>, waits: seq<nat>)
    ensures r.Ok? <==> SmsWouldDeliver(phone, message, reply)
    ensures !IsValidPhoneNumber(phone) ==>
              r == Err("Invalid phone number format: " + phone) && requests == [] && waits == []
    ensures IsValidPhoneNumber(phone) && Utf16Length(message) > SmsLengthLimit ==>
              r == Err("Message exceeds 160 characters limit") && requests == [] && waits == []
    ensures IsValidPhoneNumber(phone) && Utf16Length(message) <= SmsLengthLimit ==>
              && 1 <= |requests| <= MaxRetries
              && (forall i :: 0 <= i < |requests| ==> requests[i] == SmsRequest(FormatPhoneNumber(phone), message))
              && (forall k :: 1 <= k < |requests| ==> !Delivered(reply(k)))
              && waits == Backoff(|requests| - 1)
              && (r.Ok? <==> Delivered(reply(|requests|)))
              && (r.Ok? ==> r.value)
              && (r.Err? ==> |requests| == MaxRetries
                             && r.error == "Failed to send SMS after 3 attempts: " + FailureMessage(reply(MaxRetries)))
  {
    requests, waits := [], [];
    if !IsValidPhoneNumber(phone) {
      return Err("Invalid phone number format: " + phone), requests, waits;
    }
    if Utf16Length(message) > SmsLengthLimit {
      return Err("Message exceeds 160 characters limit"), requests, waits;
    }
    var delivered, lastError;
    delivered, requests, waits, lastError := PostWithRetries(SmsRequest(FormatPhoneNumber(phone), message), reply);
    if delivered {
      return Ok(true), requests, waits;
    }
    r := Err("Failed to send SMS after 3 attempts: " + lastError);
  }

  /**
   * The attempts of `sendSMS`: post `request` up to three times, stop at the
   * first delivery, and wait 2^attempt seconds after every failed attempt but
   * the last.
   */
  method PostWithRetries(request: SmsRequest, reply: nat -> SmsReply)
    returns (delivered: bool, requests: seq<SmsRequest>, waits: seq<nat>, lastError: string)
    ensures 1 <= |requests| <= MaxRetries
    ensures forall i :: 0 <= i < |requests| ==> requests[i] == request
    ensures forall k :: 1 <= k < |requests| ==> !Delivered(reply(k))
    ensures waits == Backoff(|requests| - 1)
    ensures delivered <==> Delivered(reply(|requests|))
    ensures !delivered ==> |requests| == MaxRetries && lastError == FailureMessage(reply(MaxRetries))
  {
    requests, waits, lastError := [], [], "";
    var attempt := 1;
    while attempt <= MaxRetries
      invariant 1 <= attempt <= MaxRetries + 1
      invariant |requests| == attempt - 1
      invariant forall i :: 0 <= i < |requests| ==> requests[i] == request
      invariant forall k :: 1 <= k < attempt ==> !Delivered(reply(k))
      invariant waits == Backoff(if attempt <= MaxRetries then attempt - 1 else MaxRetries - 1)
      invariant attempt > 1 ==> lastError == FailureMessage(reply(attempt - 1))
    {
      requests := requests + [request];
      var answer := reply(attempt);
      if Delivered(answer) {
        return true, requests, waits, lastError;
      }
      lastError := FailureMessage(answer);
      if attempt < MaxRetries {
        waits := waits + [Pow2(attempt) * 1000];
      }
      attempt := attempt + 1;
    }
    delivered := false;
  }

  /** The data of a WhatsApp payment confirmation. */
  datatype WhatsAppTemplateData = WhatsAppTemplateData(
    studentName: string,
    admissionNumber: string,
    amount: int,
    schoolName: string,
    receiptUrl: Option<string>)

  /** The receipt line's value: the URL, or `Not available` when it is absent or empty. */
  function ReceiptText(data: WhatsAppTemplateData): string {
    if data.receiptUrl.Some? && data.receiptUrl.value != "" then data.receiptUrl.value else "Not available"
  }

  function WhatsAppMessage(data: WhatsAppTemplateData): string {
    "Dear Parent/Guardian,\n\nPayment confirmation for " + data.studentName
      + " (Admission No: " + data.admissionNumber
      + ")\nAmount: KES " + IntToString(data.amount)
      + "\nSchool: " + data.schoolName
      + "\n\nReceipt: " + ReceiptText(data)
  }

  /**
   * The confirmation spends 98 characters on its fixed text, and its length
   * in UTF-16 code units is at least its character count: once the student's
   * name, admission number, amount, school name and receipt text take more
   * than 62 characters together, the SMS length guard rejects it.
   */
  lemma WhatsAppMessageLength(data: WhatsAppTemplateData)
    ensures |WhatsAppMessage(data)|
         == 98 + |data.studentName| + |data.admissionNumber| + |IntToString(data.amount)|
               + |data.schoolName| + |ReceiptText(data)|
    ensures Utf16Length(WhatsAppMessage(data)) >= |WhatsAppMessage(data)|
  {
  }

  /** `sendWhatsApp`: the confirmation text sent as an SMS, under both SMS guards. */
  method SendWhatsApp(phone: string, data: WhatsAppTemplateData, reply: nat -> SmsReply)
    returns (r: Result<bool, string>, requests: seq<SmsRequest>, waits: seq<nat>)
    ensures r.Ok? <==> SmsWouldDeliver(phone, WhatsAppMessage(data), reply)
    ensures !IsValidPhoneNumber(phone) ==>
              r == Err("Invalid phone number format: " + phone) && requests == [] && waits == []
    ensures IsValidPhoneNumber(phone) && Utf16Length(WhatsAppMessage(data)) > SmsLengthLimit ==>
              r == Err("Message exceeds 160 characters limit") && requests == [] && waits == []
    ensures IsValidPhoneNumber(phone) && Utf16Length(WhatsAppMessage(data)) <= SmsLengthLimit ==>
              && 1 <= |requests| <= MaxRetries
              && (forall i :: 0 <= i < |requests| ==> requests[i] == SmsRequest(FormatPhoneNumber(phone), WhatsAppMessage(data)))
              && (forall k :: 1 <= k < |requests| ==> !Delivered(reply(k)))
              && waits == Backoff(|requests| - 1)
              && (r.Ok? <==> Delivered(reply(|requests|)))
              && (r.Ok? ==> r.value)
              && (r.Err? ==> |requests| == MaxRetries
                             && r.error == "Failed to send SMS after 3 attempts: " + FailureMessage(reply(MaxRetries)))
  {
    r, requests, waits := SendSms(phone, WhatsAppMessage(data), reply);
  }
}
