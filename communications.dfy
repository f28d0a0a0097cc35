/**
 * Bulk messages to parents: look up the recipients, record the message as a
 * pending notification, send to each recipient over the chosen channel while
 * counting successes and failures, then mark the notification `sent` when
 * nothing failed and `failed` otherwise. The answer of that last update is
 * never read: when it fails the row stays pending and the action still
 * reports success.
 *
 * The store's answers, the SMS endpoint's replies, the e-mail provider's
 * verdict for each recipient and the clock are parameters.
 */
module Communications {
  import opened Wrappers
  import opened Notification

  datatype Channel = ChannelSms | ChannelEmail

  function ChannelName(c: Channel): string {
    match c
    case ChannelSms => "sms"
    case ChannelEmail => "email"
  }

  /** A recipient's contact details as the `students` query returns them. */
  datatype Recipient = Recipient(id: string, name: string, parentPhone: Option<string>, parentEmail: Option<string>)

  datatype RecipientsReply = RecipientsFailed(error: Thrown) | RecipientsFound(recipients: Option<seq<Recipient>>)

  datatype InsertReply = NotificationFailed(error: Thrown) | NotificationInserted(id: string)

  /** A `notifications` row as the action writes it. */
  datatype NotificationRow = NotificationRow(
    message: string, channel: string, status: string, schoolId: string, sentAt: Option<string>)

  datatype Stats = Stats(success: nat, failed: nat)

  datatype BulkResult = BulkResult(success: bool, error: Option<string>, stats: Option<Stats>)

  /** Everything outside the action that decides its outcome. */
  datatype Outside = Outside(
    recipients: RecipientsReply,
    insert: InsertReply,
    smsReplies: nat -> (nat -> SmsReply),
    resendConfigured: bool,
    emailAccepted: nat -> bool,
    clock: string,
    statusUpdateFails: bool)

  /** The message of the `TypeError` a `for … of` over a missing recipient list throws. */
  const NotIterable := "recipients is not iterable"

  /** The catch of `sendBulkMessage` reports this for a thrown non-`Error` value. */
  const FailedToSend := "Failed to send message"

  predicate Truthy(s: Option<string>) {
    s.Some? && s.value != ""
  }

  /** Whether the message reaches the recipient at index `i`. */
  predicate Delivers(channel: Channel, message: string, x: Outside, i: nat, rc: Recipient) {
    match channel
    case ChannelSms => Truthy(rc.parentPhone) && SmsWouldDeliver(rc.parentPhone.value, message, x.smsReplies(i))
    case ChannelEmail => Truthy(rc.parentEmail) && x.resendConfigured && x.emailAccepted(i)
  }

  /** The counts after the first `n` recipients. */
  function Tally(channel: Channel, message: string, x: Outside, recipients: seq<Recipient>, n: nat): Stats
    requires n <= |recipients|
  {
    if n == 0 then Stats(0, 0)
    else
      var s := Tally(channel, message, x, recipients, n - 1);
      if Delivers(channel, message, x, n - 1, recipients[n - 1]) then Stats(s.success + 1, s.failed)
      else Stats(s.success, s.failed + 1)
  }

  /** Every recipient is counted exactly once. */
  lemma {:induction false} TallyCountsEveryone(channel: Channel, message: string, x: Outside,
                                              recipients: seq<Recipient>, n: nat)
    requires n <= |recipients|
    ensures Tally(channel, message, x, recipients, n).success + Tally(channel, message, x, recipients, n).failed == n
  {
    if n > 0 {
      TallyCountsEveryone(channel, message, x, recipients, n - 1);
    }
  }

  /** Nothing failed exactly when every recipient was reached. */
  lemma {:induction false} NoFailureIffAllDelivered(channel: Channel, message: string, x: Outside,
                                                   recipients: seq<Recipient>, n: nat)
    requires n <= |recipients|
    ensures Tally(channel, message, x, recipients, n).failed == 0
        <==> forall k :: 0 <= k < n ==> Delivers(channel, message, x, k, recipients[k])
  {
    if n > 0 {
      NoFailureIffAllDelivered(channel, message, x, recipients, n - 1);
      AllDeliveredSnoc(channel, message, x, recipients, n);
    }
  }

  /** All of the first `n` recipients are reached exactly when the first `n - 1` and the last of them are. */
  lemma AllDeliveredSnoc(channel: Channel, message: string, x: Outside, recipients: seq<Recipient>, n: nat)
    requires 0 < n <= |recipients|
    ensures (forall k :: 0 <= k < n ==> Delivers(channel, message, x, k, recipients[k]))
        <==> (forall k :: 0 <= k < n - 1 ==> Delivers(channel, message, x, k, recipients[k]))
             && Delivers(channel, message, x, n - 1, recipients[n - 1])
  {
  }

  /** A recipient without a contact for the channel always counts as failed. */
  lemma MissingContactFails(channel: Channel, message: string, x: Outside, i: nat, rc: Recipient)
    requires channel == ChannelSms ==> !Truthy(rc.parentPhone)
    requires channel == ChannelEmail ==> !Truthy(rc.parentEmail)
    ensures !Delivers(channel, message, x, i, rc)
  {
  }

  function StatusFor(s: Stats): string {
    if s.failed == 0 then "sent" else "failed"
  }

  /** `sendBulkMessage`: the result and the notification row it leaves behind, if any. */
  function BulkSpec(message: string, channel: Channel, schoolId: string, x: Outside)
    : (BulkResult, Option<NotificationRow>)
  {
    var pending := NotificationRow(message, ChannelName(channel), "pending", schoolId, None);
    match x.recipients
    case RecipientsFailed(e) => (BulkResult(false, Some(CaughtMessage(e, FailedToSend)), None), None)
    case RecipientsFound(found) =>
      match x.insert
      case NotificationFailed(e) => (BulkResult(false, Some(CaughtMessage(e, FailedToSend)), None), None)
      case NotificationInserted(_) =>
        if found.None? then (BulkResult(false, Some(NotIterable), None), Some(pending))
        else
          var stats := Tally(channel, message, x, found.value, |found.value|);
          var final := if x.statusUpdateFails then pending else pending.(status := StatusFor(stats), sentAt := Some(x.clock));
          (BulkResult(true, None, Some(stats)), Some(final))
  }

  /**
   * A completed run counts every recipient once and marks the notification
   * `sent` exactly when every recipient was reached, unless that last update
   * fails: then the row stays pending and the run still succeeds.
   */
  lemma BulkOutcome(message: string, channel: Channel, schoolId: string, x: Outside)
    ensures var (r, row) := BulkSpec(message, channel, schoolId, x);
      && (r.success <==> x.recipients.RecipientsFound? && x.recipients.recipients.Some?
                         && x.insert.NotificationInserted?)
      && (r.success ==>
            var recipients := x.recipients.recipients.value;
            && r.stats.Some? && r.stats.value.success + r.stats.value.failed == |recipients|
            && row.Some?
            && (x.statusUpdateFails ==> row.value.status == "pending" && row.value.sentAt.None?)
            && (!x.statusUpdateFails ==>
                  && row.value.sentAt == Some(x.clock)
                  && (row.value.status == "sent" <==>
                        forall k :: 0 <= k < |recipients| ==> Delivers(channel, message, x, k, recipients[k]))))
      && (!r.success ==> r.error.Some? && r.stats.None?)
      && (x.recipients.RecipientsFailed? ==>
            r.error == Some(CaughtMessage(x.recipients.error, FailedToSend)) && row.None?)
      && (x.recipients.RecipientsFound? && x.insert.NotificationFailed? ==>
            r.error == Some(CaughtMessage(x.insert.error, FailedToSend)) && row.None?)
      && (x.recipients.RecipientsFound? && x.recipients.recipients.None? && x.insert.NotificationInserted? ==>
            r.error == Some(NotIterable) && row.Some? && row.value.status == "pending")
  {
    if x.recipients.RecipientsFound? && x.recipients.recipients.Some? && x.insert.NotificationInserted? {
      var recipients := x.recipients.recipients.value;
      TallyCountsEveryone(channel, message, x, recipients, |recipients|);
      NoFailureIffAllDelivered(channel, message, x, recipients, |recipients|);
    }
  }

  /**
   * `sendBulkMessage`: errors of the lookup and of the notification insert
   * end the action; each recipient's failure is counted and the loop goes on.
   */
  method SendBulkMessage(message: string, channel: Channel, schoolId: string, x: Outside)
    returns (r: BulkResult, row: Option<NotificationRow>)
    ensures (r, row) == BulkSpec(message, channel, schoolId, x)
  {
    if x.recipients.RecipientsFailed? {
      return BulkResult(false, Some(CaughtMessage(x.recipients.error, FailedToSend)), None), None;
    }
    if x.insert.NotificationFailed? {
      return BulkResult(false, Some(CaughtMessage(x.insert.error, FailedToSend)), None), None;
    }
    row := Some(NotificationRow(message, ChannelName(channel), "pending", schoolId, None));
    if x.recipients.recipients.None? {
      return BulkResult(false, Some(NotIterable), None), row;
    }
    var recipients := x.recipients.recipients.value;
    var success, failed := 0, 0;
    var i := 0;
    while i < |recipients|
      invariant 0 <= i <= |recipients|
      invariant Stats(success, failed) == Tally(channel, message, x, recipients, i)
    {
      var rc := recipients[i];
      if channel == ChannelSms && Truthy(rc.parentPhone) {
        var sent, _, _ := SendSms(rc.parentPhone.value, message, x.smsReplies(i));
        if sent.Ok? {
          success := success + 1;
        } else {
          failed := failed + 1;
        }
      } else if channel == ChannelEmail && Truthy(rc.parentEmail) {
        if x.resendConfigured && x.emailAccepted(i) {
          success := success + 1;
        } else {
          failed := failed + 1;
        }
      } else {
        failed := failed + 1;
      }
      i := i + 1;
    }
    var stats := Stats(success, failed);
    if !x.statusUpdateFails {
      row := Some(row.value.(status := StatusFor(stats), sentAt := Some(x.clock)));
    }
    r := BulkResult(true, None, Some(stats));
  }
}
