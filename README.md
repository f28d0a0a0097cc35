# manageMySchool core, modelled in Dafny

manageMySchool is a school administration web application. This project models
and proves the parts of it that decide data and money:

- **Offline sync engine.** The browser keeps students, fees and a queue of
  pending writes in an IndexedDB database (`school-db`). A single `SyncService`
  drains that queue against the remote store when the browser is online. It
  takes a global lock and an in-flight flag, skips items already seen, marks
  each item processing, then completed or failed, and re-enqueues updates and
  deletes after success. The exam hooks read and write exams through the same
  local database.
- **Bank payments.** A base service updates a fee after a payment or a webhook:
  it adds the paid amount, settles the status and writes the payment columns,
  and logs a failed webhook when the update fails. It also builds payment
  references. Three bank adapters (KCB, Co-operative Bank, I&M) map their
  replies and webhook statuses onto it. A factory picks the adapter from a
  school's settings. A webhook route ties validation, fee-id extraction, the
  fee update and the receipt together. The payment library generates
  `REF…` references, formats paybill instructions and confirms a payment.
- **Notifications.** Kenyan phone-number validation and formatting, the SMS
  sender with its 160-character limit, three attempts and exponential
  back-off, and the WhatsApp message that falls back to SMS.
- **Report cards.** Grades, class position from the class's averages,
  totals and averages, generating one card per examined student, and the
  rules deciding which parent gets an SMS or an e-mail.
- **Bulk messages.** The tally of successes and failures and the status it
  leaves on the notification record.
- **Middleware.** The redirect decision for the dashboard and the auth pages.
- **Bank settings.** The `POST /api/schools/bank-settings` validator and the
  merge of the new bank API settings into a school's payment settings.

Everything outside the process is a parameter of the model:

- the remote store's replies, bank HTTP replies and SMS gateway replies;
- the clock, uuids and random numbers;
- the HMAC function.

Methods that change state are proved against pure specification functions,
for example `Drain`, `UpdateSpec`, `InitiationSpec`, `ConfirmSpec`,
`GenerateSpec`, `SendSpec` and `BulkSpec`. Lemmas then state what the source
promises about those functions.

Where a fact is given as JS semantics (truthiness, `??`, `||`, `startsWith`,
UTF-16 length), the model writes that semantics out explicitly. `toUpperCase`
is exact for ASCII and for the non-ASCII characters whose upper case is made
of ASCII letters (such as `ß` and the Latin ligatures); every other non-ASCII
character is kept as it is. The status mappings compare only with ASCII
keywords, so this does not change their results.
Money and timestamps are integers (timestamps in milliseconds). Report-card
averages are reals.

## Model

| member | source | states |
|---|---|---|
| LocalStore.Schema | src/lib/indexeddb/client.ts:93-112 | `school-db` declares exactly five stores, each keyed by `id`; students are indexed by school, fees by school and by student, the others have no index |
| LocalStore.PutStudentReindexes | src/lib/indexeddb/client.ts:96-97 | after a student put, the `by-school` view gains the record under the record's school and loses it under any other |
| LocalStore.PutFeeReindexes | src/lib/indexeddb/client.ts:100-102 | after a fee put, the `by-student` view gains the record under the record's student and loses it under any other |
| LocalStore.SchoolDb.constructor | src/lib/indexeddb/client.ts:93-112 | a freshly created database is empty and every store is keyed by its records' ids |
| LocalStore.SchoolDb.GetQueueItem | src/lib/sync/sync-service.ts:146 | `get` on the queue finds an item exactly when its id is a key, and returns that entry |
| LocalStore.SchoolDb.PutQueueItem | src/lib/sync/sync-service.ts:153-156 | `put` replaces (or adds) the entry under the item's id and nothing else; the store stays keyed |
| LocalStore.SchoolDb.PutStudent | src/lib/sync/sync-service.ts:263 | `put` on students replaces the entry under the record's id and nothing else |
| LocalStore.SchoolDb.PutFee | src/lib/sync/sync-service.ts:263 | `put` on fees replaces the entry under the record's id and nothing else |
| LocalStore.SchoolDb.GetAllQueueItems | src/lib/sync/sync-service.ts:136 | `getAll` lists every queue entry exactly once, in some key order, and changes nothing |
| LocalStore.SchoolDb.ClearAll | src/lib/indexeddb/client.ts:120-124 | clearing all five stores leaves an empty, keyed database |
| LocalStore.DbConnection.constructor | src/lib/indexeddb/client.ts:88 | the module starts with no open handle |
| LocalStore.DbConnection.GetDB | src/lib/indexeddb/client.ts:90-116 | the first call opens the database once; later calls return the cached handle without opening again |
| LocalStore.DbConnection.ClearDB | src/lib/indexeddb/client.ts:118-125 | after `clearDB` the database is open, at most once, and every store is empty |
| LocalStore.GetDBTwice | src/lib/indexeddb/client.ts:90-91 | two `getDB` calls return the same handle and open the database at most once |
| SyncEngine.EnqueueAddsOne | src/lib/sync/sync-service.ts:28-46 | enqueueing under a fresh id adds exactly one pending item with the given table, record, operation and data, and keeps every other entry |
| SyncEngine.PendingOf | src/lib/sync/sync-service.ts:137-139 | the pass's snapshot holds exactly the listed items that are pending and not yet processed |
| SyncEngine.SkipLeavesStateAlone | src/lib/sync/sync-service.ts:146-150 | an item no longer pending in the store is skipped with no effect at all |
| SyncEngine.ProcessItemSettles | src/lib/sync/sync-service.ts:152-201 | a pending item ends completed exactly when its handler succeeds and failed otherwise; it stays in the processed set only on success; one remote call is recorded when the handler reaches the remote; other queue entries are kept apart from the re-enqueued follow-up |
| SyncEngine.CreateCopiesUnderServerId | src/lib/sync/sync-service.ts:219-263 | an accepted create of a student or a fee puts a copy of the local record under the server id, marked synced, in that record's own table; the local-id record stays when the ids differ, the other table is untouched and the item is completed |
| SyncEngine.CreateWithoutRecordFails | src/lib/sync/sync-service.ts:219-227 | a create whose local record is missing fails without calling the remote or touching the records |
| SyncEngine.SuccessfulUpdateReEnqueues | src/lib/sync/sync-service.ts:271-293 | a successful update or delete enqueues a new pending item for the same record and operation, which a later pass picks up again |
| SyncEngine.DrainSettlesPrefix | src/lib/sync/sync-service.ts:143-202 | processing the snapshot in order settles every snapshot item: completed or failed as its handler decides |
| SyncEngine.ProcessItemKeeps | src/lib/sync/sync-service.ts:143-202 | processing one item leaves every queue entry and processed mark it does not own unchanged |
| SyncEngine.DrainKeepsUntaken | src/lib/sync/sync-service.ts:143-202 | a whole pass leaves unchanged every queue entry and processed mark that no snapshot item owns |
| SyncEngine.DrainSettlesSnapshot | src/lib/sync/sync-service.ts:143-202 | after a pass every snapshot item is settled |
| SyncEngine.DrainCallsBounded | src/lib/sync/sync-service.ts:143-202 | a pass only appends remote calls, at most one per snapshot item |
| SyncEngine.DrainOfSettledIsIdle | src/lib/sync/sync-service.ts:143-150 | a pass over items that are no longer pending changes nothing |
| SyncEngine.IdleDrain | src/lib/sync/sync-service.ts:136-150 | when no item is pending and unprocessed the snapshot is empty and the pass does nothing |
| SyncEngine.ListingIdsDistinct | src/lib/sync/sync-service.ts:136-139 | the snapshot taken from a keyed queue has distinct ids, each the queue's own entry |
| SyncEngine.PendingOfKeepsIdsApart | src/lib/sync/sync-service.ts:137-139 | filtering keeps ids distinct |
| SyncEngine.SyncLock.constructor | src/lib/sync/sync-service.ts:26 | the global lock starts released |
| SyncEngine.SyncService.constructor | src/lib/sync/sync-service.ts:48-54 | a new service has no interval, is not syncing and has processed nothing |
| SyncEngine.SyncService.HandleCreate | src/lib/sync/sync-service.ts:208-269 | the records and recorded calls after `handleCreate` are those of the create specification, and its success flag agrees |
| SyncEngine.SyncService.HandleUpdate | src/lib/sync/sync-service.ts:271-281 | `handleUpdate` calls the remote and, on success, enqueues a follow-up update, as the update specification says |
| SyncEngine.SyncService.HandleDelete | src/lib/sync/sync-service.ts:283-293 | `handleDelete` calls the remote and, on success, enqueues a follow-up delete with null data |
| SyncEngine.SyncService.ProcessOne | src/lib/sync/sync-service.ts:144-201 | one loop iteration changes the store, processed set and calls exactly as `ProcessItem` says and leaves the service flags alone |
| SyncEngine.SyncService.DispatchItem | src/lib/sync/sync-service.ts:170-183 | the switch on the operation changes the records, queue and calls as `Dispatch` says and returns its success flag |
| SyncEngine.SyncService.ProcessAll | src/lib/sync/sync-service.ts:143-201 | the loop over the snapshot leaves the state `Drain` gives and the service flags as they were |
| SyncEngine.SyncService.PerformSync | src/lib/sync/sync-service.ts:131-206 | the listing is the whole queue; the snapshot is its pending, unprocessed items with distinct ids; the new state is `Drain` of the old state over the snapshot |
| SyncEngine.SyncService.SyncData | src/lib/sync/sync-service.ts:105-129 | a held global lock skips and changes nothing; an in-flight pass is joined and changes nothing; otherwise the pass lists the whole queue, takes the pending unprocessed items and ends in `Drain` over them, and the lock and flags are released after it |
| SyncEngine.SyncService.QueueSync | src/lib/sync/sync-service.ts:295-302 | the queue gains the new pending item in both cases; offline nothing else happens; online the trigger skips or joins with nothing further changed when the lock or the in-flight flag is held, and otherwise drains the snapshot taken after the enqueue |
| SyncEngine.SyncService.HandleOnline | src/lib/sync/sync-service.ts:73-77 | going online sets the flag; a held lock or a pass in flight leaves the state unchanged; otherwise one pass drains the pending unprocessed items of the whole queue |
| SyncEngine.SyncService.HandleOffline | src/lib/sync/sync-service.ts:79-82 | going offline only clears the online flag |
| SyncEngine.SyncService.StartSync | src/lib/sync/sync-service.ts:84-95 | starting replaces any running interval: exactly one timer is active afterwards |
| SyncEngine.SyncService.StopSync | src/lib/sync/sync-service.ts:97-103 | stopping leaves no interval and no active timer |
| SyncEngine.SyncService.OnInterval | src/lib/sync/sync-service.ts:90-94 | offline a tick changes nothing; online it triggers a sync that skips, joins, or drains the pending unprocessed items exactly as `syncData` does |
| SyncEngine.AddToSyncQueue | src/lib/sync/sync-service.ts:28-46 | the queue afterwards is the old queue plus the new pending item under the fresh id |
| SyncEngine.Enqueue | src/lib/sync/sync-service.ts:28-46 | the queue after `addToSyncQueue`: a pending item under the new id carrying the table, record, operation, payload and time; `SyncEngine.EnqueueAddsOne` proves it adds exactly that item |
| SyncEngine.Dispatch | src/lib/sync/sync-service.ts:170-183 | the switch on the operation: create, update or delete against the remote store, with whether it succeeded; proved about through `SyncEngine.ProcessItemSettles` |
| SyncEngine.ProcessItem | src/lib/sync/sync-service.ts:144-201 | one iteration of the pass: skip a settled item, else mark it processing, dispatch, then completed, or marked failed and its id released; `SyncEngine.ProcessItemSettles` and `SyncEngine.ProcessItemKeeps` state its effect |
| SyncEngine.Drain | src/lib/sync/sync-service.ts:143-202 | the whole pass as a fold of `ProcessItem` over the snapshot; `SyncEngine.DrainSettlesSnapshot`, `SyncEngine.DrainKeepsUntaken` and `SyncEngine.DrainCallsBounded` state what it does |
| SyncEngine.TriggerTakesPending | src/lib/sync/sync-service.ts:131-139 | when a sync runs, every queue item that is pending and not yet processed is in the pass's snapshot |
| SyncEngine.TriggerSettlesSnapshot | src/lib/sync/sync-service.ts:105-202 | after a sync that runs, every item it took ends completed or failed by its own remote call, given follow-up ids that do not collide with the items taken |
| Exams.WithIdentity | src/hooks/use-exams.ts:107-112 | the exam an offline create stores: the input spread with a fresh id, `created_at` from one clock read and `updated_at` from a second; `Exams.WithIdentityKeepsInput` states what it keeps |
| Exams.Merge | src/hooks/use-exams.ts:147-151 | the stored exam spread, then the patch, then the new `updated_at`; `Exams.MergeOverrides` states it field by field |
| Exams.WithIdentityKeepsInput | src/hooks/use-exams.ts:107-112 | an offline-created exam carries the input's fields, the fresh id, and the two clock reads as its created and updated stamps |
| Exams.MergeOverrides | src/hooks/use-exams.ts:147-151 | each of the fourteen patchable fields takes the patch's value when supplied and keeps the stored value when absent; the id is kept; `created_at` is kept unless the patch supplies it; `updated_at` is the new stamp |
| Exams.MergeEmptyTouchesOnlyTimestamp | src/hooks/use-exams.ts:147-151 | an empty patch only refreshes `updated_at` |
| Exams.MergeIdempotent | src/hooks/use-exams.ts:147-151 | applying the same patch twice at the same time equals applying it once |
| Exams.Insert | src/hooks/use-exams.ts:45-47 | inserting into a newest-first list keeps it sorted and adds exactly the new exam |
| Exams.SortByCreatedDesc | src/hooks/use-exams.ts:45-47 | the sort orders newest first and is a permutation of its input (stability is `Exams.SortStable`) |
| Exams.SortKeepsMembers | src/hooks/use-exams.ts:45-47 | the sorted list has exactly the input's exams |
| Exams.SortSortedIsIdentity | src/hooks/use-exams.ts:45-47 | sorting an already sorted list returns it unchanged |
| Exams.InsertKeepsTies | src/hooks/use-exams.ts:45-47 | inserting into a sorted list keeps the relative order of the exams created at any one time, the new exam ahead of its ties |
| Exams.SortStable | src/hooks/use-exams.ts:45-47 | the sort is stable: for every timestamp, the exams created at that time keep their input order |
| Exams.UpsertedHoldsFetched | src/hooks/use-exams.ts:71-73 | after the refresh every fetched exam is stored under its id |
| Exams.UpsertedKeepsOthers | src/hooks/use-exams.ts:71-73 | the refresh leaves every exam it did not fetch unchanged |
| Exams.ExamStore.Get | src/hooks/use-exams.ts:144 | `get` finds an exam exactly when its id is stored |
| Exams.ExamStore.Put | src/hooks/use-exams.ts:113 | `put` stores the exam under its id and changes nothing else |
| Exams.ExamStore.Delete | src/hooks/use-exams.ts:184 | `delete` removes exactly that id |
| Exams.ExamStore.AllBySchool | src/hooks/use-exams.ts:41 | the `by-school` listing holds exactly the stored exams of that school, each once |
| Exams.ExamStore.PutAll | src/hooks/use-exams.ts:71-73 | putting the fetched exams one by one upserts each under its id |
| Exams.ReadExams | src/hooks/use-exams.ts:35-86 | without a school: error; offline, or failed online fetch with the browser offline at the catch: the cached school's exams newest first; failed fetch while still online: the fetch error; successful fetch: the fresh exams, also stored locally |
| Exams.CreateExam | src/hooks/use-exams.ts:101-124 | offline: a new exam from the input under a fresh id with the two clock reads as stamps, stored locally; online: the remote reply, local store untouched |
| Exams.UpdateExam | src/hooks/use-exams.ts:140-164 | offline: "Exam not found" for an unknown id, else the merged exam stored locally; online: the remote reply |
| Exams.DeleteExam | src/hooks/use-exams.ts:180-194 | offline: removes the exam locally and returns its id; online: the remote error or the id |
| Exams.ReadExamsAsWritten | src/hooks/use-exams.ts:35-86 | the exam read as written: no school is an error; otherwise the cached listing from the `exams` store, then again in the offline fallback; `Exams.ExamPathsFailAsWritten` proves it always fails |
| Exams.OfflineWriteAsWritten | src/hooks/use-exams.ts:104-194 | an offline create, update or delete as written: its one store access is on `exams`; `Exams.ExamPathsFailAsWritten` proves it always fails |
| Exams.OpenStoreAsWritten | src/lib/indexeddb/client.ts:93-112 | opening a store fails exactly when `school-db` does not declare it |
| Exams.ExamPathsFailAsWritten | src/hooks/use-exams.ts:40-41 | as written every exam read fails and every offline write fails, because `exams` is not a store of `school-db` |
| Notification.IsValidPhoneNumber | src/services/notification.service.ts:38-45 | after stripping, `0` or `+254`, then `1` or `7`, then exactly eight digits; `Notification.ValidFormatsInternational` ties it to formatting |
| Notification.FormatPhoneNumber | src/services/notification.service.ts:47-63 | the formatted number always starts with `+254` and contains no spaces, dashes or parentheses |
| Notification.Clean | src/services/notification.service.ts:40 | stripping spaces, dashes and parentheses leaves none of them and never lengthens the number |
| Notification.CleanAppend | src/services/notification.service.ts:40 | stripping distributes over concatenation |
| Notification.CleanFixesClean | src/services/notification.service.ts:49 | stripping an already stripped number changes nothing |
| Notification.ValidFormatsInternational | src/services/notification.service.ts:38-63 | a valid Kenyan number formats to `+254` followed by nine digits, which is itself valid |
| Notification.FormatIdempotent | src/services/notification.service.ts:47-63 | formatting a formatted number changes nothing |
| Notification.Backoff | src/services/notification.service.ts:108-110 | the waits between attempts are 2, 4, … seconds: `2^(k+1)*1000` ms after attempt k+1 |
| Notification.PostWithRetries | src/services/notification.service.ts:76-112 | between one and three identical requests; every request before the last failed; the waits are the back-off for the retries made; delivery exactly when the last reply is delivered, and otherwise three requests and the last failure's message |
| Notification.SendSms | src/services/notification.service.ts:65-115 | succeeds exactly when the number is valid, the message fits 160 UTF-16 units and one of the three attempts is delivered; invalid number and long message fail before any request; requests stop at the first delivery; the waits are the back-off; after three failures the error carries the last failure's message |
| Notification.WhatsAppMessageLength | src/services/notification.service.ts:140 | the WhatsApp text's length is its fixed 98 characters plus its five interpolated fields |
| Notification.SendWhatsApp | src/services/notification.service.ts:139-144 | the WhatsApp text is sent through the SMS path: it succeeds exactly when that SMS would be delivered; an invalid number or a text over 160 characters fails before any request; otherwise one to three identical requests to the formatted number, the earlier ones undelivered, with the 2, 4 s back-off between them, and after three failures the retry error message |
| BankBase.AmountPaidNeverDecreases | src/services/bank-payment/base-bank-service.ts:88-94 | a non-negative payment never lowers `amount_paid`; only a completed payment raises it |
| BankBase.StatusFollowsCoverage | src/services/bank-payment/base-bank-service.ts:88-111 | the fee is `paid` exactly when the new amount paid covers the fee and `pending` otherwise; the fee amount is kept |
| BankBase.PaymentColumns | src/services/bank-payment/base-bank-service.ts:96-111 | the payment date is set only on completion; method `bank`; the transaction id becomes the payment reference; the details record bank, transaction, error and amount |
| BankBase.DefaultPaymentSettles | src/services/bank-payment/base-bank-service.ts:88-94 | a completed payment without an amount on an unpaid fee charges the full fee and settles it |
| BankBase.UpdateWritesAllOrNothing | src/services/bank-payment/base-bank-service.ts:42-131 | on error the fees are untouched and exactly one failed webhook log is appended; a missing fee fails with PostgREST's no-single-row error, so the source's `Fee not found` branch is never taken; success happens exactly when fetch and update succeed on an existing fee, and then only that fee changes |
| BankBase.GenerateReference | src/services/bank-payment/base-bank-service.ts:133-137 | `TEST-` in test mode, then the fee id, a dash and the last six digits of the clock; `BankBase.ReferenceShape` and `BankWebhook.ExtractInvertsReference` state its shape and inverse |
| BankBase.UpdateSpec | src/services/bank-payment/base-bank-service.ts:42-131 | `updatePaymentStatus` on values: fetch the fee, add the amount and settle the status, write the payment columns, and log a failed webhook on any error; `BankBase.UpdateWritesAllOrNothing`, `BankBase.StatusFollowsCoverage` and `BankBase.PaymentColumns` state its effect |
| BankBase.InitiationSpec | src/services/bank-payment/kcb-service.ts:15-70 | the common shape of the three adapters' `initiatePayment`: accepted attempts set the fee pending with the transaction id, refusals and failing updates go through the catch; `BankBase.InitiationOutcome` states its outcomes |
| BankBase.ReferenceShape | src/services/bank-payment/base-bank-service.ts:133-137 | a reference is the optional `TEST-` prefix, the fee id, a dash and the last (up to six) digits of the clock |
| BankBase.StatusAttempt | src/services/bank-payment/cooperative-service.ts:32-42 | an initiation is accepted exactly when the bank replied with the adapter's accepted status |
| BankBase.InitiationOutcome | src/services/bank-payment/kcb-service.ts:15-70 | an initiation succeeds exactly when the bank accepts and the pending update succeeds, leaving the fee with the transaction id and unchanged amount paid; a refusal records the error on the fee and answers with a fresh reference; a failing pending update that throws a plain object is recorded as `Unknown error` and answered with the default message |
| BankBase.VerifyOutcome | src/services/bank-payment/cooperative-service.ts:60-87 | verification succeeds exactly when the bank reports the adapter's success status; the transaction id is echoed; a transport error yields an empty reference and its message |
| BankBase.BankService.UpdatePaymentStatus | src/services/bank-payment/base-bank-service.ts:42-131 | the backend's new fees and logs and the result are those of `UpdateSpec` |
| BankBase.BankService.SettleInitiation | src/services/bank-payment/kcb-service.ts:44-69 | the backend's new state and the answer are those of `InitiationSpec`, whose catch reports the message of an `Error` and the fixed fallback for any other thrown value |
| BankBase.BankService.SimulateTestPayment | src/services/bank-payment/base-bank-service.ts:140-159 | refused outside test mode; in test mode a successful response whose reference carries the first clock read and whose `TEST-` transaction id carries the second |
| BankBase.BankService.SimulateTestWebhook | src/services/bank-payment/base-bank-service.ts:161-184 | refused outside test mode; in test mode a successful webhook carrying the given transaction, reference and amount |
| Kcb.MapKcbStatus | src/services/bank-payment/kcb-service.ts:133-144 | upper-cased `COMPLETED` or `SUCCESS` is success, `FAILED` or `CANCELLED` is failure, anything else pending; the three lemmas below state it |
| Kcb.MapKcbStatusIgnoresCase | src/services/bank-payment/kcb-service.ts:133-144 | status mapping ignores letter case |
| Kcb.MapKcbLowerCaseSuccess | src/services/bank-payment/kcb-service.ts:133-144 | `completed` and `success` map to success |
| Kcb.MapKcbLowerCaseFailure | src/services/bank-payment/kcb-service.ts:133-144 | `failed` and `cancelled` map to failure |
| Kcb.ValidateKcbWebhook | src/services/bank-payment/kcb-service.ts:100-131 | a notification is rejected exactly when its signature is not the HMAC of its fields under the API secret; an accepted one maps its status |
| Kcb.SignedNotificationAccepted | src/services/bank-payment/kcb-service.ts:100-131 | a correctly signed notification is accepted with its own fields |
| Kcb.AlteredNotificationRejected | src/services/bank-payment/kcb-service.ts:100-131 | for an injective HMAC, changing any signed field of an accepted notification makes it rejected |
| Kcb.KcbAttempt | src/services/bank-payment/kcb-service.ts:15-70 | KCB accepts exactly on `success: true`; a refusal carries the bank's message or the default |
| Kcb.InitiatePayment | src/services/bank-payment/kcb-service.ts:15-70 | KCB initiation follows `InitiationSpec` with the KCB attempt |
| Kcb.VerifyPayment | src/services/bank-payment/kcb-service.ts:72-98 | verification succeeds exactly on status `completed` |
| Kcb.VerifyIsCaseSensitive | src/services/bank-payment/kcb-service.ts:72-144 | `COMPLETED` fails verification although the webhook mapping treats it as success |
| Cooperative.MapCooperativeStatus | src/services/bank-payment/cooperative-service.ts:119-129 | upper-cased `COMPLETED` is success, `FAILED` or `REJECTED` is failure, anything else pending; the lemmas below state it |
| Cooperative.MapCooperativeStatusIgnoresCase | src/services/bank-payment/cooperative-service.ts:119-129 | status mapping ignores letter case |
| Cooperative.MapCooperativeSpellings | src/services/bank-payment/cooperative-service.ts:119-129 | `completed` maps to success, `rejected` to failure |
| Cooperative.MapCooperativeKcbSuccessPending | src/services/bank-payment/cooperative-service.ts:119-129 | `SUCCESS` is not a Co-operative success spelling: it maps to pending |
| Cooperative.ValidateCooperativeWebhook | src/services/bank-payment/cooperative-service.ts:89-111 | every notification is accepted, carrying its reference number, transaction, amount and mapped status |
| Cooperative.VerifySignature | src/services/bank-payment/cooperative-service.ts:113-117 | the placeholder check accepts every signature; `Cooperative.SignatureIgnored` proves the signature never matters |
| Cooperative.SignatureIgnored | src/services/bank-payment/cooperative-service.ts:113-117 | the signature has no influence on validation |
| Cooperative.CooperativeAttempt | src/services/bank-payment/cooperative-service.ts:6-58 | accepted exactly on status `ACCEPTED` |
| Cooperative.InitiatePayment | src/services/bank-payment/cooperative-service.ts:6-58 | initiation follows `InitiationSpec` with the Co-operative attempt |
| Cooperative.VerifyPayment | src/services/bank-payment/cooperative-service.ts:60-87 | verification succeeds exactly on status `COMPLETED` |
| Im.MapImStatus | src/services/bank-payment/im-service.ts:119-129 | upper-cased `SUCCESSFUL` is success, `FAILED` or `CANCELLED` is failure, anything else pending; the lemmas below state it |
| Im.MapImStatusIgnoresCase | src/services/bank-payment/im-service.ts:119-129 | status mapping ignores letter case |
| Im.MapImSpellings | src/services/bank-payment/im-service.ts:119-129 | `successful` maps to success, `cancelled` to failure |
| Im.MapImKcbSuccessPending | src/services/bank-payment/im-service.ts:119-129 | `SUCCESS` is not an I&M success spelling: it maps to pending |
| Im.ValidateImWebhook | src/services/bank-payment/im-service.ts:89-111 | every notification is accepted, carrying its payment reference, transaction, amount and mapped status |
| Im.VerifySignature | src/services/bank-payment/im-service.ts:113-117 | the placeholder check accepts every signature; `Im.SignatureIgnored` proves the signature never matters |
| Im.SignatureIgnored | src/services/bank-payment/im-service.ts:113-117 | the signature has no influence on validation |
| Im.ImAttempt | src/services/bank-payment/im-service.ts:6-58 | accepted exactly on status `INITIATED` |
| Im.InitiatePayment | src/services/bank-payment/im-service.ts:6-58 | initiation follows `InitiationSpec` with the I&M attempt |
| Im.VerifyPayment | src/services/bank-payment/im-service.ts:60-87 | verification succeeds exactly on status `SUCCESSFUL` |
| BankFactory.KindOf | src/services/bank-payment/bank-service-factory.ts:10-23 | exactly `kcb`, `equity`, `cooperative` and `im` name an adapter |
| BankFactory.OtherIsUnsupported | src/services/bank-payment/bank-service-factory.ts:10-23 | any other bank type, such as `other`, is unsupported |
| BankFactory.CreateBankService | src/services/bank-payment/bank-service-factory.ts:10-23 | a known bank type yields a new service of that kind over the config; an unknown one the `Unsupported bank type` error |
| BankFactory.SchoolConfig | src/services/bank-payment/bank-service-factory.ts:25-54 | a config exists exactly when the lookup found settings with bank API settings, and then it carries the school id |
| BankFactory.GetSchoolBankService | src/services/bank-payment/bank-service-factory.ts:25-54 | no settings: no service; unsupported type: the factory error; otherwise a service over the school's config |
| BankWebhook.HandleWebhook | src/app/api/webhooks/bank/route.ts:5-66 | the route's fee changes, response and receipt request are those of `WebhookSpec` |
| BankWebhook.WebhookSpec | src/app/api/webhooks/bank/route.ts:5-66 | the route on values: header guard, service lookup, validation, fee-id extraction, fee update and receipt, and the catch; the lemmas below state its outcomes |
| BankWebhook.HeaderGuard | src/app/api/webhooks/bank/route.ts:10-15 | a missing school or bank-type header answers 400 and changes nothing |
| BankWebhook.MissingServiceGuard | src/app/api/webhooks/bank/route.ts:21-27 | a school without bank settings answers 404 and changes nothing |
| BankWebhook.FailureKeepsFees | src/app/api/webhooks/bank/route.ts:59-65 | a failed request that asked for no receipt leaves the fees unchanged |
| BankWebhook.BankTypeHeaderIgnored | src/app/api/webhooks/bank/route.ts:8-21 | any non-empty bank-type header gives the same outcome: the adapter comes from the school's settings |
| BankWebhook.ValidatedNotificationOutcome | src/app/api/webhooks/bank/route.ts:29-58 | a valid notification updates the fee; a receipt is requested exactly for a successful update of a successful payment; the answer is 200 exactly when the update and any receipt succeed; a failed update answers with its message when it is an `Error` and with `Unknown error` when it is a plain object |
| BankWebhook.NotificationEffect | src/app/api/webhooks/bank/route.ts:40-47 | a successful update adds the amount only for a success, dates only a success, records `Payment failed` only for a failure and keeps the transaction id |
| BankWebhook.TestPrefixSkipped | src/app/api/webhooks/bank/route.ts:34-35 | a `TEST-` reference yields the text before the first dash after the prefix |
| BankWebhook.ExtractFeeId | src/app/api/webhooks/bank/route.ts:34-36 | the text after `TEST-` (when present) up to the first dash; `BankWebhook.ExtractInvertsReference` and `BankWebhook.DashedFeeIdTruncated` state when it recovers the fee id |
| BankWebhook.ExtractInvertsReference | src/app/api/webhooks/bank/route.ts:34-36 | the fee id extracted from a generated reference is the original fee id, for ids without dashes (and, live, not ending in `TEST`) |
| BankWebhook.DashedFeeIdTruncated | src/app/api/webhooks/bank/route.ts:34-36 | a fee id containing a dash is cut at the dash: `a-b` comes back as `a` |
| Payment.ReferenceCode | src/lib/payment.ts:23-25 | `REF`, the last six digits of the clock, then the random number below 1000 padded to three digits; `Payment.ReferenceCodeShape` states its shape |
| Payment.FormatPaymentInstructions | src/lib/payment.ts:55-71 | the four paybill lines, trimmed; `Payment.InstructionsTrimmed` and `Payment.AccountReference` state them |
| Payment.ConfirmSpec | src/lib/payment.ts:73-127 | `confirmPayment` on values: look the reference up, mark it completed, then mark the fee paid; `Payment.ConfirmOrdering` and `Payment.ConfirmReplacesAmountPaid` state its effect |
| Payment.ReferenceCodeShape | src/lib/payment.ts:23-25 | a reference is `REF`, the last six digits of the clock, then the random number padded to three digits |
| Payment.GeneratedReferenceEndsInDigit | src/lib/payment.ts:23-25 | a generated reference ends in a digit, so trimming never touches it |
| Payment.AccountReference | src/lib/payment.ts:61-63 | the account reference is the account number, `#`, then the admission number or, for any other format, the student's name |
| Payment.InstructionsTrimmed | src/lib/payment.ts:55-71 | the instructions start with the paybill line and trimming removes only the template's outer whitespace |
| Payment.ConfirmOrdering | src/lib/payment.ts:73-127 | an unknown reference changes nothing; fees change only after the reference is completed; a fee-update error leaves the reference completed; success exactly when nothing fails |
| Payment.ConfirmReplacesAmountPaid | src/lib/payment.ts:110-126 | confirming sets the fee paid with the confirmed amount as `amount_paid` (replacing, not adding) and the reference, and leaves other fees alone |
| Payment.PaymentTables.GeneratePaymentReference | src/lib/payment.ts:13-53 | it fails exactly when the insert errors or the code is already taken, with nothing stored; otherwise a pending row is stored under a code no earlier row had, every earlier row is kept, and the row is returned |
| Payment.PaymentTables.ConfirmPayment | src/lib/payment.ts:73-127 | the tables and the result are those of `ConfirmSpec` |
| ReportCards.CalculateGrade | src/services/report-card.service.ts:177-183 | the grade is one of A–E |
| ReportCards.GradeBands | src/services/report-card.service.ts:177-183 | A from 80, B from 70, C from 60, D from 50, E below 50, each an if-and-only-if |
| ReportCards.GradeMonotone | src/services/report-card.service.ts:177-183 | a higher average never gets a worse grade |
| ReportCards.FirstIndexOf | src/services/report-card.service.ts:157-171 | the position found is the first index holding the average, and none exists exactly when the average is absent |
| ReportCards.ClassPositionSpec | src/services/report-card.service.ts:134-175 | a failed query propagates its error; otherwise the position is at least 1 and at most the class size (or 1) |
| ReportCards.CalculateClassPosition | src/services/report-card.service.ts:134-175 | the grouping and scan loops return `ClassPositionSpec` |
| ReportCards.PositionCountsBetter | src/services/report-card.service.ts:148-171 | in descending order the position is one more than the number of strictly better averages (ties share a position) |
| ReportCards.BetterAverageBetterPosition | src/services/report-card.service.ts:148-171 | a higher average never gets a worse position |
| ReportCards.TotalMarks | src/services/report-card.service.ts:51 | the sum of the exam scores (a score is a number, so `score || 0` is the score); `ReportCards.TotalWithin` bounds it |
| ReportCards.TotalWithin | src/services/report-card.service.ts:51 | the total lies between count×lowest and count×highest score |
| ReportCards.AverageWithinScores | src/services/report-card.service.ts:51-52 | the average lies between the lowest and highest score |
| ReportCards.GenerationCompletes | src/services/report-card.service.ts:39-85 | generation succeeds exactly when no exam query, position query or insert fails |
| ReportCards.ErrorStops | src/services/report-card.service.ts:48-83 | after the first error later students change nothing |
| ReportCards.GeneratedCards | src/services/report-card.service.ts:39-85 | every insert request describes an examined student; on success one request per examined student; returned cards are among the requests; at most one per student |
| ReportCards.GenerateReportCards | src/services/report-card.service.ts:22-88 | the requests and result are those of `GenerateSpec` |
| ReportCards.GenerateFor | src/services/report-card.service.ts:39-85 | one student's iteration (exam query, skip when no exams, average, grade, position, insert) has the outcome `Step` gives |
| ReportCards.CardNotices | src/services/report-card.service.ts:109-131 | given whether its SMS is delivered, a card causes at most two notices, all for that card |
| ReportCards.ChannelRules | src/services/report-card.service.ts:116-130 | an SMS goes out exactly when SMS is wanted and a phone is present; an e-mail exactly when e-mail is wanted, an address is present and no attempted SMS failed |
| ReportCards.NoStudentNoNotice | src/services/report-card.service.ts:110-111 | a card without its student sends nothing |
| ReportCards.InvalidPhoneSkipsEmail | src/services/report-card.service.ts:116-130 | with `both`, an invalid phone number makes the SMS throw and the e-mail is skipped |
| ReportCards.CardsIndependent | src/services/report-card.service.ts:109-131 | the notices a pass records for card k are exactly those of card k alone under its own SMS outcome, whatever the other cards did |
| ReportCards.SentPerCard | src/services/report-card.service.ts:90-132 | in the whole sending pass, card k's notices are those `CardNotices` gives for card k with its own SMS verdict: one card's failure does not affect another's notices |
| ReportCards.NotifyCard | src/services/report-card.service.ts:109-131 | one loop iteration makes exactly the notices `CardNotices` gives for that card and its SMS verdict |
| ReportCards.SendReportCards | src/services/report-card.service.ts:90-132 | the result and notices are those of `SendSpec` |
| ReportCards.GenerateAndSendReportCards | src/services/report-card.service.ts:224-254 | success exactly when generation succeeds and the card lookup does not fail; a failure reports the thrown value's message when it is an `Error` and `Unknown error occurred` otherwise; the sent ids are the generated cards' ids |
| Communications.Tally | src/app/actions/communications.ts:64-98 | the successes and failures after the first `n` recipients; the two lemmas below state what it counts |
| Communications.TallyCountsEveryone | src/app/actions/communications.ts:64-98 | successes plus failures equal the number of recipients |
| Communications.NoFailureIffAllDelivered | src/app/actions/communications.ts:64-98 | no failure exactly when every recipient was reached |
| Communications.MissingContactFails | src/app/actions/communications.ts:64-98 | a recipient without a phone (SMS) or an e-mail address (e-mail) counts as failed |
| Communications.BulkOutcome | src/app/actions/communications.ts:30-120 | the action succeeds exactly when recipients were found and the notification inserted; then every recipient is counted once; the notification is `sent` exactly when all were reached, with the send time, unless the final status update fails, which leaves it `pending` without a send time while the action still succeeds; a failed query reports its message only when it is an `Error`, else `Failed to send message`, with no row written; no recipients at all leaves a `pending` row and a TypeError message |
| Communications.SendBulkMessage | src/app/actions/communications.ts:30-120 | the result and the notification row are those of `BulkSpec`, including the ignored error of the final status update |
| Middleware.Decide | src/middleware.ts:39-99 | the redirect decision on a matched path: auth pages, the dashboard sign-in and role checks; `Middleware.AuthRedirects`, `Middleware.RoleGuard` and `Middleware.RedirectsSettle` state it |
| Middleware.RequiredRole | src/middleware.ts:72-87 | a restricted dashboard path demands admin, teacher or parent |
| Middleware.Route | src/middleware.ts:5-103 | paths outside the matcher pass; every redirect goes to `/dashboard` or `/login` |
| Middleware.AuthRedirects | src/middleware.ts:39-55 | signed-in visitors of the auth pages go to the dashboard; signed-out ones stay; signed-out visitors of the dashboard go to the login page |
| Middleware.RoleGuard | src/middleware.ts:72-87 | a consistent signed-in user reaches a restricted page exactly when holding its role; otherwise the user is sent to the dashboard |
| Middleware.RedirectsSettle | src/middleware.ts:39-96 | for a consistent session the page a redirect leads to passes |
| Middleware.InconsistentSessionLoops | src/middleware.ts:39-69 | a signed-in user with a lookup error or no role row is bounced between `/dashboard` and `/login` for ever |
| Middleware.AdminPrefix | src/middleware.ts:72 | the admin check is a prefix test, so `/dashboard/administration` is admin-only too |
| BankSettings.LiveFlag | src/app/api/schools/bank-settings/route.ts:61 | a missing or null `is_live` becomes false; any other value is kept |
| BankSettings.Validate | src/app/api/schools/bank-settings/route.ts:12-31 | the request passes exactly when all six required fields are truthy |
| BankSettings.ValidationOrder | src/app/api/schools/bank-settings/route.ts:12-31 | the first failing check decides the 400 message, before and whatever the store answers |
| BankSettings.WrittenOnlyOnSuccess | src/app/api/schools/bank-settings/route.ts:5-102 | settings are written exactly on 200, which happens exactly for a valid request, an existing school and a successful update; a missing school is 404 |
| BankSettings.Merge | src/app/api/schools/bank-settings/route.ts:55-83 | the existing payment settings (or the defaults) with `bank_api_settings` replaced; `BankSettings.MergeKeepsOtherSettings` and `BankSettings.DefaultsForNewSchool` state it |
| BankSettings.PostBankSettings | src/app/api/schools/bank-settings/route.ts:5-101 | the POST handler on values: parse, validate, find the school, update; `BankSettings.ValidationOrder` and `BankSettings.WrittenOnlyOnSuccess` state its answers |
| BankSettings.MergeKeepsOtherSettings | src/app/api/schools/bank-settings/route.ts:55-83 | the stored settings keep every other entry and replace `bank_api_settings` with the request's fields |
| BankSettings.DefaultsForNewSchool | src/app/api/schools/bank-settings/route.ts:66-71 | a school without payment settings gets blank paybill fields and references by admission number |
| BankSettings.SaveIdempotent | src/app/api/schools/bank-settings/route.ts:55-83 | saving the same request twice stores the same settings as saving it once |

## Left out

- Concurrency: the promises, timers and event listeners of the sync service run one step at a time here. Interleavings of two passes are not modelled beyond the lock and the in-flight flag.
- `cleanup` and `getInstance` of `SyncService` (src/lib/sync/sync-service.ts:56-71, 304-310): listener registration and the singleton are not modelled. The timer part of `cleanup` is `StopSync`.
- `queueSync` does not await its enqueue. The model enqueues before it syncs, which is one of the orders the source allows.
- JSON payloads of queue items are opaque strings. `JSON.parse(JSON.stringify(x))` is taken to give back `x`. The logged insert call carries the queue payload as stored, whereas the source sends it with `id` set to `undefined` and `record_id` removed (src/lib/sync/sync-service.ts:212-213 and 238-243).
- `SyncEngine.PerformSync`: the outer `try` that swallows a failing `getDB`/`getAll` is not modelled; those calls cannot fail here.
- Timestamps are milliseconds. ISO strings are not modelled, and `new Date(...)` round-trips are taken to be exact.
- `Exams.SortByCreatedDesc`: ECMAScript 2019 and later require `Array.prototype.sort` to be stable. The model is an insertion sort, and `Exams.SortStable` proves that it keeps exams with equal `created_at` in their input order, so it is the order the source produces.
- Exam patches with keys explicitly set to `undefined` are not modelled (`None` is an absent key).
- `NotificationService.getInstance` and the Resend client (src/services/notification.service.ts:21-36, 117-137): e-mail delivery is a parameter (`emailAccepted`, `resendConfigured`). In report cards an e-mail's outcome changes nothing, so it is not modelled there.
- SMS sending over Africa's Talking: the gateway's reply to each attempt is the parameter `reply`, and the waits are returned rather than slept.
- src/services/bank-payment/equity-service.ts is not part of this model. The Equity adapter's webhook validation is the parameter `equityValidate`.
- HTTP requests to the banks are not modelled: their URLs, headers and bodies, and the way axios throws. Only each reply's decisive fields are parameters.
- The KCB HMAC-SHA256 is the parameter `sign`. `Kcb.AlteredNotificationRejected` assumes it is injective.
- `simulateTestPayment`'s deferred `setTimeout` update after 2 s is not modelled (src/services/bank-payment/base-bank-service.ts:148-151).
- `BankBase.BankService.UpdatePaymentStatus`: a failing insert into the webhook log is ignored by the source and not modelled as a separate failure.
- Amounts are integers. Fractional shillings and JavaScript floating point are not modelled.
- Thrown values: an error a Supabase query answers with is a plain object (`PostgrestError`) unless the client library wraps it, and which it is depends on the library version. Every such error is therefore a `Thrown` parameter of either kind. Catch blocks that test `instanceof Error` report the message of an `Error` and their fixed fallback (`Unknown error`, `Unknown error occurred`, `Failed to send message`) for a plain object. The sync service and the exam hooks never read the message, so they keep plain strings.
- `BankBase.UpdateSpec`: `.single()` reports a missing fee as the PostgREST error PGRST116 (`JSON object requested, multiple (or no) rows returned`), modelled as `NoSingleRow`. The source's `Fee not found` branch (src/services/bank-payment/base-bank-service.ts:73-85) is therefore never reached and is not modelled.
- `Payment.PaymentTables.GeneratePaymentReference`: the `reference` column is taken to be the table's unique key, so an insert with a code already present fails like any insert error. The schema is not part of this model.
- `ReportCards.CalculateClassPosition`: the class query filters on the `grade` column with the class name (src/services/report-card.service.ts:147), and the card of the student being ranked is inserted only after the query. The averages the query returns are therefore a parameter, and the model does not tie them to the cards generated so far.
- Report-card message texts (src/services/report-card.service.ts:185-218) are not built. The SMS text of each card is a parameter of `SendReportCards`.
- NaN and infinite averages are not modelled: an exam score is a number, so `score || 0` is the score.
- `getCommunications` in src/app/actions/communications.ts is a plain query, not modelled.
- ReportCards.GenerateAndSendReportCards: the reply to the card lookup of `sendReportCards` is a parameter, so the looked-up cards are not constrained to the generated ids the source queries with `.in('id', …)` (src/services/report-card.service.ts:94-105, 240-243).
- Middleware cookie handling (src/middleware.ts:8-33) is not modelled. The user, the user-lookup error and the role lookup are parameters.
- Bank settings: JSON objects and arrays are opaque (`JComposite`), and only their truthiness matters. The update error's object becomes its message.

## Findings

| source | as written | input that shows it | evidently intended | confidence | as-written member | corrected member |
|---|---|---|---|---|---|---|
| src/hooks/use-exams.ts:40-41 | every exam read and every offline create, update and delete uses the store `exams`, which `getDB` never creates (src/lib/indexeddb/client.ts:93-112), so IndexedDB raises `NotFoundError` | any school, online or offline: `getAllFromIndex('exams', 'by-school', id)` | `school-db` declares an `exams` store keyed by `id` with a `by-school` index, and the hooks work on it | not executed | Exams.ExamPathsFailAsWritten | Exams.ReadExams |
