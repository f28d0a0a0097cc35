/**
 * The offline sync engine: the persistent queue of logged mutations, the
 * single-flight guard around a drain pass, the pass itself (each pending item
 * moves pending -> processing -> completed | failed) and the create / update /
 * delete handlers that talk to the remote store.
 *
 * The remote store, the uuid generator and the clock are oracles collected in
 * `Env`. A pass is specified by the pure function `Drain`; the class
 * `SyncService` carries it out step by step on a `SchoolDb` and proves that it
 * ends in the state `Drain` describes.
 */
module SyncEngine {
  import opened Wrappers
  import opened LocalStore

  /** What the remote store answers to the one call made for a queue item. */
  datatype RemoteResult = Accepted(serverId: string) | Rejected(message: string)

  /** A call the engine makes on the remote store. */
  datatype RemoteCall =
    | InsertCall(table: string, payload: string)
    | UpdateCall(table: string, id: string, payload: string)
    | DeleteCall(table: string, id: string)

  /**
   * The oracles of one pass: the remote answer for the call made on behalf of
   * each queue item (by item id), the uuid drawn when that item re-enqueues a
   * follow-up, and the clock.
   */
  datatype Env = Env(remote: string -> RemoteResult, freshId: string -> string, now: string)

  /** The state a pass reads and changes; `calls` logs the remote calls in order. */
  datatype PassState = PassState(
    students: map<string, StudentRecord>,
    fees: map<string, FeeRecord>,
    queue: map<string, QueueItem>,
    processed: set<string>,
    calls: seq<RemoteCall>)

  /** JSON text of `null`, the payload logged for a delete. */
  const NullPayload: string := "null"

  /** `addToSyncQueue`: put a new pending item under the id `id`. */
  function Enqueue(q: map<string, QueueItem>, id: string, table: string, recordId: string,
                   op: Operation, data: string, now: string): map<string, QueueItem>
  {
    q[id := QueueItem(id, table, recordId, op, data, now, Pending)]
  }

  /**
   * With a fresh id, enqueueing adds exactly one pending item carrying the
   * given table, record, operation and payload, and leaves every other item as it was.
   */
  lemma EnqueueAddsOne(q: map<string, QueueItem>, id: string, table: string, recordId: string,
                       op: Operation, data: string, now: string)
    requires id !in q
    ensures var q' := Enqueue(q, id, table, recordId, op, data, now);
      && q'.Keys == q.Keys + {id}
      && |q'| == |q| + 1
      && q'[id].status == Pending && q'[id].tableName == table && q'[id].recordId == recordId
      && q'[id].operation == op && q'[id].data == data
      && forall k :: k in q ==> q'[k] == q[k]
  {
    var q' := Enqueue(q, id, table, recordId, op, data, now);
    assert q'.Keys == q.Keys + {id};
    assert |q.Keys + {id}| == |q.Keys| + 1;
  }

  /**
   * The filter applied to the `getAll` listing: items that are pending and
   * whose id this instance has not already claimed, in listing order.
   */
  function PendingOf(all: seq<QueueItem>, processed: set<string>): (r: seq<QueueItem>)
    ensures forall x :: x in r <==> x in all && x.status == Pending && x.id !in processed
    ensures |r| <= |all|
    decreases |all|
  {
    if all == [] then []
    else
      var rest := PendingOf(all[..|all| - 1], processed);
      var x := all[|all| - 1];
      assert all == all[..|all| - 1] + [x];
      if x.status == Pending && x.id !in processed then rest + [x] else rest
  }

  /** The local record a create item refers to exists in the named store. */
  predicate HasLocalRecord(st: PassState, table: string, recordId: string) {
    (table == "students" && recordId in st.students) || (table == "fees" && recordId in st.fees)
  }

  /**
   * `handleCreate`: look the record up locally (failing without a remote call
   * when it is missing), insert it remotely, and on success put a copy under
   * the server id with `sync_status` synced. The temporary entry stays.
   */
  function CreateEffect(st: PassState, table: string, recordId: string, data: string,
                        reply: RemoteResult): (PassState, bool)
  {
    if !HasLocalRecord(st, table, recordId) then (st, false)
    else
      var called := st.(calls := st.calls + [InsertCall(table, data)]);
      match reply
      case Rejected(_) => (called, false)
      case Accepted(sid) =>
        if table == "students" then
          (called.(students := st.students[sid := st.students[recordId].(id := sid, syncStatus := Synced)]), true)
        else
          (called.(fees := st.fees[sid := st.fees[recordId].(id := sid, syncStatus := Synced)]), true)
  }

  /** `handleUpdate`: remote update, then on success enqueue a new pending update item. */
  function UpdateEffect(st: PassState, table: string, id: string, data: string,
                        reply: RemoteResult, newId: string, now: string): (PassState, bool)
  {
    var called := st.(calls := st.calls + [UpdateCall(table, id, data)]);
    if reply.Rejected? then (called, false)
    else (called.(queue := Enqueue(st.queue, newId, table, id, Update, data, now)), true)
  }

  /** `handleDelete`: remote delete, then on success enqueue a new pending delete item. */
  function DeleteEffect(st: PassState, table: string, id: string,
                        reply: RemoteResult, newId: string, now: string): (PassState, bool)
  {
    var called := st.(calls := st.calls + [DeleteCall(table, id)]);
    if reply.Rejected? then (called, false)
    else (called.(queue := Enqueue(st.queue, newId, table, id, Delete, NullPayload, now)), true)
  }

  function Dispatch(st: PassState, it: QueueItem, env: Env): (PassState, bool) {
    match it.operation
    case Create => CreateEffect(st, it.tableName, it.recordId, it.data, env.remote(it.id))
    case Update => UpdateEffect(st, it.tableName, it.recordId, it.data, env.remote(it.id), env.freshId(it.id), env.now)
    case Delete => DeleteEffect(st, it.tableName, it.recordId, env.remote(it.id), env.freshId(it.id), env.now)
  }

  /** The item is still pending in the store when its turn comes. */
  predicate StillPending(st: PassState, it: QueueItem) {
    it.id in st.queue && st.queue[it.id].status == Pending
  }

  /**
   * One iteration of the pass: skip an item no longer pending; otherwise mark
   * it processing and claim its id, dispatch it, then mark it completed, or
   * failed and release its id.
   */
  function ProcessItem(st: PassState, it: QueueItem, env: Env): PassState {
    if !StillPending(st, it) then st
    else
      var claimed := st.(queue := st.queue[it.id := it.(status := Processing)],
                         processed := st.processed + {it.id});
      var (after, ok) := Dispatch(claimed, it, env);
      if ok then after.(queue := after.queue[it.id := it.(status := Completed)])
      else after.(queue := after.queue[it.id := it.(status := Failed)],
                  processed := after.processed - {it.id})
  }

  /** A pass over the snapshot `items`, one item after another. */
  function Drain(st: PassState, items: seq<QueueItem>, env: Env): PassState
    decreases |items|
  {
    if items == [] then st
    else ProcessItem(Drain(st, items[..|items| - 1], env), items[|items| - 1], env)
  }

  /** Draining one more item of `items` processes that item last. */
  lemma DrainStep(st: PassState, items: seq<QueueItem>, i: nat, env: Env)
    requires i < |items|
    ensures Drain(st, items[..i + 1], env) == ProcessItem(Drain(st, items[..i], env), items[i], env)
  {
    assert items[..i + 1][..i] == items[..i];
  }

  /** The remote call succeeds and, for a create, the local record was there to send. */
  predicate Succeeds(st: PassState, it: QueueItem, env: Env) {
    env.remote(it.id).Accepted?
    && (it.operation == Create ==> HasLocalRecord(st, it.tableName, it.recordId))
  }

  /** The item's handler reaches the remote store (creates need their local record first). */
  predicate CallsRemote(st: PassState, it: QueueItem) {
    it.operation != Create || HasLocalRecord(st, it.tableName, it.recordId)
  }

  /** The remote call the handler makes for `it`. */
  function CallFor(it: QueueItem): RemoteCall {
    match it.operation
    case Create => InsertCall(it.tableName, it.data)
    case Update => UpdateCall(it.tableName, it.recordId, it.data)
    case Delete => DeleteCall(it.tableName, it.recordId)
  }

  /** The item enqueued by a successful update or delete. */
  function FollowUp(it: QueueItem, env: Env): QueueItem {
    var id := env.freshId(it.id);
    if it.operation == Update then QueueItem(id, it.tableName, it.recordId, Update, it.data, env.now, Pending)
    else QueueItem(id, it.tableName, it.recordId, Delete, NullPayload, env.now, Pending)
  }

  /** An item that is no longer pending when its turn comes is skipped: nothing changes, no remote call. */
  lemma SkipLeavesStateAlone(st: PassState, it: QueueItem, env: Env)
    requires !StillPending(st, it)
    ensures ProcessItem(st, it, env) == st
  {
  }

  /**
   * A pending item ends completed when its handler succeeds and failed
   * otherwise; its id stays claimed exactly when it completed; at most its own
   * remote call is logged; and only its own entry and its follow-up's change
   * in the queue.
   */
  lemma ProcessItemSettles(st: PassState, it: QueueItem, env: Env)
    requires StillPending(st, it)
    requires it.operation != Create ==> env.freshId(it.id) != it.id
    ensures var r := ProcessItem(st, it, env);
      && it.id in r.queue
      && r.queue[it.id] == it.(status := if Succeeds(st, it, env) then Completed else Failed)
      && (it.id in r.processed <==> Succeeds(st, it, env))
      && r.processed - {it.id} == st.processed - {it.id}
      && r.calls == st.calls + (if CallsRemote(st, it) then [CallFor(it)] else [])
      && (forall k :: k in st.queue && k != it.id && (it.operation == Create || k != env.freshId(it.id))
            ==> k in r.queue && r.queue[k] == st.queue[k])
      && (forall k :: k in r.queue ==> k in st.queue || (it.operation != Create && k == env.freshId(it.id)))
  {
  }

  /**
   * A successful create leaves a synced copy of the local record under the
   * server id and leaves the temporary-id entry where it was.
   */
  lemma CreateCopiesUnderServerId(st: PassState, it: QueueItem, env: Env)
    requires StillPending(st, it) && it.operation == Create
    requires HasLocalRecord(st, it.tableName, it.recordId)
    requires env.remote(it.id).Accepted?
    ensures var r := ProcessItem(st, it, env);
      var sid := env.remote(it.id).serverId;
      && r.queue[it.id].status == Completed
      && (it.tableName == "students" ==>
            && r.students == st.students[sid := st.students[it.recordId].(id := sid, syncStatus := Synced)]
            && (sid != it.recordId ==> it.recordId in r.students && r.students[it.recordId] == st.students[it.recordId])
            && r.fees == st.fees)
      && (it.tableName == "fees" ==>
            && r.fees == st.fees[sid := st.fees[it.recordId].(id := sid, syncStatus := Synced)]
            && (sid != it.recordId ==> it.recordId in r.fees && r.fees[it.recordId] == st.fees[it.recordId])
            && r.students == st.students)
  {
  }

  /** A create whose local record is missing fails without reaching the remote store. */
  lemma CreateWithoutRecordFails(st: PassState, it: QueueItem, env: Env)
    requires StillPending(st, it) && it.operation == Create
    requires !HasLocalRecord(st, it.tableName, it.recordId)
    ensures var r := ProcessItem(st, it, env);
      && r.queue[it.id].status == Failed
      && r.calls == st.calls
      && r.students == st.students && r.fees == st.fees
      && it.id !in r.processed
  {
  }

  /**
   * A successful update or delete re-enqueues a pending item for the same
   * table and record under a fresh id; not claimed, it is taken again by the next pass.
   */
  lemma SuccessfulUpdateReEnqueues(st: PassState, it: QueueItem, env: Env)
    requires StillPending(st, it) && it.operation != Create
    requires env.remote(it.id).Accepted?
    requires env.freshId(it.id) != it.id && env.freshId(it.id) !in st.processed
    ensures var r := ProcessItem(st, it, env);
      var f := FollowUp(it, env);
      && f.id in r.queue && r.queue[f.id] == f
      && f.status == Pending && f.tableName == it.tableName && f.recordId == it.recordId
      && f.operation == it.operation
      && f in PendingOf([r.queue[f.id]], r.processed)
  {
  }

  /** The ids of a snapshot are distinct and none of them is drawn as a follow-up id. */
  predicate SnapshotIdsApart(items: seq<QueueItem>, env: Env) {
    && (forall i, j :: 0 <= i < j < |items| ==> items[i].id != items[j].id)
    && (forall i, j :: 0 <= i < |items| && 0 <= j < |items| ==> env.freshId(items[i].id) != items[j].id)
  }

  /** What the pass leaves for an item it took: a terminal status that reflects only its own call. */
  predicate Settled(r: PassState, it: QueueItem, env: Env) {
    && it.id in r.queue
    && (r.queue[it.id].status == Completed || r.queue[it.id].status == Failed)
    && (r.queue[it.id].status == Completed ==> env.remote(it.id).Accepted?)
    && (it.operation != Create ==> (r.queue[it.id].status == Completed <==> env.remote(it.id).Accepted?))
    && (it.id in r.processed <==> r.queue[it.id].status == Completed)
  }

  lemma {:induction false} DrainSettlesPrefix(st: PassState, items: seq<QueueItem>, env: Env)
    requires SnapshotIdsApart(items, env)
    requires forall i :: 0 <= i < |items| ==> StillPending(st, items[i])
    ensures var r := Drain(st, items, env);
      forall i :: 0 <= i < |items| ==> Settled(r, items[i], env)
    decreases |items|
  {
    if items != [] {
      var n := |items| - 1;
      var init := items[..n];
      var it := items[n];
      assert SnapshotIdsApart(init, env);
      DrainSettlesPrefix(st, init, env);
      var mid := Drain(st, init, env);
      DrainKeepsUntaken(st, init, env, it.id);
      assert StillPending(mid, it);
      ProcessItemSettles(mid, it, env);
      forall i | 0 <= i < n
        ensures Settled(ProcessItem(mid, it, env), items[i], env)
      {
        assert items[i] == init[i];
        SettledKept(mid, it, env, items[i]);
      }
    }
  }

  /** Processing another item keeps an earlier item's settled outcome. */
  lemma SettledKept(mid: PassState, it: QueueItem, env: Env, done: QueueItem)
    requires Settled(mid, done, env)
    requires done.id != it.id && done.id != env.freshId(it.id)
    ensures Settled(ProcessItem(mid, it, env), done, env)
  {
    ProcessItemKeeps(mid, it, env, done.id);
  }

  /** One step leaves alone a queue entry that is neither the item nor its follow-up. */
  lemma ProcessItemKeeps(st: PassState, it: QueueItem, env: Env, k: string)
    requires k != it.id && k != env.freshId(it.id)
    ensures var r := ProcessItem(st, it, env);
      && (k in r.queue <==> k in st.queue)
      && (k in st.queue ==> r.queue[k] == st.queue[k])
      && (k in r.processed <==> k in st.processed)
  {
    if StillPending(st, it) {
      var claimed := st.(queue := st.queue[it.id := it.(status := Processing)],
                         processed := st.processed + {it.id});
      DispatchKeeps(claimed, it, env, k);
    }
  }

  /** A handler touches the queue only at the follow-up id and never the claimed ids. */
  lemma DispatchKeeps(st: PassState, it: QueueItem, env: Env, k: string)
    requires k != env.freshId(it.id)
    ensures var r := Dispatch(st, it, env).0;
      && (k in r.queue <==> k in st.queue)
      && (k in st.queue ==> r.queue[k] == st.queue[k])
      && r.processed == st.processed
  {
  }

  /** Queue entries whose id is neither in the snapshot nor a follow-up id are untouched by a pass. */
  lemma {:induction false} DrainKeepsUntaken(st: PassState, items: seq<QueueItem>, env: Env, k: string)
    requires forall i :: 0 <= i < |items| ==> items[i].id != k && env.freshId(items[i].id) != k
    ensures var r := Drain(st, items, env);
      && (k in r.queue <==> k in st.queue)
      && (k in st.queue ==> r.queue[k] == st.queue[k])
      && (k in r.processed <==> k in st.processed)
    decreases |items|
  {
    if items != [] {
      var n := |items| - 1;
      DrainKeepsUntaken(st, items[..n], env, k);
      ProcessItemKeeps(Drain(st, items[..n], env), items[n], env, k);
    }
  }

  /**
   * Failure isolation: every item of a snapshot that was pending at the start
   * ends completed or failed, completed only if its own remote call was
   * accepted and (for updates and deletes) exactly then, and its id stays
   * claimed exactly when it completed, whatever happened to the other items.
   */
  lemma DrainSettlesSnapshot(st: PassState, items: seq<QueueItem>, env: Env)
    requires SnapshotIdsApart(items, env)
    requires forall i :: 0 <= i < |items| ==> StillPending(st, items[i])
    ensures forall i :: 0 <= i < |items| ==> Settled(Drain(st, items, env), items[i], env)
  {
    DrainSettlesPrefix(st, items, env);
  }

  /** A pass makes at most one remote call per item of its snapshot, and never removes a logged call. */
  lemma {:induction false} DrainCallsBounded(st: PassState, items: seq<QueueItem>, env: Env)
    ensures var r := Drain(st, items, env);
      |st.calls| <= |r.calls| <= |st.calls| + |items| && r.calls[..|st.calls|] == st.calls
    decreases |items|
  {
    if items != [] {
      var n := |items| - 1;
      DrainCallsBounded(st, items[..n], env);
      var mid := Drain(st, items[..n], env);
      if StillPending(mid, items[n]) {
        ProcessItemSettles(mid, items[n], env.(freshId := x => x + "'"));
        assert Drain(st, items, env).calls == ProcessItem(mid, items[n], env.(freshId := x => x + "'")).calls;
      }
    }
  }

  /** A pass over items none of which is still pending changes nothing and makes no remote call. */
  lemma {:induction false} DrainOfSettledIsIdle(st: PassState, items: seq<QueueItem>, env: Env)
    requires forall i :: 0 <= i < |items| ==> !StillPending(st, items[i])
    ensures Drain(st, items, env) == st
    decreases |items|
  {
    if items != [] {
      var n := |items| - 1;
      DrainOfSettledIsIdle(st, items[..n], env);
    }
  }

  /** With no unclaimed pending item in the listing, the snapshot is empty and the pass is idle. */
  lemma {:induction false} IdleDrain(st: PassState, all: seq<QueueItem>, env: Env)
    requires forall x :: x in all ==> x.status != Pending || x.id in st.processed
    ensures PendingOf(all, st.processed) == []
    ensures Drain(st, PendingOf(all, st.processed), env) == st
    decreases |all|
  {
    if all != [] {
      var n := |all| - 1;
      assert all[n] in all;
      assert forall x :: x in all[..n] ==> x in all;
      IdleDrain(st, all[..n], env);
    }
  }

  /** The outcome of a trigger. */
  datatype TriggerOutcome =
    | SkippedLocked
    | JoinedInFlight
    | Ran(listing: seq<QueueItem>, snapshot: seq<QueueItem>)

  /**
   * What one trigger of `syncData` does from state `st`: a held global lock
   * skips and changes nothing; a pass in flight is joined and nothing changes;
   * otherwise the whole queue is listed, its pending unclaimed items form the
   * snapshot, and the new state `r` is the pass over that snapshot.
   */
  ghost predicate TriggerMeets(st: PassState, lockHeld: bool, inFlight: bool, outcome: TriggerOutcome,
                         r: PassState, env: Env)
  {
    if lockHeld then outcome == SkippedLocked && r == st
    else if inFlight then outcome == JoinedInFlight && r == st
    else
      && outcome.Ran?
      && (forall x :: x in outcome.listing <==> x in st.queue.Values)
      && outcome.snapshot == PendingOf(outcome.listing, st.processed)
      && (forall i, j :: 0 <= i < j < |outcome.snapshot| ==> outcome.snapshot[i].id != outcome.snapshot[j].id)
      && (forall i :: 0 <= i < |outcome.snapshot| ==> StillPending(st, outcome.snapshot[i]))
      && r == Drain(st, outcome.snapshot, env)
  }

  /**
   * After a sync that runs, every item it took ends completed or failed by
   * its own remote call, provided the ids of the follow-up items it logs do
   * not collide with the ids it took.
   */
  lemma TriggerSettlesSnapshot(st: PassState, outcome: TriggerOutcome, r: PassState, env: Env)
    requires TriggerMeets(st, false, false, outcome, r, env)
    requires outcome.Ran? && forall i, j :: 0 <= i < |outcome.snapshot| && 0 <= j < |outcome.snapshot| ==>
               env.freshId(outcome.snapshot[i].id) != outcome.snapshot[j].id
    ensures forall i :: 0 <= i < |outcome.snapshot| ==> Settled(r, outcome.snapshot[i], env)
  {
    DrainSettlesSnapshot(st, outcome.snapshot, env);
  }

  /**
   * A pass that runs takes every item pending and unclaimed in the queue when
   * it starts; in particular the item `queueSync` has just logged while online.
   */
  lemma TriggerTakesPending(st: PassState, outcome: TriggerOutcome, r: PassState, env: Env, it: QueueItem)
    requires TriggerMeets(st, false, false, outcome, r, env)
    requires it.id in st.queue && st.queue[it.id] == it
    requires it.status == Pending && it.id !in st.processed
    ensures outcome.Ran? && it in outcome.snapshot
  {
    assert it in st.queue.Values;
  }

  /** The module-level `globalSyncLock`, shared by every engine instance. */
  class SyncLock {
    var held: bool

    constructor ()
      ensures !held
    {
      held := false;
    }
  }

  class SyncService {
    const db: SchoolDb
    const lock: SyncLock
    var isOnline: bool
    /** The handle of the registered interval timer, if any. */
    var syncInterval: Option<nat>
    var isSyncing: bool
    /** A pass is in flight (`syncPromise` is not null). */
    var syncPromise: bool
    var processedItems: set<string>
    /** The handle the next `setInterval` returns. */
    var nextTimer: nat
    /** Interval timers registered and not yet cleared. */
    ghost var activeTimers: set<nat>
    /** Every remote call made so far, in order. */
    ghost var calls: seq<RemoteCall>

    ghost predicate Valid()
      reads this, db
    {
      && db.Valid()
      && (isSyncing <==> syncPromise)
      && activeTimers == (if syncInterval.Some? then {syncInterval.value} else {})
      && (forall t :: t in activeTimers ==> t < nextTimer)
    }

    ghost function State(): PassState
      reads this, db
    {
      PassState(db.students, db.fees, db.syncQueue, processedItems, calls)
    }

    constructor (db: SchoolDb, lock: SyncLock, online: bool)
      requires db.Valid()
      ensures Valid() && this.db == db && this.lock == lock
      ensures isOnline == online && syncInterval.None? && !isSyncing && processedItems == {}
      ensures calls == []
    {
      this.db := db;
      this.lock := lock;
      isOnline := online;
      syncInterval := None;
      isSyncing := false;
      syncPromise := false;
      processedItems := {};
      nextTimer := 1;
      activeTimers := {};
      calls := [];
    }

    method HandleCreate(it: QueueItem, env: Env) returns (ok: bool)
      requires Valid()
      modifies this`calls, db`students, db`fees
      ensures Valid()
      ensures (State(), ok) == CreateEffect(old(State()), it.tableName, it.recordId, it.data, env.remote(it.id))
    {
      var table, recordId := it.tableName, it.recordId;
      if table == "students" && recordId in db.students {
        var record := db.students[recordId];
        calls := calls + [InsertCall(table, it.data)];
        var reply := env.remote(it.id);
        if reply.Rejected? {
          return false;
        }
        db.PutStudent(record.(id := reply.serverId, syncStatus := Synced));
        ok := true;
      } else if table == "fees" && recordId in db.fees {
        var record := db.fees[recordId];
        calls := calls + [InsertCall(table, it.data)];
        var reply := env.remote(it.id);
        if reply.Rejected? {
          return false;
        }
        db.PutFee(record.(id := reply.serverId, syncStatus := Synced));
        ok := true;
      } else {
        ok := false;
      }
    }

    method HandleUpdate(it: QueueItem, env: Env) returns (ok: bool)
      requires Valid()
      modifies this`calls, db`syncQueue
      ensures Valid()
      ensures (State(), ok) == UpdateEffect(old(State()), it.tableName, it.recordId, it.data,
                                            env.remote(it.id), env.freshId(it.id), env.now)
    {
      calls := calls + [UpdateCall(it.tableName, it.recordId, it.data)];
      if env.remote(it.id).Rejected? {
        return false;
      }
      AddToSyncQueue(db, it.tableName, it.recordId, Update, it.data, env.freshId(it.id), env.now);
      ok := true;
    }

    method HandleDelete(it: QueueItem, env: Env) returns (ok: bool)
      requires Valid()
      modifies this`calls, db`syncQueue
      ensures Valid()
      ensures (State(), ok) == DeleteEffect(old(State()), it.tableName, it.recordId,
                                            env.remote(it.id), env.freshId(it.id), env.now)
    {
      calls := calls + [DeleteCall(it.tableName, it.recordId)];
      if env.remote(it.id).Rejected? {
        return false;
      }
      AddToSyncQueue(db, it.tableName, it.recordId, Delete, NullPayload, env.freshId(it.id), env.now);
      ok := true;
    }

    /** The switch on the item's operation. */
    method DispatchItem(it: QueueItem, env: Env) returns (ok: bool)
      requires Valid()
      modifies this`calls, db`students, db`fees, db`syncQueue
      ensures Valid()
      ensures (State(), ok) == Dispatch(old(State()), it, env)
    {
      match it.operation {
        case Create => ok := HandleCreate(it, env);
        case Update => ok := HandleUpdate(it, env);
        case Delete => ok := HandleDelete(it, env);
      }
    }

    /** One iteration of the `performSync` loop. */
    method ProcessOne(it: QueueItem, env: Env)
      requires Valid()
      modifies this, db
      ensures Valid()
      ensures State() == ProcessItem(old(State()), it, env)
      ensures isOnline == old(isOnline) && syncInterval == old(syncInterval) && isSyncing == old(isSyncing)
      ensures syncPromise == old(syncPromise) && nextTimer == old(nextTimer) && activeTimers == old(activeTimers)
    {
      var current := db.GetQueueItem(it.id);
      if current.None? || current.value.status != Pending {
        return;
      }
      db.PutQueueItem(it.(status := Processing));
      processedItems := processedItems + {it.id};
      var ok := DispatchItem(it, env);
      if ok {
        db.PutQueueItem(it.(status := Completed));
      } else {
        db.PutQueueItem(it.(status := Failed));
        processedItems := processedItems - {it.id};
      }
    }

    /**
     * `performSync`: read the queue once, keep the unclaimed pending items and
     * process them in listing order.
     */
    method PerformSync(env: Env) returns (listing: seq<QueueItem>, snapshot: seq<QueueItem>)
      requires Valid()
      modifies this, db
      ensures Valid()
      ensures forall x :: x in listing <==> x in old(db.syncQueue).Values
      ensures snapshot == PendingOf(listing, old(processedItems))
      ensures forall i, j :: 0 <= i < j < |snapshot| ==> snapshot[i].id != snapshot[j].id
      ensures forall i :: 0 <= i < |snapshot| ==> StillPending(old(State()), snapshot[i])
      ensures State() == Drain(old(State()), snapshot, env)
      ensures isOnline == old(isOnline) && syncInterval == old(syncInterval) && isSyncing == old(isSyncing)
      ensures syncPromise == old(syncPromise) && nextTimer == old(nextTimer) && activeTimers == old(activeTimers)
    {
      ghost var st0 := State();
      ghost var order;
      listing, order := db.GetAllQueueItems();
      snapshot := PendingOf(listing, processedItems);
      ListingIdsDistinct(listing, order, db.syncQueue, processedItems);
      ListingIsQueue(listing, order, db.syncQueue);
      assert forall i :: 0 <= i < |snapshot| ==> StillPending(st0, snapshot[i]);
      ProcessAll(snapshot, env);
    }

    /** The loop of `performSync`: process the items one after the other. */
    method ProcessAll(items: seq<QueueItem>, env: Env)
      requires Valid()
      modifies this, db
      ensures Valid()
      ensures State() == Drain(old(State()), items, env)
      ensures isOnline == old(isOnline) && syncInterval == old(syncInterval) && isSyncing == old(isSyncing)
      ensures syncPromise == old(syncPromise) && nextTimer == old(nextTimer) && activeTimers == old(activeTimers)
    {
      var i := 0;
      while i < |items|
        invariant 0 <= i <= |items|
        invariant Valid()
        invariant State() == Drain(old(State()), items[..i], env)
        invariant isOnline == old(isOnline) && syncInterval == old(syncInterval) && isSyncing == old(isSyncing)
        invariant syncPromise == old(syncPromise) && nextTimer == old(nextTimer) && activeTimers == old(activeTimers)
      {
        DrainStep(old(State()), items, i, env);
        ProcessOne(items[i], env);
        i := i + 1;
      }
      assert items[..i] == items;
    }

    /**
     * `syncData`: a no-op while the global lock is held, joins the pass in
     * flight while this instance is syncing, and otherwise raises both flags,
     * runs one pass and lowers them again.
     */
    method SyncData(env: Env) returns (outcome: TriggerOutcome)
      requires Valid()
      modifies this, db, lock
      ensures Valid()
      ensures old(lock.held) ==> outcome == SkippedLocked && State() == old(State()) && lock.held
      ensures !old(lock.held) && old(isSyncing) ==> outcome == JoinedInFlight && State() == old(State()) && isSyncing && !lock.held
      ensures !old(lock.held) && !old(isSyncing) ==> !isSyncing && !syncPromise && !lock.held
      ensures TriggerMeets(old(State()), old(lock.held), old(isSyncing), outcome, State(), env)
      ensures isOnline == old(isOnline) && syncInterval == old(syncInterval) && activeTimers == old(activeTimers)
    {
      if lock.held {
        return SkippedLocked;
      }
      if isSyncing {
        return JoinedInFlight;
      }
      isSyncing := true;
      lock.held := true;
      syncPromise := true;
      var listing, snapshot := PerformSync(env);
      isSyncing := false;
      lock.held := false;
      syncPromise := false;
      outcome := Ran(listing, snapshot);
    }

    /** `queueSync`: log the mutation, then trigger a pass when online. */
    method QueueSync(table: string, op: Operation, recordId: string, data: string,
                     id: string, now: string, env: Env) returns (outcome: Option<TriggerOutcome>)
      requires Valid()
      modifies this, db, lock
      ensures Valid()
      ensures var logged := old(State()).(queue := Enqueue(old(db.syncQueue), id, table, recordId, op, data, now));
        && (!isOnline ==> outcome.None? && State() == logged)
        && (isOnline ==> outcome.Some? && TriggerMeets(logged, old(lock.held), old(isSyncing), outcome.value, State(), env))
      ensures isOnline == old(isOnline)
    {
      AddToSyncQueue(db, table, recordId, op, data, id, now);
      if isOnline {
        var o := SyncData(env);
        outcome := Some(o);
      } else {
        outcome := None;
      }
    }

    /** The `online` event: remember the connection is back and trigger a pass. */
    method HandleOnline(env: Env) returns (outcome: TriggerOutcome)
      requires Valid()
      modifies this, db, lock
      ensures Valid() && isOnline
      ensures TriggerMeets(old(State()), old(lock.held), old(isSyncing), outcome, State(), env)
    {
      isOnline := true;
      outcome := SyncData(env);
    }

    /** The `offline` event: only the flag changes. */
    method HandleOffline()
      requires Valid()
      modifies this`isOnline
      ensures Valid() && !isOnline
    {
      isOnline := false;
    }

    /** `startSync`: clear any registered interval and register a new one. */
    method StartSync(interval: nat)
      requires Valid()
      modifies this`syncInterval, this`nextTimer, this`activeTimers
      ensures Valid()
      ensures syncInterval == Some(old(nextTimer)) && activeTimers == {old(nextTimer)}
      ensures |activeTimers| == 1
    {
      if syncInterval.Some? {
        activeTimers := activeTimers - {syncInterval.value};
      }
      syncInterval := Some(nextTimer);
      activeTimers := activeTimers + {nextTimer};
      nextTimer := nextTimer + 1;
    }

    /** `stopSync`: clear the registered interval, if any. */
    method StopSync()
      requires Valid()
      modifies this`syncInterval, this`activeTimers
      ensures Valid() && syncInterval.None? && activeTimers == {}
    {
      if syncInterval.Some? {
        activeTimers := activeTimers - {syncInterval.value};
        syncInterval := None;
      }
    }

    /** The interval callback: a pass only when online. */
    method OnInterval(env: Env) returns (outcome: Option<TriggerOutcome>)
      requires Valid()
      modifies this, db, lock
      ensures Valid()
      ensures !old(isOnline) ==> outcome.None? && State() == old(State())
      ensures old(isOnline) ==> outcome.Some? && TriggerMeets(old(State()), old(lock.held), old(isSyncing), outcome.value, State(), env)
    {
      if isOnline {
        var o := SyncData(env);
        outcome := Some(o);
      } else {
        outcome := None;
      }
    }
  }

  /** `addToSyncQueue`: put one new pending item into the sync queue store. */
  method AddToSyncQueue(db: SchoolDb, table: string, recordId: string, op: Operation,
                        data: string, id: string, now: string)
    requires db.Valid()
    modifies db`syncQueue
    ensures db.Valid()
    ensures db.syncQueue == Enqueue(old(db.syncQueue), id, table, recordId, op, data, now)
  {
    db.PutQueueItem(QueueItem(id, table, recordId, op, data, now, Pending));
  }

  /** Items listed from an id-keyed store have distinct ids, and so does any filter of them. */
  lemma ListingIdsDistinct(listing: seq<QueueItem>, order: seq<string>, q: map<string, QueueItem>, processed: set<string>)
    requires QueueKeyed(q)
    requires |order| == |listing|
    requires forall i :: 0 <= i < |listing| ==> order[i] in q && listing[i] == q[order[i]]
    requires forall i, j :: 0 <= i < j < |order| ==> order[i] != order[j]
    ensures var s := PendingOf(listing, processed);
      && (forall i, j :: 0 <= i < j < |s| ==> s[i].id != s[j].id)
      && (forall i :: 0 <= i < |s| ==> s[i].id in q && q[s[i].id] == s[i])
      && (forall i :: 0 <= i < |s| ==> s[i].id in q && q[s[i].id].status == Pending)
  {
    forall i | 0 <= i < |listing|
      ensures listing[i].id == order[i]
    {
    }
    PendingOfKeepsIdsApart(listing, processed);
    var s := PendingOf(listing, processed);
    forall i | 0 <= i < |s|
      ensures s[i].id in q && q[s[i].id] == s[i] && s[i].status == Pending
    {
      assert s[i] in s;
      assert s[i] in listing;
      var j :| 0 <= j < |listing| && listing[j] == s[i];
    }
  }

  /** A listing of every key of the queue holds exactly the queue's items. */
  lemma ListingIsQueue(listing: seq<QueueItem>, order: seq<string>, q: map<string, QueueItem>)
    requires |order| == |listing|
    requires forall i :: 0 <= i < |listing| ==> order[i] in q && listing[i] == q[order[i]]
    requires forall k :: k in q <==> k in order
    ensures forall x :: x in listing <==> x in q.Values
  {
    forall x | x in listing
      ensures x in q.Values
    {
      var i :| 0 <= i < |listing| && listing[i] == x;
      assert q[order[i]] == x;
    }
    forall x | x in q.Values
      ensures x in listing
    {
      var k :| k in q && q[k] == x;
      var i :| 0 <= i < |order| && order[i] == k;
      assert listing[i] == x;
    }
  }

  /** No two items of `s` share an id. */
  predicate IdsApart(s: seq<QueueItem>) {
    forall i, j :: 0 <= i < j < |s| ==> s[i].id != s[j].id
  }

  /** Filtering a listing whose ids are distinct keeps them distinct. */
  lemma {:induction false} PendingOfKeepsIdsApart(all: seq<QueueItem>, processed: set<string>)
    requires IdsApart(all)
    ensures IdsApart(PendingOf(all, processed))
    decreases |all|
  {
    if all != [] {
      var n := |all| - 1;
      var init := all[..n];
      PendingOfKeepsIdsApart(init, processed);
      var rest := PendingOf(init, processed);
      var s := PendingOf(all, processed);
      if all[n].status == Pending && all[n].id !in processed {
        assert s == rest + [all[n]];
        forall i | 0 <= i < |rest|
          ensures rest[i].id != all[n].id
        {
          assert rest[i] in init;
          var m :| 0 <= m < |init| && init[m] == rest[i];
          assert init[m] == all[m];
        }
        forall i, j | 0 <= i < j < |s|
          ensures s[i].id != s[j].id
        {
          if j < |rest| {
            assert s[i] == rest[i] && s[j] == rest[j];
          } else {
            assert s[i] == rest[i] && s[j] == all[n];
          }
        }
      } else {
        assert s == rest;
      }
    }
  }
}
