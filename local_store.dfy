/**
 * The browser-local database `school-db` (version 1): five object stores,
 * each keyed by the `id` of its records, the secondary indexes on the
 * student and fee stores, the shape of a sync-queue item, the memoised
 * database handle and the operation that empties every store.
 */
module LocalStore {
  import opened Wrappers

  datatype SyncStatus = Synced | PendingSync

  datatype Operation = Create | Update | Delete

  datatype QueueStatus = Pending | Processing | Completed | Failed

  datatype StudentRecord = StudentRecord(
    id: string,
    name: string,
    className: string,
    parentPhone: string,
    parentEmail: Option<string>,
    schoolId: string,
    admissionNumber: Option<string>,
    createdAt: string,
    updatedAt: string,
    syncStatus: SyncStatus)

  datatype FeeRecord = FeeRecord(
    id: string,
    studentId: string,
    schoolId: string,
    amount: int,
    amountPaid: Option<int>,
    date: string,
    dueDate: Option<string>,
    status: string,
    description: Option<string>,
    paymentMethod: Option<string>,
    paymentReference: Option<string>,
    paymentDate: Option<string>,
    receiptUrl: Option<string>,
    paymentDetails: Option<string>,
    createdAt: string,
    updatedAt: string,
    syncStatus: SyncStatus)

  /** One logged mutation; `data` is the JSON text of the payload. */
  datatype QueueItem = QueueItem(
    id: string,
    tableName: string,
    recordId: string,
    operation: Operation,
    data: string,
    createdAt: string,
    status: QueueStatus)

  datatype Session = Session(accessToken: string, refreshToken: string, expiresAt: int)

  datatype AuthSchool = AuthSchool(
    id: string, name: string, email: string, subscriptionPlan: string,
    createdAt: string, updatedAt: string)

  datatype AuthState = AuthState(
    id: string, userId: string, schoolId: string, email: string, name: string,
    role: string, createdAt: string, updatedAt: string, lastSyncAt: string,
    session: Session, school: AuthSchool)

  /** A cached query entry; everything but its key is opaque JSON text. */
  datatype CacheEntry = CacheEntry(id: string, value: string)

  datatype IndexSpec = IndexSpec(name: string, keyPath: string)

  datatype StoreSpec = StoreSpec(keyPath: string, indexes: seq<IndexSpec>)

  /** The object stores the upgrade callback creates, by name. */
  function Schema(store: string): (r: Option<StoreSpec>)
    ensures r.Some? <==> store in {"students", "fees", "sync_queue", "auth_state", "tanstack_cache"}
    ensures r.Some? ==> r.value.keyPath == "id"
    ensures store == "students" ==> r == Some(StoreSpec("id", [IndexSpec("by-school", "school_id")]))
    ensures store == "fees" ==> r == Some(StoreSpec("id", [IndexSpec("by-school", "school_id"), IndexSpec("by-student", "student_id")]))
    ensures store in {"sync_queue", "auth_state", "tanstack_cache"} ==> r == Some(StoreSpec("id", []))
  {
    if store == "students" then Some(StoreSpec("id", [IndexSpec("by-school", "school_id")]))
    else if store == "fees" then Some(StoreSpec("id", [IndexSpec("by-school", "school_id"), IndexSpec("by-student", "student_id")]))
    else if store in {"sync_queue", "auth_state", "tanstack_cache"} then Some(StoreSpec("id", []))
    else None
  }

  predicate StudentsKeyed(m: map<string, StudentRecord>) {
    forall k :: k in m ==> m[k].id == k
  }

  predicate FeesKeyed(m: map<string, FeeRecord>) {
    forall k :: k in m ==> m[k].id == k
  }

  predicate QueueKeyed(m: map<string, QueueItem>) {
    forall k :: k in m ==> m[k].id == k
  }

  /** The `by-school` index of the students store. */
  function StudentsBySchool(m: map<string, StudentRecord>, schoolId: string): map<string, StudentRecord> {
    map k | k in m && m[k].schoolId == schoolId :: m[k]
  }

  /** The `by-school` index of the fees store. */
  function FeesBySchool(m: map<string, FeeRecord>, schoolId: string): map<string, FeeRecord> {
    map k | k in m && m[k].schoolId == schoolId :: m[k]
  }

  /** The `by-student` index of the fees store. */
  function FeesByStudent(m: map<string, FeeRecord>, studentId: string): map<string, FeeRecord> {
    map k | k in m && m[k].studentId == studentId :: m[k]
  }

  /**
   * Putting a student under its id replaces any record with that id, so the
   * `by-school` index afterwards lists the new record under its own school only.
   */
  lemma PutStudentReindexes(m: map<string, StudentRecord>, r: StudentRecord, schoolId: string)
    ensures StudentsBySchool(m[r.id := r], schoolId)
         == if r.schoolId == schoolId then StudentsBySchool(m, schoolId)[r.id := r]
            else map k | k in StudentsBySchool(m, schoolId) && k != r.id :: m[k]
  {
  }

  /** Putting a fee moves it between `by-student` groups the same way. */
  lemma PutFeeReindexes(m: map<string, FeeRecord>, r: FeeRecord, studentId: string)
    ensures FeesByStudent(m[r.id := r], studentId)
         == if r.studentId == studentId then FeesByStudent(m, studentId)[r.id := r]
            else map k | k in FeesByStudent(m, studentId) && k != r.id :: m[k]
  {
  }

  /** An open `school-db` database: one map per object store. */
  class SchoolDb {
    var students: map<string, StudentRecord>
    var fees: map<string, FeeRecord>
    var syncQueue: map<string, QueueItem>
    var authState: map<string, AuthState>
    var tanstackCache: map<string, CacheEntry>

    /** Every store holds each record under its own `id` (key path `id`). */
    ghost predicate Valid()
      reads this
    {
      StudentsKeyed(students) && FeesKeyed(fees) && QueueKeyed(syncQueue)
      && (forall k :: k in authState ==> authState[k].id == k)
      && (forall k :: k in tanstackCache ==> tanstackCache[k].id == k)
    }

    ghost predicate Empty()
      reads this
    {
      students == map[] && fees == map[] && syncQueue == map[]
      && authState == map[] && tanstackCache == map[]
    }

    constructor ()
      ensures Valid() && Empty()
    {
      students, fees, syncQueue := map[], map[], map[];
      authState, tanstackCache := map[], map[];
    }

    function GetQueueItem(id: string): (r: Option<QueueItem>)
      reads this
      ensures r.Some? <==> id in syncQueue
      ensures r.Some? ==> r.value == syncQueue[id]
    {
      if id in syncQueue then Some(syncQueue[id]) else None
    }

    method PutQueueItem(item: QueueItem)
      requires Valid()
      modifies this`syncQueue
      ensures Valid()
      ensures syncQueue == old(syncQueue)[item.id := item]
    {
      syncQueue := syncQueue[item.id := item];
    }

    method PutStudent(r: StudentRecord)
      requires Valid()
      modifies this`students
      ensures Valid()
      ensures students == old(students)[r.id := r]
    {
      students := students[r.id := r];
    }

    method PutFee(r: FeeRecord)
      requires Valid()
      modifies this`fees
      ensures Valid()
      ensures fees == old(fees)[r.id := r]
    {
      fees := fees[r.id := r];
    }

    /**
     * `getAll('sync_queue')`: every item exactly once, in an order the store
     * chooses; `order` is the key of each returned item.
     */
    method GetAllQueueItems() returns (all: seq<QueueItem>, ghost order: seq<string>)
      requires Valid()
      ensures |order| == |all|
      ensures forall i :: 0 <= i < |all| ==> order[i] in syncQueue && all[i] == syncQueue[order[i]]
      ensures forall k :: k in syncQueue <==> k in order
      ensures forall i, j :: 0 <= i < j < |order| ==> order[i] != order[j]
    {
      all, order := [], [];
      var rest := syncQueue.Keys;
      while rest != {}
        invariant rest <= syncQueue.Keys
        invariant |order| == |all|
        invariant forall i :: 0 <= i < |all| ==> order[i] in syncQueue && all[i] == syncQueue[order[i]]
        invariant forall k :: k in syncQueue ==> (k in order <==> k !in rest)
        invariant forall i, j :: 0 <= i < j < |order| ==> order[i] != order[j]
        decreases rest
      {
        var k :| k in rest;
        all, order := all + [syncQueue[k]], order + [k];
        rest := rest - {k};
      }
    }

    /** `clear` on one store after another, in the order `clearDB` issues them. */
    method ClearAll()
      modifies this
      ensures Valid() && Empty()
    {
      students := map[];
      fees := map[];
      syncQueue := map[];
      authState := map[];
      tanstackCache := map[];
    }
  }

  /**
   * The module-level database handle: `getDB` opens `school-db` on its first
   * call and returns the remembered handle on every later call.
   */
  class DbConnection {
    /** The persisted database the handle opens onto. */
    const disk: SchoolDb
    var db: SchoolDb?
    ghost var opens: nat

    ghost predicate Valid()
      reads this
    {
      (db == null || db == disk) && (db == null <==> opens == 0) && opens <= 1
    }

    constructor (disk: SchoolDb)
      ensures Valid() && this.disk == disk && db == null && opens == 0
    {
      this.disk := disk;
      db := null;
      opens := 0;
    }

    method GetDB() returns (handle: SchoolDb)
      requires Valid()
      modifies this
      ensures Valid()
      ensures handle == disk && db == disk
      ensures old(db) != null ==> opens == old(opens)
      ensures old(db) == null ==> opens == old(opens) + 1
    {
      if db != null {
        return db;
      }
      db := disk;
      opens := opens + 1;
      handle := disk;
    }

    method ClearDB()
      requires Valid()
      modifies this, disk
      ensures Valid() && disk.Valid() && disk.Empty()
      ensures db == disk && opens <= 1
    {
      var database := GetDB();
      database.ClearAll();
    }
  }

  /** Two calls of `getDB` return one and the same handle and open the database at most once. */
  method GetDBTwice(c: DbConnection) returns (first: SchoolDb, second: SchoolDb)
    requires c.Valid()
    modifies c
    ensures first == second && c.opens <= 1
  {
    first := c.GetDB();
    second := c.GetDB();
  }
}
