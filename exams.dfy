/**
 * The exam hooks: the cached read sorted by `created_at` (newest first), the
 * online read that refreshes the local copy, and the offline create, update
 * and delete that work on the local store instead of the remote one.
 *
 * Timestamps are milliseconds since the epoch: the hooks write ISO strings
 * and compare them through `new Date(..).getTime()`, which maps them back to
 * these numbers. Remote answers, uuids and the clock are parameters.
 */
module Exams {
  import opened Wrappers
  import LocalStore

  datatype Exam = Exam(
    id: string,
    subject: string,
    examType: string,
    term: string,
    academicYear: string,
    grade: string,
    totalMarks: int,
    passingMarks: int,
    date: string,
    schoolId: string,
    studentId: string,
    score: Option<int>,
    remarks: Option<string>,
    teacherRemarks: Option<string>,
    principalRemarks: Option<string>,
    createdAt: int,
    updatedAt: int)

  /** `CreateExamData`: an exam without its id and timestamps. */
  datatype ExamInput = ExamInput(
    subject: string,
    examType: string,
    term: string,
    academicYear: string,
    grade: string,
    totalMarks: int,
    passingMarks: int,
    date: string,
    schoolId: string,
    studentId: string,
    score: Option<int>,
    remarks: Option<string>,
    teacherRemarks: Option<string>,
    principalRemarks: Option<string>)

  /** The fields an update supplies (`Partial<Exam>` without the id); `None` is an absent key. */
  datatype ExamPatch = ExamPatch(
    subject: Option<string>,
    examType: Option<string>,
    term: Option<string>,
    academicYear: Option<string>,
    grade: Option<string>,
    totalMarks: Option<int>,
    passingMarks: Option<int>,
    date: Option<string>,
    schoolId: Option<string>,
    studentId: Option<string>,
    score: Option<int>,
    remarks: Option<string>,
    teacherRemarks: Option<string>,
    principalRemarks: Option<string>,
    createdAt: Option<int>,
    updatedAt: Option<int>)

  const NoSchoolError: string := "School context is required"
  const NotFoundError: string := "Exam not found"

  /** The input an exam was created from. */
  function InputOf(e: Exam): ExamInput {
    ExamInput(e.subject, e.examType, e.term, e.academicYear, e.grade, e.totalMarks, e.passingMarks,
              e.date, e.schoolId, e.studentId, e.score, e.remarks, e.teacherRemarks, e.principalRemarks)
  }

  /**
   * `{...data, id, created_at, updated_at}`, where the two stamps are two
   * separate reads of the clock and so may differ.
   */
  function WithIdentity(d: ExamInput, id: string, created: int, updated: int): Exam {
    Exam(id, d.subject, d.examType, d.term, d.academicYear, d.grade, d.totalMarks, d.passingMarks,
         d.date, d.schoolId, d.studentId, d.score, d.remarks, d.teacherRemarks, d.principalRemarks, created, updated)
  }

  /** An offline-created exam carries the input unchanged, the new id and the two clock reads. */
  lemma WithIdentityKeepsInput(d: ExamInput, id: string, created: int, updated: int)
    ensures var e := WithIdentity(d, id, created, updated);
      InputOf(e) == d && e.id == id && e.createdAt == created && e.updatedAt == updated
  {
  }

  /** `{...exam, ...data, updated_at: now}`. */
  function Merge(e: Exam, p: ExamPatch, now: int): Exam {
    Exam(e.id,
         p.subject.GetOr(e.subject), p.examType.GetOr(e.examType), p.term.GetOr(e.term),
         p.academicYear.GetOr(e.academicYear), p.grade.GetOr(e.grade),
         p.totalMarks.GetOr(e.totalMarks), p.passingMarks.GetOr(e.passingMarks),
         p.date.GetOr(e.date), p.schoolId.GetOr(e.schoolId), p.studentId.GetOr(e.studentId),
         if p.score.Some? then p.score else e.score,
         if p.remarks.Some? then p.remarks else e.remarks,
         if p.teacherRemarks.Some? then p.teacherRemarks else e.teacherRemarks,
         if p.principalRemarks.Some? then p.principalRemarks else e.principalRemarks,
         p.createdAt.GetOr(e.createdAt), now)
  }

  const EmptyPatch: ExamPatch := ExamPatch(None, None, None, None, None, None, None, None,
                                            None, None, None, None, None, None, None, None)

  /**
   * A merge keeps the id, refreshes `updated_at`, and for each field takes the
   * supplied value if there is one and the stored value otherwise.
   */
  lemma MergeOverrides(e: Exam, p: ExamPatch, now: int)
    ensures var r := Merge(e, p, now);
      && r.id == e.id && r.updatedAt == now
      && (p.subject.Some? ==> r.subject == p.subject.value) && (p.subject.None? ==> r.subject == e.subject)
      && (p.examType.Some? ==> r.examType == p.examType.value) && (p.examType.None? ==> r.examType == e.examType)
      && (p.term.Some? ==> r.term == p.term.value) && (p.term.None? ==> r.term == e.term)
      && (p.academicYear.Some? ==> r.academicYear == p.academicYear.value) && (p.academicYear.None? ==> r.academicYear == e.academicYear)
      && (p.grade.Some? ==> r.grade == p.grade.value) && (p.grade.None? ==> r.grade == e.grade)
      && (p.totalMarks.Some? ==> r.totalMarks == p.totalMarks.value) && (p.totalMarks.None? ==> r.totalMarks == e.totalMarks)
      && (p.passingMarks.Some? ==> r.passingMarks == p.passingMarks.value) && (p.passingMarks.None? ==> r.passingMarks == e.passingMarks)
      && (p.date.Some? ==> r.date == p.date.value) && (p.date.None? ==> r.date == e.date)
      && (p.schoolId.Some? ==> r.schoolId == p.schoolId.value) && (p.schoolId.None? ==> r.schoolId == e.schoolId)
      && (p.studentId.Some? ==> r.studentId == p.studentId.value) && (p.studentId.None? ==> r.studentId == e.studentId)
      && (p.score.Some? ==> r.score == p.score) && (p.score.None? ==> r.score == e.score)
      && (p.remarks.Some? ==> r.remarks == p.remarks) && (p.remarks.None? ==> r.remarks == e.remarks)
      && (p.teacherRemarks.Some? ==> r.teacherRemarks == p.teacherRemarks) && (p.teacherRemarks.None? ==> r.teacherRemarks == e.teacherRemarks)
      && (p.principalRemarks.Some? ==> r.principalRemarks == p.principalRemarks) && (p.principalRemarks.None? ==> r.principalRemarks == e.principalRemarks)
      && (p.createdAt.Some? ==> r.createdAt == p.createdAt.value) && (p.createdAt.None? ==> r.createdAt == e.createdAt)
      && (p.updatedAt.Some? ==> r.updatedAt == now)
  {
  }

  /** An update supplying nothing changes only `updated_at`. */
  lemma MergeEmptyTouchesOnlyTimestamp(e: Exam, now: int)
    ensures Merge(e, EmptyPatch, now) == e.(updatedAt := now)
  {
  }

  /** Applying the same update twice is applying it once. */
  lemma MergeIdempotent(e: Exam, p: ExamPatch, now: int)
    ensures Merge(Merge(e, p, now), p, now) == Merge(e, p, now)
  {
  }

  /** Newest first: `created_at` never increases along the list. */
  predicate SortedDesc(s: seq<Exam>) {
    forall i, j :: 0 <= i < j < |s| ==> s[i].createdAt >= s[j].createdAt
  }

  /** Put `x` in front of the first element that is not newer than it. */
  function Insert(x: Exam, s: seq<Exam>): (r: seq<Exam>)
    requires SortedDesc(s)
    ensures SortedDesc(r)
    ensures multiset(r) == multiset(s) + multiset{x}
    decreases |s|
  {
    if s == [] then [x]
    else if s[0].createdAt <= x.createdAt then [x] + s
    else
      var rest := Insert(x, s[1..]);
      assert s == [s[0]] + s[1..];
      InsertBelowHead(x, s, rest);
      [s[0]] + rest
  }

  lemma InsertBelowHead(x: Exam, s: seq<Exam>, rest: seq<Exam>)
    requires SortedDesc(s) && s != [] && x.createdAt < s[0].createdAt
    requires SortedDesc(rest) && multiset(rest) == multiset(s[1..]) + multiset{x}
    ensures SortedDesc([s[0]] + rest)
  {
    forall e | e in rest
      ensures e.createdAt <= s[0].createdAt
    {
      assert e in multiset(rest);
      if e != x {
        assert e in multiset(s[1..]);
        var k :| 0 <= k < |s[1..]| && s[1..][k] == e;
        assert s[k + 1] == e;
      }
    }
    var r := [s[0]] + rest;
    forall i, j | 0 <= i < j < |r|
      ensures r[i].createdAt >= r[j].createdAt
    {
      assert r[j] == rest[j - 1];
      if i > 0 {
        assert r[i] == rest[i - 1];
      } else {
        assert rest[j - 1] in rest;
      }
    }
  }

  /** Sorting keeps exactly the listed exams. */
  lemma SortKeepsMembers(s: seq<Exam>)
    ensures forall e :: e in SortByCreatedDesc(s) <==> e in s
  {
    var r := SortByCreatedDesc(s);
    forall e
      ensures e in r <==> e in s
    {
      assert e in r <==> e in multiset(r);
      assert e in s <==> e in multiset(s);
    }
  }

  /**
   * `exams.sort((a, b) => b.created_at - a.created_at)`: the same exams,
   * newest first. Among exams created at the same instant the listing order is kept.
   */
  function SortByCreatedDesc(s: seq<Exam>): (r: seq<Exam>)
    ensures SortedDesc(r)
    ensures multiset(r) == multiset(s)
    decreases |s|
  {
    if s == [] then []
    else
      assert s == [s[0]] + s[1..];
      Insert(s[0], SortByCreatedDesc(s[1..]))
  }

  /** The exams of `s` created at instant `t`, in their order in `s`. */
  function CreatedAt(s: seq<Exam>, t: int): seq<Exam>
    decreases |s|
  {
    if s == [] then []
    else (if s[0].createdAt == t then [s[0]] else []) + CreatedAt(s[1..], t)
  }

  /** Consing `e` keeps the exams of `s` created at `t` and adds `e` in front when it is one. */
  lemma CreatedAtCons(e: Exam, s: seq<Exam>, t: int)
    ensures CreatedAt([e] + s, t) == (if e.createdAt == t then [e] else []) + CreatedAt(s, t)
  {
    assert ([e] + s)[0] == e && ([e] + s)[1..] == s;
  }

  /** Inserting `x` puts it ahead of every exam created at its own instant and reorders nothing else. */
  lemma {:induction false} InsertKeepsTies(x: Exam, s: seq<Exam>, t: int)
    requires SortedDesc(s)
    ensures CreatedAt(Insert(x, s), t) == (if x.createdAt == t then [x] else []) + CreatedAt(s, t)
    decreases |s|
  {
    if s == [] {
      CreatedAtCons(x, [], t);
      assert [x] + [] == [x];
    } else if s[0].createdAt <= x.createdAt {
      CreatedAtCons(x, s, t);
    } else {
      InsertKeepsTies(x, s[1..], t);
      assert Insert(x, s) == [s[0]] + Insert(x, s[1..]);
      TiesBelowHead(x, s, Insert(x, s[1..]), t);
    }
  }

  /** Putting the head of `s` back in front of `rest`, where `x` is younger than that head. */
  lemma TiesBelowHead(x: Exam, s: seq<Exam>, rest: seq<Exam>, t: int)
    requires s != [] && x.createdAt < s[0].createdAt
    requires CreatedAt(rest, t) == (if x.createdAt == t then [x] else []) + CreatedAt(s[1..], t)
    ensures CreatedAt([s[0]] + rest, t) == (if x.createdAt == t then [x] else []) + CreatedAt(s, t)
  {
    CreatedAtCons(s[0], rest, t);
    CreatedAtCons(s[0], s[1..], t);
    assert [s[0]] + s[1..] == s;
    FrontSwap(if s[0].createdAt == t then [s[0]] else [], if x.createdAt == t then [x] else [], CreatedAt(s[1..], t));
  }

  /** Two fronts of which one is empty can be put on in either order. */
  lemma FrontSwap(head: seq<Exam>, mine: seq<Exam>, others: seq<Exam>)
    requires head == [] || mine == []
    ensures head + (mine + others) == mine + (head + others)
  {
    if head == [] {
      assert head + (mine + others) == mine + others;
      assert head + others == others;
    } else {
      assert mine + (head + others) == head + others;
      assert mine + others == others;
    }
  }

  /**
   * The sort is stable: for every instant, the exams created then appear in
   * the result in the order of the listing (ES2019 requires `Array.prototype.sort`
   * to be stable).
   */
  lemma {:induction false} SortStable(s: seq<Exam>, t: int)
    ensures CreatedAt(SortByCreatedDesc(s), t) == CreatedAt(s, t)
    decreases |s|
  {
    if s != [] {
      SortStable(s[1..], t);
      InsertKeepsTies(s[0], SortByCreatedDesc(s[1..]), t);
    }
  }

  /** Sorting an already sorted list leaves it as it is. */
  lemma {:induction false} SortSortedIsIdentity(s: seq<Exam>)
    requires SortedDesc(s)
    ensures SortByCreatedDesc(s) == s
    decreases |s|
  {
    if s != [] {
      SortSortedIsIdentity(s[1..]);
      assert s == [s[0]] + s[1..];
    }
  }

  /** The local copies of the fetched list, upserted one after another. */
  function Upserted(m: map<string, Exam>, s: seq<Exam>): map<string, Exam>
    decreases |s|
  {
    if s == [] then m else Upserted(m, s[..|s| - 1])[s[|s| - 1].id := s[|s| - 1]]
  }

  predicate ExamIdsApart(s: seq<Exam>) {
    forall i, j :: 0 <= i < j < |s| ==> s[i].id != s[j].id
  }

  /** After the online refresh a fetched exam is stored under its id, when the fetched ids are distinct. */
  lemma {:induction false} UpsertedHoldsFetched(m: map<string, Exam>, s: seq<Exam>)
    requires ExamIdsApart(s)
    ensures forall i :: 0 <= i < |s| ==> s[i].id in Upserted(m, s) && Upserted(m, s)[s[i].id] == s[i]
    decreases |s|
  {
    if s != [] {
      var n := |s| - 1;
      assert ExamIdsApart(s[..n]);
      UpsertedHoldsFetched(m, s[..n]);
      forall i | 0 <= i < |s|
        ensures s[i].id in Upserted(m, s) && Upserted(m, s)[s[i].id] == s[i]
      {
        if i < n {
          assert s[..n][i] == s[i];
        }
      }
    }
  }

  /** The online refresh leaves every entry whose id was not fetched as it was, and adds no other key. */
  lemma {:induction false} UpsertedKeepsOthers(m: map<string, Exam>, s: seq<Exam>, k: string)
    requires forall i :: 0 <= i < |s| ==> s[i].id != k
    ensures k in Upserted(m, s) <==> k in m
    ensures k in m ==> Upserted(m, s)[k] == m[k]
    decreases |s|
  {
    if s != [] {
      UpsertedKeepsOthers(m, s[..|s| - 1], k);
    }
  }

  /** The local exams store: each exam under its id, listed by school through `by-school`. */
  class ExamStore {
    var exams: map<string, Exam>

    ghost predicate Valid()
      reads this
    {
      forall k :: k in exams ==> exams[k].id == k
    }

    constructor ()
      ensures Valid() && exams == map[]
    {
      exams := map[];
    }

    function Get(id: string): (r: Option<Exam>)
      reads this
      ensures r.Some? <==> id in exams
      ensures r.Some? ==> r.value == exams[id]
    {
      if id in exams then Some(exams[id]) else None
    }

    method Put(e: Exam)
      requires Valid()
      modifies this
      ensures Valid() && exams == old(exams)[e.id := e]
    {
      exams := exams[e.id := e];
    }

    method Delete(id: string)
      requires Valid()
      modifies this
      ensures Valid() && exams == old(exams) - {id}
    {
      exams := exams - {id};
    }

    /** `getAllFromIndex('exams', 'by-school', schoolId)`: each of the school's exams once. */
    method AllBySchool(schoolId: string) returns (r: seq<Exam>)
      requires Valid()
      ensures forall e :: e in r <==> e in exams.Values && e.schoolId == schoolId
      ensures ExamIdsApart(r)
    {
      r := [];
      var rest := exams.Keys;
      while rest != {}
        invariant rest <= exams.Keys
        invariant forall e :: e in r <==> e.id in exams && e.id !in rest && exams[e.id] == e && e.schoolId == schoolId
        invariant ExamIdsApart(r)
        decreases rest
      {
        var k :| k in rest;
        if exams[k].schoolId == schoolId {
          r := r + [exams[k]];
        }
        rest := rest - {k};
      }
      forall e | e in exams.Values && e.schoolId == schoolId
        ensures e in r
      {
        var k :| k in exams && exams[k] == e;
      }
    }

    /** The refresh loop: `put` each fetched exam in turn. */
    method PutAll(fetched: seq<Exam>)
      requires Valid()
      modifies this
      ensures Valid() && exams == Upserted(old(exams), fetched)
    {
      var i := 0;
      while i < |fetched|
        invariant 0 <= i <= |fetched|
        invariant Valid() && exams == Upserted(old(exams), fetched[..i])
      {
        assert fetched[..i + 1][..i] == fetched[..i];
        Put(fetched[i]);
        i := i + 1;
      }
      assert fetched[..i] == fetched;
    }
  }

  /**
   * `useExams` query: no school is an error; offline, the school's cached exams
   * newest first; online, the fetched list, which is also written to the store;
   * when the fetch fails, the cached list again if the browser has gone offline
   * by then, the fetch error otherwise.
   */
  method ReadExams(store: ExamStore, school: Option<string>, online: bool,
                   fetch: Result<seq<Exam>, string>, onlineAtCatch: bool)
      returns (r: Result<seq<Exam>, string>)
    requires store.Valid()
    modifies store
    ensures store.Valid()
    ensures school.None? ==> r == Err(NoSchoolError) && store.exams == old(store.exams)
    ensures school.Some? && (!online || (fetch.Err? && !onlineAtCatch)) ==>
      && r.Ok? && SortedDesc(r.value)
      && (forall e :: e in r.value <==> e in old(store.exams).Values && e.schoolId == school.value)
      && store.exams == old(store.exams)
    ensures school.Some? && online && fetch.Err? && onlineAtCatch ==>
      r == Err(fetch.error) && store.exams == old(store.exams)
    ensures school.Some? && online && fetch.Ok? ==>
      r == fetch && store.exams == Upserted(old(store.exams), fetch.value)
  {
    if school.None? {
      return Err(NoSchoolError);
    }
    var cached := store.AllBySchool(school.value);
    if !online {
      SortKeepsMembers(cached);
      return Ok(SortByCreatedDesc(cached));
    }
    if fetch.Err? {
      if !onlineAtCatch {
        var again := store.AllBySchool(school.value);
        SortKeepsMembers(again);
        return Ok(SortByCreatedDesc(again));
      }
      return Err(fetch.error);
    }
    store.PutAll(fetch.value);
    r := fetch;
  }

  /**
   * `useCreateExam`: without a school, an error before any store access;
   * offline, the input stored and returned under a fetched id, with
   * `created_at` from one clock read and `updated_at` from a second;
   * online, the remote insert's answer.
   */
  method CreateExam(store: ExamStore, school: Option<string>, online: bool, d: ExamInput,
                    freshId: string, created: int, updated: int, remote: Result<Exam, string>)
      returns (r: Result<Exam, string>)
    requires store.Valid()
    modifies store
    ensures store.Valid()
    ensures school.None? ==> r == Err(NoSchoolError) && store.exams == old(store.exams)
    ensures school.Some? && !online ==>
      && r.Ok? && InputOf(r.value) == d && r.value.id == freshId
      && r.value.createdAt == created && r.value.updatedAt == updated
      && store.exams == old(store.exams)[freshId := r.value]
    ensures school.Some? && online ==> r == remote && store.exams == old(store.exams)
  {
    if school.None? {
      return Err(NoSchoolError);
    }
    if !online {
      var exam := WithIdentity(d, freshId, created, updated);
      WithIdentityKeepsInput(d, freshId, created, updated);
      store.Put(exam);
      return Ok(exam);
    }
    r := remote;
  }

  /**
   * `useUpdateExam`: offline, 'Exam not found' for an absent id, otherwise
   * the stored exam merged with the supplied fields and a fetched `updated_at`,
   * put back under the same id; online, the remote answer.
   */
  method UpdateExam(store: ExamStore, online: bool, id: string, p: ExamPatch, now: int,
                    remote: Result<Exam, string>)
      returns (r: Result<Exam, string>)
    requires store.Valid()
    modifies store
    ensures store.Valid()
    ensures !online && id !in old(store.exams) ==> r == Err(NotFoundError) && store.exams == old(store.exams)
    ensures !online && id in old(store.exams) ==>
      && r == Ok(Merge(old(store.exams)[id], p, now))
      && r.value.id == id && r.value.updatedAt == now
      && store.exams == old(store.exams)[id := r.value]
    ensures online ==> r == remote && store.exams == old(store.exams)
  {
    if !online {
      var found := store.Get(id);
      if found.None? {
        return Err(NotFoundError);
      }
      var updated := Merge(found.value, p, now);
      store.Put(updated);
      return Ok(updated);
    }
    r := remote;
  }

  /** `useDeleteExam`: offline, remove exactly that key; the id is returned unless the remote call fails. */
  method DeleteExam(store: ExamStore, online: bool, id: string, remoteError: Option<string>)
      returns (r: Result<string, string>)
    requires store.Valid()
    modifies store
    ensures store.Valid()
    ensures !online ==> r == Ok(id) && store.exams == old(store.exams) - {id}
    ensures online && remoteError.Some? ==> r == Err(remoteError.value) && store.exams == old(store.exams)
    ensures online && remoteError.None? ==> r == Ok(id) && store.exams == old(store.exams)
  {
    if !online {
      store.Delete(id);
      return Ok(id);
    }
    if remoteError.Some? {
      return Err(remoteError.value);
    }
    r := Ok(id);
  }

  /** The error IndexedDB raises for a store the database does not declare. */
  const MissingStoreError: string := "NotFoundError"

  /** Opening a transaction on `store` in `school-db` as it is declared. */
  function OpenStoreAsWritten(store: string): (r: Result<LocalStore.StoreSpec, string>)
    ensures r.Err? <==> LocalStore.Schema(store).None?
  {
    match LocalStore.Schema(store)
    case None => Err(MissingStoreError)
    case Some(spec) => Ok(spec)
  }

  /**
   * The read as written against `school-db`: the cached listing is taken
   * before the online test, and again in the offline fallback, both from the
   * undeclared `exams` store.
   */
  function ReadExamsAsWritten(school: Option<string>, online: bool, onlineAtCatch: bool): Result<(), string> {
    if school.None? then Err(NoSchoolError)
    else
      match OpenStoreAsWritten("exams")
      case Ok(_) => Ok(())
      case Err(e) =>
        if !onlineAtCatch then
          match OpenStoreAsWritten("exams")
          case Ok(_) => Ok(())
          case Err(e2) => Err(e2)
        else Err(e)
  }

  /** An offline create, update or delete as written: its one store access is on `exams`. */
  function OfflineWriteAsWritten(): Result<(), string> {
    match OpenStoreAsWritten("exams")
    case Ok(_) => Ok(())
    case Err(e) => Err(e)
  }

  /**
   * As written, every exam read fails, online or offline, and so does every
   * offline write: `school-db` has no `exams` store.
   */
  lemma ExamPathsFailAsWritten(school: Option<string>, online: bool, onlineAtCatch: bool)
    ensures ReadExamsAsWritten(school, online, onlineAtCatch).Err?
    ensures school.Some? ==> ReadExamsAsWritten(school, online, onlineAtCatch) == Err(MissingStoreError)
    ensures OfflineWriteAsWritten() == Err(MissingStoreError)
  {
    assert LocalStore.Schema("exams").None?;
  }
}
