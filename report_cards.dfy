/**
 * Report cards: the letter grade of an average, the class position looked
 * up among the class's stored averages, the generation loop that totals each
 * student's exams and inserts one card per examined student, and the sending
 * loop that notifies parents by SMS and/or e-mail.
 *
 * Every answer of the remote store (students, exams, class averages, the
 * inserted card's id, the report cards with their students), the clock and
 * the SMS endpoint's replies are parameters; e-mail delivery is an outside
 * call whose outcome the loop ignores.
 */
module ReportCards {
  import opened Wrappers
  import opened Notification

  /* ---------------------------------------------------------------- grade */

  /** `calculateGrade`: A from 80, B from 70, C from 60, D from 50, E below. */
  function CalculateGrade(average: real): (g: string)
    ensures g in {"A", "B", "C", "D", "E"}
  {
    if average >= 80.0 then "A"
    else if average >= 70.0 then "B"
    else if average >= 60.0 then "C"
    else if average >= 50.0 then "D"
    else "E"
  }

  /** The order of the letters, E lowest. */
  function GradeRank(g: string): nat {
    if g == "A" then 4 else if g == "B" then 3 else if g == "C" then 2 else if g == "D" then 1 else 0
  }

  /** Each letter is exactly one band of averages. */
  lemma GradeBands(average: real)
    ensures CalculateGrade(average) == "A" <==> average >= 80.0
    ensures CalculateGrade(average) == "B" <==> 70.0 <= average < 80.0
    ensures CalculateGrade(average) == "C" <==> 60.0 <= average < 70.0
    ensures CalculateGrade(average) == "D" <==> 50.0 <= average < 60.0
    ensures CalculateGrade(average) == "E" <==> average < 50.0
  {
  }

  /** A higher average never earns a lower letter. */
  lemma GradeMonotone(a: real, b: real)
    requires a <= b
    ensures GradeRank(CalculateGrade(a)) <= GradeRank(CalculateGrade(b))
  {
  }

  /* ------------------------------------------------------- class position */

  /** What the class query answered: an error, or the averages (best first), possibly null. */
  datatype ClassLookup = ClassFailed(error: Thrown) | ClassFound(averages: Option<seq<real>>)

  function Max(a: nat, b: nat): nat {
    if a >= b then a else b
  }

  /** The first index holding `v`, if any. */
  function FirstIndexOf(s: seq<real>, v: real): (r: Option<nat>)
    ensures r.Some? ==> r.value < |s| && s[r.value] == v && forall j :: 0 <= j < r.value ==> s[j] != v
    ensures r.None? <==> v !in s
  {
    if s == [] then None
    else if s[0] == v then Some(0)
    else match FirstIndexOf(s[1..], v)
      case None => None
      case Some(k) => Some(k + 1)
  }

  /**
   * The position of an average among the class's averages: one plus the
   * index of its first occurrence, and 1 when it does not occur or the
   * query returned nothing. Query errors are thrown.
   */
  function ClassPositionSpec(lookup: ClassLookup, average: real): (r: Result<nat, Thrown>)
    ensures r.Err? <==> lookup.ClassFailed?
    ensures r.Err? ==> r.error == lookup.error
    ensures r.Ok? ==> 1 <= r.value
    ensures r.Ok? && lookup.averages.Some? ==> r.value <= Max(1, |lookup.averages.value|)
  {
    match lookup
    case ClassFailed(e) => Err(e)
    case ClassFound(None) => Ok(1)
    case ClassFound(Some(averages)) =>
      match FirstIndexOf(averages, average)
      case Some(k) => Ok(k + 1)
      case None => Ok(1)
  }

  /**
   * `calculateClassPosition`: group the averages by their 1-based position,
   * then walk the positions in insertion order and return the first whose
   * group holds the student's average.
   */
  method CalculateClassPosition(lookup: ClassLookup, average: real) returns (r: Result<nat, Thrown>)
    ensures r == ClassPositionSpec(lookup, average)
  {
    if lookup.ClassFailed? {
      return Err(lookup.error);
    }
    if lookup.averages.None? {
      return Ok(1);
    }
    var averages := lookup.averages.value;
    var byPosition: map<nat, seq<real>> := map[];
    var i := 0;
    while i < |averages|
      invariant 0 <= i <= |averages|
      invariant forall p: nat :: p in byPosition <==> 1 <= p <= i
      invariant forall p :: p in byPosition ==> byPosition[p] == [averages[p - 1]]
    {
      var position := i + 1;
      if position !in byPosition {
        byPosition := byPosition[position := []];
      }
      byPosition := byPosition[position := byPosition[position] + [averages[i]]];
      i := i + 1;
    }
    var position := 1;
    while position <= |averages|
      invariant 1 <= position <= |averages| + 1
      invariant forall j :: 0 <= j < position - 1 ==> averages[j] != average
    {
      assert position in byPosition;
      if average in byPosition[position] {
        return Ok(position);
      }
      position := position + 1;
    }
    r := Ok(1);
  }

  /** How many averages are strictly above `v`. */
  function CountAbove(s: seq<real>, v: real): nat {
    if s == [] then 0 else (if s[0] > v then 1 else 0) + CountAbove(s[1..], v)
  }

  /** Best first, as the class query orders them. */
  predicate Descending(s: seq<real>) {
    forall i, j :: 0 <= i < j < |s| ==> s[i] >= s[j]
  }

  lemma {:induction false} CountAboveNone(s: seq<real>, v: real)
    requires forall i :: 0 <= i < |s| ==> s[i] <= v
    ensures CountAbove(s, v) == 0
  {
    if s != [] {
      CountAboveNone(s[1..], v);
    }
  }

  /**
   * In a best-first list, the position of an average that occurs is one
   * plus the number of strictly better averages: tied averages share a
   * position (competition ranking).
   */
  lemma {:induction false} PositionCountsBetter(s: seq<real>, v: real)
    requires Descending(s) && v in s
    ensures ClassPositionSpec(ClassFound(Some(s)), v) == Ok(1 + CountAbove(s, v))
    ensures FirstIndexOf(s, v) == Some(CountAbove(s, v))
  {
    if s[0] == v {
      CountAboveNone(s[1..], v);
    } else {
      assert v in s[1..];
      assert s[0] > v;
      PositionCountsBetter(s[1..], v);
    }
  }

  lemma {:induction false} CountAboveAntitone(s: seq<real>, a: real, b: real)
    requires b <= a
    ensures CountAbove(s, a) <= CountAbove(s, b)
  {
    if s != [] {
      CountAboveAntitone(s[1..], a, b);
    }
  }

  /** Among the class's averages, a better average never gets a worse position. */
  lemma BetterAverageBetterPosition(s: seq<real>, a: real, b: real)
    requires Descending(s) && a in s && b in s && b <= a
    ensures ClassPositionSpec(ClassFound(Some(s)), a).value <= ClassPositionSpec(ClassFound(Some(s)), b).value
  {
    PositionCountsBetter(s, a);
    PositionCountsBetter(s, b);
    CountAboveAntitone(s, a, b);
  }

  /* ----------------------------------------------------------- generation */

  /** The filters of a generation run. */
  datatype Query = Query(schoolId: string, term: string, academicYear: string)

  datatype StudentRow = StudentRow(id: string, className: string)

  datatype ExamRow = ExamRow(id: string, score: real)

  datatype StudentsReply = StudentsFailed(error: Thrown) | StudentsFound(students: Option<seq<StudentRow>>)

  datatype ExamsReply = ExamsFailed(error: Thrown) | ExamsFound(exams: Option<seq<ExamRow>>)

  /** The insert's answer: an error, or the stored card's id (null when nothing came back). */
  datatype InsertReply = InsertFailed(error: Thrown) | InsertReturned(id: Option<string>)

  /** A `report_cards` row as inserted. */
  datatype NewReportCard = NewReportCard(
    schoolId: string,
    studentId: string,
    term: string,
    academicYear: string,
    totalMarks: real,
    averageMarks: real,
    grade: string,
    classPosition: nat,
    examId: string,
    createdAt: string,
    updatedAt: string,
    parentSignature: bool,
    teacherRemarks: Option<string>,
    principalRemarks: Option<string>)

  /** A stored report card: the inserted row under its id. */
  datatype ReportCard = ReportCard(id: string, card: NewReportCard)

  /**
   * The store's answers for the student at each loop index, and the two
   * clock reads for that student's `created_at` and `updated_at`.
   */
  datatype Replies = Replies(
    exams: nat -> ExamsReply,
    classes: nat -> ClassLookup,
    inserts: nat -> InsertReply,
    createdClock: nat -> string,
    updatedClock: nat -> string)

  /** The sum of the exam scores. */
  function TotalMarks(exams: seq<ExamRow>): real {
    if exams == [] then 0.0 else TotalMarks(exams[..|exams| - 1]) + exams[|exams| - 1].score
  }

  function AverageMarks(exams: seq<ExamRow>): real
    requires exams != []
  {
    TotalMarks(exams) / (|exams| as real)
  }

  lemma {:induction false} TotalWithin(exams: seq<ExamRow>, lo: real, hi: real)
    requires forall i :: 0 <= i < |exams| ==> lo <= exams[i].score <= hi
    ensures lo * (|exams| as real) <= TotalMarks(exams) <= hi * (|exams| as real)
  {
    if exams != [] {
      TotalWithin(exams[..|exams| - 1], lo, hi);
    }
  }

  /** The average lies within the range of the scores it averages. */
  lemma AverageWithinScores(exams: seq<ExamRow>, lo: real, hi: real)
    requires exams != []
    requires forall i :: 0 <= i < |exams| ==> lo <= exams[i].score <= hi
    ensures lo <= AverageMarks(exams) <= hi
  {
    TotalWithin(exams, lo, hi);
    var n := |exams| as real;
    assert AverageMarks(exams) * n == TotalMarks(exams);
  }

  /** The row inserted for a student with exams. */
  function NewCard(q: Query, student: StudentRow, exams: seq<ExamRow>, position: nat, created: string, updated: string)
    : NewReportCard
    requires exams != []
  {
    var average := AverageMarks(exams);
    NewReportCard(q.schoolId, student.id, q.term, q.academicYear, TotalMarks(exams), average,
                  CalculateGrade(average), position, exams[0].id, created, updated, false, None, None)
  }

  /** The inserts requested so far and the outcome so far. */
  datatype Progress = Progress(requests: seq<NewReportCard>, outcome: Result<seq<ReportCard>, Thrown>)

  /** Whether the student at index `i` has at least one exam. */
  predicate Examined(r: Replies, i: nat) {
    r.exams(i).ExamsFound? && r.exams(i).exams.Some? && r.exams(i).exams.value != []
  }

  /** One iteration for the student at index `i`: skip without exams, else position, insert and keep the card. */
  function Step(q: Query, student: StudentRow, i: nat, r: Replies, requests: seq<NewReportCard>,
                cards: seq<ReportCard>): Progress
  {
    match r.exams(i)
    case ExamsFailed(e) => Progress(requests, Err(e))
    case ExamsFound(found) =>
      if found.None? || found.value == [] then Progress(requests, Ok(cards))
      else
        var exams := found.value;
        match ClassPositionSpec(r.classes(i), AverageMarks(exams))
        case Err(e) => Progress(requests, Err(e))
        case Ok(position) =>
          var card := NewCard(q, student, exams, position, r.createdClock(i), r.updatedClock(i));
          match r.inserts(i)
          case InsertFailed(e) => Progress(requests + [card], Err(e))
          case InsertReturned(id) =>
            Progress(requests + [card], if id.Some? then Ok(cards + [ReportCard(id.value, card)]) else Ok(cards))
  }

  /** The loop over the first `n` students, stopping at the first thrown error. */
  function Generated(q: Query, students: seq<StudentRow>, r: Replies, n: nat): Progress
    requires n <= |students|
  {
    if n == 0 then Progress([], Ok([]))
    else
      var p := Generated(q, students, r, n - 1);
      if p.outcome.Err? then p else Step(q, students[n - 1], n - 1, r, p.requests, p.outcome.value)
  }

  /** `generateReportCards`: the students query's error is thrown, no students give no cards. */
  function GenerateSpec(q: Query, reply: StudentsReply, r: Replies): Progress {
    match reply
    case StudentsFailed(e) => Progress([], Err(e))
    case StudentsFound(None) => Progress([], Ok([]))
    case StudentsFound(Some(students)) => Generated(q, students, r, |students|)
  }

  /** No store answer for the student at index `i` is an error. */
  predicate Smooth(r: Replies, i: nat) {
    && !r.exams(i).ExamsFailed?
    && (Examined(r, i) ==> !r.classes(i).ClassFailed? && !r.inserts(i).InsertFailed?)
  }

  /** A generation run completes exactly when no answer for any of its students is an error. */
  lemma {:induction false} GenerationCompletes(q: Query, students: seq<StudentRow>, r: Replies, n: nat)
    requires n <= |students|
    ensures Generated(q, students, r, n).outcome.Ok? <==> forall k :: 0 <= k < n ==> Smooth(r, k)
  {
    if n > 0 {
      GenerationCompletes(q, students, r, n - 1);
      var p := Generated(q, students, r, n - 1);
      if p.outcome.Ok? {
        StepCompletes(q, students[n - 1], n - 1, r, p.requests, p.outcome.value);
      }
    }
  }

  lemma StepCompletes(q: Query, student: StudentRow, i: nat, r: Replies, requests: seq<NewReportCard>,
                      cards: seq<ReportCard>)
    ensures Step(q, student, i, r, requests, cards).outcome.Ok? <==> Smooth(r, i)
  {
    if Examined(r, i) {
      var exams := r.exams(i).exams.value;
      assert ClassPositionSpec(r.classes(i), AverageMarks(exams)).Err? <==> r.classes(i).ClassFailed?;
    }
  }

  /** Once a run has thrown, later students change nothing. */
  lemma {:induction false} ErrorStops(q: Query, students: seq<StudentRow>, r: Replies, m: nat, n: nat)
    requires m <= n <= |students|
    requires Generated(q, students, r, m).outcome.Err?
    ensures Generated(q, students, r, n) == Generated(q, students, r, m)
    decreases n
  {
    if n > m {
      ErrorStops(q, students, r, m, n - 1);
    }
  }

  /** The number of students among the first `n` that have exams. */
  function CountExamined(r: Replies, n: nat): nat {
    if n == 0 then 0 else CountExamined(r, n - 1) + (if Examined(r, n - 1) then 1 else 0)
  }

  /** `req` is the row for the student at index `k`: its exams totalled, averaged and graded. */
  predicate Describes(q: Query, student: StudentRow, r: Replies, k: nat, req: NewReportCard) {
    && Examined(r, k)
    && var exams := r.exams(k).exams.value;
    && req.schoolId == q.schoolId && req.studentId == student.id
    && req.term == q.term && req.academicYear == q.academicYear
    && req.totalMarks == TotalMarks(exams)
    && req.averageMarks * (|exams| as real) == req.totalMarks
    && req.grade == CalculateGrade(req.averageMarks)
    && req.examId == exams[0].id
    && req.classPosition >= 1
    && !req.parentSignature && req.teacherRemarks.None? && req.principalRemarks.None?
  }

  /**
   * Every insert describes one of the students with exams; a completed run
   * inserts exactly one row per student with exams, and every card it
   * returns is one of the inserted rows.
   */
  lemma GeneratedCards(q: Query, students: seq<StudentRow>, r: Replies, n: nat)
    requires n <= |students|
    ensures var p := Generated(q, students, r, n);
      && (forall j :: 0 <= j < |p.requests| ==>
            exists k :: 0 <= k < n && Describes(q, students[k], r, k, p.requests[j]))
      && (p.outcome.Ok? ==> |p.requests| == CountExamined(r, n))
      && (p.outcome.Ok? ==> forall c :: c in p.outcome.value ==> c.card in p.requests)
      && |p.requests| <= n
  {
    GeneratedCardsHold(q, students, r, n);
  }

  /** The facts `GeneratedCards` states, after the first `n` students. */
  predicate CardsAccounted(q: Query, students: seq<StudentRow>, r: Replies, n: nat)
    requires n <= |students|
  {
    var p := Generated(q, students, r, n);
    && (forall j :: 0 <= j < |p.requests| ==>
          exists k :: 0 <= k < n && Describes(q, students[k], r, k, p.requests[j]))
    && (p.outcome.Ok? ==> |p.requests| == CountExamined(r, n))
    && (p.outcome.Ok? ==> forall c :: c in p.outcome.value ==> c.card in p.requests)
    && |p.requests| <= n
  }

  lemma {:induction false} GeneratedCardsHold(q: Query, students: seq<StudentRow>, r: Replies, n: nat)
    requires n <= |students|
    ensures CardsAccounted(q, students, r, n)
    decreases n
  {
    if n > 0 {
      GeneratedCardsHold(q, students, r, n - 1);
      GeneratedCardsStep(q, students, r, n);
    }
  }

  /** One more student keeps the facts of `GeneratedCards`. */
  lemma GeneratedCardsStep(q: Query, students: seq<StudentRow>, r: Replies, n: nat)
    requires 0 < n <= |students|
    requires CardsAccounted(q, students, r, n - 1)
    ensures CardsAccounted(q, students, r, n)
  {
    var p := Generated(q, students, r, n - 1);
    var p' := Generated(q, students, r, n);
    if p.outcome.Ok? && Examined(r, n - 1) {
      var exams := r.exams(n - 1).exams.value;
      var average := AverageMarks(exams);
      if ClassPositionSpec(r.classes(n - 1), average).Ok? {
        var card := NewCard(q, students[n - 1], exams, ClassPositionSpec(r.classes(n - 1), average).value,
                            r.createdClock(n - 1), r.updatedClock(n - 1));
        assert p'.requests == p.requests + [card];
        assert card.averageMarks * (|exams| as real) == card.totalMarks;
        assert Describes(q, students[n - 1], r, n - 1, card);
      }
    }
  }

  /**
   * `generateReportCards`: for each student, fetch the exams, skip the
   * student without any, compute total, average, grade and class position,
   * insert the card and keep it when the store returns it.
   */
  method GenerateReportCards(q: Query, reply: StudentsReply, r: Replies)
    returns (requests: seq<NewReportCard>, result: Result<seq<ReportCard>, Thrown>)
    ensures Progress(requests, result) == GenerateSpec(q, reply, r)
  {
    requests := [];
    if reply.StudentsFailed? {
      return requests, Err(reply.error);
    }
    if reply.students.None? {
      return requests, Ok([]);
    }
    var students := reply.students.value;
    var cards: seq<ReportCard> := [];
    var i := 0;
    while i < |students|
      invariant 0 <= i <= |students|
      invariant Generated(q, students, r, i) == Progress(requests, Ok(cards))
    {
      var p := GenerateFor(q, students[i], i, r, requests, cards);
      if p.outcome.Err? {
        ErrorStops(q, students, r, i + 1, |students|);
        return p.requests, p.outcome;
      }
      requests, cards := p.requests, p.outcome.value;
      i := i + 1;
    }
    result := Ok(cards);
  }

  /**
   * The body of the `generateReportCards` loop for the student at index `i`:
   * fetch the exams, skip the student without any, compute total, average,
   * grade and class position, insert the card and keep it when the store
   * returns it.
   */
  method GenerateFor(q: Query, student: StudentRow, i: nat, r: Replies, requests: seq<NewReportCard>,
                     cards: seq<ReportCard>) returns (p: Progress)
    ensures p == Step(q, student, i, r, requests, cards)
  {
    var examsReply := r.exams(i);
    if examsReply.ExamsFailed? {
      return Progress(requests, Err(examsReply.error));
    }
    if examsReply.exams.None? || |examsReply.exams.value| == 0 {
      return Progress(requests, Ok(cards));
    }
    var exams := examsReply.exams.value;
    var total := TotalMarks(exams);
    var average := total / (|exams| as real);
    var grade := CalculateGrade(average);
    var position := CalculateClassPosition(r.classes(i), average);
    if position.Err? {
      return Progress(requests, Err(position.error));
    }
    var card := NewReportCard(q.schoolId, student.id, q.term, q.academicYear, total, average, grade,
                              position.value, exams[0].id, r.createdClock(i), r.updatedClock(i), false, None, None);
    var inserted := r.inserts(i);
    if inserted.InsertFailed? {
      return Progress(requests + [card], Err(inserted.error));
    }
    if inserted.id.Some? {
      return Progress(requests + [card], Ok(cards + [ReportCard(inserted.id.value, card)]));
    }
    return Progress(requests + [card], Ok(cards));
  }

  /* -------------------------------------------------------------- sending */

  datatype NotificationType = NotifySms | NotifyEmail | NotifyBoth

  predicate WantsSms(t: NotificationType) {
    t == NotifySms || t == NotifyBoth
  }

  predicate WantsEmail(t: NotificationType) {
    t == NotifyEmail || t == NotifyBoth
  }

  /** The parent contact joined to a card. */
  datatype Contact = Contact(name: string, parentPhone: string, parentEmail: Option<string>)

  datatype CardWithStudent = CardWithStudent(id: string, student: Option<Contact>)

  datatype CardsReply = CardsFailed(error: Thrown) | CardsFound(cards: Option<seq<CardWithStudent>>)

  /** A call made to the notification service for the card at a loop index. */
  datatype Notice = SmsNotice(card: nat, phone: string) | EmailNotice(card: nat, address: string)

  /** The SMS text of the card at each index, and the SMS endpoint's replies to its attempts. */
  datatype SmsPlan = SmsPlan(text: nat -> string, replies: nat -> (nat -> SmsReply))

  /** Whether an SMS to the parent of the card at index `i` would be delivered rather than throw. */
  predicate SmsDelivers(i: nat, c: CardWithStudent, plan: SmsPlan) {
    c.student.Some? && SmsWouldDeliver(c.student.value.parentPhone, plan.text(i), plan.replies(i))
  }

  /** The SMS verdicts of the first `n` cards, in order. */
  function SmsVerdicts(cards: seq<CardWithStudent>, plan: SmsPlan, n: nat): (v: seq<bool>)
    requires n <= |cards|
    ensures |v| == n
  {
    if n == 0 then [] else SmsVerdicts(cards, plan, n - 1) + [SmsDelivers(n - 1, cards[n - 1], plan)]
  }

  lemma {:induction false} SmsVerdictAt(cards: seq<CardWithStudent>, plan: SmsPlan, n: nat, i: nat)
    requires i < n <= |cards|
    ensures SmsVerdicts(cards, plan, n)[i] == SmsDelivers(i, cards[i], plan)
  {
    if i < n - 1 {
      SmsVerdictAt(cards, plan, n - 1, i);
    }
  }

  /**
   * The calls for one card, given whether its SMS would be delivered: none
   * without a student; an SMS when SMS is wanted and the phone is non-empty;
   * an e-mail when e-mail is wanted and the address is non-empty, unless the
   * SMS just threw.
   */
  function CardNotices(i: nat, c: CardWithStudent, t: NotificationType, delivered: bool): (r: seq<Notice>)
    ensures |r| <= 2 && forall j :: 0 <= j < |r| ==> r[j].card == i
  {
    if c.student.None? then []
    else
      var s := c.student.value;
      var sms := WantsSms(t) && s.parentPhone != "";
      var smsThrew := sms && !delivered;
      var email := !smsThrew && WantsEmail(t) && s.parentEmail.Some? && s.parentEmail.value != "";
      (if sms then [SmsNotice(i, s.parentPhone)] else [])
        + (if email then [EmailNotice(i, s.parentEmail.value)] else [])
  }

  /** The calls for the first `n` cards, in order, under the SMS verdicts `v`. */
  function Sent(cards: seq<CardWithStudent>, t: NotificationType, v: seq<bool>, n: nat): seq<Notice>
    requires n <= |cards| && n <= |v|
  {
    if n == 0 then [] else Sent(cards, t, v, n - 1) + CardNotices(n - 1, cards[n - 1], t, v[n - 1])
  }

  /** `sendReportCards`: the lookup error is thrown; otherwise every card is tried and the call returns. */
  function SendSpec(reply: CardsReply, t: NotificationType, plan: SmsPlan): (Result<(), Thrown>, seq<Notice>) {
    match reply
    case CardsFailed(e) => (Err(e), [])
    case CardsFound(None) => (Ok(()), [])
    case CardsFound(Some(cards)) => (Ok(()), Sent(cards, t, SmsVerdicts(cards, plan, |cards|), |cards|))
  }

  /** The channel rules of one card, both directions. */
  lemma ChannelRules(i: nat, c: CardWithStudent, t: NotificationType, plan: SmsPlan)
    requires c.student.Some?
    ensures var s := c.student.value; var ns := CardNotices(i, c, t, SmsDelivers(i, c, plan));
      && (SmsNotice(i, s.parentPhone) in ns <==> WantsSms(t) && s.parentPhone != "")
      && (s.parentEmail.Some? ==>
            (EmailNotice(i, s.parentEmail.value) in ns <==>
              (&& WantsEmail(t) && s.parentEmail.value != ""
               && !(WantsSms(t) && s.parentPhone != ""
                    && !SmsWouldDeliver(s.parentPhone, plan.text(i), plan.replies(i))))))
      && (forall n :: n in ns ==> n.card == i)
      && |ns| <= 2
  {
  }

  /** A card without its student is skipped. */
  lemma NoStudentNoNotice(i: nat, c: CardWithStudent, t: NotificationType, plan: SmsPlan)
    requires c.student.None?
    ensures CardNotices(i, c, t, SmsDelivers(i, c, plan)) == []
  {
  }

  /**
   * With both channels wanted, an invalid parent phone makes the SMS throw
   * before any attempt, and the e-mail of that card is skipped.
   */
  lemma InvalidPhoneSkipsEmail(i: nat, c: CardWithStudent, plan: SmsPlan)
    requires c.student.Some? && c.student.value.parentPhone != ""
    requires !IsValidPhoneNumber(c.student.value.parentPhone)
    ensures CardNotices(i, c, NotifyBoth, SmsDelivers(i, c, plan)) == [SmsNotice(i, c.student.value.parentPhone)]
  {
  }

  /** The calls made for the card at index `k`. */
  function NoticesFor(ns: seq<Notice>, k: nat): seq<Notice> {
    if ns == [] then []
    else NoticesFor(ns[..|ns| - 1], k) + (if ns[|ns| - 1].card == k then [ns[|ns| - 1]] else [])
  }

  lemma {:induction false} NoticesForAppend(a: seq<Notice>, b: seq<Notice>, k: nat)
    ensures NoticesFor(a + b, k) == NoticesFor(a, k) + NoticesFor(b, k)
    decreases |b|
  {
    if b != [] {
      assert (a + b)[..|a + b| - 1] == a + b[..|b| - 1];
      NoticesForAppend(a, b[..|b| - 1], k);
    } else {
      assert a + b == a;
    }
  }

  lemma {:induction false} NoticesForOther(ns: seq<Notice>, k: nat)
    requires forall j :: 0 <= j < |ns| ==> ns[j].card != k
    ensures NoticesFor(ns, k) == []
  {
    if ns != [] {
      NoticesForOther(ns[..|ns| - 1], k);
    }
  }

  lemma {:induction false} NoticesForOwn(ns: seq<Notice>, k: nat)
    requires forall j :: 0 <= j < |ns| ==> ns[j].card == k
    ensures NoticesFor(ns, k) == ns
  {
    if ns != [] {
      NoticesForOwn(ns[..|ns| - 1], k);
    }
  }

  lemma {:induction false} SentCards(cards: seq<CardWithStudent>, t: NotificationType, v: seq<bool>, n: nat)
    requires n <= |cards| && n <= |v|
    ensures forall j :: 0 <= j < |Sent(cards, t, v, n)| ==> Sent(cards, t, v, n)[j].card < n
  {
    if n > 0 {
      SentCards(cards, t, v, n - 1);
      var prefix: seq<Notice> := Sent(cards, t, v, n - 1);
      var last: seq<Notice> := CardNotices(n - 1, cards[n - 1], t, v[n - 1]);
      assert Sent(cards, t, v, n) == prefix + last;
      forall j | 0 <= j < |prefix| + |last|
        ensures (prefix + last)[j].card < n
      {
        if j < |prefix| {
          assert (prefix + last)[j] == prefix[j];
          assert prefix[j].card < n - 1;
        } else {
          assert (prefix + last)[j] == last[j - |prefix|];
          assert last[j - |prefix|].card == n - 1;
        }
      }
    }
  }

  /**
   * Cards are independent: the calls made for each card are exactly its own
   * channel rules' calls under its own SMS verdict, whatever happened to the
   * other cards.
   */
  lemma CardsIndependent(cards: seq<CardWithStudent>, t: NotificationType, v: seq<bool>, n: nat, k: nat)
    requires k < n <= |cards| && n <= |v|
    ensures NoticesFor(Sent(cards, t, v, n), k) == CardNotices(k, cards[k], t, v[k])
  {
    OwnCallsKept(cards, t, v, n, k);
  }

  /** Among the calls for the first `n` cards, those for card `k` are its own calls. */
  predicate OwnCallsAmong(cards: seq<CardWithStudent>, t: NotificationType, v: seq<bool>, n: nat, k: nat)
    requires k < n <= |cards| && n <= |v|
  {
    NoticesFor(Sent(cards, t, v, n), k) == CardNotices(k, cards[k], t, v[k])
  }

  lemma {:induction false} OwnCallsKept(cards: seq<CardWithStudent>, t: NotificationType, v: seq<bool>,
                                        n: nat, k: nat)
    requires k < n <= |cards| && n <= |v|
    ensures OwnCallsAmong(cards, t, v, n, k)
    decreases n
  {
    if k == n - 1 {
      LastCardCalls(cards, t, v, n);
    } else {
      OwnCallsKept(cards, t, v, n - 1, k);
      EarlierCardCalls(cards, t, v, n, k);
    }
  }

  /** The calls for the last of the first `n` cards are its own calls. */
  lemma LastCardCalls(cards: seq<CardWithStudent>, t: NotificationType, v: seq<bool>, n: nat)
    requires 0 < n <= |cards| && n <= |v|
    ensures OwnCallsAmong(cards, t, v, n, n - 1)
  {
    var prefix := Sent(cards, t, v, n - 1);
    var last := CardNotices(n - 1, cards[n - 1], t, v[n - 1]);
    assert Sent(cards, t, v, n) == prefix + last;
    SentCards(cards, t, v, n - 1);
    OwnCallsLast(prefix, last, n - 1);
  }

  /** The next card's calls leave the calls for an earlier card as they were. */
  lemma EarlierCardCalls(cards: seq<CardWithStudent>, t: NotificationType, v: seq<bool>, n: nat, k: nat)
    requires k + 1 < n <= |cards| && n <= |v|
    requires OwnCallsAmong(cards, t, v, n - 1, k)
    ensures OwnCallsAmong(cards, t, v, n, k)
  {
    var prefix := Sent(cards, t, v, n - 1);
    var last := CardNotices(n - 1, cards[n - 1], t, v[n - 1]);
    assert Sent(cards, t, v, n) == prefix + last;
    OtherCallsLast(prefix, last, k);
  }

  /** Calls for card `k` that follow calls for other cards are all of card `k`'s calls. */
  lemma OwnCallsLast(prefix: seq<Notice>, last: seq<Notice>, k: nat)
    requires forall j :: 0 <= j < |prefix| ==> prefix[j].card < k
    requires forall j :: 0 <= j < |last| ==> last[j].card == k
    ensures NoticesFor(prefix + last, k) == last
  {
    NoticesForAppend(prefix, last, k);
    NoticesForOther(prefix, k);
    NoticesForOwn(last, k);
    assert [] + last == last;
  }

  /** Calls for other cards appended after the calls change nothing for card `k`. */
  lemma OtherCallsLast(prefix: seq<Notice>, last: seq<Notice>, k: nat)
    requires forall j :: 0 <= j < |last| ==> last[j].card != k
    ensures NoticesFor(prefix + last, k) == NoticesFor(prefix, k)
  {
    NoticesForAppend(prefix, last, k);
    NoticesForOther(last, k);
    assert NoticesFor(prefix, k) + [] == NoticesFor(prefix, k);
  }

  /** In a sending run, the calls for each card follow its channel rules under its own SMS outcome. */
  lemma SentPerCard(cards: seq<CardWithStudent>, t: NotificationType, plan: SmsPlan, k: nat)
    requires k < |cards|
    ensures var ns := SendSpec(CardsFound(Some(cards)), t, plan).1;
      NoticesFor(ns, k) == CardNotices(k, cards[k], t, SmsDelivers(k, cards[k], plan))
  {
    var v := SmsVerdicts(cards, plan, |cards|);
    CardsIndependent(cards, t, v, |cards|, k);
    SmsVerdictAt(cards, plan, |cards|, k);
  }

  /**
   * `sendReportCards`: each card's SMS and e-mail are attempted under the
   * channel rules; a thrown SMS skips that card's e-mail and nothing else,
   * and a failed e-mail is logged and ignored.
   */
  method SendReportCards(reply: CardsReply, t: NotificationType, plan: SmsPlan)
    returns (r: Result<(), Thrown>, notices: seq<Notice>)
    ensures (r, notices) == SendSpec(reply, t, plan)
  {
    notices := [];
    if reply.CardsFailed? {
      return Err(reply.error), notices;
    }
    if reply.cards.None? {
      return Ok(()), notices;
    }
    var cards := reply.cards.value;
    ghost var v := SmsVerdicts(cards, plan, |cards|);
    var i := 0;
    while i < |cards|
      invariant 0 <= i <= |cards|
      invariant notices == Sent(cards, t, v, i)
    {
      var calls := NotifyCard(i, cards[i], t, plan);
      SmsVerdictAt(cards, plan, |cards|, i);
      notices := notices + calls;
      i := i + 1;
    }
    r := Ok(());
  }

  /** The body of the `sendReportCards` loop for the card at index `i`. */
  method NotifyCard(i: nat, c: CardWithStudent, t: NotificationType, plan: SmsPlan) returns (calls: seq<Notice>)
    ensures calls == CardNotices(i, c, t, SmsDelivers(i, c, plan))
  {
    calls := [];
    if c.student.Some? {
      var s := c.student.value;
      var smsThrew := false;
      if WantsSms(t) && s.parentPhone != "" {
        calls := calls + [SmsNotice(i, s.parentPhone)];
        var sent, _, _ := SendSms(s.parentPhone, plan.text(i), plan.replies(i));
        smsThrew := sent.Err?;
      }
      if !smsThrew && WantsEmail(t) && s.parentEmail.Some? && s.parentEmail.value != "" {
        calls := calls + [EmailNotice(i, s.parentEmail.value)];
      }
    }
  }

  /* -------------------------------------------------- generate, then send */

  function CardIds(cards: seq<ReportCard>): (ids: seq<string>)
    ensures |ids| == |cards| && forall j :: 0 <= j < |cards| ==> ids[j] == cards[j].id
  {
    if cards == [] then [] else CardIds(cards[..|cards| - 1]) + [cards[|cards| - 1].id]
  }

  /** The catch of `generateAndSendReportCards` reports this for a thrown non-`Error` value. */
  const UnknownErrorOccurred := "Unknown error occurred"

  /**
   * `generateAndSendReportCards`: generate, then send the generated cards
   * by id; success unless either step threw. The reported error is the thrown
   * value's message when it is an `Error` and `Unknown error occurred` otherwise.
   */
  method GenerateAndSendReportCards(q: Query, students: StudentsReply, r: Replies,
                                    lookup: CardsReply, t: NotificationType, plan: SmsPlan)
    returns (success: bool, error: Option<string>, ids: seq<string>, notices: seq<Notice>)
    ensures var g := GenerateSpec(q, students, r).outcome;
      && (success <==> g.Ok? && !lookup.CardsFailed?)
      && (success ==> error.None?)
      && (g.Err? ==> error == Some(CaughtMessage(g.error, UnknownErrorOccurred)) && ids == [] && notices == [])
      && (g.Ok? ==> ids == CardIds(g.value) && notices == SendSpec(lookup, t, plan).1)
      && (g.Ok? && lookup.CardsFailed? ==> error == Some(CaughtMessage(lookup.error, UnknownErrorOccurred)))
  {
    var _, generated := GenerateReportCards(q, students, r);
    ids, notices := [], [];
    if generated.Err? {
      return false, Some(CaughtMessage(generated.error, UnknownErrorOccurred)), ids, notices;
    }
    ids := CardIds(generated.value);
    var sent;
    sent, notices := SendReportCards(lookup, t, plan);
    if sent.Err? {
      return false, Some(CaughtMessage(sent.error, UnknownErrorOccurred)), ids, notices;
    }
    success, error := true, None;
  }
}
