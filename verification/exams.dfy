/** The teacher's exam endpoints (backend/app/controllers/exam.py): creating
    an exam with its tutor prompt, listing one's own exams, assigning an exam
    to one's own students, and the per-exam dashboard counts. */
module Exams {
  import opened Base
  import opened Sessions
  import ConversationEngine
  import Strings

  /** The request body of `create_exam`. `vocabularyListManual` is `None`
      when the attribute does not exist, as in the `ExamCreate` schema of
      backend/app/models/exam.py. */
  datatype ExamCreate = ExamCreate(
    title: string,
    description: Option<string>,
    culturalContext: Option<string>,
    targetLanguage: string,
    topic: string,
    tenses: Option<string>,
    difficultyLevel: string,
    vocabularyListId: Option<Id>,
    vocabularyListManual: Option<seq<string>>)

  datatype Exam = Exam(
    title: string,
    description: Option<string>,
    culturalContext: Option<string>,
    targetLanguage: string,
    topic: string,
    tenses: Option<string>,
    difficultyLevel: string,
    vocabularyListId: Option<Id>,
    conversationPrompt: string,
    createdById: Option<Id>)

  const MissingManualList := "'ExamCreate' object has no attribute 'vocabulary_list_manual'"

  /** `tenses` is a string handed where a list is expected: iterating it
      gives its characters, and an empty or missing string is falsy. */
  function TenseItems(tenses: Option<string>): (items: seq<string>)
    ensures tenses.None? ==> items == []
    ensures tenses.Some? ==> |items| == |tenses.value|
    ensures tenses.Some? ==> forall k :: 0 <= k < |items| ==> items[k] == [tenses.value[k]]
  {
    if tenses.None? then []
    else seq(|tenses.value|, k requires 0 <= k < |tenses.value| => [tenses.value[k]])
  }

  /** `create_exam`: the exam with its creator and prompt, or the
      `AttributeError` that reading the manual vocabulary list raises. */
  function CreateExam(data: ExamCreate, userId: Id): (r: Result<Exam, string>)
    ensures data.vocabularyListManual.None? <==> r == Err(MissingManualList)
    ensures r.Ok? ==> r.value.createdById == Some(userId)
    ensures r.Ok? ==> r.value == Exam(data.title, data.description, data.culturalContext, data.targetLanguage,
      data.topic, data.tenses, data.difficultyLevel, data.vocabularyListId, r.value.conversationPrompt, Some(userId))
  {
    match data.vocabularyListManual
    case None => Err(MissingManualList)
    case Some(vocabulary) =>
      var prompt := ConversationEngine.BuildSystemPrompt(
        data.targetLanguage, data.difficultyLevel, vocabulary, data.topic, TenseItems(data.tenses), None);
      Ok(Exam(data.title, data.description, data.culturalContext, data.targetLanguage, data.topic,
              data.tenses, data.difficultyLevel, data.vocabularyListId, prompt, Some(userId)))
  }

  /** A created exam's prompt is built from the exam's language, level,
      manual vocabulary, topic and tenses, with no regional variant. */
  lemma CreatedPrompt(data: ExamCreate, userId: Id)
    requires data.vocabularyListManual.Some?
    ensures CreateExam(data, userId).Ok?
    ensures CreateExam(data, userId).value.conversationPrompt == ConversationEngine.BuildSystemPrompt(
      data.targetLanguage, data.difficultyLevel, data.vocabularyListManual.value,
      data.topic, TenseItems(data.tenses), None)
  {
  }

  /** The tense line of the prompt spells out the tenses string: its k-th
      character sits at position 3k, each followed by ", " except the last;
      an empty or missing string gives the fixed phrase. */
  lemma {:induction false} TensesSpelledOut(tenses: Option<string>)
    ensures tenses.None? || tenses.value == "" ==>
      ConversationEngine.TensesFormatted(TenseItems(tenses)) == "any appropriate tenses"
    ensures tenses.Some? && tenses.value != "" ==>
      var s := tenses.value;
      var r := ConversationEngine.TensesFormatted(TenseItems(tenses));
      && |r| == 3 * |s| - 2
      && (forall k :: 0 <= k < |s| ==> r[3 * k] == s[k])
      && (forall k :: 0 <= k < |s| - 1 ==> r[3 * k + 1] == ',' && r[3 * k + 2] == ' ')
    decreases if tenses.Some? then |tenses.value| else 0
  {
    if tenses.Some? && |tenses.value| > 1 {
      var s := tenses.value;
      var items := TenseItems(tenses);
      var rest := TenseItems(Some(s[1..]));
      assert items[1..] == rest;
      TensesSpelledOut(Some(s[1..]));
      var j := Strings.Join(", ", rest);
      assert ConversationEngine.TensesFormatted(rest) == j;
      assert ConversationEngine.TensesFormatted(items) == [s[0]] + ", " + j;
      forall k | 1 <= k < |s| ensures ([s[0]] + ", " + j)[3 * k] == s[k] {
        assert ([s[0]] + ", " + j)[3 * k] == j[3 * (k - 1)];
        assert s[1..][k - 1] == s[k];
      }
      forall k | 1 <= k < |s| - 1
        ensures ([s[0]] + ", " + j)[3 * k + 1] == ',' && ([s[0]] + ", " + j)[3 * k + 2] == ' '
      {
        assert ([s[0]] + ", " + j)[3 * k + 1] == j[3 * (k - 1) + 1];
        assert ([s[0]] + ", " + j)[3 * k + 2] == j[3 * (k - 1) + 2];
      }
    }
  }


  /** `get_my_exams`: exactly the exams the user created. */
  function MyExams(exams: map<Id, Exam>, userId: Id): (mine: map<Id, Exam>)
    ensures forall id :: id in mine <==> id in exams && exams[id].createdById == Some(userId)
    ensures forall id :: id in mine ==> mine[id] == exams[id]
  {
    map id | id in exams && exams[id].createdById == Some(userId) :: exams[id]
  }

  // ---------------------------------------------------------------------------
  // assign_exam

  const ExamNotFound := HttpError(404, "Exam not found")
  const StudentsRejected := HttpError(400, "One or more students not found or not assigned to you")

  /** The users the student query returns: those whose id is listed and
      whose teacher is the current user, each once. `teachers` maps a user id
      to its `teacher_id`. */
  function MatchedStudents(teachers: map<Id, Option<Id>>, studentIds: seq<Id>, userId: Id): set<Id> {
    set u | u in teachers && u in studentIds && teachers[u] == Some(userId)
  }

  /** One new session per listed student, in order. */
  function NewSessions(examId: Id, studentIds: seq<Id>, dueDate: Option<Time>, now: Time): (ss: seq<Session>)
    ensures |ss| == |studentIds|
    ensures forall k :: 0 <= k < |ss| ==>
      ss[k] == Session(examId, Some(studentIds[k]), Assigned, dueDate, Some(now), None)
  {
    seq(|studentIds|, k requires 0 <= k < |studentIds| => Session(examId, Some(studentIds[k]), Assigned, dueDate, Some(now), None))
  }

  function AssignOutcome(exams: map<Id, Exam>, teachers: map<Id, Option<Id>>, examId: Id, studentIds: seq<Id>,
                         dueDate: Option<Time>, userId: Id, now: Time): (r: Result<seq<Session>, HttpError>)
    ensures r == Err(ExamNotFound) <==> examId !in exams || exams[examId].createdById != Some(userId)
    ensures r.Ok? ==> |r.value| == |studentIds|
    ensures r.Ok? ==> forall k :: 0 <= k < |r.value| ==>
      r.value[k].examId == examId && r.value[k].studentId == Some(studentIds[k]) && r.value[k].status == Assigned
  {
    if examId !in exams || exams[examId].createdById != Some(userId) then Err(ExamNotFound)
    else if |MatchedStudents(teachers, studentIds, userId)| != |studentIds| then Err(StudentsRejected)
    else Ok(NewSessions(examId, studentIds, dueDate, now))
  }

  predicate Distinct(xs: seq<Id>) {
    forall i, j :: 0 <= i < j < |xs| ==> xs[i] != xs[j]
  }

  function Elements(xs: seq<Id>): set<Id> {
    set x | x in xs
  }

  lemma {:induction false} ElementsCard(xs: seq<Id>)
    ensures |Elements(xs)| <= |xs|
    ensures |Elements(xs)| == |xs| <==> Distinct(xs)
    decreases |xs|
  {
    if |xs| > 0 {
      var rest := xs[1..];
      ElementsCard(rest);
      assert Elements(xs) == {xs[0]} + Elements(rest) by {
        forall x | x in xs ensures x == xs[0] || x in rest {
          var i :| 0 <= i < |xs| && xs[i] == x;
          if i > 0 { assert rest[i - 1] == x; }
        }
      }
      if xs[0] in rest {
        var j :| 0 <= j < |rest| && rest[j] == xs[0];
        assert xs[j + 1] == xs[0];
        assert !Distinct(xs);
        assert Elements(xs) == Elements(rest);
      } else {
        assert Distinct(xs) <==> Distinct(rest) by {
          if Distinct(rest) {
            forall i, j | 0 <= i < j < |xs| ensures xs[i] != xs[j] {
              if i == 0 { assert xs[j] == rest[j - 1]; } else { assert xs[i] == rest[i - 1] && xs[j] == rest[j - 1]; }
            }
          }
          if Distinct(xs) {
            forall i, j | 0 <= i < j < |rest| ensures rest[i] != rest[j] {
              assert rest[i] == xs[i + 1] && rest[j] == xs[j + 1];
            }
          }
        }
      }
    }
  }

  lemma SubsetSameCard(a: set<Id>, b: set<Id>)
    requires a <= b && |a| == |b|
    ensures a == b
  {
    assert b == a + (b - a);
    assert |b| == |a| + |b - a|;
  }

  /** The count check passes exactly when the ids are distinct and every one
      names a student of the current user: a duplicated id fails it. */
  lemma AssignCheckIff(teachers: map<Id, Option<Id>>, studentIds: seq<Id>, userId: Id)
    ensures |MatchedStudents(teachers, studentIds, userId)| == |studentIds| <==>
      Distinct(studentIds)
      && forall k :: 0 <= k < |studentIds| ==> studentIds[k] in teachers && teachers[studentIds[k]] == Some(userId)
  {
    var m := MatchedStudents(teachers, studentIds, userId);
    var e := Elements(studentIds);
    ElementsCard(studentIds);
    assert m <= e;
    assert |m| <= |e| by {
      assert e == m + (e - m);
    }
    if |m| == |studentIds| {
      SubsetSameCard(m, e);
      forall k | 0 <= k < |studentIds| ensures studentIds[k] in teachers && teachers[studentIds[k]] == Some(userId) {
        assert studentIds[k] in e;
      }
    }
    if Distinct(studentIds) && forall k :: 0 <= k < |studentIds| ==> studentIds[k] in teachers && teachers[studentIds[k]] == Some(userId) {
      assert e <= m;
      assert m == e;
    }
  }

  /** A missing or foreign exam gives 404; otherwise a failed count gives 400;
      otherwise one assigned session per student, in order. */
  lemma AssignCases(exams: map<Id, Exam>, teachers: map<Id, Option<Id>>, examId: Id, studentIds: seq<Id>,
                    dueDate: Option<Time>, userId: Id, now: Time)
    ensures var r := AssignOutcome(exams, teachers, examId, studentIds, dueDate, userId, now);
      && (r == Err(ExamNotFound) <==> examId !in exams || exams[examId].createdById != Some(userId))
      && (r.Ok? <==> examId in exams && exams[examId].createdById == Some(userId)
                     && Distinct(studentIds)
                     && forall k :: 0 <= k < |studentIds| ==> studentIds[k] in teachers && teachers[studentIds[k]] == Some(userId))
      && (r.Ok? ==> |r.value| == |studentIds|
                    && forall k :: 0 <= k < |studentIds| ==>
                         r.value[k].studentId == Some(studentIds[k]) && r.value[k].examId == examId
                         && r.value[k].status == Assigned && r.value[k].dueDate == dueDate)
  {
    AssignCheckIff(teachers, studentIds, userId);
  }

  // ---------------------------------------------------------------------------
  // teacher_dashboard

  datatype DashboardEntry = DashboardEntry(
    exam: Exam,
    totalAssigned: nat,
    pending: nat,
    inProgress: nat,
    completed: nat,
    sessions: map<Id, Session>)

  function SessionsOf(sessions: map<Id, Session>, examId: Id): (ss: map<Id, Session>)
    ensures forall id :: id in ss <==> id in sessions && sessions[id].examId == examId
    ensures forall id :: id in ss ==> ss[id] == sessions[id]
  {
    map id | id in sessions && sessions[id].examId == examId :: sessions[id]
  }

  function WithStatus(ss: map<Id, Session>, st: SessionStatus): set<Id> {
    set id | id in ss && ss[id].status == st
  }

  function Entry(exam: Exam, examId: Id, sessions: map<Id, Session>): DashboardEntry {
    var ss := SessionsOf(sessions, examId);
    DashboardEntry(exam, |ss|, |WithStatus(ss, Assigned)|, |WithStatus(ss, InProgress)|, |WithStatus(ss, Completed)|, ss)
  }

  /** One entry per exam the user created, keyed by exam id. */
  function Dashboard(exams: map<Id, Exam>, sessions: map<Id, Session>, userId: Id): (d: map<Id, DashboardEntry>)
    ensures d.Keys == MyExams(exams, userId).Keys
  {
    map id | id in MyExams(exams, userId) :: Entry(exams[id], id, sessions)
  }

  /** The three status counts of an entry add up to its total, which is the
      number of that exam's sessions. */
  lemma EntryCounts(exam: Exam, examId: Id, sessions: map<Id, Session>)
    ensures var e := Entry(exam, examId, sessions);
      && e.totalAssigned == |SessionsOf(sessions, examId)|
      && e.pending + e.inProgress + e.completed == e.totalAssigned
  {
    var ss := SessionsOf(sessions, examId);
    var p, i, c := WithStatus(ss, Assigned), WithStatus(ss, InProgress), WithStatus(ss, Completed);
    forall id | id in ss ensures id in p + i + c {
      match ss[id].status {
        case Assigned => assert id in p;
        case InProgress => assert id in i;
        case Completed => assert id in c;
      }
    }
    assert ss.Keys == p + i + c;
    assert p * i == {} && (p + i) * c == {};
    assert |p + i| == |p| + |i|;
    assert |p + i + c| == |p + i| + |c|;
  }

  lemma DashboardCounts(exams: map<Id, Exam>, sessions: map<Id, Session>, userId: Id)
    ensures var d := Dashboard(exams, sessions, userId);
      forall id :: id in d ==>
        && d[id].exam == exams[id] && exams[id].createdById == Some(userId)
        && d[id].pending + d[id].inProgress + d[id].completed == d[id].totalAssigned
        && d[id].totalAssigned == |SessionsOf(sessions, id)|
  {
    forall id | id in Dashboard(exams, sessions, userId)
      ensures Dashboard(exams, sessions, userId)[id].pending + Dashboard(exams, sessions, userId)[id].inProgress
              + Dashboard(exams, sessions, userId)[id].completed == Dashboard(exams, sessions, userId)[id].totalAssigned
    {
      EntryCounts(exams[id], id, sessions);
    }
  }

  // ---------------------------------------------------------------------------
  // The controller over its tables

  class ExamController {
    var exams: map<Id, Exam>
    /** Each user's `teacher_id`. */
    var teachers: map<Id, Option<Id>>
    var sessions: map<Id, Session>
    /** The next fresh identifier; `uuid4` is modelled as a counter. */
    var nextId: Id

    predicate Valid()
      reads this
    {
      (forall id :: id in exams ==> id < nextId) && (forall id :: id in sessions ==> id < nextId)
    }

    constructor (teacherOf: map<Id, Option<Id>>)
      ensures Valid() && exams == map[] && sessions == map[] && teachers == teacherOf
    {
      exams, teachers, sessions, nextId := map[], teacherOf, map[], 0;
    }

    method Create(data: ExamCreate, userId: Id) returns (r: Result<(Id, Exam), string>)
      requires Valid()
      modifies this`exams, this`nextId
      ensures Valid()
      ensures CreateExam(data, userId).Err? ==>
        r == Err(CreateExam(data, userId).error) && exams == old(exams) && nextId == old(nextId)
      ensures CreateExam(data, userId).Ok? ==>
        r == Ok((old(nextId), CreateExam(data, userId).value))
        && exams == old(exams)[old(nextId) := CreateExam(data, userId).value] && nextId == old(nextId) + 1
    {
      var outcome := CreateExam(data, userId);
      match outcome {
        case Err(e) =>
          r := Err(e);
        case Ok(exam) =>
          exams := exams[nextId := exam];
          r := Ok((nextId, exam));
          nextId := nextId + 1;
      }
    }

    method MyExamList(userId: Id) returns (mine: map<Id, Exam>)
      ensures mine == MyExams(exams, userId)
    {
      mine := map id | id in exams && exams[id].createdById == Some(userId) :: exams[id];
    }

    method Assign(examId: Id, studentIds: seq<Id>, dueDate: Option<Time>, userId: Id, now: Time)
      returns (r: Result<seq<Session>, HttpError>)
      requires Valid()
      modifies this`sessions, this`nextId
      ensures Valid()
      ensures r == AssignOutcome(exams, teachers, examId, studentIds, dueDate, userId, now)
      ensures r.Err? ==> sessions == old(sessions) && nextId == old(nextId)
      ensures r.Ok? ==> nextId == old(nextId) + |studentIds|
      ensures r.Ok? ==> forall id :: id in sessions <==> id in old(sessions) || old(nextId) <= id < nextId
      ensures r.Ok? ==> forall id :: id in old(sessions) ==> sessions[id] == old(sessions)[id]
      ensures r.Ok? ==> forall k :: 0 <= k < |r.value| ==> old(nextId) + k in sessions && sessions[old(nextId) + k] == r.value[k]
    {
      if examId !in exams || exams[examId].createdById != Some(userId) {
        return Err(ExamNotFound);
      }
      var matched := set u | u in teachers && u in studentIds && teachers[u] == Some(userId);
      if |matched| != |studentIds| {
        return Err(StudentsRejected);
      }
      var created: seq<Session> := [];
      for i := 0 to |studentIds|
        invariant |created| == i && nextId == old(nextId) + i
        invariant forall k :: 0 <= k < i ==> created[k] == Session(examId, Some(studentIds[k]), Assigned, dueDate, Some(now), None)
        invariant forall id :: id in sessions <==> id in old(sessions) || old(nextId) <= id < nextId
        invariant forall id :: id in old(sessions) ==> sessions[id] == old(sessions)[id]
        invariant forall k :: 0 <= k < i ==> sessions[old(nextId) + k] == created[k]
      {
        var session := Session(examId, Some(studentIds[i]), Assigned, dueDate, Some(now), None);
        sessions := sessions[nextId := session];
        created := created + [session];
        nextId := nextId + 1;
      }
      assert created == NewSessions(examId, studentIds, dueDate, now);
      r := Ok(created);
    }

    method TeacherDashboard(userId: Id) returns (d: map<Id, DashboardEntry>)
      ensures d == Dashboard(exams, sessions, userId)
    {
      d := map id | id in exams && exams[id].createdById == Some(userId) :: Entry(exams[id], id, sessions);
    }
  }
}
