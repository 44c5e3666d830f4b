/** Conversation-session transitions
    (backend/app/controllers/conversation_session.py): a student starts an
    assigned session and completes a session in progress. */
module Sessions {
  import opened Base

  datatype SessionStatus = Assigned | InProgress | Completed

  /** A row of the sessions table. `startedAt` is stamped when the row is
      created (the column's default), not by `start_session`. */
  datatype Session = Session(
    examId: Id,
    studentId: Option<Id>,
    status: SessionStatus,
    dueDate: Option<Time>,
    startedAt: Option<Time>,
    endedAt: Option<Time>)

  const NotFound := HttpError(404, "Session not found")

  /** `start_session`: 404, then 403, then 400, then `in_progress`. */
  function StartOutcome(sessions: map<Id, Session>, sessionId: Id, userId: Id): (r: Result<Session, HttpError>)
    ensures (r.Err? && r.error.status == 404) <==> sessionId !in sessions
    ensures r.Ok? ==>
      && sessionId in sessions && sessions[sessionId].studentId == Some(userId)
      && sessions[sessionId].status == Assigned && r.value.status == InProgress
      && r.value.(status := Assigned) == sessions[sessionId]
  {
    if sessionId !in sessions then Err(NotFound)
    else
      var s := sessions[sessionId];
      if s.studentId != Some(userId) then Err(HttpError(403, "This session is not assigned to you"))
      else if s.status != Assigned then Err(HttpError(400, "Session has already been started"))
      else Ok(s.(status := InProgress))
  }

  /** `complete_session`: 404, then 403, then 400, then `completed` with `ended_at`. */
  function CompleteOutcome(sessions: map<Id, Session>, sessionId: Id, userId: Id, now: Time): (r: Result<Session, HttpError>)
    ensures (r.Err? && r.error.status == 404) <==> sessionId !in sessions
    ensures r.Ok? ==>
      && sessionId in sessions && sessions[sessionId].studentId == Some(userId)
      && sessions[sessionId].status == InProgress && r.value.status == Completed && r.value.endedAt == Some(now)
      && r.value.(status := InProgress, endedAt := sessions[sessionId].endedAt) == sessions[sessionId]
  {
    if sessionId !in sessions then Err(NotFound)
    else
      var s := sessions[sessionId];
      if s.studentId != Some(userId) then Err(HttpError(403, "This session is not assigned to you."))
      else if s.status != InProgress then Err(HttpError(400, "Session is not im progress"))
      else Ok(s.(status := Completed, endedAt := Some(now)))
  }

  /** The table after an outcome: a success replaces the row, an error leaves
      the table as it was. */
  function Commit(sessions: map<Id, Session>, sessionId: Id, r: Result<Session, HttpError>): map<Id, Session> {
    if r.Ok? then sessions[sessionId := r.value] else sessions
  }

  function Rank(st: SessionStatus): nat {
    match st
    case Assigned => 0
    case InProgress => 1
    case Completed => 2
  }

  /** A row is consistent when `ended_at` is set exactly once completed. */
  predicate Consistent(sessions: map<Id, Session>) {
    forall id :: id in sessions ==> (sessions[id].status == Completed <==> sessions[id].endedAt.Some?)
  }

  // ---------------------------------------------------------------------------
  // Properties

  /** The start guards, in the order the source checks them. */
  lemma StartGuards(sessions: map<Id, Session>, sessionId: Id, userId: Id)
    ensures var r := StartOutcome(sessions, sessionId, userId);
      && (r == Err(NotFound) <==> sessionId !in sessions)
      && (r.Err? && r.error.status == 403 <==> sessionId in sessions && sessions[sessionId].studentId != Some(userId))
      && (r.Err? && r.error.status == 400 <==>
            sessionId in sessions && sessions[sessionId].studentId == Some(userId) && sessions[sessionId].status != Assigned)
      && (r.Ok? <==>
            sessionId in sessions && sessions[sessionId].studentId == Some(userId) && sessions[sessionId].status == Assigned)
      && (r.Ok? ==> r.value == sessions[sessionId].(status := InProgress))
  {
  }

  /** The complete guards, in the order the source checks them. */
  lemma CompleteGuards(sessions: map<Id, Session>, sessionId: Id, userId: Id, now: Time)
    ensures var r := CompleteOutcome(sessions, sessionId, userId, now);
      && (r == Err(NotFound) <==> sessionId !in sessions)
      && (r.Err? && r.error.status == 403 <==> sessionId in sessions && sessions[sessionId].studentId != Some(userId))
      && (r.Err? && r.error.status == 400 <==>
            sessionId in sessions && sessions[sessionId].studentId == Some(userId) && sessions[sessionId].status != InProgress)
      && (r.Ok? <==>
            sessionId in sessions && sessions[sessionId].studentId == Some(userId) && sessions[sessionId].status == InProgress)
      && (r.Ok? ==> r.value == sessions[sessionId].(status := Completed, endedAt := Some(now)))
  {
  }

  /** Each successful step moves a session exactly one rank forward, and the
      only steps are assigned to in progress and in progress to completed. */
  lemma StepsMoveForward(sessions: map<Id, Session>, sessionId: Id, userId: Id, now: Time)
    ensures StartOutcome(sessions, sessionId, userId).Ok? ==>
      sessions[sessionId].status == Assigned && StartOutcome(sessions, sessionId, userId).value.status == InProgress
    ensures CompleteOutcome(sessions, sessionId, userId, now).Ok? ==>
      sessions[sessionId].status == InProgress && CompleteOutcome(sessions, sessionId, userId, now).value.status == Completed
    ensures StartOutcome(sessions, sessionId, userId).Ok? ==>
      Rank(StartOutcome(sessions, sessionId, userId).value.status) == Rank(sessions[sessionId].status) + 1
    ensures CompleteOutcome(sessions, sessionId, userId, now).Ok? ==>
      Rank(CompleteOutcome(sessions, sessionId, userId, now).value.status) == Rank(sessions[sessionId].status) + 1
  {
  }

  /** Nothing leaves `completed`. */
  lemma CompletedIsTerminal(sessions: map<Id, Session>, sessionId: Id, userId: Id, now: Time)
    requires sessionId in sessions && sessions[sessionId].status == Completed
    ensures StartOutcome(sessions, sessionId, userId).Err?
    ensures CompleteOutcome(sessions, sessionId, userId, now).Err?
  {
  }

  /** A request by a user or on a session, with its time. */
  datatype Request = StartRequest(sessionId: Id, userId: Id) | CompleteRequest(sessionId: Id, userId: Id, now: Time)

  function Handle(sessions: map<Id, Session>, q: Request): map<Id, Session> {
    match q
    case StartRequest(sid, uid) => Commit(sessions, sid, StartOutcome(sessions, sid, uid))
    case CompleteRequest(sid, uid, now) => Commit(sessions, sid, CompleteOutcome(sessions, sid, uid, now))
  }

  function HandleAll(sessions: map<Id, Session>, qs: seq<Request>): map<Id, Session>
    decreases |qs|
  {
    if |qs| == 0 then sessions else HandleAll(Handle(sessions, qs[0]), qs[1..])
  }

  lemma HandleKeeps(sessions: map<Id, Session>, q: Request)
    requires Consistent(sessions)
    ensures var t := Handle(sessions, q);
      && t.Keys == sessions.Keys
      && Consistent(t)
      && forall id :: id in sessions ==>
           (t[id] == sessions[id] || Rank(t[id].status) == Rank(sessions[id].status) + 1)
  {
  }

  /** Over any sequence of requests no row is added or removed, ranks never
      go down, `ended_at` stays set exactly on completed rows, and a row that
      reached `completed` from `assigned` passed through `in_progress`: at
      least two requests succeeded on it. */
  lemma {:induction false} HandleAllKeeps(sessions: map<Id, Session>, qs: seq<Request>)
    requires Consistent(sessions)
    ensures var t := HandleAll(sessions, qs);
      && t.Keys == sessions.Keys
      && Consistent(t)
      && (forall id :: id in sessions ==> Rank(sessions[id].status) <= Rank(t[id].status))
      && (forall id :: id in sessions ==> Rank(t[id].status) - Rank(sessions[id].status) <= Successes(sessions, qs, id))
    decreases |qs|
  {
    if |qs| > 0 {
      var s1 := Handle(sessions, qs[0]);
      HandleKeeps(sessions, qs[0]);
      HandleAllKeeps(s1, qs[1..]);
    }
  }

  /** The number of requests in `qs` that changed row `id`. */
  function Successes(sessions: map<Id, Session>, qs: seq<Request>, id: Id): nat
    decreases |qs|
  {
    if |qs| == 0 then 0
    else
      var s1 := Handle(sessions, qs[0]);
      (if id in sessions && id in s1 && s1[id] != sessions[id] then 1 else 0) + Successes(s1, qs[1..], id)
  }

  // ---------------------------------------------------------------------------
  // Completion as the source writes it: `datetime.now(datetime.UTC)` with the
  // class `datetime` imported, which has no attribute `UTC`

  /** What the client receives for the `AttributeError` raised after the
      guards: the status change is never committed. */
  const InternalError := HttpError(500, "Internal Server Error")

  function CompleteOutcomeAsWritten(sessions: map<Id, Session>, sessionId: Id, userId: Id): (r: Result<Session, HttpError>)
    ensures r.Err?
    ensures forall now :: r.error == InternalError <==> CompleteOutcome(sessions, sessionId, userId, now).Ok?
    ensures forall now :: r != Err(InternalError) ==> r == CompleteOutcome(sessions, sessionId, userId, now)
  {
    if sessionId !in sessions then Err(NotFound)
    else
      var s := sessions[sessionId];
      if s.studentId != Some(userId) then Err(HttpError(403, "This session is not assigned to you."))
      else if s.status != InProgress then Err(HttpError(400, "Session is not im progress"))
      else Err(InternalError)
  }

  function HandleAsWritten(sessions: map<Id, Session>, q: Request): map<Id, Session> {
    match q
    case StartRequest(sid, uid) => Commit(sessions, sid, StartOutcome(sessions, sid, uid))
    case CompleteRequest(sid, uid, _) => Commit(sessions, sid, CompleteOutcomeAsWritten(sessions, sid, uid))
  }

  function HandleAllAsWritten(sessions: map<Id, Session>, qs: seq<Request>): map<Id, Session>
    decreases |qs|
  {
    if |qs| == 0 then sessions else HandleAllAsWritten(HandleAsWritten(sessions, qs[0]), qs[1..])
  }

  /** As written, completing fails exactly where the intended handler
      succeeds, with a 500, and agrees with it on every guard. */
  lemma CompleteAlwaysFailsAsWritten(sessions: map<Id, Session>, sessionId: Id, userId: Id, now: Time)
    ensures CompleteOutcomeAsWritten(sessions, sessionId, userId).Err?
    ensures CompleteOutcome(sessions, sessionId, userId, now).Ok? ==>
      CompleteOutcomeAsWritten(sessions, sessionId, userId) == Err(InternalError)
    ensures CompleteOutcome(sessions, sessionId, userId, now).Err? ==>
      CompleteOutcomeAsWritten(sessions, sessionId, userId) == CompleteOutcome(sessions, sessionId, userId, now)
  {
  }

  /** As written, no sequence of requests ever completes a session. */
  lemma {:induction false} NeverCompletedAsWritten(sessions: map<Id, Session>, qs: seq<Request>, id: Id)
    requires id in sessions && sessions[id].status != Completed
    ensures id in HandleAllAsWritten(sessions, qs) && HandleAllAsWritten(sessions, qs)[id].status != Completed
    decreases |qs|
  {
    if |qs| > 0 {
      NeverCompletedAsWritten(HandleAsWritten(sessions, qs[0]), qs[1..], id);
    }
  }

  /** With the intended time stamp, a session that was just started can be
      completed by its student. */
  lemma CompletionReachable(sessions: map<Id, Session>, sessionId: Id, userId: Id, now: Time)
    requires sessionId in sessions && sessions[sessionId].studentId == Some(userId)
    requires sessions[sessionId].status == Assigned
    ensures var t := HandleAll(sessions, [StartRequest(sessionId, userId), CompleteRequest(sessionId, userId, now)]);
      sessionId in t && t[sessionId].status == Completed && t[sessionId].endedAt == Some(now)
    ensures var t := HandleAllAsWritten(sessions, [StartRequest(sessionId, userId), CompleteRequest(sessionId, userId, now)]);
      sessionId in t && t[sessionId].status == InProgress
  {
    var qs := [StartRequest(sessionId, userId), CompleteRequest(sessionId, userId, now)];
    assert qs[1..] == [CompleteRequest(sessionId, userId, now)] && qs[1..][1..] == [];
    var s1 := Handle(sessions, qs[0]);
    assert s1 == sessions[sessionId := sessions[sessionId].(status := InProgress)];
    assert HandleAll(sessions, qs) == HandleAll(Handle(s1, qs[1]), []);
    var w1 := HandleAsWritten(sessions, qs[0]);
    assert w1 == s1;
    assert HandleAsWritten(w1, qs[1]) == w1;
    assert HandleAllAsWritten(sessions, qs) == HandleAllAsWritten(w1, []);
  }

  /** The sessions table. */
  class SessionTable {
    var sessions: map<Id, Session>

    constructor (initial: map<Id, Session>)
      ensures sessions == initial
    {
      sessions := initial;
    }

    method Start(sessionId: Id, userId: Id) returns (r: Result<Session, HttpError>)
      modifies this
      ensures r == StartOutcome(old(sessions), sessionId, userId)
      ensures sessions == Commit(old(sessions), sessionId, r)
    {
      if sessionId !in sessions {
        return Err(NotFound);
      }
      var s := sessions[sessionId];
      if s.studentId != Some(userId) {
        return Err(HttpError(403, "This session is not assigned to you"));
      }
      if s.status != Assigned {
        return Err(HttpError(400, "Session has already been started"));
      }
      s := s.(status := InProgress);
      sessions := sessions[sessionId := s];
      r := Ok(s);
    }

    method Complete(sessionId: Id, userId: Id, now: Time) returns (r: Result<Session, HttpError>)
      modifies this
      ensures r == CompleteOutcome(old(sessions), sessionId, userId, now)
      ensures sessions == Commit(old(sessions), sessionId, r)
    {
      if sessionId !in sessions {
        return Err(NotFound);
      }
      var s := sessions[sessionId];
      if s.studentId != Some(userId) {
        return Err(HttpError(403, "This session is not assigned to you."));
      }
      if s.status != InProgress {
        return Err(HttpError(400, "Session is not im progress"));
      }
      s := s.(status := Completed, endedAt := Some(now));
      sessions := sessions[sessionId := s];
      r := Ok(s);
    }
  }
}
