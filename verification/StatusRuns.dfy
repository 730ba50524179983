/**
 Session statuses over whole runs: what the logged status changes say about the status
 a session has, and when they form one unbroken chain.
 */
module StatusRuns {
  import opened Options
  import opened SessionRows
  import opened Approvals
  import opened SessionServices
  import opened ControlPlane

  datatype Change = Change(previous: SessionStatus, current: SessionStatus)

  function ChangeOf(e: SessionEvent, id: Id): seq<Change>
  {
    if e.body.StatusChanged? && e.sessionId == id then [Change(e.body.previous, e.body.current)] else []
  }

  /** The logged status changes of one session. */
  function Changes(events: seq<SessionEvent>, id: Id): seq<Change>
  {
    if events == [] then []
    else Changes(events[..|events| - 1], id) + ChangeOf(events[|events| - 1], id)
  }

  /** The status that the log ends with. */
  function LastStatus(changes: seq<Change>, start: SessionStatus): SessionStatus
  {
    if changes == [] then start else changes[|changes| - 1].current
  }

  /** Folds the changes; None when one does not continue the one before. */
  function Fold(changes: seq<Change>, start: SessionStatus): Option<SessionStatus>
  {
    if changes == [] then Some(start)
    else
      var last := changes[|changes| - 1];
      if Fold(changes[..|changes| - 1], start) == Some(last.previous) then Some(last.current) else None
  }

  /** Sessions created during a run start as drafts. */
  function StatusOf(db: Db, id: Id): SessionStatus
  {
    if id < |db.sessions| then db.sessions[id].status else Draft
  }

  // ----- one step -----

  lemma OneMoreChange(events: seq<SessionEvent>, e: SessionEvent, id: Id)
    ensures Changes(events + [e], id) == Changes(events, id) + ChangeOf(e, id)
  {
    assert (events + [e])[..|events|] == events;
  }

  predicate ChangesNothing(events: seq<SessionEvent>)
  {
    forall i :: 0 <= i < |events| ==> !events[i].body.StatusChanged?
  }

  lemma {:induction false} NoChanges(events: seq<SessionEvent>, more: seq<SessionEvent>, id: Id)
    requires ChangesNothing(more)
    ensures Changes(events + more, id) == Changes(events, id)
  {
    if more == [] {
      assert events + more == events;
    } else {
      var n := |more| - 1;
      NoChanges(events, more[..n], id);
      var all := events + more;
      assert all[..|all| - 1] == events + more[..n];
      assert all[|all| - 1] == more[n];
      assert ChangeOf(more[n], id) == [];
    }
  }

  /** A start failure commits on a session that has left `planning`. */
  predicate LateFailure(db: Db, a: Action, id: Id)
  {
    && a.FailStart? && IsStart(db, a.job) && db.jobs[a.job].sessionId == Some(id)
    && GetSession(db, db.jobs[a.job].workspaceId, id).Some? && db.sessions[id].status != Planning
  }

  /** Either nothing is logged and the status stays, or one change to the new status is logged. */
  predicate Logs(before: seq<Change>, was: SessionStatus, after: seq<Change>, status: SessionStatus, late: bool)
  {
    || (!late && after == before && status == was)
    || (exists previous :: after == before + [Change(previous, status)] && (previous == was <==> !late))
  }

  predicate StepLogs(a: Db, b: Db, id: Id, late: bool)
  {
    Logs(Changes(a.events, id), StatusOf(a, id), Changes(b.events, id), StatusOf(b, id), late)
  }

  lemma QuietLogs(a: Db, b: Db, id: Id)
    requires a.events <= b.events && ChangesNothing(b.events[|a.events|..]) && StatusOf(a, id) == StatusOf(b, id)
    ensures StepLogs(a, b, id, false)
  {
    NoChanges(a.events, b.events[|a.events|..], id);
    assert b.events == a.events + b.events[|a.events|..];
  }

  lemma OneChangeLogs(before: seq<Change>, was: SessionStatus, previous: SessionStatus, status: SessionStatus)
    ensures Logs(before, was, before + [Change(previous, status)], status, previous != was)
  {
  }

  lemma ChangesOfLogged(before: seq<SessionEvent>, events: seq<SessionEvent>, e: SessionEvent, id: Id)
    requires before <= events && ChangesNothing(events[|before|..])
    ensures Changes(events + [e], id) == Changes(before, id) + ChangeOf(e, id)
  {
    NoChanges(before, events[|before|..], id);
    assert events == before + events[|before|..];
    OneMoreChange(events, e, id);
  }

  /** A logged change, after entries that change no status. */
  lemma LoggedLogs(
    a: Db, b: Db, sid: Id, previous: SessionStatus, status: SessionStatus, summary: Option<string>, now: Time, id: Id)
    requires sid < |a.sessions| && b.sessions == a.sessions
    requires a.events <= b.events && ChangesNothing(b.events[|a.events|..])
    ensures StepLogs(a, Logged(b, sid, previous, status, summary, now), id, id == sid && previous != a.sessions[sid].status)
  {
    var e := SessionEvent(b.sessions[sid].workspaceId, sid, StatusChanged(previous, status));
    ChangesOfLogged(a.events, b.events, e, id);
    OneChangeLogs(Changes(a.events, id), StatusOf(a, id), previous, status);
  }

  lemma ResumedLogs(db: Db, sid: Id, now: Time, id: Id)
    requires sid < |db.sessions|
    ensures StepLogs(db, Resumed(db, sid, now), id, false)
  {
    var s := db.sessions[sid];
    if s.status == SessionStatus.AwaitingApproval {
      LoggedLogs(db, db, sid, s.status, SessionStatus.Running, None, now, id);
      assert Logged(db, sid, s.status, SessionStatus.Running, None, now) == Resumed(db, sid, now);
    }
  }

  lemma ChangesAfter(before: seq<SessionEvent>, all: seq<SessionEvent>, id: Id)
    requires before <= all && ChangesNothing(all[|before|..])
    ensures Changes(all, id) == Changes(before, id)
  {
    NoChanges(before, all[|before|..], id);
    assert all == before + all[|before|..];
  }

  lemma SameLogs(a: Db, b: Db, c: Db, id: Id)
    requires StepLogs(a, b, id, false)
    requires Changes(c.events, id) == Changes(b.events, id) && StatusOf(c, id) == StatusOf(b, id)
    ensures StepLogs(a, c, id, false)
  {
  }

  /** What follows the resumed session in the log changes no status. */
  lemma AfterResumedLogs(db: Db, sid: Id, now: Time, b: Db, id: Id)
    requires sid < |db.sessions| && b.sessions == Resumed(db, sid, now).sessions
    requires Resumed(db, sid, now).events <= b.events
    requires ChangesNothing(b.events[|Resumed(db, sid, now).events|..])
    ensures StepLogs(db, b, id, false)
  {
    var resumed := Resumed(db, sid, now);
    ResumedLogs(db, sid, now, id);
    ChangesAfter(resumed.events, b.events, id);
    SameLogs(db, resumed, b, id);
  }

  lemma ApproveLogs(db: Db, auth: Auth, id: Id, note: Option<string>, now: Time, sid: Id)
    requires ApproveTx(db, auth, id, note, now).Ok?
    ensures StepLogs(db, ApproveTx(db, auth, id, note, now).value.0, sid, false)
  {
    AfterResumedLogs(db, db.approvals[id].sessionId, now, ApproveTx(db, auth, id, note, now).value.0, sid);
  }

  lemma DenyLogs(db: Db, auth: Auth, id: Id, note: Option<string>, now: Time, sid: Id)
    requires DenyTx(db, auth, id, note, now).Ok?
    ensures StepLogs(db, DenyTx(db, auth, id, note, now).value, sid, false)
  {
    AfterResumedLogs(db, db.approvals[id].sessionId, now, DenyTx(db, auth, id, note, now).value, sid);
  }

  lemma RequestLogs(db: Db, sid: Id, step: Id, policy: string, now: Time, id: Id)
    requires sid < |db.sessions|
    ensures StepLogs(db, RequestTx(db, sid, step, policy, now), id, false)
  {
    var s := db.sessions[sid];
    var tc := |db.toolCalls|;
    var asked := db.(
      toolCalls := db.toolCalls + [NewToolCall(s.workspaceId, sid, ToolCallStatus.AwaitingApproval, Some(policy), None)],
      approvals := db.approvals + [NewApproval(s.workspaceId, sid, Some(step), Some(tc))],
      events := db.events + [SessionEvent(s.workspaceId, sid, ApprovalRequested(|db.approvals|, tc))]);
    LoggedLogs(db, asked, sid, s.status, SessionStatus.AwaitingApproval, None, now, id);
  }

  lemma TransitionLogs(
    db: Db, b: Db, ws: Id, sid: Id, allowed: set<SessionStatus>, status: SessionStatus, summary: Option<string>,
    now: Time, id: Id)
    requires b.sessions == db.sessions && b.events == db.events
    ensures StepLogs(db, Committed(b, TransitionTx(b, ws, sid, allowed, status, summary, now)), id, false)
  {
    if TransitionTx(b, ws, sid, allowed, status, summary, now).Ok? {
      LoggedLogs(db, b, sid, db.sessions[sid].status, status, summary, now, id);
    }
  }

  lemma FailStartLogs(w: World, job: Id, error: string, now: Time, id: Id)
    ensures StepLogs(w.db, Apply(w, FailStart(job, error, now)).db, id, LateFailure(w.db, FailStart(job, error, now), id))
  {
    var db := w.db;
    if IsStart(db, job) {
      var ws, sid := db.jobs[job].workspaceId, db.jobs[job].sessionId.value;
      if GetSession(db, ws, sid).Some? {
        LoggedLogs(db, FailTx(db, job, error, now), sid, Planning, SessionStatus.Failed, None, now, id);
        assert GetJob(db, ws, job).Some?;
      }
    }
  }

  lemma StartLogs(db: Db, ws: Id, sid: Id, now: Time, id: Id)
    requires StartTx(db, ws, sid, now).Ok?
    ensures StepLogs(db, StartTx(db, ws, sid, now).value.0, id, false)
  {
    TransitionLogs(db, db, ws, sid, {Draft}, Planning, None, now, id);
  }

  lemma SessionStepLogs(w: World, a: Action, id: Id)
    requires a.StartSession? || a.FailStart? || a.StopSession? || a.Transition?
    ensures StepLogs(w.db, Apply(w, a).db, id, LateFailure(w.db, a, id))
  {
    var db := w.db;
    match a
    case StartSession(ws, sid, now) =>
      if StartTx(db, ws, sid, now).Ok? {
        StartLogs(db, ws, sid, now, id);
      }
    case FailStart(job, error, now) =>
      FailStartLogs(w, job, error, now, id);
    case StopSession(ws, sid, now) =>
      TransitionLogs(db, Swept(db, ws, sid, now), ws, sid, STOPPABLE, Stopped, None, now, id);
    case Transition(ws, sid, allowed, status, summary, now) =>
      TransitionLogs(db, db, ws, sid, allowed, status, summary, now, id);
    case CreateSession(_) =>
  }

  lemma ApprovalStepLogs(w: World, a: Action, id: Id)
    requires a.Approve? || a.Deny? || a.RequestApproval?
    ensures StepLogs(w.db, Apply(w, a).db, id, false)
  {
    var db := w.db;
    match a
    case Approve(auth, ap, note, now) =>
      if ApproveTx(db, auth, ap, note, now).Ok? {
        ApproveLogs(db, auth, ap, note, now, id);
      }
    case Deny(auth, ap, note, now) =>
      if DenyTx(db, auth, ap, note, now).Ok? {
        DenyLogs(db, auth, ap, note, now, id);
      }
    case RequestApproval(sid, step, policy, now) =>
      if sid < |db.sessions| {
        RequestLogs(db, sid, step, policy, now, id);
      }
    case CreateSession(_) =>
  }

  lemma OtherStepLogs(w: World, a: Action, id: Id)
    requires !a.Approve? && !a.Deny? && !a.RequestApproval?
    requires !a.StartSession? && !a.FailStart? && !a.StopSession? && !a.Transition?
    ensures StepLogs(w.db, Apply(w, a).db, id, false)
  {
    QuietLogs(w.db, Apply(w, a).db, id);
  }

  lemma StepIsLogged(w: World, a: Action, id: Id)
    ensures StepLogs(w.db, Apply(w, a).db, id, LateFailure(w.db, a, id))
  {
    if a.StartSession? || a.FailStart? || a.StopSession? || a.Transition? {
      SessionStepLogs(w, a, id);
    } else if a.Approve? || a.Deny? || a.RequestApproval? {
      ApprovalStepLogs(w, a, id);
    } else {
      OtherStepLogs(w, a, id);
    }
  }

  // ----- whole runs -----

  /** In every run the last logged change of a session names the status it has. */
  lemma {:induction false} RunLastStatus(worlds: seq<World>, actions: seq<Action>, n: nat, id: Id)
    requires IsRun(worlds, actions) && n < |worlds|
    ensures LastStatus(Changes(worlds[n].db.events, id), StatusOf(worlds[0].db, id)) == StatusOf(worlds[n].db, id)
  {
    if n == 0 {
    } else {
      RunLastStatus(worlds, actions, n - 1, id);
      StepIsLogged(worlds[n - 1], actions[n - 1], id);
    }
  }

  /** Some start failure before step `n` commits on session `id` after it has left `planning`. */
  ghost predicate FailsLate(worlds: seq<World>, actions: seq<Action>, n: nat, id: Id)
    requires |worlds| == |actions| + 1 && n < |worlds|
  {
    exists m :: 0 <= m < n && LateFailure(worlds[m].db, actions[m], id)
  }

  lemma FoldOneMore(changes: seq<Change>, c: Change, start: SessionStatus)
    ensures Fold(changes + [c], start) == if Fold(changes, start) == Some(c.previous) then Some(c.current) else None
  {
    assert (changes + [c])[..|changes|] == changes;
  }

  lemma FoldStep(
    before: seq<Change>, was: SessionStatus, after: seq<Change>, status: SessionStatus, late: bool, start: SessionStatus)
    requires Logs(before, was, after, status, late)
    requires Fold(before, start) == None || Fold(before, start) == Some(was)
    ensures Fold(after, start) == if late || Fold(before, start) == None then None else Some(status)
  {
    if late || after != before {
      var previous :| after == before + [Change(previous, status)] && (previous == was <==> !late);
      FoldOneMore(before, Change(previous, status), start);
    }
  }

  lemma OneMoreStepFailsLate(worlds: seq<World>, actions: seq<Action>, n: nat, id: Id)
    requires |worlds| == |actions| + 1 && 0 < n < |worlds|
    ensures FailsLate(worlds, actions, n, id)
      <==> FailsLate(worlds, actions, n - 1, id) || LateFailure(worlds[n - 1].db, actions[n - 1], id)
  {
  }

  /**
   In every run, with any number of approvals pending on one session, folding the logged
   changes over the starting status gives the current status, exactly as long as no start
   failure commits on the session after it has left `planning`. After one, the chain is
   broken for good.
   */
  lemma {:induction false} RunReplaysExactlyWithoutLateFailures(
    worlds: seq<World>, actions: seq<Action>, n: nat, id: Id)
    requires IsRun(worlds, actions) && n < |worlds|
    ensures Fold(Changes(worlds[n].db.events, id), StatusOf(worlds[0].db, id))
      == if FailsLate(worlds, actions, n, id) then None else Some(StatusOf(worlds[n].db, id))
  {
    if n == 0 {
    } else {
      RunReplaysExactlyWithoutLateFailures(worlds, actions, n - 1, id);
      var a, b := worlds[n - 1].db, worlds[n].db;
      StepIsLogged(worlds[n - 1], actions[n - 1], id);
      OneMoreStepFailsLate(worlds, actions, n, id);
      FoldStep(Changes(a.events, id), StatusOf(a, id), Changes(b.events, id), StatusOf(b, id),
               LateFailure(a, actions[n - 1], id), StatusOf(worlds[0].db, id));
    }
  }

  // ----- a run that breaks the chain -----

  /** The tables with one session, after the given changes of its status. */
  function Table(ws: Id, s: Session, jobs: seq<Job>, changes: seq<Change>): Db
  {
    Db([s], [], [], [], jobs,
       seq(|changes|, i requires 0 <= i < |changes| =>
         SessionEvent(ws, 0, StatusChanged(changes[i].previous, changes[i].current))), [])
  }

  lemma {:induction false} ChangesOfTable(ws: Id, s: Session, jobs: seq<Job>, changes: seq<Change>)
    ensures Changes(Table(ws, s, jobs, changes).events, 0) == changes
  {
    if changes == [] {
    } else {
      var n := |changes| - 1;
      var events := Table(ws, s, jobs, changes).events;
      ChangesOfTable(ws, s, jobs, changes[..n]);
      assert events[..n] == Table(ws, s, jobs, changes[..n]).events;
      assert changes == changes[..n] + [changes[n]];
    }
  }

  /** One logged change of that table. */
  lemma LoggedTable(ws: Id, s: Session, jobs: seq<Job>, changes: seq<Change>, c: Change, now: Time)
    requires s.workspaceId == ws
    ensures Logged(Table(ws, s, jobs, changes), 0, c.previous, c.current, None, now)
      == Table(ws, SessionWithStatus(s, c.current, None, now), jobs, changes + [c])
  {
    assert Logged(Table(ws, s, jobs, changes), 0, c.previous, c.current, None, now).events
      == Table(ws, SessionWithStatus(s, c.current, None, now), jobs, changes + [c]).events;
  }

  const TO_PLANNING := Change(Draft, Planning)
  const TO_RUNNING := Change(Planning, SessionStatus.Running)
  const TO_FAILED := Change(Planning, SessionStatus.Failed)

  lemma StartOfTable(ws: Id, s: Session, changes: seq<Change>, now: Time)
    requires s.workspaceId == ws && s.status == Draft && s.deletedAt.None?
    ensures Next(Table(ws, s, [], changes), {}, StartSession(ws, 0, now))
      == Table(ws, SessionWithStatus(s, Planning, None, now),
               [NewJob(ws, Some(0), PlanSession, SessionPayload(0), 1, now)], changes + [Change(Draft, Planning)])
  {
    LoggedTable(ws, s, [], changes, Change(Draft, Planning), now);
  }

  lemma TransitionOfTable(ws: Id, s: Session, jobs: seq<Job>, changes: seq<Change>, status: SessionStatus, now: Time)
    requires s.workspaceId == ws && s.deletedAt.None?
    ensures Next(Table(ws, s, jobs, changes), {}, Transition(ws, 0, {s.status}, status, None, now))
      == Table(ws, SessionWithStatus(s, status, None, now), jobs, changes + [Change(s.status, status)])
  {
    LoggedTable(ws, s, jobs, changes, Change(s.status, status), now);
  }

  lemma FailedStartOfTable(ws: Id, s: Session, job: Job, changes: seq<Change>, error: string, now: Time)
    requires s.workspaceId == ws && s.deletedAt.None?
    requires job.workspaceId == ws && job.jobType == PlanSession && job.sessionId == Some(0)
    ensures Next(Table(ws, s, [job], changes), {}, FailStart(0, error, now))
      == Table(ws, SessionWithStatus(s, SessionStatus.Failed, None, now), [FailedJob(job, error, now)],
               changes + [Change(Planning, SessionStatus.Failed)])
  {
    var lost := [FailedJob(job, error, now)];
    assert FailTx(Table(ws, s, [job], changes), 0, error, now) == Table(ws, s, lost, changes);
    LoggedTable(ws, s, lost, changes, Change(Planning, SessionStatus.Failed), now);
  }

  /**
   Such runs exist: the broker takes the planning job, the enqueue still fails, and the
   planner is done before the failure commits. The log then goes from planning to running
   and from planning to failed.
   */
  lemma StartFailureCanBreakTheChain(ws: Id, now: Time) returns (worlds: seq<World>, actions: seq<Action>)
    ensures IsRun(worlds, actions)
    ensures var db := worlds[|actions|].db;
      && StatusOf(db, 0) == SessionStatus.Failed
      && Changes(db.events, 0) == [TO_PLANNING, TO_RUNNING, TO_FAILED]
      && Fold(Changes(db.events, 0), Draft) == None
  {
    var draft := Session(ws, Draft, None, None, None, None);
    var planning := SessionWithStatus(draft, Planning, None, now);
    var running := SessionWithStatus(planning, SessionStatus.Running, None, now);
    var failed := SessionWithStatus(running, SessionStatus.Failed, None, now);
    var job := NewJob(ws, Some(0), PlanSession, SessionPayload(0), 1, now);
    var lost := FailedJob(job, "no reply", now);
    var a0, a1, a2 := StartSession(ws, 0, now), Transition(ws, 0, {Planning}, SessionStatus.Running, None, now),
                      FailStart(0, "no reply", now);
    var w0, w1, w2, w3 :=
      World(Table(ws, draft, [], []), {}, []),
      World(Table(ws, planning, [job], [TO_PLANNING]), {}, []),
      World(Table(ws, running, [job], [TO_PLANNING, TO_RUNNING]), {}, []),
      World(Table(ws, failed, [lost], [TO_PLANNING, TO_RUNNING, TO_FAILED]), {}, []);
    assert w1 == Apply(w0, a0) by { StartOfTable(ws, draft, [], now); }
    assert w2 == Apply(w1, a1) by { TransitionOfTable(ws, planning, [job], [TO_PLANNING], SessionStatus.Running, now); }
    assert w3 == Apply(w2, a2) by { FailedStartOfTable(ws, running, job, [TO_PLANNING, TO_RUNNING], "no reply", now); }
    assert Start(w0);
    worlds, actions := [w0, w1, w2, w3], [a0, a1, a2];
    ChangesOfTable(ws, failed, [lost], [TO_PLANNING, TO_RUNNING, TO_FAILED]);
    ThisChainBreaks();
  }

  lemma ThisChainBreaks()
    ensures Fold([TO_PLANNING, TO_RUNNING, TO_FAILED], Draft) == None
  {
    FoldOneMore([TO_PLANNING, TO_RUNNING], TO_FAILED, Draft);
    FoldOneMore([TO_PLANNING], TO_RUNNING, Draft);
  }
}
