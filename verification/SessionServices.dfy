/**
 What changes a session besides its approvals: starting, pausing and stopping it, and the
 agent that asks for an approval or queues a terminal command.
 */
module SessionServices {
  import opened Options
  import opened SessionRows
  import opened SessionRepositories
  import opened Approvals

  // ----- transactions -----

  /** A status change with its log entry, which names `previous` as the status it left. */
  function Logged(
    db: Db, sessionId: Id, previous: SessionStatus, status: SessionStatus, summary: Option<string>, now: Time): Db
    requires sessionId < |db.sessions|
  {
    var s := db.sessions[sessionId];
    db.(
      sessions := db.sessions[sessionId := SessionWithStatus(s, status, summary, now)],
      events := db.events + [SessionEvent(s.workspaceId, sessionId, StatusChanged(previous, status))])
  }

  function TransitionTx(
    db: Db, workspaceId: Id, sessionId: Id, allowed: set<SessionStatus>, status: SessionStatus,
    summary: Option<string>, now: Time): Result<Db, ServiceError>
  {
    if GetSession(db, workspaceId, sessionId).None? then Err(NotFound)
    else if db.sessions[sessionId].status !in allowed then Err(Conflict)
    else Ok(Logged(db, sessionId, db.sessions[sessionId].status, status, summary, now))
  }

  /** The first commit of `start_session`; the planning job's id comes with it. */
  function StartTx(db: Db, workspaceId: Id, sessionId: Id, now: Time): Result<(Db, Id), ServiceError>
  {
    match TransitionTx(db, workspaceId, sessionId, {Draft}, Planning, None, now)
    case Err(error) => Err(error)
    case Ok(planning) =>
      Ok((planning.(
            jobs := db.jobs + [NewJob(workspaceId, Some(sessionId), PlanSession, SessionPayload(sessionId), 1, now)]),
          |db.jobs|))
  }

  /**
   What `start_session` commits when its enqueue fails. It does not look at the status the
   session has by then, and always logs that the session left `planning`.
   */
  function FailedStartTx(db: Db, workspaceId: Id, sessionId: Id, job: Id, error: string, now: Time): Db
  {
    if GetSession(db, workspaceId, sessionId).None? then db
    else
      var failed := if GetJob(db, workspaceId, job).Some? then FailTx(db, job, error, now) else db;
      Logged(failed, sessionId, Planning, SessionStatus.Failed, None, now)
  }

  const STOPPABLE: set<SessionStatus> :=
    {Planning, SessionStatus.Running, Paused, SessionStatus.AwaitingApproval}

  function Swept(db: Db, workspaceId: Id, sessionId: Id, now: Time): Db
  {
    db.(jobs := SweptJobs(db.jobs, workspaceId, sessionId, now),
        toolCalls := SweptToolCalls(db.toolCalls, workspaceId, sessionId, now))
  }

  /** Stopping sweeps the session's queued jobs and active tool calls before the status change. */
  function StopTx(db: Db, workspaceId: Id, sessionId: Id, now: Time): Result<Db, ServiceError>
  {
    if GetSession(db, workspaceId, sessionId).Some? && db.sessions[sessionId].status in STOPPABLE then
      TransitionTx(Swept(db, workspaceId, sessionId, now), workspaceId, sessionId, STOPPABLE, Stopped, None, now)
    else TransitionTx(db, workspaceId, sessionId, STOPPABLE, Stopped, None, now)
  }

  /** The agent asks: a waiting tool call, a pending approval, and a session that waits for it. */
  function RequestTx(db: Db, sessionId: Id, stepId: Id, policy: string, now: Time): Db
    requires sessionId < |db.sessions|
  {
    var s := db.sessions[sessionId];
    var ws, tc, id := s.workspaceId, |db.toolCalls|, |db.approvals|;
    Logged(
      db.(
        toolCalls := db.toolCalls + [NewToolCall(ws, sessionId, ToolCallStatus.AwaitingApproval, Some(policy), None)],
        approvals := db.approvals + [NewApproval(ws, sessionId, Some(stepId), Some(tc))],
        events := db.events + [SessionEvent(ws, sessionId, ApprovalRequested(id, tc))]),
      sessionId, s.status, SessionStatus.AwaitingApproval, None, now)
  }

  /** A command that needs no approval: a queued tool call, its job, and the log entry. */
  function QueueTx(db: Db, sessionId: Id, policy: string, now: Time): (Db, Id)
    requires sessionId < |db.sessions|
  {
    var ws, tc, job := db.sessions[sessionId].workspaceId, |db.toolCalls|, |db.jobs|;
    (db.(
       toolCalls := db.toolCalls + [NewToolCall(ws, sessionId, ToolCallStatus.Queued, Some(policy), None)],
       jobs := db.jobs + [NewJob(ws, Some(sessionId), ExecuteToolCall, ToolCallPayload(tc, sessionId), 1, now)],
       events := db.events + [SessionEvent(ws, sessionId, ToolCallQueued(tc, job))]),
     job)
  }

  // ----- the services -----

  class SessionService {
    const repository: SessionRepository
    const queue: QueueClient

    constructor (repository: SessionRepository, queue: QueueClient)
      ensures this.repository == repository && this.queue == queue
    {
      this.repository, this.queue := repository, queue;
    }

    method LogStatus(sid: Id, previous: SessionStatus, status: SessionStatus, now: Time)
      requires sid < |repository.sessions|
      modifies repository
      ensures repository.committed == old(repository.committed)
      ensures repository.State() == Logged(old(repository.State()), sid, previous, status, None, now)
    {
      repository.UpdateSessionStatus(sid, status, None, now);
      repository.CreateEvent(repository.sessions[sid].workspaceId, sid, StatusChanged(previous, status));
    }

    method Transition(ws: Id, sid: Id, allowed: set<SessionStatus>, status: SessionStatus, now: Time)
      returns (r: Result<(), ServiceError>)
      requires repository.State() == repository.committed
      modifies repository
      ensures repository.State() == repository.committed
      ensures match TransitionTx(old(repository.committed), ws, sid, allowed, status, None, now)
        case Err(error) => r == Err(error) && repository.committed == old(repository.committed)
        case Ok(db) => r == Ok(()) && repository.committed == db
    {
      var session := GetSession(repository.State(), ws, sid);
      if session.None? {
        return Err(NotFound);
      }
      if session.value.status !in allowed {
        return Err(Conflict);
      }
      LogStatus(sid, session.value.status, status, now);
      repository.Commit();
      return Ok(());
    }

    method StopSession(ws: Id, sid: Id, now: Time) returns (r: Result<(), ServiceError>)
      requires repository.State() == repository.committed
      modifies repository
      ensures repository.State() == repository.committed
      ensures match StopTx(old(repository.committed), ws, sid, now)
        case Err(error) => r == Err(error) && repository.committed == old(repository.committed)
        case Ok(db) => r == Ok(()) && repository.committed == db
    {
      var session := GetSession(repository.State(), ws, sid);
      if session.None? {
        return Err(NotFound);
      }
      if session.value.status !in STOPPABLE {
        return Err(Conflict);
      }
      var jobs := repository.CancelQueuedSessionJobs(ws, sid, now);
      var calls := repository.CancelActiveToolCalls(ws, sid, now);
      LogStatus(sid, session.value.status, Stopped, now);
      repository.Commit();
      return Ok(());
    }

    /** Up to the first commit of `start_session`. */
    method CommitStart(ws: Id, sid: Id, now: Time) returns (r: Result<Id, ServiceError>)
      requires repository.State() == repository.committed
      modifies repository
      ensures repository.State() == repository.committed
      ensures match StartTx(old(repository.committed), ws, sid, now)
        case Err(error) => r == Err(error) && repository.committed == old(repository.committed)
        case Ok((db, job)) => r == Ok(job) && repository.committed == db
    {
      var session := GetSession(repository.State(), ws, sid);
      if session.None? {
        return Err(NotFound);
      }
      if session.value.status != Draft {
        return Err(Conflict);
      }
      LogStatus(sid, session.value.status, Planning, now);
      var job := repository.CreateJob(ws, Some(sid), PlanSession, SessionPayload(sid), now);
      repository.Commit();
      return Ok(job);
    }

    method FailStart(ws: Id, sid: Id, job: Id, error: string, now: Time)
      requires repository.State() == repository.committed
      modifies repository
      ensures repository.State() == repository.committed
      ensures repository.committed == FailedStartTx(old(repository.committed), ws, sid, job, error, now)
    {
      var reloaded := GetJob(repository.State(), ws, job);
      var session := GetSession(repository.State(), ws, sid);
      if session.None? {
        return;
      }
      if reloaded.Some? {
        repository.FailJob(job, error, now);
      }
      LogStatus(sid, Planning, SessionStatus.Failed, now);
      repository.Commit();
    }

    method StartSession(ws: Id, sid: Id, now: Time, outcome: EnqueueOutcome) returns (r: Result<(), ServiceError>)
      requires repository.State() == repository.committed
      modifies repository, queue
      ensures repository.State() == repository.committed
      ensures match StartTx(old(repository.committed), ws, sid, now)
        case Err(error) =>
          && r == Err(error)
          && repository.committed == old(repository.committed)
          && queue.accepted == old(queue.accepted)
        case Ok((db, job)) =>
          && queue.accepted == (if outcome.accepted then old(queue.accepted) + [job] else old(queue.accepted))
          && (match EnqueueError(outcome)
              case None => r == Ok(()) && repository.committed == ConfirmTx(db, job, outcome.reply.value)
              case Some(error) =>
                r == Err(NotEnqueued) && repository.committed == FailedStartTx(db, ws, sid, job, error, now))
    {
      var first := CommitStart(ws, sid, now);
      if first.Err? {
        return Err(first.error);
      }
      var job := first.value;
      var reply := queue.Enqueue(job, outcome);
      if reply.Ok? {
        repository.MarkJobEnqueued(job, reply.value);
        if outcome.commitError.None? {
          repository.Commit();
          return Ok(());
        }
      }
      repository.Rollback();
      FailStart(ws, sid, job, EnqueueError(outcome).value, now);
      return Err(NotEnqueued);
    }
  }

  class AgentRunner {
    const repository: SessionRepository

    constructor (repository: SessionRepository)
      ensures this.repository == repository
    {
      this.repository := repository;
    }

    method RequestApproval(sid: Id, stepId: Id, policy: string, now: Time)
      requires sid < |repository.sessions|
      modifies repository
      ensures repository.committed == old(repository.committed)
      ensures repository.State() == RequestTx(old(repository.State()), sid, stepId, policy, now)
    {
      var session := repository.sessions[sid];
      var tc := repository.CreateToolCall(
        session.workspaceId, sid, ToolCallStatus.AwaitingApproval, Some(policy), None);
      var id := repository.CreateApprovalRequest(session.workspaceId, sid, Some(stepId), Some(tc));
      repository.UpdateSessionStatus(sid, SessionStatus.AwaitingApproval, None, now);
      repository.CreateEvent(session.workspaceId, sid, ApprovalRequested(id, tc));
      repository.CreateEvent(
        session.workspaceId, sid, StatusChanged(session.status, SessionStatus.AwaitingApproval));
    }

    method QueueTerminalTool(sid: Id, policy: string, now: Time) returns (job: Id)
      requires sid < |repository.sessions|
      modifies repository
      ensures repository.State() == repository.committed
      ensures (repository.committed, job) == QueueTx(old(repository.State()), sid, policy, now)
    {
      var ws := repository.sessions[sid].workspaceId;
      var tc := repository.CreateToolCall(ws, sid, ToolCallStatus.Queued, Some(policy), None);
      job := repository.CreateJob(ws, Some(sid), ExecuteToolCall, ToolCallPayload(tc, sid), now);
      repository.CreateEvent(ws, sid, ToolCallQueued(tc, job));
      repository.Commit();
    }
  }
}
