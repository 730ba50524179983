/**
 Approving and denying tool calls. Each database transaction is a function from the
 committed tables to the next committed tables; the service performs it call by call.
 */
module Approvals {
  import opened Options
  import opened SessionRows
  import opened SessionRepositories

  datatype Auth = Auth(workspaceId: Id, userId: Id)

  datatype ServiceError = NotFound | Conflict | NotEnqueued

  // ----- transactions -----

  /** Both resolutions put a session that waits for approval back to running, and log it. */
  function Resumed(db: Db, sessionId: Id, now: Time): Db
    requires sessionId < |db.sessions|
  {
    var s := db.sessions[sessionId];
    if s.status != SessionStatus.AwaitingApproval then db
    else db.(
      sessions := db.sessions[sessionId := SessionWithStatus(s, SessionStatus.Running, None, now)],
      events := db.events
        + [SessionEvent(s.workspaceId, sessionId, StatusChanged(s.status, SessionStatus.Running))])
  }

  function WithApproval(db: Db, id: Id, status: ApprovalStatus, auth: Auth, note: Option<string>, now: Time): Db
    requires id < |db.approvals|
  {
    db.(approvals := db.approvals[id := ResolvedApproval(db.approvals[id], status, auth.userId, note, now)])
  }

  function WithEvent(db: Db, workspaceId: Id, sessionId: Id, body: EventBody): Db
  {
    db.(events := db.events + [SessionEvent(workspaceId, sessionId, body)])
  }

  /** Why `approve` refuses, in the order it checks. */
  function ApproveGuard(db: Db, auth: Auth, id: Id): Option<ServiceError>
  {
    var approval := GetApproval(db, auth.workspaceId, id);
    if approval.None? then Some(NotFound)
    else if approval.value.status != Pending || approval.value.toolCallId.None? then Some(Conflict)
    else if GetSession(db, auth.workspaceId, approval.value.sessionId).None?
         || GetToolCall(db, auth.workspaceId, approval.value.toolCallId.value).None? then Some(NotFound)
    else None
  }

  /** The first commit of `approve`; the new job's id comes with it. */
  function ApproveTx(db: Db, auth: Auth, id: Id, note: Option<string>, now: Time): Result<(Db, Id), ServiceError>
  {
    if ApproveGuard(db, auth, id).Some? then Err(ApproveGuard(db, auth, id).value)
    else
      var ws, sid, tc := auth.workspaceId, db.approvals[id].sessionId, db.approvals[id].toolCallId.value;
      var job := |db.jobs|;
      var resolved := WithApproval(db, id, Approved, auth, note, now);
      var queued := resolved.(
        toolCalls := db.toolCalls[tc := ToolCallWithStatus(db.toolCalls[tc], ToolCallStatus.Queued, None, None, now)]);
      var resumed := Resumed(queued, sid, now);
      var jobbed := resumed.(jobs := db.jobs + [NewJob(ws, Some(sid), ExecuteToolCall, ToolCallPayload(tc, sid), 1, now)]);
      var logged := WithEvent(WithEvent(jobbed, ws, sid, ApprovalResolved(id, Approved)), ws, sid, ToolCallQueued(tc, job));
      Ok((logged.(audit := db.audit + [ApprovalApproved(ws, id, tc, job)]), job))
  }

  function DenyGuard(db: Db, auth: Auth, id: Id): Option<ServiceError>
  {
    var approval := GetApproval(db, auth.workspaceId, id);
    if approval.None? then Some(NotFound)
    else if approval.value.status != Pending then Some(Conflict)
    else if GetSession(db, auth.workspaceId, approval.value.sessionId).None? then Some(NotFound)
    else None
  }

  const DENIAL := Outcome(ToolCallStatus.Denied, None, None, Some("Approval was denied."), None, None)

  /** A linked tool call or step that is not found is passed over. */
  function DeniedToolCalls(db: Db, approval: Approval, now: Time): seq<ToolCall>
  {
    if approval.toolCallId.Some? && GetToolCall(db, approval.workspaceId, approval.toolCallId.value).Some? then
      var tc := approval.toolCallId.value;
      db.toolCalls[tc := FinishedToolCall(db.toolCalls[tc], DENIAL, now)]
    else db.toolCalls
  }

  function ReadiedSteps(db: Db, approval: Approval, now: Time): seq<Step>
  {
    if approval.stepId.Some? && GetStep(db, approval.workspaceId, approval.stepId.value).Some? then
      db.steps[approval.stepId.value := StepWithStatus(db.steps[approval.stepId.value], StepStatus.Ready, now)]
    else db.steps
  }

  function DenyTx(db: Db, auth: Auth, id: Id, note: Option<string>, now: Time): Result<Db, ServiceError>
  {
    if DenyGuard(db, auth, id).Some? then Err(DenyGuard(db, auth, id).value)
    else
      var approval := db.approvals[id];
      var denied := WithApproval(db, id, ApprovalStatus.Denied, auth, note, now).(
        toolCalls := DeniedToolCalls(db, approval, now), steps := ReadiedSteps(db, approval, now));
      var resumed := Resumed(denied, approval.sessionId, now);
      var logged := WithEvent(resumed, auth.workspaceId, approval.sessionId, ApprovalResolved(id, ApprovalStatus.Denied));
      Ok(logged.(audit := db.audit + [ApprovalDenied(auth.workspaceId, id)]))
  }

  // ----- the queue -----

  /**
   What becomes of one enqueue: whether the broker took the message, what the call returned
   or raised, and whether the commit after it failed.
   */
  datatype EnqueueOutcome = EnqueueOutcome(
    accepted: bool, reply: Result<Option<string>, string>, commitError: Option<string>)

  function EnqueueError(outcome: EnqueueOutcome): Option<string>
  {
    if outcome.reply.Err? then Some(outcome.reply.error) else outcome.commitError
  }

  function ConfirmTx(db: Db, job: Id, taskId: Option<string>): Db
  {
    if job < |db.jobs| then db.(jobs := db.jobs[job := EnqueuedJob(db.jobs[job], taskId)]) else db
  }

  function FailTx(db: Db, job: Id, error: string, now: Time): Db
  {
    if job < |db.jobs| then db.(jobs := db.jobs[job := FailedJob(db.jobs[job], error, now)]) else db
  }

  /** The commit that follows the enqueue: the mark, or the failure after a rollback. */
  function AfterEnqueue(db: Db, job: Id, outcome: EnqueueOutcome, now: Time): Db
  {
    match EnqueueError(outcome)
    case None => ConfirmTx(db, job, outcome.reply.value)
    case Some(error) => FailTx(db, job, error, now)
  }

  class QueueClient {
    var accepted: seq<Id>

    constructor ()
      ensures accepted == []
    {
      accepted := [];
    }

    method Enqueue(job: Id, outcome: EnqueueOutcome) returns (reply: Result<Option<string>, string>)
      modifies this
      ensures accepted == if outcome.accepted then old(accepted) + [job] else old(accepted)
      ensures reply == outcome.reply
    {
      if outcome.accepted {
        accepted := accepted + [job];
      }
      reply := outcome.reply;
    }
  }

  // ----- the service -----

  class ApprovalService {
    const repository: SessionRepository
    const queue: QueueClient

    constructor (repository: SessionRepository, queue: QueueClient)
      ensures this.repository == repository && this.queue == queue
    {
      this.repository, this.queue := repository, queue;
    }

    method ResumeSession(sid: Id, now: Time)
      requires sid < |repository.sessions|
      modifies repository
      ensures repository.committed == old(repository.committed)
      ensures repository.State() == Resumed(old(repository.State()), sid, now)
    {
      var session := repository.sessions[sid];
      var previous := session.status;
      if previous == SessionStatus.AwaitingApproval {
        repository.UpdateSessionStatus(sid, SessionStatus.Running, None, now);
        repository.CreateEvent(session.workspaceId, sid, StatusChanged(previous, SessionStatus.Running));
      }
    }

    /** The first transaction of `approve`: everything up to its first commit. */
    method CommitApproval(auth: Auth, id: Id, note: Option<string>, now: Time) returns (r: Result<Id, ServiceError>)
      requires repository.State() == repository.committed
      modifies repository
      ensures repository.State() == repository.committed
      ensures match ApproveTx(old(repository.committed), auth, id, note, now)
        case Err(error) => r == Err(error) && repository.committed == old(repository.committed)
        case Ok((db, job)) => r == Ok(job) && repository.committed == db
    {
      var guard := ApproveGuard(repository.State(), auth, id);
      if guard.Some? {
        return Err(guard.value);
      }
      var approval := repository.approvals[id];
      var ws, sid, tc := auth.workspaceId, approval.sessionId, approval.toolCallId.value;
      repository.ResolveApprovalRequest(id, Approved, auth.userId, note, now);
      repository.UpdateToolCallStatus(tc, ToolCallStatus.Queued, None, None, now);
      ResumeSession(sid, now);
      var job := repository.CreateJob(ws, Some(sid), ExecuteToolCall, ToolCallPayload(tc, sid), now);
      repository.CreateEvent(ws, sid, ApprovalResolved(id, Approved));
      repository.CreateEvent(ws, sid, ToolCallQueued(tc, job));
      repository.RecordAudit(ApprovalApproved(ws, id, tc, job));
      repository.Commit();
      return Ok(job);
    }

    /** The rest of `approve`: enqueue and mark the job, or roll back and fail it. */
    method EnqueueApproved(ws: Id, job: Id, now: Time, outcome: EnqueueOutcome) returns (ok: bool)
      requires repository.State() == repository.committed
      requires job < |repository.jobs| && repository.jobs[job].workspaceId == ws
      modifies repository, queue
      ensures repository.State() == repository.committed
      ensures repository.committed == AfterEnqueue(old(repository.committed), job, outcome, now)
      ensures queue.accepted == if outcome.accepted then old(queue.accepted) + [job] else old(queue.accepted)
      ensures ok == EnqueueError(outcome).None?
    {
      var reply := queue.Enqueue(job, outcome);
      if reply.Ok? {
        repository.MarkJobEnqueued(job, reply.value);
        if outcome.commitError.None? {
          repository.Commit();
          return true;
        }
      }
      repository.Rollback();
      var reloaded := GetJob(repository.State(), ws, job);
      if reloaded.Some? {
        repository.FailJob(job, EnqueueError(outcome).value, now);
        repository.Commit();
      }
      return false;
    }

    method Approve(auth: Auth, id: Id, note: Option<string>, now: Time, outcome: EnqueueOutcome)
      returns (r: Result<Approval, ServiceError>)
      requires repository.State() == repository.committed
      modifies repository, queue
      ensures repository.State() == repository.committed
      ensures match ApproveTx(old(repository.committed), auth, id, note, now)
        case Err(error) =>
          && r == Err(error)
          && repository.committed == old(repository.committed)
          && queue.accepted == old(queue.accepted)
        case Ok((db, job)) =>
          && repository.committed == AfterEnqueue(db, job, outcome, now)
          && queue.accepted == (if outcome.accepted then old(queue.accepted) + [job] else old(queue.accepted))
          && r == (if EnqueueError(outcome).None? then Ok(db.approvals[id]) else Err(NotEnqueued))
    {
      var first := CommitApproval(auth, id, note, now);
      if first.Err? {
        return Err(first.error);
      }
      var ok := EnqueueApproved(auth.workspaceId, first.value, now, outcome);
      return if ok then Ok(repository.approvals[id]) else Err(NotEnqueued);
    }

    method FinishDenied(approval: Approval, now: Time)
      modifies repository
      ensures repository.committed == old(repository.committed)
      ensures repository.State() == old(repository.State()).(
        toolCalls := DeniedToolCalls(old(repository.State()), approval, now),
        steps := ReadiedSteps(old(repository.State()), approval, now))
    {
      if approval.toolCallId.Some? {
        var toolCall := GetToolCall(repository.State(), approval.workspaceId, approval.toolCallId.value);
        if toolCall.Some? {
          repository.FinishToolCall(approval.toolCallId.value, DENIAL, now);
        }
      }
      if approval.stepId.Some? {
        var step := GetStep(repository.State(), approval.workspaceId, approval.stepId.value);
        if step.Some? {
          repository.UpdateStepStatus(approval.stepId.value, StepStatus.Ready, now);
        }
      }
    }

    method Deny(auth: Auth, id: Id, note: Option<string>, now: Time) returns (r: Result<Approval, ServiceError>)
      requires repository.State() == repository.committed
      modifies repository
      ensures repository.State() == repository.committed
      ensures match DenyTx(old(repository.committed), auth, id, note, now)
        case Err(error) => r == Err(error) && repository.committed == old(repository.committed)
        case Ok(db) => repository.committed == db && r == Ok(db.approvals[id])
    {
      var guard := DenyGuard(repository.State(), auth, id);
      if guard.Some? {
        return Err(guard.value);
      }
      var approval := repository.approvals[id];
      ghost var db := repository.State();
      repository.ResolveApprovalRequest(id, ApprovalStatus.Denied, auth.userId, note, now);
      assert repository.State() == WithApproval(db, id, ApprovalStatus.Denied, auth, note, now);
      FinishDenied(approval, now);
      assert repository.State() == WithApproval(db, id, ApprovalStatus.Denied, auth, note, now).(
        toolCalls := DeniedToolCalls(db, approval, now), steps := ReadiedSteps(db, approval, now));
      ResumeSession(approval.sessionId, now);
      repository.CreateEvent(auth.workspaceId, approval.sessionId, ApprovalResolved(id, ApprovalStatus.Denied));
      repository.RecordAudit(ApprovalDenied(auth.workspaceId, id));
      repository.Commit();
      return Ok(repository.approvals[id]);
    }
  }
}
