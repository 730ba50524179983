/**
 The rows of the session tables and what one repository call does to a row. A row's
 position in its table is its id.
 */
module SessionRows {
  import opened Options

  type Id = nat
  type Time = int

  datatype SessionStatus =
    Draft | Planning | Running | Paused | AwaitingApproval | Completed | Failed | Stopped | Archived

  datatype Session = Session(
    workspaceId: Id,
    status: SessionStatus,
    summary: Option<string>,
    startedAt: Option<Time>,
    completedAt: Option<Time>,
    deletedAt: Option<Time>)

  datatype ToolCallStatus =
    Queued | Running | AwaitingApproval | Succeeded | Failed | TimedOut | Cancelled | Denied

  datatype ToolCall = ToolCall(
    workspaceId: Id,
    sessionId: Id,
    status: ToolCallStatus,
    policyDecision: Option<string>,
    result: Option<string>,
    rawOutput: Option<string>,
    errorMessage: Option<string>,
    runtimeInstanceId: Option<Id>,
    runtimeCommandId: Option<string>,
    durationMs: Option<int>,
    startedAt: Option<Time>,
    completedAt: Option<Time>)

  datatype StepStatus = Created | Ready | Running | Completed | Failed | Skipped | Cancelled

  datatype Step = Step(
    workspaceId: Id, sessionId: Id, status: StepStatus, startedAt: Option<Time>, completedAt: Option<Time>)

  datatype JobStatus = Queued | Running | Succeeded | Failed | Cancelled

  datatype JobType = ExecuteToolCall | PlanSession | OtherJob(name: string)

  datatype Payload =
    | ToolCallPayload(toolCallId: Id, sessionId: Id)
    | SessionPayload(sessionId: Id)
    | OtherPayload(content: map<string, string>)

  datatype Job = Job(
    workspaceId: Id,
    sessionId: Option<Id>,
    jobType: JobType,
    payload: Payload,
    status: JobStatus,
    celeryTaskId: Option<string>,
    attempts: nat,
    maxAttempts: nat,
    lockedBy: Option<string>,
    lockedAt: Option<Time>,
    runAfter: Time,
    startedAt: Option<Time>,
    finishedAt: Option<Time>,
    lastError: Option<string>,
    result: Option<string>,
    progress: Option<string>)

  datatype ApprovalStatus = Pending | Approved | Denied

  datatype Approval = Approval(
    workspaceId: Id,
    sessionId: Id,
    stepId: Option<Id>,
    toolCallId: Option<Id>,
    status: ApprovalStatus,
    resolvedBy: Option<Id>,
    resolutionNote: Option<string>,
    resolvedAt: Option<Time>)

  datatype EventBody =
    | StatusChanged(previous: SessionStatus, current: SessionStatus)
    | ApprovalRequested(approvalId: Id, toolCallId: Id)
    | ApprovalResolved(approvalId: Id, status: ApprovalStatus)
    | ToolCallQueued(toolCallId: Id, jobId: Id)

  datatype SessionEvent = SessionEvent(workspaceId: Id, sessionId: Id, body: EventBody)

  datatype Audit =
    | ApprovalApproved(workspaceId: Id, approvalId: Id, toolCallId: Id, jobId: Id)
    | ApprovalDenied(workspaceId: Id, approvalId: Id)

  /** All tables at one moment. */
  datatype Db = Db(
    sessions: seq<Session>,
    toolCalls: seq<ToolCall>,
    steps: seq<Step>,
    approvals: seq<Approval>,
    jobs: seq<Job>,
    events: seq<SessionEvent>,
    audit: seq<Audit>)

  // ----- lookups: a row of another workspace is not found -----

  function GetSession(db: Db, workspaceId: Id, id: Id): Option<Session>
  {
    if id < |db.sessions| && db.sessions[id].workspaceId == workspaceId && db.sessions[id].deletedAt.None?
    then Some(db.sessions[id]) else None
  }

  function GetToolCall(db: Db, workspaceId: Id, id: Id): Option<ToolCall>
  {
    if id < |db.toolCalls| && db.toolCalls[id].workspaceId == workspaceId then Some(db.toolCalls[id]) else None
  }

  function GetStep(db: Db, workspaceId: Id, id: Id): Option<Step>
  {
    if id < |db.steps| && db.steps[id].workspaceId == workspaceId then Some(db.steps[id]) else None
  }

  function GetApproval(db: Db, workspaceId: Id, id: Id): Option<Approval>
  {
    if id < |db.approvals| && db.approvals[id].workspaceId == workspaceId then Some(db.approvals[id]) else None
  }

  function GetJob(db: Db, workspaceId: Id, id: Id): Option<Job>
  {
    if id < |db.jobs| && db.jobs[id].workspaceId == workspaceId then Some(db.jobs[id]) else None
  }

  // ----- what a call does to a row -----

  function SessionWithStatus(s: Session, status: SessionStatus, summary: Option<string>, now: Time): Session
  {
    s.(status := status,
       summary := if summary.Some? then summary else s.summary,
       startedAt :=
         if (status == SessionStatus.Planning || status == SessionStatus.Running) && s.startedAt.None?
         then Some(now) else s.startedAt,
       completedAt :=
         if status == SessionStatus.Completed || status == SessionStatus.Failed || status == SessionStatus.Stopped
         then Some(now) else s.completedAt)
  }

  predicate IsFinished(status: ToolCallStatus)
  {
    || status == ToolCallStatus.Succeeded || status == ToolCallStatus.Failed || status == ToolCallStatus.TimedOut
    || status == ToolCallStatus.Cancelled || status == ToolCallStatus.Denied
  }

  function NewToolCall(
    workspaceId: Id, sessionId: Id, status: ToolCallStatus, policyDecision: Option<string>, errorMessage: Option<string>): ToolCall
  {
    ToolCall(workspaceId, sessionId, status, policyDecision, None, None, errorMessage, None, None, None, None, None)
  }

  /** `update_tool_call_status`: `completed_at` is set on a final status and never cleared. */
  function ToolCallWithStatus(
    t: ToolCall, status: ToolCallStatus, policyDecision: Option<string>, errorMessage: Option<string>, now: Time): ToolCall
  {
    t.(status := status,
       policyDecision := if policyDecision.Some? then policyDecision else t.policyDecision,
       errorMessage := if errorMessage.Some? then errorMessage else t.errorMessage,
       completedAt := if IsFinished(status) then Some(now) else t.completedAt)
  }

  /** `mark_tool_call_running`: it does not touch `completed_at` either. */
  function RunningToolCall(t: ToolCall, runtimeId: Id, commandId: Option<string>, now: Time): ToolCall
  {
    t.(status := ToolCallStatus.Running,
       runtimeInstanceId := Some(runtimeId),
       runtimeCommandId := commandId,
       startedAt := Some(now))
  }

  /** What a finished call leaves: every column but the command id is overwritten, also by absent values. */
  datatype Outcome = Outcome(
    status: ToolCallStatus, result: Option<string>, rawOutput: Option<string>,
    errorMessage: Option<string>, runtimeCommandId: Option<string>, durationMs: Option<int>)

  function FinishedToolCall(t: ToolCall, outcome: Outcome, now: Time): ToolCall
  {
    t.(status := outcome.status,
       result := Some(outcome.result.GetOr("{}")),
       rawOutput := outcome.rawOutput,
       errorMessage := outcome.errorMessage,
       runtimeCommandId :=
         if outcome.runtimeCommandId.Some? then outcome.runtimeCommandId else t.runtimeCommandId,
       durationMs := outcome.durationMs,
       completedAt := Some(now))
  }

  function StepWithStatus(s: Step, status: StepStatus, now: Time): Step
  {
    s.(status := status,
       startedAt := if status == StepStatus.Running && s.startedAt.None? then Some(now) else s.startedAt,
       completedAt :=
         if status == StepStatus.Completed || status == StepStatus.Failed || status == StepStatus.Skipped
            || status == StepStatus.Cancelled
         then Some(now) else s.completedAt)
  }

  function ResolvedApproval(a: Approval, status: ApprovalStatus, user: Id, note: Option<string>, now: Time): Approval
  {
    a.(status := status, resolvedBy := Some(user), resolutionNote := note, resolvedAt := Some(now))
  }

  function NewApproval(workspaceId: Id, sessionId: Id, stepId: Option<Id>, toolCallId: Option<Id>): Approval
  {
    Approval(workspaceId, sessionId, stepId, toolCallId, Pending, None, None, None)
  }

  function NewJob(
    workspaceId: Id, sessionId: Option<Id>, jobType: JobType, payload: Payload, maxAttempts: nat, now: Time): Job
  {
    Job(workspaceId, sessionId, jobType, payload, JobStatus.Queued, None, 0, maxAttempts, None, None, now,
        None, None, None, None, None)
  }

  predicate Claimable(j: Job, now: Time) { j.status == JobStatus.Queued && j.runAfter <= now }

  function ClaimedJob(j: Job, worker: string, now: Time): Job
  {
    j.(status := JobStatus.Running,
       lockedBy := Some(worker),
       lockedAt := Some(now),
       startedAt := if j.startedAt.Some? then j.startedAt else Some(now),
       attempts := j.attempts + 1)
  }

  function SucceededJob(j: Job, result: Option<string>, progress: Option<string>, now: Time): Job
  {
    j.(status := JobStatus.Succeeded,
       result := Some(result.GetOr("{}")),
       progress := Some(progress.GetOr("{\"percent\": 100}")),
       finishedAt := Some(now))
  }

  function FailedJob(j: Job, error: string, now: Time): Job
  {
    j.(status := JobStatus.Failed, lastError := Some(error), finishedAt := Some(now))
  }

  function EnqueuedJob(j: Job, taskId: Option<string>): Job { j.(celeryTaskId := taskId) }

  predicate CancellableJob(j: Job, workspaceId: Id, sessionId: Id)
  {
    j.workspaceId == workspaceId && j.sessionId == Some(sessionId) && j.status == JobStatus.Queued
  }

  function CancelledJob(j: Job, now: Time): Job { j.(status := JobStatus.Cancelled, finishedAt := Some(now)) }

  /** The job table after `cancel_queued_session_jobs`. */
  function SweptJobs(jobs: seq<Job>, workspaceId: Id, sessionId: Id, now: Time): (r: seq<Job>)
    ensures |r| == |jobs|
    ensures forall i :: 0 <= i < |jobs| ==>
      r[i] == if CancellableJob(jobs[i], workspaceId, sessionId) then CancelledJob(jobs[i], now) else jobs[i]
  {
    seq(|jobs|, i requires 0 <= i < |jobs| =>
      if CancellableJob(jobs[i], workspaceId, sessionId) then CancelledJob(jobs[i], now) else jobs[i])
  }

  predicate CancellableToolCall(t: ToolCall, workspaceId: Id, sessionId: Id)
  {
    && t.workspaceId == workspaceId && t.sessionId == sessionId
    && (t.status == ToolCallStatus.Queued || t.status == ToolCallStatus.Running
        || t.status == ToolCallStatus.AwaitingApproval)
  }

  function CancelledToolCall(t: ToolCall, now: Time): ToolCall
  {
    t.(status := ToolCallStatus.Cancelled, completedAt := Some(now))
  }

  function SweptToolCalls(calls: seq<ToolCall>, workspaceId: Id, sessionId: Id, now: Time): (r: seq<ToolCall>)
    ensures |r| == |calls|
    ensures forall i :: 0 <= i < |calls| ==>
      r[i] == if CancellableToolCall(calls[i], workspaceId, sessionId) then CancelledToolCall(calls[i], now) else calls[i]
  {
    seq(|calls|, i requires 0 <= i < |calls| =>
      if CancellableToolCall(calls[i], workspaceId, sessionId) then CancelledToolCall(calls[i], now) else calls[i])
  }
}
