/**
 The session repository over one database session: calls change the working tables, and
 `Commit` and `Rollback` move between them and the committed ones. The audit recorder
 writes through the same database session, so its table is kept here too.
 */
module SessionRepositories {
  import opened Options
  import opened SessionRows

  class SessionRepository {
    var sessions: seq<Session>
    var toolCalls: seq<ToolCall>
    var steps: seq<Step>
    var approvals: seq<Approval>
    var jobs: seq<Job>
    var events: seq<SessionEvent>
    var audit: seq<Audit>
    var committed: Db

    function State(): Db
      reads this
    {
      Db(sessions, toolCalls, steps, approvals, jobs, events, audit)
    }

    constructor (db: Db)
      ensures State() == db && committed == db
    {
      sessions, toolCalls, steps, approvals, jobs := db.sessions, db.toolCalls, db.steps, db.approvals, db.jobs;
      events, audit, committed := db.events, db.audit, db;
    }

    method Commit()
      modifies this`committed
      ensures committed == State()
    {
      committed := State();
    }

    method Rollback()
      modifies this
      ensures committed == old(committed) && State() == committed
    {
      sessions, toolCalls, steps := committed.sessions, committed.toolCalls, committed.steps;
      approvals, jobs := committed.approvals, committed.jobs;
      events, audit := committed.events, committed.audit;
    }

    method CreateEvent(workspaceId: Id, sessionId: Id, body: EventBody)
      modifies this`events
      ensures events == old(events) + [SessionEvent(workspaceId, sessionId, body)]
    {
      events := events + [SessionEvent(workspaceId, sessionId, body)];
    }

    method RecordAudit(entry: Audit)
      modifies this`audit
      ensures audit == old(audit) + [entry]
    {
      audit := audit + [entry];
    }

    method UpdateSessionStatus(id: Id, status: SessionStatus, summary: Option<string>, now: Time)
      requires id < |sessions|
      modifies this`sessions
      ensures sessions == old(sessions)[id := SessionWithStatus(old(sessions)[id], status, summary, now)]
    {
      var s := sessions[id].(status := status);
      if summary.Some? {
        s := s.(summary := summary);
      }
      if status in {SessionStatus.Planning, SessionStatus.Running} && s.startedAt.None? {
        s := s.(startedAt := Some(now));
      }
      if status in {SessionStatus.Completed, SessionStatus.Failed, SessionStatus.Stopped} {
        s := s.(completedAt := Some(now));
      }
      sessions := sessions[id := s];
    }

    method UpdateStepStatus(id: Id, status: StepStatus, now: Time)
      requires id < |steps|
      modifies this`steps
      ensures steps == old(steps)[id := StepWithStatus(old(steps)[id], status, now)]
    {
      var s := steps[id].(status := status);
      if status == StepStatus.Running && s.startedAt.None? {
        s := s.(startedAt := Some(now));
      }
      if status in {StepStatus.Completed, StepStatus.Failed, StepStatus.Skipped, StepStatus.Cancelled} {
        s := s.(completedAt := Some(now));
      }
      steps := steps[id := s];
    }

    method CreateToolCall(
      workspaceId: Id, sessionId: Id, status: ToolCallStatus, policyDecision: Option<string>, errorMessage: Option<string>)
      returns (id: Id)
      modifies this`toolCalls
      ensures id == |old(toolCalls)|
      ensures toolCalls == old(toolCalls) + [NewToolCall(workspaceId, sessionId, status, policyDecision, errorMessage)]
    {
      id := |toolCalls|;
      toolCalls := toolCalls + [NewToolCall(workspaceId, sessionId, status, policyDecision, errorMessage)];
    }

    method UpdateToolCallStatus(
      id: Id, status: ToolCallStatus, policyDecision: Option<string>, errorMessage: Option<string>, now: Time)
      requires id < |toolCalls|
      modifies this`toolCalls
      ensures toolCalls
        == old(toolCalls)[id := ToolCallWithStatus(old(toolCalls)[id], status, policyDecision, errorMessage, now)]
    {
      var t := toolCalls[id].(status := status);
      if policyDecision.Some? {
        t := t.(policyDecision := policyDecision);
      }
      if errorMessage.Some? {
        t := t.(errorMessage := errorMessage);
      }
      if IsFinished(status) {
        t := t.(completedAt := Some(now));
      }
      toolCalls := toolCalls[id := t];
    }

    method FinishToolCall(id: Id, outcome: Outcome, now: Time)
      requires id < |toolCalls|
      modifies this`toolCalls
      ensures toolCalls == old(toolCalls)[id := FinishedToolCall(old(toolCalls)[id], outcome, now)]
    {
      var t := toolCalls[id].(
        status := outcome.status, result := Some(outcome.result.GetOr("{}")), rawOutput := outcome.rawOutput,
        errorMessage := outcome.errorMessage);
      if outcome.runtimeCommandId.Some? {
        t := t.(runtimeCommandId := outcome.runtimeCommandId);
      }
      t := t.(durationMs := outcome.durationMs, completedAt := Some(now));
      toolCalls := toolCalls[id := t];
    }

    method ResolveApprovalRequest(id: Id, status: ApprovalStatus, resolvedBy: Id, note: Option<string>, now: Time)
      requires id < |approvals|
      modifies this`approvals
      ensures approvals == old(approvals)[id := ResolvedApproval(old(approvals)[id], status, resolvedBy, note, now)]
    {
      approvals := approvals[id := approvals[id].(
        status := status, resolvedBy := Some(resolvedBy), resolutionNote := note, resolvedAt := Some(now))];
    }

    method CreateApprovalRequest(workspaceId: Id, sessionId: Id, stepId: Option<Id>, toolCallId: Option<Id>)
      returns (id: Id)
      modifies this`approvals
      ensures id == |old(approvals)|
      ensures approvals == old(approvals) + [NewApproval(workspaceId, sessionId, stepId, toolCallId)]
    {
      id := |approvals|;
      approvals := approvals + [NewApproval(workspaceId, sessionId, stepId, toolCallId)];
    }

    method CreateJob(
      workspaceId: Id, sessionId: Option<Id>, jobType: JobType, payload: Payload, now: Time, maxAttempts: nat := 1)
      returns (id: Id)
      modifies this`jobs
      ensures id == |old(jobs)|
      ensures jobs == old(jobs) + [NewJob(workspaceId, sessionId, jobType, payload, maxAttempts, now)]
    {
      id := |jobs|;
      jobs := jobs + [NewJob(workspaceId, sessionId, jobType, payload, maxAttempts, now)];
    }

    method MarkJobEnqueued(id: Id, celeryTaskId: Option<string>)
      requires id < |jobs|
      modifies this`jobs
      ensures jobs == old(jobs)[id := EnqueuedJob(old(jobs)[id], celeryTaskId)]
    {
      jobs := jobs[id := jobs[id].(celeryTaskId := celeryTaskId)];
    }

    /** Claims a queued job whose time has come; every other job is refused unchanged. */
    method ClaimJob(id: Id, workerId: string, now: Time) returns (claimed: bool)
      requires id < |jobs|
      modifies this`jobs
      ensures claimed == Claimable(old(jobs)[id], now)
      ensures jobs == if claimed then old(jobs)[id := ClaimedJob(old(jobs)[id], workerId, now)] else old(jobs)
    {
      var job := jobs[id];
      if job.status != JobStatus.Queued || job.runAfter > now {
        return false;
      }
      job := job.(status := JobStatus.Running, lockedBy := Some(workerId), lockedAt := Some(now));
      if job.startedAt.None? {
        job := job.(startedAt := Some(now));
      }
      job := job.(attempts := job.attempts + 1);
      jobs := jobs[id := job];
      return true;
    }

    method SucceedJob(id: Id, result: Option<string>, progress: Option<string>, now: Time)
      requires id < |jobs|
      modifies this`jobs
      ensures jobs == old(jobs)[id := SucceededJob(old(jobs)[id], result, progress, now)]
    {
      jobs := jobs[id := jobs[id].(
        status := JobStatus.Succeeded, result := Some(result.GetOr("{}")),
        progress := Some(progress.GetOr("{\"percent\": 100}")), finishedAt := Some(now))];
    }

    method FailJob(id: Id, error: string, now: Time)
      requires id < |jobs|
      modifies this`jobs
      ensures jobs == old(jobs)[id := FailedJob(old(jobs)[id], error, now)]
    {
      jobs := jobs[id := jobs[id].(status := JobStatus.Failed, lastError := Some(error), finishedAt := Some(now))];
    }

    /** Selects the session's queued jobs, then cancels them one by one. */
    method CancelQueuedSessionJobs(workspaceId: Id, sessionId: Id, now: Time) returns (cancelled: seq<Id>)
      modifies this`jobs
      ensures jobs == SweptJobs(old(jobs), workspaceId, sessionId, now)
      ensures forall i :: i in cancelled <==> 0 <= i < |old(jobs)| && CancellableJob(old(jobs)[i], workspaceId, sessionId)
    {
      cancelled := [];
      for i := 0 to |jobs|
        invariant jobs == old(jobs)
        invariant forall j :: j in cancelled <==> 0 <= j < i && CancellableJob(jobs[j], workspaceId, sessionId)
        invariant forall m :: 0 <= m < |cancelled| ==> cancelled[m] < i
        invariant forall m, n :: 0 <= m < n < |cancelled| ==> cancelled[m] < cancelled[n]
      {
        if CancellableJob(jobs[i], workspaceId, sessionId) {
          cancelled := cancelled + [i];
        }
      }
      for k := 0 to |cancelled|
        invariant |jobs| == |old(jobs)|
        invariant forall j :: 0 <= j < |jobs| ==>
          jobs[j] == if j in cancelled[..k] then CancelledJob(old(jobs)[j], now) else old(jobs)[j]
      {
        var id := cancelled[k];
        assert id !in cancelled[..k];
        jobs := jobs[id := jobs[id].(status := JobStatus.Cancelled, finishedAt := Some(now))];
        assert cancelled[..k + 1] == cancelled[..k] + [id];
      }
      assert cancelled[..|cancelled|] == cancelled;
    }

    method CancelActiveToolCalls(workspaceId: Id, sessionId: Id, now: Time) returns (cancelled: seq<Id>)
      modifies this`toolCalls
      ensures toolCalls == SweptToolCalls(old(toolCalls), workspaceId, sessionId, now)
      ensures forall i :: i in cancelled <==>
        0 <= i < |old(toolCalls)| && CancellableToolCall(old(toolCalls)[i], workspaceId, sessionId)
    {
      cancelled := [];
      for i := 0 to |toolCalls|
        invariant toolCalls == old(toolCalls)
        invariant forall j :: j in cancelled <==> 0 <= j < i && CancellableToolCall(toolCalls[j], workspaceId, sessionId)
        invariant forall m :: 0 <= m < |cancelled| ==> cancelled[m] < i
        invariant forall m, n :: 0 <= m < n < |cancelled| ==> cancelled[m] < cancelled[n]
      {
        if CancellableToolCall(toolCalls[i], workspaceId, sessionId) {
          cancelled := cancelled + [i];
        }
      }
      for k := 0 to |cancelled|
        invariant |toolCalls| == |old(toolCalls)|
        invariant forall j :: 0 <= j < |toolCalls| ==>
          toolCalls[j] == if j in cancelled[..k] then CancelledToolCall(old(toolCalls)[j], now) else old(toolCalls)[j]
      {
        var id := cancelled[k];
        assert id !in cancelled[..k];
        toolCalls := toolCalls[id := toolCalls[id].(status := ToolCallStatus.Cancelled, completedAt := Some(now))];
        assert cancelled[..k + 1] == cancelled[..k] + [id];
      }
      assert cancelled[..|cancelled|] == cancelled;
    }
  }
}
