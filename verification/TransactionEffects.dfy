/**
 What each transaction refuses and what it leaves in every table, column by column and
 without the functions that compute it.
 */
module TransactionEffects {
  import opened Options
  import opened SessionRows
  import opened Approvals
  import opened SessionServices
  import opened ControlPlane

  // ----- frames -----

  /** The same tables but for the rows named; `None` names no row. */
  predicate OnlyRow<T(==)>(a: seq<T>, b: seq<T>, id: Option<Id>)
  {
    |a| == |b| && forall k :: 0 <= k < |a| && id != Some(k) ==> b[k] == a[k]
  }

  // ----- resolving an approval -----

  lemma ApproveRefuses(db: Db, auth: Auth, id: Id, note: Option<string>, now: Time)
    ensures var r, ws := ApproveTx(db, auth, id, note, now), auth.workspaceId;
      if !(id < |db.approvals| && db.approvals[id].workspaceId == ws) then r == Err(NotFound)
      else
        var a := db.approvals[id];
        if a.status != Pending || a.toolCallId.None? then r == Err(Conflict)
        else
          var sessionFound := a.sessionId < |db.sessions| && db.sessions[a.sessionId].workspaceId == ws
            && db.sessions[a.sessionId].deletedAt.None?;
          var callFound := a.toolCallId.value < |db.toolCalls| && db.toolCalls[a.toolCallId.value].workspaceId == ws;
          if !sessionFound || !callFound then r == Err(NotFound) else r.Ok?
  {
  }

  lemma DenyRefuses(db: Db, auth: Auth, id: Id, note: Option<string>, now: Time)
    ensures var r, ws := DenyTx(db, auth, id, note, now), auth.workspaceId;
      if !(id < |db.approvals| && db.approvals[id].workspaceId == ws) then r == Err(NotFound)
      else
        var a := db.approvals[id];
        if a.status != Pending then r == Err(Conflict)
        else if !(a.sessionId < |db.sessions| && db.sessions[a.sessionId].workspaceId == ws
                  && db.sessions[a.sessionId].deletedAt.None?) then r == Err(NotFound)
        else r.Ok?
  {
  }

  /** The approval row gains its four resolution columns and keeps its links; no other row changes. */
  predicate ResolvedRow(a: Db, b: Db, id: Id, status: ApprovalStatus, user: Id, note: Option<string>, now: Time)
    requires id < |a.approvals|
  {
    && OnlyRow(a.approvals, b.approvals, Some(id))
    && b.approvals[id].status == status && b.approvals[id].resolvedBy == Some(user)
    && b.approvals[id].resolutionNote == note && b.approvals[id].resolvedAt == Some(now)
    && SameApprovalLinks(a.approvals[id], b.approvals[id])
  }

  /** A waiting session runs again, started now if it never was; any other session stays. */
  predicate ResumedRow(a: Db, b: Db, sid: Id, now: Time)
    requires sid < |a.sessions|
  {
    && OnlyRow(a.sessions, b.sessions, Some(sid))
    && var s, t := a.sessions[sid], b.sessions[sid];
       if s.status != SessionStatus.AwaitingApproval then t == s
       else
         && t.status == SessionStatus.Running
         && t.startedAt == (match s.startedAt case Some(time) => Some(time) case None => Some(now))
         && t.workspaceId == s.workspaceId && t.summary == s.summary
         && t.completedAt == s.completedAt && t.deletedAt == s.deletedAt
  }

  lemma ApproveLeaves(db: Db, auth: Auth, id: Id, note: Option<string>, now: Time)
    requires ApproveTx(db, auth, id, note, now).Ok?
    ensures var (next, job) := ApproveTx(db, auth, id, note, now).value;
      var a := db.approvals[id];
      var ws, sid, tc := auth.workspaceId, a.sessionId, a.toolCallId.value;
      var waiting := db.sessions[sid].status == SessionStatus.AwaitingApproval;
      && ResolvedRow(db, next, id, Approved, auth.userId, note, now)
      && OnlyRow(db.toolCalls, next.toolCalls, Some(tc))
      && next.toolCalls[tc] == db.toolCalls[tc].(status := ToolCallStatus.Queued)
      && ResumedRow(db, next, sid, now)
      && next.steps == db.steps
      && job == |db.jobs|
      && next.jobs == db.jobs + [Job(
           ws, Some(sid), ExecuteToolCall, ToolCallPayload(tc, sid), JobStatus.Queued, None, 0, 1,
           None, None, now, None, None, None, None, None)]
      && next.events == db.events
           + (if waiting then
                [SessionEvent(ws, sid, StatusChanged(SessionStatus.AwaitingApproval, SessionStatus.Running))] else [])
           + [SessionEvent(ws, sid, ApprovalResolved(id, Approved)), SessionEvent(ws, sid, ToolCallQueued(tc, job))]
      && next.audit == db.audit + [ApprovalApproved(ws, id, tc, job)]
  {
  }

  /** A denied call: every outcome column is overwritten, and the rest of the row kept. */
  predicate DeniedRow(s: ToolCall, t: ToolCall, now: Time)
  {
    && t.status == ToolCallStatus.Denied && t.errorMessage == Some("Approval was denied.")
    && t.result == Some("{}") && t.rawOutput.None? && t.durationMs.None? && t.completedAt == Some(now)
    && t.workspaceId == s.workspaceId && t.sessionId == s.sessionId && t.policyDecision == s.policyDecision
    && t.runtimeInstanceId == s.runtimeInstanceId && t.runtimeCommandId == s.runtimeCommandId
    && t.startedAt == s.startedAt
  }

  /**
   A denial finishes the linked call, and readies the linked step without touching its
   times, when these are rows of the same workspace; otherwise it passes them over.
   */
  lemma DenyLeaves(db: Db, auth: Auth, id: Id, note: Option<string>, now: Time)
    requires DenyTx(db, auth, id, note, now).Ok?
    ensures var next := DenyTx(db, auth, id, note, now).value;
      var a := db.approvals[id];
      var ws, sid := auth.workspaceId, a.sessionId;
      var call := if a.toolCallId.Some? && a.toolCallId.value < |db.toolCalls|
        && db.toolCalls[a.toolCallId.value].workspaceId == ws then a.toolCallId else None;
      var step := if a.stepId.Some? && a.stepId.value < |db.steps|
        && db.steps[a.stepId.value].workspaceId == ws then a.stepId else None;
      var waiting := db.sessions[sid].status == SessionStatus.AwaitingApproval;
      && ResolvedRow(db, next, id, ApprovalStatus.Denied, auth.userId, note, now)
      && OnlyRow(db.toolCalls, next.toolCalls, call)
      && (call.Some? ==> DeniedRow(db.toolCalls[call.value], next.toolCalls[call.value], now))
      && OnlyRow(db.steps, next.steps, step)
      && (step.Some? ==>
            var s, t := db.steps[step.value], next.steps[step.value];
            && t.status == Ready && t.startedAt == s.startedAt && t.completedAt == s.completedAt
            && t.workspaceId == s.workspaceId && t.sessionId == s.sessionId)
      && ResumedRow(db, next, sid, now)
      && next.jobs == db.jobs
      && next.events == db.events
           + (if waiting then
                [SessionEvent(ws, sid, StatusChanged(SessionStatus.AwaitingApproval, SessionStatus.Running))] else [])
           + [SessionEvent(ws, sid, ApprovalResolved(id, ApprovalStatus.Denied))]
      && next.audit == db.audit + [ApprovalDenied(ws, id)]
  {
  }

  // ----- the enqueue -----

  /** Only job rows change, and only this one: it stores the broker's task id, or the failure. */
  lemma EnqueueLeaves(db: Db, job: Id, outcome: EnqueueOutcome, now: Time)
    requires job < |db.jobs|
    ensures var next := AfterEnqueue(db, job, outcome, now);
      && next == db.(jobs := next.jobs) && OnlyRow(db.jobs, next.jobs, Some(job))
      && var was, j := db.jobs[job], next.jobs[job];
         match outcome.reply
         case Ok(taskId) =>
           if outcome.commitError.None? then j == was.(celeryTaskId := taskId)
           else j == was.(status := JobStatus.Failed, lastError := outcome.commitError, finishedAt := Some(now))
         case Err(error) =>
           j == was.(status := JobStatus.Failed, lastError := Some(error), finishedAt := Some(now))
  {
  }

  // ----- jobs and tool calls -----

  /** A delivery claims a queued job whose time has come, if the broker holds its message. */
  lemma DeliveryLeaves(db: Db, messages: set<Id>, job: Id, worker: string, now: Time)
    ensures var next := Next(db, messages, Deliver(job, worker, now));
      if job in messages && job < |db.jobs| && db.jobs[job].status == JobStatus.Queued && db.jobs[job].runAfter <= now then
        && next == db.(jobs := next.jobs) && OnlyRow(db.jobs, next.jobs, Some(job))
        && var was, j := db.jobs[job], next.jobs[job];
           && j.status == JobStatus.Running && j.attempts == was.attempts + 1
           && j.lockedBy == Some(worker) && j.lockedAt == Some(now)
           && j.startedAt == (match was.startedAt case Some(time) => Some(time) case None => Some(now))
           && j == was.(status := j.status, attempts := j.attempts, lockedBy := j.lockedBy, lockedAt := j.lockedAt,
                        startedAt := j.startedAt)
      else next == db
  {
  }

  lemma OutcomesLeave(db: Db, job: Id, result: Option<string>, progress: Option<string>, error: string, now: Time)
    requires job < |db.jobs|
    ensures Next(db, {}, SucceedJob(job, result, progress, now)).jobs == db.jobs[job := db.jobs[job].(
      status := JobStatus.Succeeded, finishedAt := Some(now),
      result := if result.Some? then result else Some("{}"),
      progress := if progress.Some? then progress else Some("{\"percent\": 100}"))]
    ensures Next(db, {}, FailJob(job, error, now)).jobs
      == db.jobs[job := db.jobs[job].(status := JobStatus.Failed, finishedAt := Some(now), lastError := Some(error))]
  {
  }

  lemma CallsLeave(db: Db, id: Id, runtimeId: Id, outcome: Outcome, now: Time)
    requires id < |db.toolCalls|
    ensures Next(db, {}, MarkToolCallRunning(id, runtimeId, now)).toolCalls == db.toolCalls[id := db.toolCalls[id].(
      status := ToolCallStatus.Running, runtimeInstanceId := Some(runtimeId), runtimeCommandId := None,
      startedAt := Some(now))]
    ensures outcome.status in {
        ToolCallStatus.Succeeded, ToolCallStatus.Failed, ToolCallStatus.TimedOut, ToolCallStatus.Cancelled,
        ToolCallStatus.Denied}
      ==> Next(db, {}, FinishToolCall(id, outcome, now)).toolCalls == db.toolCalls[id := db.toolCalls[id].(
        status := outcome.status,
        result := if outcome.result.Some? then outcome.result else Some("{}"),
        rawOutput := outcome.rawOutput,
        errorMessage := outcome.errorMessage,
        runtimeCommandId :=
          if outcome.runtimeCommandId.Some? then outcome.runtimeCommandId else db.toolCalls[id].runtimeCommandId,
        durationMs := outcome.durationMs,
        completedAt := Some(now))]
    ensures outcome.status in {ToolCallStatus.Queued, ToolCallStatus.Running, ToolCallStatus.AwaitingApproval}
      ==> Next(db, {}, FinishToolCall(id, outcome, now)) == db
  {
  }

  /** Status changes of calls and steps: the times they set, and what absent arguments leave. */
  lemma StatusColumns(
    t: ToolCall, status: ToolCallStatus, policy: Option<string>, error: Option<string>,
    s: Step, stepStatus: StepStatus, now: Time)
    ensures var u := ToolCallWithStatus(t, status, policy, error, now);
      && u.status == status
      && u.policyDecision == (match policy case Some(p) => Some(p) case None => t.policyDecision)
      && u.errorMessage == (match error case Some(e) => Some(e) case None => t.errorMessage)
      && u.completedAt == (if status in {
             ToolCallStatus.Succeeded, ToolCallStatus.Failed, ToolCallStatus.TimedOut, ToolCallStatus.Cancelled,
             ToolCallStatus.Denied} then Some(now) else t.completedAt)
      && t == u.(status := t.status, policyDecision := t.policyDecision, errorMessage := t.errorMessage,
                 completedAt := t.completedAt)
    ensures var u := StepWithStatus(s, stepStatus, now);
      && u.status == stepStatus
      && u.startedAt == (if stepStatus == StepStatus.Running && s.startedAt.None? then Some(now) else s.startedAt)
      && u.completedAt == (if stepStatus in {
             StepStatus.Completed, StepStatus.Failed, StepStatus.Skipped, StepStatus.Cancelled}
           then Some(now) else s.completedAt)
      && u.workspaceId == s.workspaceId && u.sessionId == s.sessionId
  {
  }

  // ----- sessions -----

  /** A status change with its times; a summary that is absent is kept. */
  predicate ChangedRow(a: Db, b: Db, sid: Id, status: SessionStatus, summary: Option<string>, now: Time)
    requires sid < |a.sessions|
  {
    && OnlyRow(a.sessions, b.sessions, Some(sid))
    && var s, t := a.sessions[sid], b.sessions[sid];
       && t.status == status
       && t.summary == (match summary case Some(text) => Some(text) case None => s.summary)
       && t.startedAt == (if status in {Planning, SessionStatus.Running} && s.startedAt.None? then Some(now) else s.startedAt)
       && t.completedAt
          == (if status in {SessionStatus.Completed, SessionStatus.Failed, Stopped} then Some(now) else s.completedAt)
       && t.workspaceId == s.workspaceId && t.deletedAt == s.deletedAt
  }

  /** Refused as not found, then as a conflict; otherwise the change and its log entry. */
  lemma TransitionLeaves(
    db: Db, ws: Id, sid: Id, allowed: set<SessionStatus>, status: SessionStatus, summary: Option<string>, now: Time)
    ensures var r := TransitionTx(db, ws, sid, allowed, status, summary, now);
      if !(sid < |db.sessions| && db.sessions[sid].workspaceId == ws && db.sessions[sid].deletedAt.None?) then
        r == Err(NotFound)
      else if db.sessions[sid].status !in allowed then r == Err(Conflict)
      else
        && r.Ok? && ChangedRow(db, r.value, sid, status, summary, now)
        && r.value == db.(sessions := r.value.sessions, events := r.value.events)
        && r.value.events
           == db.events + [SessionEvent(ws, sid, StatusChanged(db.sessions[sid].status, status))]
  {
  }

  lemma StartLeaves(db: Db, ws: Id, sid: Id, now: Time)
    ensures var r := StartTx(db, ws, sid, now);
      if !(sid < |db.sessions| && db.sessions[sid].workspaceId == ws && db.sessions[sid].deletedAt.None?) then
        r == Err(NotFound)
      else if db.sessions[sid].status != Draft then r == Err(Conflict)
      else
        && r.Ok?
        && var (next, job) := r.value;
           && ChangedRow(db, next, sid, Planning, None, now)
           && next == db.(sessions := next.sessions, events := next.events, jobs := next.jobs)
           && next.events == db.events + [SessionEvent(ws, sid, StatusChanged(Draft, Planning))]
           && job == |db.jobs|
           && next.jobs == db.jobs + [Job(
                ws, Some(sid), PlanSession, SessionPayload(sid), JobStatus.Queued, None, 0, 1,
                None, None, now, None, None, None, None, None)]
  {
  }

  lemma FailedStartLeaves(db: Db, ws: Id, sid: Id, job: Id, error: string, now: Time)
    ensures var next := FailedStartTx(db, ws, sid, job, error, now);
      if !(sid < |db.sessions| && db.sessions[sid].workspaceId == ws && db.sessions[sid].deletedAt.None?) then next == db
      else
        && ChangedRow(db, next, sid, SessionStatus.Failed, None, now)
        && next == db.(sessions := next.sessions, events := next.events, jobs := next.jobs)
        && next.events == db.events + [SessionEvent(ws, sid, StatusChanged(Planning, SessionStatus.Failed))]
        && next.jobs == if job < |db.jobs| && db.jobs[job].workspaceId == ws
           then db.jobs[job := db.jobs[job].(status := JobStatus.Failed, lastError := Some(error), finishedAt := Some(now))]
           else db.jobs
  {
  }

  /** Planning, running, paused and waiting sessions stop, with their queued jobs and active calls. */
  lemma StopLeaves(db: Db, ws: Id, sid: Id, now: Time)
    ensures var r := StopTx(db, ws, sid, now);
      if !(sid < |db.sessions| && db.sessions[sid].workspaceId == ws && db.sessions[sid].deletedAt.None?) then
        r == Err(NotFound)
      else if db.sessions[sid].status !in {Planning, SessionStatus.Running, Paused, SessionStatus.AwaitingApproval} then
        r == Err(Conflict)
      else
        && r.Ok?
        && var next := r.value;
           && ChangedRow(db, next, sid, Stopped, None, now)
           && next == db.(
                sessions := next.sessions, events := next.events, jobs := next.jobs, toolCalls := next.toolCalls)
           && next.events == db.events + [SessionEvent(ws, sid, StatusChanged(db.sessions[sid].status, Stopped))]
           && |next.jobs| == |db.jobs| && |next.toolCalls| == |db.toolCalls|
           && (forall k :: 0 <= k < |db.jobs| ==>
                 var j := db.jobs[k];
                 next.jobs[k] ==
                   if j.workspaceId == ws && j.sessionId == Some(sid) && j.status == JobStatus.Queued
                   then j.(status := JobStatus.Cancelled, finishedAt := Some(now)) else j)
           && (forall k :: 0 <= k < |db.toolCalls| ==>
                 var t := db.toolCalls[k];
                 next.toolCalls[k] ==
                   if t.workspaceId == ws && t.sessionId == sid
                      && t.status in {ToolCallStatus.Queued, ToolCallStatus.Running, ToolCallStatus.AwaitingApproval}
                   then t.(status := ToolCallStatus.Cancelled, completedAt := Some(now)) else t)
  {
  }

  /** The agent's request: a waiting call, a pending approval that links it, a waiting session. */
  lemma RequestLeaves(db: Db, sid: Id, step: Id, policy: string, now: Time)
    requires sid < |db.sessions|
    ensures var next, ws := RequestTx(db, sid, step, policy, now), db.sessions[sid].workspaceId;
      var tc, id := |db.toolCalls|, |db.approvals|;
      && ChangedRow(db, next, sid, SessionStatus.AwaitingApproval, None, now)
      && next.toolCalls == db.toolCalls + [ToolCall(
           ws, sid, ToolCallStatus.AwaitingApproval, Some(policy), None, None, None, None, None, None, None, None)]
      && next.approvals == db.approvals + [Approval(ws, sid, Some(step), Some(tc), Pending, None, None, None)]
      && next.events == db.events + [
           SessionEvent(ws, sid, ApprovalRequested(id, tc)),
           SessionEvent(ws, sid, StatusChanged(db.sessions[sid].status, SessionStatus.AwaitingApproval))]
      && next.steps == db.steps && next.jobs == db.jobs && next.audit == db.audit
  {
  }

  /** A command without approval: a queued call, its job, and the log entry. */
  lemma QueueLeaves(db: Db, sid: Id, policy: string, now: Time)
    requires sid < |db.sessions|
    ensures var (next, job) := QueueTx(db, sid, policy, now);
      var ws, tc := db.sessions[sid].workspaceId, |db.toolCalls|;
      && job == |db.jobs|
      && next == db.(
           toolCalls := db.toolCalls + [ToolCall(
             ws, sid, ToolCallStatus.Queued, Some(policy), None, None, None, None, None, None, None, None)],
           jobs := db.jobs + [Job(
             ws, Some(sid), ExecuteToolCall, ToolCallPayload(tc, sid), JobStatus.Queued, None, 0, 1,
             None, None, now, None, None, None, None, None)],
           events := db.events + [SessionEvent(ws, sid, ToolCallQueued(tc, job))])
  {
  }

  // ----- the steps of the machine are these transactions -----

  lemma ResolvingSteps(w: World, auth: Auth, id: Id, note: Option<string>, now: Time)
    ensures match ApproveTx(w.db, auth, id, note, now)
      case Ok((next, _)) => Apply(w, Approve(auth, id, note, now)) == w.(db := next)
      case Err(_) => Apply(w, Approve(auth, id, note, now)) == w
    ensures match DenyTx(w.db, auth, id, note, now)
      case Ok(next) => Apply(w, Deny(auth, id, note, now)) == w.(db := next)
      case Err(_) => Apply(w, Deny(auth, id, note, now)) == w
  {
  }

  lemma StartStep(w: World, ws: Id, sid: Id, now: Time)
    ensures match StartTx(w.db, ws, sid, now)
      case Ok((next, _)) => Apply(w, StartSession(ws, sid, now)) == w.(db := next)
      case Err(_) => Apply(w, StartSession(ws, sid, now)) == w
  {
  }

  lemma StopStep(w: World, ws: Id, sid: Id, now: Time)
    ensures match StopTx(w.db, ws, sid, now)
      case Ok(next) => Apply(w, StopSession(ws, sid, now)) == w.(db := next)
      case Err(_) => Apply(w, StopSession(ws, sid, now)) == w
  {
  }

  lemma TransitionStep(
    w: World, ws: Id, sid: Id, allowed: set<SessionStatus>, status: SessionStatus, summary: Option<string>, now: Time)
    ensures match TransitionTx(w.db, ws, sid, allowed, status, summary, now)
      case Ok(next) => Apply(w, Transition(ws, sid, allowed, status, summary, now)) == w.(db := next)
      case Err(_) => Apply(w, Transition(ws, sid, allowed, status, summary, now)) == w
  {
  }

  /** A failed start belongs to the planning job it created, and to that job's session. */
  lemma FailStartStep(w: World, job: Id, error: string, now: Time)
    ensures var next := Apply(w, FailStart(job, error, now));
      if job < |w.db.jobs| && w.db.jobs[job].jobType == PlanSession && w.db.jobs[job].sessionId.Some? then
        next == w.(db := FailedStartTx(
          w.db, w.db.jobs[job].workspaceId, w.db.jobs[job].sessionId.value, job, error, now))
      else next == w
  {
  }

  lemma AgentSteps(w: World, sid: Id, step: Id, policy: string, now: Time)
    ensures Apply(w, RequestApproval(sid, step, policy, now))
      == w.(db := if sid < |w.db.sessions| then RequestTx(w.db, sid, step, policy, now) else w.db)
    ensures Apply(w, QueueToolCall(sid, policy, now))
      == w.(db := if sid < |w.db.sessions| then QueueTx(w.db, sid, policy, now).0 else w.db)
  {
  }

  lemma CreatingSteps(
    w: World, ws: Id, sid: Id, step: Option<Id>, owner: Option<Id>, name: string, content: map<string, string>,
    status: ToolCallStatus, error: Option<string>, now: Time)
    ensures Apply(w, CreateSession(ws)).db
      == w.db.(sessions := w.db.sessions + [Session(ws, Draft, None, None, None, None)])
    ensures Apply(w, CreateApproval(ws, sid, step)).db
      == w.db.(approvals := w.db.approvals + [Approval(ws, sid, step, None, Pending, None, None, None)])
    ensures Apply(w, CreateJob(ws, owner, name, content, now)).db == w.db.(jobs := w.db.jobs + [Job(
      ws, owner, OtherJob(name), OtherPayload(content), JobStatus.Queued, None, 0, 1,
      None, None, now, None, None, None, None, None)])
    ensures sid < |w.db.sessions| ==>
      Apply(w, CreateToolCall(sid, status, error)).db == w.db.(toolCalls := w.db.toolCalls + [ToolCall(
        w.db.sessions[sid].workspaceId, sid, status, None, None, None, error, None, None, None, None, None)])
  {
  }

  /** Messages are kept once accepted; the history records exactly the deliveries that claim. */
  lemma BrokerSteps(w: World, job: Id, taskId: Option<string>, worker: string, now: Time)
    ensures Apply(w, BrokerAccepts(job)) == w.(messages := w.messages + {job})
    ensures Apply(w, ConfirmEnqueue(job, taskId)) == w.(db :=
      if job < |w.db.jobs| then w.db.(jobs := w.db.jobs[job := w.db.jobs[job].(celeryTaskId := taskId)]) else w.db)
    ensures Apply(w, Deliver(job, worker, now)).messages == w.messages
    ensures Apply(w, Deliver(job, worker, now)).claims == w.claims
      + if job in w.messages && job < |w.db.jobs| && w.db.jobs[job].status == JobStatus.Queued
           && w.db.jobs[job].runAfter <= now
        then [Claim(job, worker, now)] else []
  {
  }
}
