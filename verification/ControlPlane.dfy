/**
 The control plane as a state machine. Every database transaction is one step, so
 requests, workers and the broker interleave freely between transactions. Approvals that
 gate a tool call come only from the agent, each with a call of its own; execution jobs
 come from approvals and from commands that need none.
 */
module ControlPlane {
  import opened Options
  import opened SessionRows
  import opened Approvals
  import opened SessionServices

  datatype Claim = Claim(job: Id, worker: string, at: Time)

  /** The committed tables, the messages the broker holds, and the history of successful claims. */
  datatype World = World(db: Db, messages: set<Id>, claims: seq<Claim>)

  datatype Action =
    | CreateSession(workspaceId: Id)
    | CreateToolCall(sessionId: Id, callStatus: ToolCallStatus, errorMessage: Option<string>)
    | QueueToolCall(sessionId: Id, policy: string, now: Time)
    | CreateApproval(workspaceId: Id, sessionId: Id, linkedStep: Option<Id>)  // links no tool call
    | RequestApproval(sessionId: Id, stepId: Id, policy: string, now: Time)
    | Approve(auth: Auth, id: Id, note: Option<string>, now: Time)  // its first commit
    | Deny(auth: Auth, id: Id, note: Option<string>, now: Time)
    | BrokerAccepts(job: Id)
    | ConfirmEnqueue(job: Id, taskId: Option<string>)
    | CreateJob(workspaceId: Id, ownerSession: Option<Id>, name: string, content: map<string, string>, now: Time)
    | Deliver(job: Id, worker: string, now: Time)                   // any number of times per message
    | SucceedJob(job: Id, result: Option<string>, progress: Option<string>, now: Time)
    | FailJob(job: Id, error: string, now: Time)                    // by a worker, a reconciler, or a failed enqueue
    | MarkToolCallRunning(id: Id, runtimeId: Id, now: Time)         // the worker checked the status earlier
    | FinishToolCall(id: Id, outcome: Outcome, now: Time)
    | StartSession(workspaceId: Id, sessionId: Id, now: Time)       // its first commit
    | FailStart(job: Id, error: string, now: Time)                  // its enqueue failed
    | StopSession(workspaceId: Id, sessionId: Id, now: Time)
    | Transition(
        workspaceId: Id, sessionId: Id, allowed: set<SessionStatus>, status: SessionStatus,
        summary: Option<string>, now: Time)

  /** A planning job stands for the call of `start_session` that created it. */
  predicate IsStart(db: Db, job: Id)
  {
    job < |db.jobs| && db.jobs[job].jobType == PlanSession && db.jobs[job].sessionId.Some?
  }

  function Committed<E>(db: Db, r: Result<Db, E>): Db { if r.Ok? then r.value else db }

  function WithJob(db: Db, id: Id, j: Job): Db
    requires id < |db.jobs|
  {
    db.(jobs := db.jobs[id := j])
  }

  function WithToolCall(db: Db, id: Id, t: ToolCall): Db
    requires id < |db.toolCalls|
  {
    db.(toolCalls := db.toolCalls[id := t])
  }

  /** The tables after the transaction of an action, if it commits. */
  function Next(db: Db, messages: set<Id>, a: Action): Db
  {
    match a
    case CreateSession(ws) =>
      db.(sessions := db.sessions + [Session(ws, Draft, None, None, None, None)])
    case CreateToolCall(sid, status, error) =>
      if sid < |db.sessions| then
        db.(toolCalls := db.toolCalls + [NewToolCall(db.sessions[sid].workspaceId, sid, status, None, error)])
      else db
    case QueueToolCall(sid, policy, now) =>
      if sid < |db.sessions| then QueueTx(db, sid, policy, now).0 else db
    case CreateApproval(ws, sid, step) =>
      db.(approvals := db.approvals + [NewApproval(ws, sid, step, None)])
    case RequestApproval(sid, step, policy, now) =>
      if sid < |db.sessions| then RequestTx(db, sid, step, policy, now) else db
    case Approve(auth, id, note, now) =>
      var r := ApproveTx(db, auth, id, note, now);
      if r.Ok? then r.value.0 else db
    case Deny(auth, id, note, now) =>
      Committed(db, DenyTx(db, auth, id, note, now))
    case BrokerAccepts(_) => db
    case ConfirmEnqueue(job, taskId) => ConfirmTx(db, job, taskId)
    case CreateJob(ws, sid, name, content, now) =>
      db.(jobs := db.jobs + [NewJob(ws, sid, OtherJob(name), OtherPayload(content), 1, now)])
    case Deliver(job, worker, now) =>
      if job in messages && job < |db.jobs| && Claimable(db.jobs[job], now) then
        WithJob(db, job, ClaimedJob(db.jobs[job], worker, now))
      else db
    case SucceedJob(job, result, progress, now) =>
      if job < |db.jobs| then WithJob(db, job, SucceededJob(db.jobs[job], result, progress, now)) else db
    case FailJob(job, error, now) => FailTx(db, job, error, now)
    case MarkToolCallRunning(id, runtimeId, now) =>
      if id < |db.toolCalls| then
        WithToolCall(db, id, RunningToolCall(db.toolCalls[id], runtimeId, None, now))
      else db
    case FinishToolCall(id, outcome, now) =>
      if id < |db.toolCalls| && IsFinished(outcome.status) then
        WithToolCall(db, id, FinishedToolCall(db.toolCalls[id], outcome, now))
      else db
    case StartSession(ws, sid, now) =>
      var r := StartTx(db, ws, sid, now);
      if r.Ok? then r.value.0 else db
    case FailStart(job, error, now) =>
      if IsStart(db, job) then
        FailedStartTx(db, db.jobs[job].workspaceId, db.jobs[job].sessionId.value, job, error, now)
      else db
    case StopSession(ws, sid, now) =>
      Committed(db, StopTx(db, ws, sid, now))
    case Transition(ws, sid, allowed, status, summary, now) =>
      Committed(db, TransitionTx(db, ws, sid, allowed, status, summary, now))
  }

  function Apply(w: World, a: Action): World
  {
    World(
      Next(w.db, w.messages, a),
      if a.BrokerAccepts? then w.messages + {a.job} else w.messages,
      if a.Deliver? && a.job in w.messages && a.job < |w.db.jobs| && Claimable(w.db.jobs[a.job], a.now)
      then w.claims + [Claim(a.job, a.worker, a.now)] else w.claims)
  }

  /** Any sessions and steps; no approvals, tool calls, jobs or log entries yet. */
  ghost predicate Start(w: World)
  {
    && w.db.approvals == [] && w.db.toolCalls == [] && w.db.jobs == []
    && w.db.events == [] && w.db.audit == []
    && w.messages == {} && w.claims == []
  }

  /** `worlds` is a run: it starts afresh, and each world is the one before after one action. */
  ghost predicate IsRun(worlds: seq<World>, actions: seq<Action>)
  {
    && |worlds| == |actions| + 1
    && Start(worlds[0])
    && forall i :: 0 <= i < |actions| ==> worlds[i + 1] == Apply(worlds[i], actions[i])
  }

  // ----- what every step keeps -----

  predicate SameApprovalLinks(a: Approval, b: Approval)
  {
    a.workspaceId == b.workspaceId && a.sessionId == b.sessionId && a.stepId == b.stepId && a.toolCallId == b.toolCallId
  }

  predicate SameJobPayload(a: Job, b: Job)
  {
    a.workspaceId == b.workspaceId && a.sessionId == b.sessionId && a.jobType == b.jobType && a.payload == b.payload
  }

  predicate ApprovalsKept(a: seq<Approval>, b: seq<Approval>)
  {
    && |a| <= |b|
    && forall i :: 0 <= i < |a| ==> SameApprovalLinks(a[i], b[i]) && (a[i].status != Pending ==> b[i] == a[i])
  }

  predicate JobsKept(a: seq<Job>, b: seq<Job>)
  {
    && |a| <= |b|
    && forall i :: 0 <= i < |a| ==>
         SameJobPayload(a[i], b[i]) && (a[i].status != JobStatus.Queued ==> b[i].status != JobStatus.Queued)
  }

  /**
   Rows and log entries are never dropped, a resolved approval never changes, and a job
   that has left the queue never returns to it.
   */
  predicate Later(a: Db, b: Db)
  {
    && ApprovalsKept(a.approvals, b.approvals)
    && JobsKept(a.jobs, b.jobs)
    && |a.sessions| <= |b.sessions| && |a.toolCalls| <= |b.toolCalls|
    && a.events <= b.events
    && a.audit <= b.audit
  }

  lemma ApproveIsLater(db: Db, auth: Auth, id: Id, note: Option<string>, now: Time)
    requires ApproveTx(db, auth, id, note, now).Ok?
    ensures Later(db, ApproveTx(db, auth, id, note, now).value.0)
  {
  }

  lemma DenyIsLater(db: Db, auth: Auth, id: Id, note: Option<string>, now: Time)
    requires DenyTx(db, auth, id, note, now).Ok?
    ensures Later(db, DenyTx(db, auth, id, note, now).value)
  {
  }

  lemma StopIsLater(db: Db, workspaceId: Id, sessionId: Id, now: Time)
    ensures Later(db, Committed(db, StopTx(db, workspaceId, sessionId, now)))
  {
  }

  lemma StartIsLater(w: World, a: Action)
    requires a.StartSession? || a.FailStart?
    ensures Later(w.db, Apply(w, a).db)
  {
  }

  lemma SessionStepIsLater(w: World, a: Action)
    requires a.RequestApproval? || a.QueueToolCall? || a.Transition?
    ensures Later(w.db, Apply(w, a).db)
  {
  }

  lemma JobStepIsLater(w: World, a: Action)
    requires a.ConfirmEnqueue? || a.CreateJob? || a.Deliver? || a.SucceedJob? || a.FailJob?
    ensures Later(w.db, Apply(w, a).db)
  {
  }

  lemma StepIsLater(w: World, a: Action)
    ensures Later(w.db, Apply(w, a).db)
  {
    match a
    case Approve(auth, id, note, now) =>
      if ApproveTx(w.db, auth, id, note, now).Ok? {
        ApproveIsLater(w.db, auth, id, note, now);
      }
    case Deny(auth, id, note, now) =>
      if DenyTx(w.db, auth, id, note, now).Ok? {
        DenyIsLater(w.db, auth, id, note, now);
      }
    case RequestApproval(_, _, _, _) => SessionStepIsLater(w, a);
    case QueueToolCall(_, _, _) => SessionStepIsLater(w, a);
    case StartSession(_, _, _) => StartIsLater(w, a);
    case FailStart(_, _, _) => StartIsLater(w, a);
    case StopSession(ws, sid, now) => StopIsLater(w.db, ws, sid, now);
    case Transition(_, _, _, _, _, _) => SessionStepIsLater(w, a);
    case ConfirmEnqueue(_, _) => JobStepIsLater(w, a);
    case CreateJob(_, _, _, _, _) => JobStepIsLater(w, a);
    case Deliver(_, _, _) => JobStepIsLater(w, a);
    case SucceedJob(_, _, _, _) => JobStepIsLater(w, a);
    case FailJob(_, _, _) => JobStepIsLater(w, a);
    case _ =>
  }

  lemma LaterChains(a: Db, b: Db, c: Db)
    requires Later(a, b) && Later(b, c)
    ensures Later(a, c)
  {
  }

  lemma {:induction false} RunIsLater(worlds: seq<World>, actions: seq<Action>, i: nat, j: nat)
    requires IsRun(worlds, actions) && i <= j < |worlds|
    ensures Later(worlds[i].db, worlds[j].db)
    decreases j
  {
    if i == j {
    } else {
      RunIsLater(worlds, actions, i, j - 1);
      StepIsLater(worlds[j - 1], actions[j - 1]);
      LaterChains(worlds[i].db, worlds[j - 1].db, worlds[j].db);
    }
  }

  /** An approval leaves `pending` at most once; after that its row is frozen. */
  lemma ResolvedApprovalsAreFrozen(worlds: seq<World>, actions: seq<Action>, i: nat, j: nat, id: Id)
    requires IsRun(worlds, actions) && i <= j < |worlds|
    requires id < |worlds[i].db.approvals| && worlds[i].db.approvals[id].status != Pending
    ensures id < |worlds[j].db.approvals| && worlds[j].db.approvals[id] == worlds[i].db.approvals[id]
  {
    RunIsLater(worlds, actions, i, j);
  }
}
