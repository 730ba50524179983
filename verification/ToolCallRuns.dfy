/**
 Tool call rows over whole runs: when a row that counts as unfinished still carries the
 time it completed.
 */
module ToolCallRuns {
  import opened Options
  import opened SessionRows
  import opened Approvals
  import opened SessionServices
  import opened ControlPlane
  import opened ApprovalRuns

  /** A completion time is recorded only on a finished call. */
  predicate Coherent(t: ToolCall) { t.completedAt.Some? ==> IsFinished(t.status) }

  // ----- one resolution -----

  /**
   Approving does not look at the tool call's status and never clears its completion time:
   the call is queued again whatever it was, and the row stays coherent exactly when the
   call had never completed. Every other tool call is left alone.
   */
  lemma ApproveRequeuesToolCall(db: Db, auth: Auth, id: Id, note: Option<string>, now: Time)
    requires ApproveTx(db, auth, id, note, now).Ok?
    ensures var next, tc := ApproveTx(db, auth, id, note, now).value.0, db.approvals[id].toolCallId.value;
      && tc < |db.toolCalls| == |next.toolCalls|
      && next.toolCalls[tc] == db.toolCalls[tc].(status := ToolCallStatus.Queued)
      && (Coherent(next.toolCalls[tc]) <==> db.toolCalls[tc].completedAt.None?)
      && (forall k :: 0 <= k < |db.toolCalls| && k != tc ==> next.toolCalls[k] == db.toolCalls[k])
  {
  }

  /** Denying finishes the linked call, so its row is coherent afterwards whatever it was. */
  lemma DenyFinishesToolCall(db: Db, auth: Auth, id: Id, note: Option<string>, now: Time)
    requires DenyTx(db, auth, id, note, now).Ok?
    ensures var next, linked := DenyTx(db, auth, id, note, now).value, db.approvals[id].toolCallId;
      && |next.toolCalls| == |db.toolCalls|
      && (forall k :: 0 <= k < |db.toolCalls| ==>
           if linked == Some(k) && db.toolCalls[k].workspaceId == auth.workspaceId then
             && next.toolCalls[k].status == ToolCallStatus.Denied && Coherent(next.toolCalls[k])
             && next.toolCalls[k].completedAt == Some(now)
           else next.toolCalls[k] == db.toolCalls[k])
  {
  }

  /** Either resolution leaves the session running if it was waiting, and otherwise as it was. */
  lemma ResolutionResumesOnlyWaiting(db: Db, auth: Auth, id: Id, note: Option<string>, now: Time)
    ensures ApproveTx(db, auth, id, note, now).Ok? ==>
      ResumedSessions(db, db.approvals[id].sessionId, ApproveTx(db, auth, id, note, now).value.0.sessions)
    ensures DenyTx(db, auth, id, note, now).Ok? ==>
      ResumedSessions(db, db.approvals[id].sessionId, DenyTx(db, auth, id, note, now).value.sessions)
  {
  }

  predicate ResumedSessions(db: Db, sessionId: Id, after: seq<Session>)
  {
    && |after| == |db.sessions|
    && (forall k :: 0 <= k < |after| ==>
         if k == sessionId && db.sessions[k].status == SessionStatus.AwaitingApproval then
           && after[k].status == SessionStatus.Running && after[k].startedAt.Some?
           && after[k].completedAt == db.sessions[k].completedAt
         else after[k] == db.sessions[k])
  }

  // ----- what a step does to one call -----

  /** The step approves the approval that gates call `tc`. */
  predicate Approves(db: Db, a: Action, tc: Id)
  {
    a.Approve? && ApproveTx(db, a.auth, a.id, a.note, a.now).Ok? && db.approvals[a.id].toolCallId == Some(tc)
  }

  /** The step marks call `tc` running. */
  predicate Marks(a: Action, tc: Id) { a.MarkToolCallRunning? && a.id == tc }

  /** The step puts a call that has completed back to work. */
  predicate Revives(db: Db, a: Action, tc: Id)
  {
    tc < |db.toolCalls| && db.toolCalls[tc].completedAt.Some? && (Approves(db, a, tc) || Marks(a, tc))
  }

  /** The step finishes, denies or cancels call `tc`. */
  predicate Closes(db: Db, a: Action, tc: Id)
  {
    && tc < |db.toolCalls|
    && (|| (a.FinishToolCall? && a.id == tc && IsFinished(a.outcome.status))
        || (a.Deny? && DenyTx(db, a.auth, a.id, a.note, a.now).Ok?
            && db.approvals[a.id].toolCallId == Some(tc) && db.toolCalls[tc].workspaceId == a.auth.workspaceId)
        || (a.StopSession? && StopTx(db, a.workspaceId, a.sessionId, a.now).Ok?
            && CancellableToolCall(db.toolCalls[tc], a.workspaceId, a.sessionId)))
  }

  predicate Incoherent(db: Db, tc: Id) { tc < |db.toolCalls| && !Coherent(db.toolCalls[tc]) }

  lemma ApprovalStep(w: World, a: Action, tc: Id)
    requires a.Approve? || a.Deny?
    ensures Incoherent(Apply(w, a).db, tc) <==> Revives(w.db, a, tc) || (Incoherent(w.db, tc) && !Closes(w.db, a, tc))
  {
    match a
    case Approve(auth, id, note, now) =>
      if ApproveTx(w.db, auth, id, note, now).Ok? {
        ApproveRequeuesToolCall(w.db, auth, id, note, now);
      }
    case Deny(auth, id, note, now) =>
      if DenyTx(w.db, auth, id, note, now).Ok? {
        DenyFinishesToolCall(w.db, auth, id, note, now);
      }
    case CreateSession(_) =>
  }

  lemma StopStep(w: World, ws: Id, sid: Id, now: Time, tc: Id)
    ensures var a := StopSession(ws, sid, now);
      Incoherent(Apply(w, a).db, tc) <==> Incoherent(w.db, tc) && !Closes(w.db, a, tc)
  {
  }

  /** A row is incoherent after a step that revives it, and until a step that closes it. */
  lemma StepRevives(w: World, a: Action, tc: Id)
    ensures Incoherent(Apply(w, a).db, tc) <==> Revives(w.db, a, tc) || (Incoherent(w.db, tc) && !Closes(w.db, a, tc))
  {
    if a.Approve? || a.Deny? {
      ApprovalStep(w, a, tc);
    } else if a.StopSession? {
      StopStep(w, a.workspaceId, a.sessionId, a.now, tc);
    } else if a.StartSession? || a.FailStart? || a.Transition? {
      assert Apply(w, a).db.toolCalls == w.db.toolCalls;
    }
  }

  // ----- whole runs -----

  /** Some step before `n` is a `start`, and no step after it is an `end`. */
  ghost predicate Since(start: nat -> bool, end: nat -> bool, n: nat)
  {
    exists m :: 0 <= m < n && start(m) && forall k :: m < k < n ==> !end(k)
  }

  lemma SinceOneMore(start: nat -> bool, end: nat -> bool, n: nat)
    ensures Since(start, end, n + 1) <==> start(n) || (Since(start, end, n) && !end(n))
  {
    if start(n) || (Since(start, end, n) && !end(n)) {
      var m := if start(n) then n else var i :| 0 <= i < n && start(i) && forall k :: i < k < n ==> !end(k); i;
      assert start(m) && forall k :: m < k < n + 1 ==> !end(k);
    }
  }

  function RevivesAt(worlds: seq<World>, actions: seq<Action>, tc: Id): nat -> bool
  {
    (m: nat) => m < |actions| && m < |worlds| && Revives(worlds[m].db, actions[m], tc)
  }

  function ClosesAt(worlds: seq<World>, actions: seq<Action>, tc: Id): nat -> bool
  {
    (m: nat) => m < |actions| && m < |worlds| && Closes(worlds[m].db, actions[m], tc)
  }

  /**
   In every run a row is incoherent exactly when a step revived the call after it had
   completed, and nothing has finished, denied or cancelled it since. The step is an
   approval, or a worker that marks the call running on a status it read earlier.
   */
  lemma {:induction false} IncoherentExactlyWhenRevived(worlds: seq<World>, actions: seq<Action>, n: nat, tc: Id)
    requires IsRun(worlds, actions) && n < |worlds|
    ensures Incoherent(worlds[n].db, tc)
      <==> Since(RevivesAt(worlds, actions, tc), ClosesAt(worlds, actions, tc), n)
  {
    if n == 0 {
    } else {
      IncoherentExactlyWhenRevived(worlds, actions, n - 1, tc);
      StepRevives(worlds[n - 1], actions[n - 1], tc);
      SinceOneMore(RevivesAt(worlds, actions, tc), ClosesAt(worlds, actions, tc), n - 1);
    }
  }

  // ----- approvals as the only cause -----

  /** A gated call that is finished has a completion time. */
  ghost predicate GatedCallsTell(db: Db)
  {
    forall id :: 0 <= id < |db.approvals| && db.approvals[id].toolCallId.Some?
                 && db.approvals[id].toolCallId.value < |db.toolCalls| ==>
      (IsFinished(db.toolCalls[db.approvals[id].toolCallId.value].status) ==>
         db.toolCalls[db.approvals[id].toolCallId.value].completedAt.Some?)
  }

  /** A step that finishes a call records the time. */
  predicate FinishingTells(a: seq<ToolCall>, b: seq<ToolCall>)
  {
    && |a| <= |b|
    && forall k :: 0 <= k < |a| ==>
         b[k] == a[k] || !IsFinished(b[k].status) || b[k].completedAt.Some?
  }

  lemma StepFinishingTells(w: World, a: Action)
    ensures FinishingTells(w.db.toolCalls, Apply(w, a).db.toolCalls)
  {
    var db := w.db;
    if a.Approve? && ApproveTx(db, a.auth, a.id, a.note, a.now).Ok? {
      ApproveRequeuesToolCall(db, a.auth, a.id, a.note, a.now);
    } else if a.Deny? && DenyTx(db, a.auth, a.id, a.note, a.now).Ok? {
      DenyFinishesToolCall(db, a.auth, a.id, a.note, a.now);
    } else if a.StartSession? || a.FailStart? || a.Transition? {
      assert Apply(w, a).db.toolCalls == db.toolCalls;
    }
  }

  /** A step's new approvals link no call, or one that waits. */
  lemma NewApprovalsWait(w: World, a: Action, id: Id)
    requires |w.db.approvals| <= id < |Apply(w, a).db.approvals|
    ensures var next := Apply(w, a).db;
      next.approvals[id].toolCallId.Some? && next.approvals[id].toolCallId.value < |next.toolCalls| ==>
        !IsFinished(next.toolCalls[next.approvals[id].toolCallId.value].status)
  {
    if a.CreateApproval? || a.RequestApproval? {
    } else {
      StepAddsNoApproval(w, a);
    }
  }

  lemma StepAddsNoApproval(w: World, a: Action)
    requires !a.CreateApproval? && !a.RequestApproval?
    ensures |Apply(w, a).db.approvals| == |w.db.approvals|
  {
  }

  lemma StepGatedCallsTell(w: World, a: Action)
    requires WellLinked(TrailOf(w.db)) && GatedCallsTell(w.db)
    ensures GatedCallsTell(Apply(w, a).db)
  {
    var next := Apply(w, a).db;
    StepFinishingTells(w, a);
    StepIsLater(w, a);
    forall id | 0 <= id < |next.approvals| && next.approvals[id].toolCallId.Some?
                && next.approvals[id].toolCallId.value < |next.toolCalls|
      ensures IsFinished(next.toolCalls[next.approvals[id].toolCallId.value].status) ==>
        next.toolCalls[next.approvals[id].toolCallId.value].completedAt.Some?
    {
      if id < |w.db.approvals| {
        assert w.db.approvals[id].toolCallId == next.approvals[id].toolCallId;
        assert TrailOf(w.db).approvals[id].toolCallId.value < |w.db.toolCalls|;
      } else {
        NewApprovalsWait(w, a, id);
      }
    }
  }

  lemma {:induction false} RunGatedCallsTell(worlds: seq<World>, actions: seq<Action>, n: nat)
    requires IsRun(worlds, actions) && n < |worlds|
    ensures GatedCallsTell(worlds[n].db)
  {
    if n == 0 {
    } else {
      RunGatedCallsTell(worlds, actions, n - 1);
      RunCorresponds(worlds, actions, n - 1);
      StepGatedCallsTell(worlds[n - 1], actions[n - 1]);
    }
  }

  /** No step before `n` marks call `tc` running after it has completed. */
  ghost predicate MarkedInTime(worlds: seq<World>, actions: seq<Action>, n: nat, tc: Id)
    requires |worlds| == |actions| + 1 && n < |worlds|
  {
    forall m :: 0 <= m < n && tc < |worlds[m].db.toolCalls| && Marks(actions[m], tc) ==>
      worlds[m].db.toolCalls[tc].completedAt.None?
  }

  /** The call has finished while its approval is pending, and the step approves it. */
  function ApprovedTooLateAt(worlds: seq<World>, actions: seq<Action>, tc: Id): nat -> bool
  {
    (m: nat) =>
      && m < |actions| && m < |worlds|
      && tc < |worlds[m].db.toolCalls| && IsFinished(worlds[m].db.toolCalls[tc].status)
      && Approves(worlds[m].db, actions[m], tc)
  }

  lemma ApprovesPending(w: World, a: Action, tc: Id)
    requires Approves(w.db, a, tc)
    ensures a.id < |w.db.approvals| == |Apply(w, a).db.approvals|
    ensures w.db.approvals[a.id].status == Pending && w.db.approvals[a.id].toolCallId == Some(tc)
    ensures Apply(w, a).db.approvals[a.id].status == Approved
    ensures Apply(w, a).db.approvals[a.id].toolCallId == Some(tc)
    ensures tc < |w.db.toolCalls|
  {
  }

  /** The approval of a call is resolved once, so the call is not approved twice. */
  lemma ApprovedOnce(worlds: seq<World>, actions: seq<Action>, i: nat, m: nat, tc: Id)
    requires IsRun(worlds, actions) && i < m < |actions|
    requires Approves(worlds[i].db, actions[i], tc)
    ensures !Approves(worlds[m].db, actions[m], tc)
  {
    var first := actions[i].id;
    ApprovesPending(worlds[i], actions[i], tc);
    assert worlds[i + 1] == Apply(worlds[i], actions[i]);
    ResolvedApprovalsAreFrozen(worlds, actions, i + 1, m, first);
    RunCorresponds(worlds, actions, m);
    if Approves(worlds[m].db, actions[m], tc) {
      ApprovesPending(worlds[m], actions[m], tc);
      OneApprovalPerCall(TrailOf(worlds[m].db), first, actions[m].id, tc);
      assert false;
    }
  }

  lemma OneApprovalPerCall(t: Trail, i: Id, j: Id, tc: Id)
    requires WellLinked(t) && i < |t.approvals| && j < |t.approvals|
    requires t.approvals[i].toolCallId == Some(tc) && t.approvals[j].toolCallId == Some(tc)
    ensures i == j
  {
  }

  /** At its approval, a call carries a completion time exactly when its status says it has finished. */
  lemma CompletedMeansFinished(worlds: seq<World>, actions: seq<Action>, m: nat, tc: Id)
    requires IsRun(worlds, actions) && m < |actions| && MarkedInTime(worlds, actions, m, tc)
    requires Approves(worlds[m].db, actions[m], tc) && tc < |worlds[m].db.toolCalls|
    ensures worlds[m].db.toolCalls[tc].completedAt.Some? <==> IsFinished(worlds[m].db.toolCalls[tc].status)
  {
    IncoherentExactlyWhenRevived(worlds, actions, m, tc);
    forall i | 0 <= i < m
      ensures !RevivesAt(worlds, actions, tc)(i)
    {
      if Approves(worlds[i].db, actions[i], tc) {
        ApprovedOnce(worlds, actions, i, m, tc);
      }
    }
    RunGatedCallsTell(worlds, actions, m);
    ApprovesPending(worlds[m], actions[m], tc);
  }

  lemma SinceSameStarts(p: nat -> bool, q: nat -> bool, end: nat -> bool, n: nat)
    requires forall m :: 0 <= m < n ==> p(m) == q(m)
    ensures Since(p, end, n) == Since(q, end, n)
  {
  }

  /**
   As long as workers mark a call running only before it completes, its row is incoherent
   exactly when the call was finished or cancelled while its approval was still pending,
   was then approved, and has not been finished or cancelled since.
   */
  lemma IncoherentExactlyWhenApprovedTooLate(worlds: seq<World>, actions: seq<Action>, n: nat, tc: Id)
    requires IsRun(worlds, actions) && n < |worlds| && MarkedInTime(worlds, actions, n, tc)
    ensures Incoherent(worlds[n].db, tc)
      <==> Since(ApprovedTooLateAt(worlds, actions, tc), ClosesAt(worlds, actions, tc), n)
  {
    IncoherentExactlyWhenRevived(worlds, actions, n, tc);
    forall m | 0 <= m < n
      ensures RevivesAt(worlds, actions, tc)(m) == ApprovedTooLateAt(worlds, actions, tc)(m)
    {
      if Approves(worlds[m].db, actions[m], tc) && tc < |worlds[m].db.toolCalls| {
        CompletedMeansFinished(worlds, actions, m, tc);
      }
    }
    SinceSameStarts(RevivesAt(worlds, actions, tc), ApprovedTooLateAt(worlds, actions, tc), ClosesAt(worlds, actions, tc), n);
  }

  // ----- a run that revives a call -----

  /** Stopping a session cancels a call that waits; its approval can still be granted. */
  lemma StopThenApprove(db: Db, ws: Id, sid: Id, user: Id, id: Id, tc: Id, stopped: Time, now: Time)
    requires StopTx(db, ws, sid, stopped).Ok?
    requires id < |db.approvals| && db.approvals[id].status == Pending && db.approvals[id].workspaceId == ws
    requires db.approvals[id].sessionId == sid && db.approvals[id].toolCallId == Some(tc)
    requires tc < |db.toolCalls| && CancellableToolCall(db.toolCalls[tc], ws, sid)
    ensures var halted := StopTx(db, ws, sid, stopped).value;
      && halted.toolCalls[tc].status == ToolCallStatus.Cancelled
      && ApproveTx(halted, Auth(ws, user), id, None, now).Ok?
      && var t := ApproveTx(halted, Auth(ws, user), id, None, now).value.0.toolCalls[tc];
         t.status == ToolCallStatus.Queued && t.completedAt == Some(stopped)
  {
  }

  lemma AskStopApprove(db: Db, sid: Id, user: Id, now: Time) returns (asked: Db, halted: Db, granted: Db)
    requires db.approvals == [] && db.toolCalls == [] && sid < |db.sessions| && db.sessions[sid].deletedAt.None?
    ensures var ws := db.sessions[sid].workspaceId;
      && asked == Next(db, {}, RequestApproval(sid, 0, "ask", now))
      && halted == Next(asked, {}, StopSession(ws, sid, now))
      && granted == Next(halted, {}, Approve(Auth(ws, user), 0, None, now))
    ensures |granted.toolCalls| == 1
      && granted.toolCalls[0].status == ToolCallStatus.Queued && granted.toolCalls[0].completedAt == Some(now)
  {
    var ws := db.sessions[sid].workspaceId;
    asked := RequestTx(db, sid, 0, "ask", now);
    AskedWaits(db, sid, now);
    StopThenApprove(asked, ws, sid, user, 0, 0, now, now);
    halted := StopTx(asked, ws, sid, now).value;
    granted := ApproveTx(halted, Auth(ws, user), 0, None, now).value.0;
    ApproveRequeuesToolCall(halted, Auth(ws, user), 0, None, now);
  }

  /**
   From any start with a session, three steps end with a queued call that carries a
   completion time: the agent asks, the session is stopped, the approval is granted.
   */
  lemma ApprovalCanReviveACall(w: World, sid: Id, user: Id, now: Time) returns (worlds: seq<World>, actions: seq<Action>)
    requires Start(w) && sid < |w.db.sessions| && w.db.sessions[sid].deletedAt.None?
    ensures IsRun(worlds, actions) && |actions| == 3 && worlds[0] == w
    ensures |worlds[3].db.toolCalls| == 1
    ensures worlds[3].db.toolCalls[0].status == ToolCallStatus.Queued
    ensures worlds[3].db.toolCalls[0].completedAt == Some(now)
  {
    var ws := w.db.sessions[sid].workspaceId;
    var asked, halted, granted := AskStopApprove(w.db, sid, user, now);
    actions := [
      RequestApproval(sid, 0, "ask", now), StopSession(ws, sid, now), Approve(Auth(ws, user), 0, None, now)];
    worlds := [w, World(asked, {}, []), World(halted, {}, []), World(granted, {}, [])];
  }

  lemma AskedWaits(db: Db, sid: Id, now: Time)
    requires db.approvals == [] && db.toolCalls == [] && sid < |db.sessions| && db.sessions[sid].deletedAt.None?
    ensures var asked, ws := RequestTx(db, sid, 0, "ask", now), db.sessions[sid].workspaceId;
      && asked.approvals == [NewApproval(ws, sid, Some(0), Some(0))]
      && asked.toolCalls == [NewToolCall(ws, sid, ToolCallStatus.AwaitingApproval, Some("ask"), None)]
      && StopTx(asked, ws, sid, now).Ok?
  {
  }
}
