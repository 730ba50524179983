/** Over whole runs, the approval.resolved events are exactly the approvals no longer pending. */
module ResolutionRuns {
  import opened Options
  import opened SessionRows
  import opened Approvals
  import opened SessionServices
  import opened ControlPlane

  /** The statuses to which the log says approval `id` was resolved, in order. */
  function Resolutions(events: seq<SessionEvent>, id: Id): seq<ApprovalStatus>
  {
    if events == [] then []
    else
      var e := events[|events| - 1];
      Resolutions(events[..|events| - 1], id)
      + if e.body.ApprovalResolved? && e.body.approvalId == id then [e.body.status] else []
  }

  function ResolutionCount(events: seq<SessionEvent>): nat
  {
    if events == [] then 0
    else ResolutionCount(events[..|events| - 1]) + if events[|events| - 1].body.ApprovalResolved? then 1 else 0
  }

  function ResolvedCount(approvals: seq<Approval>): nat
  {
    if approvals == [] then 0
    else ResolvedCount(approvals[..|approvals| - 1]) + if approvals[|approvals| - 1].status != Pending then 1 else 0
  }

  /** The log resolves each approval once, to its status, or not at all while it is pending. */
  ghost predicate ResolutionsTell(approvals: seq<Approval>, events: seq<SessionEvent>)
  {
    && ResolutionCount(events) == ResolvedCount(approvals)
    && (forall id :: 0 <= id < |approvals| ==>
          Resolutions(events, id) == if approvals[id].status == Pending then [] else [approvals[id].status])
    && (forall id :: id >= |approvals| ==> Resolutions(events, id) == [])
  }

  // ----- one more entry -----

  lemma OneMoreEvent(events: seq<SessionEvent>, e: SessionEvent, id: Id)
    ensures Resolutions(events + [e], id)
      == Resolutions(events, id) + if e.body.ApprovalResolved? && e.body.approvalId == id then [e.body.status] else []
    ensures ResolutionCount(events + [e]) == ResolutionCount(events) + if e.body.ApprovalResolved? then 1 else 0
  {
    assert (events + [e])[..|events|] == events;
  }

  predicate ResolvesNothing(events: seq<SessionEvent>)
  {
    forall i :: 0 <= i < |events| ==> !events[i].body.ApprovalResolved?
  }

  lemma {:induction false} NoResolutions(events: seq<SessionEvent>, more: seq<SessionEvent>, id: Id)
    requires ResolvesNothing(more)
    ensures Resolutions(events + more, id) == Resolutions(events, id)
    ensures ResolutionCount(events + more) == ResolutionCount(events)
  {
    if more == [] {
      assert events + more == events;
    } else {
      var n := |more| - 1;
      NoResolutions(events, more[..n], id);
      assert (events + more)[..|events| + n] == events + more[..n];
    }
  }

  lemma OneMoreApproval(approvals: seq<Approval>, a: Approval)
    ensures ResolvedCount(approvals + [a]) == ResolvedCount(approvals) + if a.status != Pending then 1 else 0
  {
    assert (approvals + [a])[..|approvals|] == approvals;
  }

  lemma {:induction false} ResolvedOneMore(approvals: seq<Approval>, id: Id, a: Approval)
    requires id < |approvals| && approvals[id].status == Pending && a.status != Pending
    ensures ResolvedCount(approvals[id := a]) == ResolvedCount(approvals) + 1
  {
    var n := |approvals| - 1;
    if id == n {
      assert approvals[id := a][..n] == approvals[..n];
    } else {
      ResolvedOneMore(approvals[..n], id, a);
      assert approvals[id := a][..n] == approvals[..n][id := a];
    }
  }

  // ----- the kinds of steps -----

  lemma QuietTells(approvals: seq<Approval>, events: seq<SessionEvent>, more: seq<SessionEvent>)
    requires ResolutionsTell(approvals, events) && ResolvesNothing(more)
    ensures ResolutionsTell(approvals, events + more)
  {
    NoResolutions(events, more, 0);
    forall id: Id { NoResolutions(events, more, id); }
  }

  lemma CreatedTells(approvals: seq<Approval>, events: seq<SessionEvent>, p: Approval)
    requires ResolutionsTell(approvals, events) && p.status == Pending
    ensures ResolutionsTell(approvals + [p], events)
  {
    OneMoreApproval(approvals, p);
  }

  /** One pending approval is resolved, with its entry in the log. */
  lemma ResolvedTells(approvals: seq<Approval>, events: seq<SessionEvent>, id: Id, a: Approval, e: SessionEvent)
    requires ResolutionsTell(approvals, events)
    requires id < |approvals| && approvals[id].status == Pending && a.status != Pending
    requires e.body == ApprovalResolved(id, a.status)
    ensures ResolutionsTell(approvals[id := a], events + [e])
  {
    var after := approvals[id := a];
    ResolvedOneMore(approvals, id, a);
    OneMoreEvent(events, e, id);
    forall k: Id
      ensures Resolutions(events + [e], k) == Resolutions(events, k) + if k == id then [a.status] else []
    {
      OneMoreEvent(events, e, k);
    }
    forall k: nat | k < |after|
      ensures Resolutions(events + [e], k) == if after[k].status == Pending then [] else [after[k].status]
    {
      assert k != id ==> after[k] == approvals[k];
    }
  }

  // ----- the steps of the machine -----

  /** `approve` logs a resolution, after the resumed session and before the queued call. */
  lemma ApproveLogs(db: Db, auth: Auth, id: Id, note: Option<string>, now: Time)
    returns (resumed: seq<SessionEvent>, e: SessionEvent, queued: seq<SessionEvent>)
    requires ApproveTx(db, auth, id, note, now).Ok?
    ensures var next := ApproveTx(db, auth, id, note, now).value.0;
      && next.events == db.events + resumed + [e] + queued
      && ResolvesNothing(resumed) && ResolvesNothing(queued) && e.body == ApprovalResolved(id, Approved)
      && id < |db.approvals| && db.approvals[id].status == Pending
      && |next.approvals| == |db.approvals|
      && next.approvals == db.approvals[id := next.approvals[id]] && next.approvals[id].status == Approved
  {
    var ws, sid, tc := auth.workspaceId, db.approvals[id].sessionId, db.approvals[id].toolCallId.value;
    resumed := Resumed(db, sid, now).events[|db.events|..];
    e := SessionEvent(ws, sid, ApprovalResolved(id, Approved));
    queued := [SessionEvent(ws, sid, ToolCallQueued(tc, |db.jobs|))];
  }

  lemma ApproveTells(db: Db, auth: Auth, id: Id, note: Option<string>, now: Time)
    requires ResolutionsTell(db.approvals, db.events) && ApproveTx(db, auth, id, note, now).Ok?
    ensures var next := ApproveTx(db, auth, id, note, now).value.0;
      ResolutionsTell(next.approvals, next.events)
  {
    var resumed, e, queued := ApproveLogs(db, auth, id, note, now);
    var next := ApproveTx(db, auth, id, note, now).value.0;
    QuietTells(db.approvals, db.events, resumed);
    ResolvedTells(db.approvals, db.events + resumed, id, next.approvals[id], e);
    QuietTells(next.approvals, db.events + resumed + [e], queued);
  }

  lemma DenyLogs(db: Db, auth: Auth, id: Id, note: Option<string>, now: Time)
    returns (resumed: seq<SessionEvent>, e: SessionEvent)
    requires DenyTx(db, auth, id, note, now).Ok?
    ensures var next := DenyTx(db, auth, id, note, now).value;
      && next.events == db.events + resumed + [e]
      && ResolvesNothing(resumed) && e.body == ApprovalResolved(id, ApprovalStatus.Denied)
      && id < |db.approvals| && db.approvals[id].status == Pending
      && |next.approvals| == |db.approvals|
      && next.approvals == db.approvals[id := next.approvals[id]] && next.approvals[id].status == ApprovalStatus.Denied
  {
    var sid := db.approvals[id].sessionId;
    resumed := Resumed(db, sid, now).events[|db.events|..];
    e := SessionEvent(auth.workspaceId, sid, ApprovalResolved(id, ApprovalStatus.Denied));
  }

  lemma DenyTells(db: Db, auth: Auth, id: Id, note: Option<string>, now: Time)
    requires ResolutionsTell(db.approvals, db.events) && DenyTx(db, auth, id, note, now).Ok?
    ensures var next := DenyTx(db, auth, id, note, now).value;
      ResolutionsTell(next.approvals, next.events)
  {
    var resumed, e := DenyLogs(db, auth, id, note, now);
    QuietTells(db.approvals, db.events, resumed);
    ResolvedTells(
      db.approvals, db.events + resumed, id, DenyTx(db, auth, id, note, now).value.approvals[id], e);
  }

  /** The agent's request logs no resolution and adds one pending approval. */
  lemma RequestLogs(db: Db, sid: Id, step: Id, policy: string, now: Time) returns (more: seq<SessionEvent>, p: Approval)
    requires sid < |db.sessions|
    ensures var next := RequestTx(db, sid, step, policy, now);
      && next.events == db.events + more && ResolvesNothing(more)
      && next.approvals == db.approvals + [p] && p.status == Pending
  {
    var s, ws := db.sessions[sid], db.sessions[sid].workspaceId;
    more := [SessionEvent(ws, sid, ApprovalRequested(|db.approvals|, |db.toolCalls|)),
             SessionEvent(ws, sid, StatusChanged(s.status, SessionStatus.AwaitingApproval))];
    p := NewApproval(ws, sid, Some(step), Some(|db.toolCalls|));
  }

  lemma RequestTells(db: Db, sid: Id, step: Id, policy: string, now: Time)
    requires ResolutionsTell(db.approvals, db.events) && sid < |db.sessions|
    ensures var next := RequestTx(db, sid, step, policy, now);
      ResolutionsTell(next.approvals, next.events)
  {
    var more, p := RequestLogs(db, sid, step, policy, now);
    QuietTells(db.approvals, db.events, more);
    CreatedTells(db.approvals, db.events + more, p);
  }

  predicate WritesNoResolution(a: Db, b: Db)
  {
    b.approvals == a.approvals && a.events <= b.events && ResolvesNothing(b.events[|a.events|..])
  }

  lemma SessionStepResolvesNothing(w: World, a: Action)
    requires a.QueueToolCall? || a.StartSession? || a.FailStart? || a.StopSession? || a.Transition?
    ensures WritesNoResolution(w.db, Apply(w, a).db)
  {
  }

  lemma StepTells(w: World, a: Action)
    requires ResolutionsTell(w.db.approvals, w.db.events)
    ensures ResolutionsTell(Apply(w, a).db.approvals, Apply(w, a).db.events)
  {
    var db, next := w.db, Apply(w, a).db;
    match a
    case CreateApproval(ws, sid, step) =>
      CreatedTells(db.approvals, db.events, NewApproval(ws, sid, step, None));
    case RequestApproval(sid, step, policy, now) =>
      if sid < |db.sessions| {
        RequestTells(db, sid, step, policy, now);
      }
    case Approve(auth, id, note, now) =>
      if ApproveTx(db, auth, id, note, now).Ok? {
        ApproveTells(db, auth, id, note, now);
      }
    case Deny(auth, id, note, now) =>
      if DenyTx(db, auth, id, note, now).Ok? {
        DenyTells(db, auth, id, note, now);
      }
    case _ =>
      OtherStepTells(w, a);
  }

  lemma OtherStepTells(w: World, a: Action)
    requires ResolutionsTell(w.db.approvals, w.db.events)
    requires !a.CreateApproval? && !a.RequestApproval? && !a.Approve? && !a.Deny?
    ensures ResolutionsTell(Apply(w, a).db.approvals, Apply(w, a).db.events)
  {
    var db, next := w.db, Apply(w, a).db;
    if a.QueueToolCall? || a.StartSession? || a.FailStart? || a.StopSession? || a.Transition? {
      SessionStepResolvesNothing(w, a);
      QuietTells(db.approvals, db.events, next.events[|db.events|..]);
      assert next.events == db.events + next.events[|db.events|..];
    } else {
      assert next.approvals == db.approvals && next.events == db.events;
    }
  }

  lemma {:induction false} RunResolutionsTell(worlds: seq<World>, actions: seq<Action>, n: nat)
    requires IsRun(worlds, actions) && n < |worlds|
    ensures ResolutionsTell(worlds[n].db.approvals, worlds[n].db.events)
  {
    if n == 0 {
    } else {
      RunResolutionsTell(worlds, actions, n - 1);
      StepTells(worlds[n - 1], actions[n - 1]);
    }
  }
}
