/**
 Approvals over whole runs: what `approve` leaves behind corresponds one to one with the
 approved approvals, among everything else that queues tool calls, and denied or pending
 approvals leave nothing.
 */
module ApprovalRuns {
  import opened Options
  import opened SessionRows
  import opened Approvals
  import opened SessionServices
  import opened ControlPlane
  import opened Trails

  /** What the correspondence is about: the approvals, how many tool calls there are, and the logs. */
  datatype Trail = Trail(
    approvals: seq<Approval>, calls: nat, records: seq<Audit>, queued: seq<Link>, executions: seq<Link>)

  function TrailOf(db: Db): Trail
  {
    Trail(db.approvals, |db.toolCalls|, ApprovedRecords(db.audit), QueuedLinks(db.events), ExecutionLinks(db.jobs))
  }

  /** Some approval links tool call `tc`. */
  ghost predicate Gated(approvals: seq<Approval>, tc: Id)
  {
    exists id :: 0 <= id < |approvals| && approvals[id].toolCallId == Some(tc)
  }

  /** The links whose tool call an approval gates. */
  ghost function GatedLinks(links: seq<Link>, approvals: seq<Approval>): seq<Link>
  {
    if links == [] then []
    else
      var last := links[|links| - 1];
      GatedLinks(links[..|links| - 1], approvals) + if Gated(approvals, last.toolCallId) then [last] else []
  }

  /** Every approval links a tool call of its own, and links name existing calls. */
  ghost predicate WellLinked(t: Trail)
  {
    && (forall id :: 0 <= id < |t.approvals| && t.approvals[id].toolCallId.Some? ==>
          t.approvals[id].toolCallId.value < t.calls)
    && (forall i, j :: 0 <= i < j < |t.approvals| && t.approvals[i].toolCallId.Some? ==>
          t.approvals[i].toolCallId != t.approvals[j].toolCallId)
    && (forall k :: 0 <= k < |t.queued| ==> t.queued[k].toolCallId < t.calls)
  }

  /** Record `r`, queued link `q` and its approval speak of the same tool call, job and session. */
  predicate Matches(approvals: seq<Approval>, r: Audit, q: Link)
  {
    && r.ApprovalApproved?
    && r.toolCallId == q.toolCallId && r.jobId == q.jobId
    && r.approvalId < |approvals|
    && var a := approvals[r.approvalId];
       && a.status == Approved && a.toolCallId == Some(q.toolCallId) && a.sessionId == q.sessionId
       && a.workspaceId == r.workspaceId
  }

  /**
   Queued events and execution jobs are the same links in the same order, whoever queued
   them. Those whose tool call an approval gates are, one to one and in order, the links
   that the approval records name, and the records are one to one with the approved
   approvals.
   */
  ghost predicate Corresponds(t: Trail)
  {
    var gated := GatedLinks(t.queued, t.approvals);
    && WellLinked(t)
    && t.queued == t.executions
    && |t.records| == |gated|
    && (forall i :: 0 <= i < |gated| ==> Matches(t.approvals, t.records[i], gated[i]))
    && (forall i, j :: 0 <= i < j < |t.records| && t.records[i].ApprovalApproved? && t.records[j].ApprovalApproved? ==>
          t.records[i].approvalId != t.records[j].approvalId)
    && (forall id :: 0 <= id < |t.approvals| && t.approvals[id].status == Approved ==>
          exists i :: 0 <= i < |t.records| && t.records[i].ApprovalApproved? && t.records[i].approvalId == id)
  }

  // ----- gated links -----

  lemma {:induction false} SameGates(links: seq<Link>, a: seq<Approval>, b: seq<Approval>)
    requires forall k :: 0 <= k < |links| ==> (Gated(a, links[k].toolCallId) <==> Gated(b, links[k].toolCallId))
    ensures GatedLinks(links, a) == GatedLinks(links, b)
  {
    if links == [] {
    } else {
      SameGates(links[..|links| - 1], a, b);
    }
  }

  lemma OneMoreLink(links: seq<Link>, q: Link, approvals: seq<Approval>)
    ensures GatedLinks(links + [q], approvals)
      == GatedLinks(links, approvals) + if Gated(approvals, q.toolCallId) then [q] else []
  {
    assert (links + [q])[..|links|] == links;
  }

  lemma {:induction false} GatedLinkIsGated(links: seq<Link>, approvals: seq<Approval>, q: Link)
    ensures q in GatedLinks(links, approvals) <==> q in links && Gated(approvals, q.toolCallId)
  {
    if links == [] {
    } else {
      GatedLinkIsGated(links[..|links| - 1], approvals, q);
    }
  }

  // ----- the kinds of steps -----

  /** Nothing but the number of tool calls changes. */
  predicate Quiet(a: Trail, b: Trail)
  {
    b == a.(calls := b.calls) && a.calls <= b.calls
  }

  lemma QuietCorresponds(a: Trail, b: Trail)
    requires Corresponds(a) && Quiet(a, b)
    ensures Corresponds(b)
  {
  }

  /** A new call is queued without an approval. */
  lemma QueuedCorresponds(a: Trail, b: Trail, q: Link)
    requires Corresponds(a) && q.toolCallId == a.calls
    requires b == a.(calls := a.calls + 1, queued := a.queued + [q], executions := a.executions + [q])
    ensures Corresponds(b)
  {
    OneMoreLink(a.queued, q, a.approvals);
  }

  /** A new approval links no call, or a new one. */
  lemma CreatedCorresponds(a: Trail, b: Trail, p: Approval)
    requires Corresponds(a) && p.status == Pending
    requires p.toolCallId == None || p.toolCallId == Some(a.calls)
    requires b == a.(approvals := a.approvals + [p], calls := b.calls)
    requires b.calls == if p.toolCallId.Some? then a.calls + 1 else a.calls
    ensures Corresponds(b)
  {
    forall k | 0 <= k < |a.queued|
      ensures Gated(a.approvals, a.queued[k].toolCallId) <==> Gated(b.approvals, a.queued[k].toolCallId)
    {
      var tc := a.queued[k].toolCallId;
      if Gated(a.approvals, tc) {
        var id :| 0 <= id < |a.approvals| && a.approvals[id].toolCallId == Some(tc);
        assert b.approvals[id] == a.approvals[id];
      }
    }
    SameGates(a.queued, a.approvals, b.approvals);
    forall id | 0 <= id < |b.approvals| && b.approvals[id].status == Approved
      ensures exists i :: 0 <= i < |b.records| && b.records[i].ApprovalApproved? && b.records[i].approvalId == id
    {
      assert a.approvals[id].status == Approved;
    }
  }

  /** One pending approval is resolved; its links stay. */
  predicate Resolves(a: Trail, b: Trail, id: Id)
  {
    && id < |a.approvals| == |b.approvals| && a.approvals[id].status == Pending
    && SameApprovalLinks(a.approvals[id], b.approvals[id])
    && (forall k :: 0 <= k < |a.approvals| && k != id ==> b.approvals[k] == a.approvals[k])
    && b.calls == a.calls
  }

  lemma ResolutionKeepsGates(a: Trail, b: Trail, id: Id)
    requires Resolves(a, b, id)
    ensures GatedLinks(a.queued, b.approvals) == GatedLinks(a.queued, a.approvals)
  {
    forall k | 0 <= k < |a.queued|
      ensures Gated(a.approvals, a.queued[k].toolCallId) <==> Gated(b.approvals, a.queued[k].toolCallId)
    {
      assert forall i :: 0 <= i < |a.approvals| ==> a.approvals[i].toolCallId == b.approvals[i].toolCallId;
    }
    SameGates(a.queued, a.approvals, b.approvals);
  }

  /** The records so far do not name a pending approval. */
  lemma RecordsSkipPending(a: Trail, id: Id)
    requires Corresponds(a) && id < |a.approvals| && a.approvals[id].status != Approved
    ensures forall i :: 0 <= i < |a.records| && a.records[i].ApprovalApproved? ==> a.records[i].approvalId != id
  {
    forall i | 0 <= i < |a.records| && a.records[i].ApprovalApproved?
      ensures a.records[i].approvalId != id
    {
      assert Matches(a.approvals, a.records[i], GatedLinks(a.queued, a.approvals)[i]);
    }
  }

  lemma DeniedCorresponds(a: Trail, b: Trail, id: Id)
    requires Corresponds(a) && Resolves(a, b, id) && b == a.(approvals := b.approvals)
    requires b.approvals[id].status == ApprovalStatus.Denied
    ensures Corresponds(b)
  {
    ResolutionKeepsGates(a, b, id);
    RecordsSkipPending(a, id);
    var gated := GatedLinks(a.queued, a.approvals);
    forall i | 0 <= i < |gated|
      ensures Matches(b.approvals, b.records[i], gated[i])
    {
      assert Matches(a.approvals, a.records[i], gated[i]);
    }
  }

  /** One pending approval becomes approved, with one new entry on each of the other sides. */
  lemma ApprovedCorresponds(a: Trail, b: Trail, id: Id, r: Audit, q: Link)
    requires Corresponds(a) && Resolves(a, b, id)
    requires r.ApprovalApproved? && r.approvalId == id && Matches(b.approvals, r, q)
    requires b.records == a.records + [r] && b.queued == a.queued + [q] && b.executions == a.executions + [q]
    ensures Corresponds(b)
  {
    ResolutionKeepsGates(a, b, id);
    RecordsSkipPending(a, id);
    OneMoreLink(a.queued, q, b.approvals);
    assert Gated(b.approvals, q.toolCallId) by {
      assert b.approvals[id].toolCallId == Some(q.toolCallId);
    }
    var gated := GatedLinks(a.queued, a.approvals);
    forall i | 0 <= i < |gated|
      ensures Matches(b.approvals, b.records[i], gated[i])
    {
      assert Matches(a.approvals, a.records[i], gated[i]);
    }
    forall k | 0 <= k < |b.approvals| && b.approvals[k].status == Approved
      ensures exists i :: 0 <= i < |b.records| && b.records[i].ApprovalApproved? && b.records[i].approvalId == k
    {
      if k == id {
        assert b.records[|a.records|].approvalId == id;
      } else {
        var i :| 0 <= i < |a.records| && a.records[i].ApprovalApproved? && a.records[i].approvalId == k;
        assert b.records[i].approvalId == k;
      }
    }
  }

  // ----- the steps of the machine -----

  /** What `approve` adds, whether or not it also resumes the session. */
  lemma ApproveAdds(db: Db, auth: Auth, id: Id, note: Option<string>, now: Time)
    requires ApproveTx(db, auth, id, note, now).Ok?
    ensures var next := ApproveTx(db, auth, id, note, now).value.0;
      var q := Link(db.approvals[id].sessionId, db.approvals[id].toolCallId.value, |db.jobs|);
      var t := TrailOf(db);
      && TrailOf(next) == Trail(
           next.approvals, t.calls,
           t.records + [ApprovalApproved(auth.workspaceId, id, q.toolCallId, q.jobId)],
           t.queued + [q], t.executions + [q])
      && Resolves(t, TrailOf(next), id) && next.approvals[id].status == Approved
  {
    var next := ApproveTx(db, auth, id, note, now).value.0;
    var ws, sid, tc := auth.workspaceId, db.approvals[id].sessionId, db.approvals[id].toolCallId.value;
    var resumed := Resumed(db, sid, now).events[|db.events|..];
    var quiet := resumed + [SessionEvent(ws, sid, ApprovalResolved(id, Approved))];
    assert next.events == db.events + quiet + [SessionEvent(ws, sid, ToolCallQueued(tc, |db.jobs|))];
    NoQueued(db.events, quiet);
    OneMoreEvent(db.events + quiet, SessionEvent(ws, sid, ToolCallQueued(tc, |db.jobs|)));
    OneMoreJob(db.jobs, NewJob(ws, Some(sid), ExecuteToolCall, ToolCallPayload(tc, sid), 1, now));
    OneMoreRecord(db.audit, ApprovalApproved(ws, id, tc, |db.jobs|));
  }

  lemma ApproveCorresponds(db: Db, auth: Auth, id: Id, note: Option<string>, now: Time)
    requires Corresponds(TrailOf(db)) && ApproveTx(db, auth, id, note, now).Ok?
    ensures Corresponds(TrailOf(ApproveTx(db, auth, id, note, now).value.0))
  {
    var q := Link(db.approvals[id].sessionId, db.approvals[id].toolCallId.value, |db.jobs|);
    ApproveAdds(db, auth, id, note, now);
    ApprovedCorresponds(
      TrailOf(db), TrailOf(ApproveTx(db, auth, id, note, now).value.0), id,
      ApprovalApproved(auth.workspaceId, id, q.toolCallId, q.jobId), q);
  }

  /** Entries that queue nothing and a record that approves nothing leave the trail alone. */
  lemma TrailBesides(db: Db, next: Db, more: seq<SessionEvent>, record: Audit)
    requires next.events == db.events + more && QueuesNothing(more)
    requires next.audit == db.audit + [record] && !record.ApprovalApproved?
    requires next.jobs == db.jobs && |next.toolCalls| == |db.toolCalls|
    ensures TrailOf(next) == TrailOf(db).(approvals := next.approvals)
  {
    NoQueued(db.events, more);
    OneMoreRecord(db.audit, record);
  }

  lemma DenyResolves(db: Db, auth: Auth, id: Id, note: Option<string>, now: Time)
    requires DenyTx(db, auth, id, note, now).Ok?
    ensures var next := DenyTx(db, auth, id, note, now).value;
      && id < |db.approvals| == |next.approvals| && db.approvals[id].status == Pending
      && SameApprovalLinks(db.approvals[id], next.approvals[id])
      && next.approvals[id].status == ApprovalStatus.Denied
      && (forall k :: 0 <= k < |db.approvals| && k != id ==> next.approvals[k] == db.approvals[k])
  {
  }

  lemma DenyWrites(db: Db, auth: Auth, id: Id, note: Option<string>, now: Time) returns (more: seq<SessionEvent>)
    requires DenyTx(db, auth, id, note, now).Ok?
    ensures var next := DenyTx(db, auth, id, note, now).value;
      && next.events == db.events + more && QueuesNothing(more)
      && next.audit == db.audit + [ApprovalDenied(auth.workspaceId, id)]
      && next.jobs == db.jobs && |next.toolCalls| == |db.toolCalls|
  {
    var sid := db.approvals[id].sessionId;
    more := Resumed(db, sid, now).events[|db.events|..]
      + [SessionEvent(auth.workspaceId, sid, ApprovalResolved(id, ApprovalStatus.Denied))];
  }

  lemma DenyAdds(db: Db, auth: Auth, id: Id, note: Option<string>, now: Time)
    requires DenyTx(db, auth, id, note, now).Ok?
    ensures var next := DenyTx(db, auth, id, note, now).value;
      && TrailOf(next) == TrailOf(db).(approvals := next.approvals)
      && Resolves(TrailOf(db), TrailOf(next), id) && next.approvals[id].status == ApprovalStatus.Denied
  {
    var more := DenyWrites(db, auth, id, note, now);
    DenyResolves(db, auth, id, note, now);
    TrailBesides(db, DenyTx(db, auth, id, note, now).value, more, ApprovalDenied(auth.workspaceId, id));
  }

  lemma CommandCorresponds(db: Db, sid: Id, policy: string, now: Time)
    requires Corresponds(TrailOf(db)) && sid < |db.sessions|
    ensures Corresponds(TrailOf(QueueTx(db, sid, policy, now).0))
  {
    var next := QueueTx(db, sid, policy, now).0;
    var ws, tc := db.sessions[sid].workspaceId, |db.toolCalls|;
    OneMoreEvent(db.events, SessionEvent(ws, sid, ToolCallQueued(tc, |db.jobs|)));
    OneMoreJob(db.jobs, NewJob(ws, Some(sid), ExecuteToolCall, ToolCallPayload(tc, sid), 1, now));
    QueuedCorresponds(TrailOf(db), TrailOf(next), Link(sid, tc, |db.jobs|));
  }

  lemma RequestAdds(db: Db, sid: Id, step: Id, policy: string, now: Time)
    requires sid < |db.sessions|
    ensures TrailOf(RequestTx(db, sid, step, policy, now)) == TrailOf(db).(
      approvals := db.approvals + [NewApproval(db.sessions[sid].workspaceId, sid, Some(step), Some(|db.toolCalls|))],
      calls := |db.toolCalls| + 1)
  {
    var s := db.sessions[sid];
    var first := SessionEvent(s.workspaceId, sid, ApprovalRequested(|db.approvals|, |db.toolCalls|));
    var second := SessionEvent(s.workspaceId, sid, StatusChanged(s.status, SessionStatus.AwaitingApproval));
    OneMoreEvent(db.events, first);
    OneMoreEvent(db.events + [first], second);
    assert RequestTx(db, sid, step, policy, now).events == db.events + [first] + [second];
  }

  lemma RequestCorresponds(db: Db, sid: Id, step: Id, policy: string, now: Time)
    requires Corresponds(TrailOf(db)) && sid < |db.sessions|
    ensures Corresponds(TrailOf(RequestTx(db, sid, step, policy, now)))
  {
    RequestAdds(db, sid, step, policy, now);
    CreatedCorresponds(
      TrailOf(db), TrailOf(RequestTx(db, sid, step, policy, now)),
      NewApproval(db.sessions[sid].workspaceId, sid, Some(step), Some(|db.toolCalls|)));
  }

  /** Rows that other steps leave alone, and log entries they do not write. */
  predicate QuietTables(a: Db, b: Db)
  {
    && b.approvals == a.approvals && b.audit == a.audit && |a.toolCalls| <= |b.toolCalls|
    && a.events <= b.events && QueuesNothing(b.events[|a.events|..])
    && ExecutesNothingNew(a.jobs, b.jobs)
  }

  lemma QuietTablesKeepTrail(a: Db, b: Db)
    requires QuietTables(a, b)
    ensures Quiet(TrailOf(a), TrailOf(b))
  {
    NoQueued(a.events, b.events[|a.events|..]);
    assert b.events == a.events + b.events[|a.events|..];
    NoneExecuted(a.jobs, b.jobs);
  }

  predicate IsSessionStep(a: Action) { a.StartSession? || a.FailStart? || a.StopSession? || a.Transition? }

  lemma SessionStepIsQuiet(w: World, a: Action)
    requires IsSessionStep(a)
    ensures QuietTables(w.db, Apply(w, a).db)
  {
  }

  lemma OtherStepIsQuiet(w: World, a: Action)
    requires !a.QueueToolCall? && !a.CreateApproval? && !a.RequestApproval? && !a.Approve? && !a.Deny?
    ensures QuietTables(w.db, Apply(w, a).db)
  {
    if IsSessionStep(a) {
      SessionStepIsQuiet(w, a);
    } else {
      assert Apply(w, a).db.events == w.db.events;
    }
  }

  lemma StepCorresponds(w: World, a: Action)
    requires Corresponds(TrailOf(w.db))
    ensures Corresponds(TrailOf(Apply(w, a).db))
  {
    var db, next := w.db, Apply(w, a).db;
    match a
    case QueueToolCall(sid, policy, now) =>
      if sid < |db.sessions| {
        CommandCorresponds(db, sid, policy, now);
      }
    case CreateApproval(ws, sid, step) =>
      CreatedCorresponds(TrailOf(db), TrailOf(next), NewApproval(ws, sid, step, None));
    case RequestApproval(sid, step, policy, now) =>
      if sid < |db.sessions| {
        RequestCorresponds(db, sid, step, policy, now);
      }
    case Approve(auth, id, note, now) =>
      if ApproveTx(db, auth, id, note, now).Ok? {
        ApproveCorresponds(db, auth, id, note, now);
      }
    case Deny(auth, id, note, now) =>
      if DenyTx(db, auth, id, note, now).Ok? {
        DenyAdds(db, auth, id, note, now);
        DeniedCorresponds(TrailOf(db), TrailOf(next), id);
      }
    case _ =>
      OtherStepIsQuiet(w, a);
      QuietTablesKeepTrail(db, next);
      QuietCorresponds(TrailOf(db), TrailOf(next));
  }

  /**
   In every run, with approvals, commands that need none, and all other jobs mixed, the
   approved approvals, records, and gated events and jobs correspond one to one.
   */
  lemma {:induction false} RunCorresponds(worlds: seq<World>, actions: seq<Action>, n: nat)
    requires IsRun(worlds, actions) && n < |worlds|
    ensures Corresponds(TrailOf(worlds[n].db))
  {
    if n == 0 {
    } else {
      RunCorresponds(worlds, actions, n - 1);
      StepCorresponds(worlds[n - 1], actions[n - 1]);
    }
  }

  // ----- one approval at a time -----

  /** Log entry `e` queues tool call `tc`. */
  predicate Queues(e: SessionEvent, tc: Id) { e.body.ToolCallQueued? && e.body.toolCallId == tc }

  /** Job `j` executes tool call `tc`. */
  predicate ExecutesCall(j: Job, tc: Id) { Executes(j) && j.payload.toolCallId == tc }

  /** A link that names an approval's tool call is matched by a record of that very approval. */
  lemma LinkNamesApproval(t: Trail, id: Id, q: Link) returns (i: nat)
    requires Corresponds(t) && id < |t.approvals| && t.approvals[id].toolCallId == Some(q.toolCallId)
    requires q in t.queued
    ensures i < |t.records| && t.records[i].ApprovalApproved? && t.records[i].approvalId == id
    ensures t.records[i].jobId == q.jobId && t.approvals[id].status == Approved
  {
    var gated := GatedLinks(t.queued, t.approvals);
    GatedLinkIsGated(t.queued, t.approvals, q);
    i :| 0 <= i < |gated| && gated[i] == q;
    assert Matches(t.approvals, t.records[i], gated[i]);
    assert t.records[i].approvalId == id;
  }

  /**
   An approval that is denied, or still pending, is named by no approval record, and its
   tool call by no queued event and no execution job.
   */
  lemma DeniedApprovalsLeaveNothing(worlds: seq<World>, actions: seq<Action>, n: nat, id: Id)
    requires IsRun(worlds, actions) && n < |worlds|
    requires id < |worlds[n].db.approvals| && worlds[n].db.approvals[id].status != Approved
    ensures var db := worlds[n].db;
      && (forall i :: 0 <= i < |db.audit| ==> !(db.audit[i].ApprovalApproved? && db.audit[i].approvalId == id))
      && (db.approvals[id].toolCallId.Some? ==>
            var tc := db.approvals[id].toolCallId.value;
            && (forall i :: 0 <= i < |db.events| ==> !Queues(db.events[i], tc))
            && (forall j :: 0 <= j < |db.jobs| ==> !ExecutesCall(db.jobs[j], tc)))
  {
    var db := worlds[n].db;
    var t := TrailOf(db);
    RunCorresponds(worlds, actions, n);
    RecordsSkipPending(t, id);
    forall i | 0 <= i < |db.audit|
      ensures !(db.audit[i].ApprovalApproved? && db.audit[i].approvalId == id)
    {
      if db.audit[i].ApprovalApproved? {
        RecordIsListed(db.audit, i);
      }
    }
    if db.approvals[id].toolCallId.Some? {
      var tc := db.approvals[id].toolCallId.value;
      forall i | 0 <= i < |db.events|
        ensures !Queues(db.events[i], tc)
      {
        if Queues(db.events[i], tc) {
          QueuedEventHasLink(db.events, i);
          var r := LinkNamesApproval(t, id, Link(db.events[i].sessionId, tc, db.events[i].body.jobId));
        }
      }
      forall j | 0 <= j < |db.jobs|
        ensures !ExecutesCall(db.jobs[j], tc)
      {
        if ExecutesCall(db.jobs[j], tc) {
          ExecutionHasLink(db.jobs, j);
          var r := LinkNamesApproval(t, id, Link(db.jobs[j].payload.sessionId, tc, j));
        }
      }
    }
  }

  lemma {:induction false} RecordIsListed(audit: seq<Audit>, i: nat)
    requires i < |audit| && audit[i].ApprovalApproved?
    ensures audit[i] in ApprovedRecords(audit)
  {
    if i == |audit| - 1 {
    } else {
      RecordIsListed(audit[..|audit| - 1], i);
    }
  }

  /**
   The tool call of an approved approval is executed by exactly one job, the one its
   record names, and the log queues it exactly once, for that job.
   */
  lemma ApprovedApprovalsHaveOneJob(worlds: seq<World>, actions: seq<Action>, n: nat, id: Id) returns (job: Id)
    requires IsRun(worlds, actions) && n < |worlds|
    requires id < |worlds[n].db.approvals| && worlds[n].db.approvals[id].status == Approved
    ensures var db := worlds[n].db;
      && db.approvals[id].toolCallId.Some?
      && var tc := db.approvals[id].toolCallId.value;
         && ApprovalApproved(db.approvals[id].workspaceId, id, tc, job) in ApprovedRecords(db.audit)
         && job < |db.jobs| && ExecutesCall(db.jobs[job], tc)
         && (forall j :: 0 <= j < |db.jobs| && ExecutesCall(db.jobs[j], tc) ==> j == job)
         && Link(db.approvals[id].sessionId, tc, job) in QueuedLinks(db.events)
         && (forall i :: 0 <= i < |db.events| && Queues(db.events[i], tc) ==> db.events[i].body.jobId == job)
         && (forall i, j :: 0 <= i < j < |db.events| ==> !(Queues(db.events[i], tc) && Queues(db.events[j], tc)))
  {
    var db := worlds[n].db;
    var t := TrailOf(db);
    RunCorresponds(worlds, actions, n);
    var gated := GatedLinks(t.queued, t.approvals);
    var i :| 0 <= i < |t.records| && t.records[i].ApprovalApproved? && t.records[i].approvalId == id;
    assert Matches(t.approvals, t.records[i], gated[i]);
    var q := gated[i];
    job := q.jobId;
    GatedLinkIsGated(t.queued, t.approvals, q);
    LinkHasExecution(db.jobs, q);
    forall j | 0 <= j < |db.jobs| && ExecutesCall(db.jobs[j], q.toolCallId)
      ensures j == job
    {
      ExecutionHasLink(db.jobs, j);
      OneLinkPerApproval(t, id, i, Link(db.jobs[j].payload.sessionId, q.toolCallId, j));
    }
    forall e | 0 <= e < |db.events| && Queues(db.events[e], q.toolCallId)
      ensures db.events[e].body.jobId == job
    {
      QueuedEventHasLink(db.events, e);
      OneLinkPerApproval(t, id, i, Link(db.events[e].sessionId, q.toolCallId, db.events[e].body.jobId));
    }
    ExecutionLinksAscend(db.jobs);
    forall e, f | 0 <= e < f < |db.events|
      ensures !(Queues(db.events[e], q.toolCallId) && Queues(db.events[f], q.toolCallId))
    {
      if Queues(db.events[e], q.toolCallId) && Queues(db.events[f], q.toolCallId) {
        QueuedEventsAscend(db.events, e, f);
      }
    }
  }

  lemma OneLinkPerApproval(t: Trail, id: Id, i: nat, q: Link)
    requires Corresponds(t) && id < |t.approvals| && t.approvals[id].toolCallId == Some(q.toolCallId) && q in t.queued
    requires i < |t.records| && t.records[i].ApprovalApproved? && t.records[i].approvalId == id
    ensures q.jobId == t.records[i].jobId
  {
    var k := LinkNamesApproval(t, id, q);
    assert k == i;
  }
}
