/** What the event log, the job table and the audit log say about queued tool calls. */
module Trails {
  import opened Options
  import opened SessionRows
  import opened ControlPlane

  /** One queued tool call: the session, the tool call, and the job that executes it. */
  datatype Link = Link(sessionId: Id, toolCallId: Id, jobId: Id)

  function QueuedLink(e: SessionEvent): seq<Link>
  {
    if e.body.ToolCallQueued? then [Link(e.sessionId, e.body.toolCallId, e.body.jobId)] else []
  }

  /** The `tool_call.queued` entries in log order. */
  function QueuedLinks(events: seq<SessionEvent>): seq<Link>
  {
    if events == [] then []
    else QueuedLinks(events[..|events| - 1]) + QueuedLink(events[|events| - 1])
  }

  predicate Executes(j: Job)
  {
    j.jobType == ExecuteToolCall && j.payload.ToolCallPayload? && j.sessionId == Some(j.payload.sessionId)
  }

  function ExecutionLink(j: Job, id: Id): seq<Link>
  {
    if Executes(j) then [Link(j.payload.sessionId, j.payload.toolCallId, id)] else []
  }

  /** The execution jobs in creation order. */
  function ExecutionLinks(jobs: seq<Job>): seq<Link>
  {
    if jobs == [] then []
    else ExecutionLinks(jobs[..|jobs| - 1]) + ExecutionLink(jobs[|jobs| - 1], |jobs| - 1)
  }

  function ApprovedRecords(audit: seq<Audit>): (r: seq<Audit>)
    ensures forall i :: 0 <= i < |r| ==> r[i].ApprovalApproved?
  {
    if audit == [] then []
    else
      var a := audit[|audit| - 1];
      ApprovedRecords(audit[..|audit| - 1]) + if a.ApprovalApproved? then [a] else []
  }

  // ----- one more entry -----

  lemma OneMoreEvent(events: seq<SessionEvent>, e: SessionEvent)
    ensures QueuedLinks(events + [e]) == QueuedLinks(events) + QueuedLink(e)
  {
    assert (events + [e])[..|events|] == events;
  }

  lemma OneMoreJob(jobs: seq<Job>, j: Job)
    ensures ExecutionLinks(jobs + [j]) == ExecutionLinks(jobs) + ExecutionLink(j, |jobs|)
  {
    assert (jobs + [j])[..|jobs|] == jobs;
  }

  lemma OneMoreRecord(audit: seq<Audit>, a: Audit)
    ensures ApprovedRecords(audit + [a]) == ApprovedRecords(audit) + if a.ApprovalApproved? then [a] else []
  {
    assert (audit + [a])[..|audit|] == audit;
  }

  // ----- entries that queue nothing -----

  predicate QueuesNothing(events: seq<SessionEvent>)
  {
    forall i :: 0 <= i < |events| ==> !events[i].body.ToolCallQueued?
  }

  lemma {:induction false} NoQueued(events: seq<SessionEvent>, more: seq<SessionEvent>)
    requires QueuesNothing(more)
    ensures QueuedLinks(events + more) == QueuedLinks(events)
  {
    if more == [] {
      assert events + more == events;
    } else {
      var n := |more| - 1;
      NoQueued(events, more[..n]);
      assert (events + more)[..|events| + n] == events + more[..n];
    }
  }

  /** Jobs keep their payloads, and the new ones execute no tool call. */
  predicate ExecutesNothingNew(a: seq<Job>, b: seq<Job>)
  {
    && |a| <= |b|
    && (forall i :: 0 <= i < |a| ==> SameJobPayload(a[i], b[i]))
    && (forall i :: |a| <= i < |b| ==> !Executes(b[i]))
  }

  lemma {:induction false} NoneExecuted(a: seq<Job>, b: seq<Job>)
    requires ExecutesNothingNew(a, b)
    ensures ExecutionLinks(a) == ExecutionLinks(b)
    decreases |b|
  {
    if b == [] {
    } else if |a| == |b| {
      NoneExecuted(a[..|a| - 1], b[..|b| - 1]);
    } else {
      NoneExecuted(a, b[..|b| - 1]);
    }
  }

  // ----- links and their rows -----

  /** Links are in the order of their jobs, so no two name the same job. */
  lemma {:induction false} ExecutionLinksAscend(jobs: seq<Job>)
    ensures forall i :: 0 <= i < |ExecutionLinks(jobs)| ==> ExecutionLinks(jobs)[i].jobId < |jobs|
    ensures forall i, j :: 0 <= i < j < |ExecutionLinks(jobs)| ==>
      ExecutionLinks(jobs)[i].jobId < ExecutionLinks(jobs)[j].jobId
  {
    if jobs == [] {
    } else {
      ExecutionLinksAscend(jobs[..|jobs| - 1]);
    }
  }

  lemma {:induction false} ExecutionHasLink(jobs: seq<Job>, id: Id)
    requires id < |jobs| && Executes(jobs[id])
    ensures Link(jobs[id].payload.sessionId, jobs[id].payload.toolCallId, id) in ExecutionLinks(jobs)
  {
    if id == |jobs| - 1 {
    } else {
      ExecutionHasLink(jobs[..|jobs| - 1], id);
    }
  }

  lemma {:induction false} LinkHasExecution(jobs: seq<Job>, link: Link)
    requires link in ExecutionLinks(jobs)
    ensures link.jobId < |jobs| && Executes(jobs[link.jobId])
    ensures ExecutionLink(jobs[link.jobId], link.jobId) == [link]
  {
    var n := |jobs| - 1;
    if link in ExecutionLinks(jobs[..n]) {
      LinkHasExecution(jobs[..n], link);
    } else {
      assert link in ExecutionLink(jobs[n], n);
    }
  }

  lemma {:induction false} QueuedEventHasLink(events: seq<SessionEvent>, i: nat)
    requires i < |events| && events[i].body.ToolCallQueued?
    ensures Link(events[i].sessionId, events[i].body.toolCallId, events[i].body.jobId) in QueuedLinks(events)
  {
    if i == |events| - 1 {
    } else {
      QueuedEventHasLink(events[..|events| - 1], i);
    }
  }

  /** When links ascend, so do the jobs that the events themselves name. */
  lemma {:induction false} QueuedEventsAscend(events: seq<SessionEvent>, i: nat, j: nat)
    requires forall x, y :: 0 <= x < y < |QueuedLinks(events)| ==>
      QueuedLinks(events)[x].jobId < QueuedLinks(events)[y].jobId
    requires i < j < |events| && events[i].body.ToolCallQueued? && events[j].body.ToolCallQueued?
    ensures events[i].body.jobId < events[j].body.jobId
  {
    var before := QueuedLinks(events[..|events| - 1]);
    assert before <= QueuedLinks(events);
    if j == |events| - 1 {
      QueuedEventHasLink(events[..j], i);
      var x :| 0 <= x < |before| && before[x].jobId == events[i].body.jobId;
      assert QueuedLinks(events)[x] == before[x];
      assert QueuedLinks(events)[|before|].jobId == events[j].body.jobId;
    } else {
      forall x, y | 0 <= x < y < |before|
        ensures before[x].jobId < before[y].jobId
      {
        assert before[x] == QueuedLinks(events)[x] && before[y] == QueuedLinks(events)[y];
      }
      QueuedEventsAscend(events[..|events| - 1], i, j);
    }
  }
}
