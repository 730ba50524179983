/** Jobs over whole runs: duplicate deliveries, competing workers, sweeps, failed enqueues. */
module JobRuns {
  import opened Options
  import opened SessionRows
  import opened Approvals
  import opened SessionServices
  import opened ControlPlane

  /** How many claims on `job` have succeeded. */
  function ClaimsOf(claims: seq<Claim>, job: Id): nat
  {
    if claims == [] then 0
    else ClaimsOf(claims[..|claims| - 1], job) + if claims[|claims| - 1].job == job then 1 else 0
  }

  predicate Accounted(j: Job, claimed: nat)
  {
    j.attempts == claimed && claimed <= 1 && (j.status == JobStatus.Queued ==> claimed == 0)
  }

  /** Attempts count successful claims, and the recorded owner of a job is its only claimer. */
  ghost predicate ClaimsTell(w: World)
  {
    && (forall j :: 0 <= j < |w.db.jobs| ==> Accounted(w.db.jobs[j], ClaimsOf(w.claims, j)))
    && (forall j :: j >= |w.db.jobs| ==> ClaimsOf(w.claims, j) == 0)
    && (forall i :: 0 <= i < |w.claims| ==>
          && w.claims[i].job < |w.db.jobs|
          && w.db.jobs[w.claims[i].job].lockedBy == Some(w.claims[i].worker)
          && w.db.jobs[w.claims[i].job].lockedAt == Some(w.claims[i].at))
  }

  lemma OneMoreClaim(claims: seq<Claim>, c: Claim, job: Id)
    ensures ClaimsOf(claims + [c], job) == ClaimsOf(claims, job) + if c.job == job then 1 else 0
  {
    assert (claims + [c])[..|claims|] == claims;
  }

  lemma {:induction false} ClaimedOnce(claims: seq<Claim>, i: nat)
    requires i < |claims|
    ensures ClaimsOf(claims, claims[i].job) >= 1
  {
    if i == |claims| - 1 {
    } else {
      ClaimedOnce(claims[..|claims| - 1], i);
    }
  }

  /** Outside of claims, a step keeps attempts, owner and claims, and queues no job again. */
  predicate KeepsClaims(w: World, next: World)
  {
    && next.claims == w.claims
    && |w.db.jobs| <= |next.db.jobs|
    && (forall j :: 0 <= j < |w.db.jobs| ==>
          && next.db.jobs[j].attempts == w.db.jobs[j].attempts
          && next.db.jobs[j].lockedBy == w.db.jobs[j].lockedBy
          && next.db.jobs[j].lockedAt == w.db.jobs[j].lockedAt
          && (next.db.jobs[j].status == JobStatus.Queued ==> w.db.jobs[j].status == JobStatus.Queued))
    && (forall j :: |w.db.jobs| <= j < |next.db.jobs| ==> next.db.jobs[j].attempts == 0)
  }

  lemma KeptClaimsTell(w: World, next: World)
    requires ClaimsTell(w) && KeepsClaims(w, next)
    ensures ClaimsTell(next)
  {
  }

  lemma ApproveKeepsClaims(w: World, auth: Auth, id: Id, note: Option<string>, now: Time)
    requires ApproveTx(w.db, auth, id, note, now).Ok?
    ensures KeepsClaims(w, w.(db := ApproveTx(w.db, auth, id, note, now).value.0))
  {
  }

  lemma JobStepKeepsClaims(w: World, a: Action)
    requires a.ConfirmEnqueue? || a.CreateJob? || a.SucceedJob? || a.FailJob? || a.QueueToolCall?
    ensures KeepsClaims(w, Apply(w, a))
  {
  }

  lemma SessionStepKeepsClaims(w: World, a: Action)
    requires a.StartSession? || a.FailStart? || a.StopSession? || a.Transition?
    ensures KeepsClaims(w, Apply(w, a))
  {
  }

  lemma OtherStepsKeepClaims(w: World, a: Action)
    requires !a.Deliver?
    ensures KeepsClaims(w, Apply(w, a))
  {
    if a.ConfirmEnqueue? || a.CreateJob? || a.SucceedJob? || a.FailJob? || a.QueueToolCall? {
      JobStepKeepsClaims(w, a);
    } else if a.StartSession? || a.FailStart? || a.StopSession? || a.Transition? {
      SessionStepKeepsClaims(w, a);
    } else if a.Approve? && ApproveTx(w.db, a.auth, a.id, a.note, a.now).Ok? {
      ApproveKeepsClaims(w, a.auth, a.id, a.note, a.now);
    } else {
      assert Apply(w, a).db.jobs == w.db.jobs;
    }
  }

  lemma DeliveryTells(w: World, job: Id, worker: string, now: Time)
    requires ClaimsTell(w)
    ensures ClaimsTell(Apply(w, Deliver(job, worker, now)))
  {
    var next := Apply(w, Deliver(job, worker, now));
    if next != w {
      forall j: Id { OneMoreClaim(w.claims, Claim(job, worker, now), j); }
      forall i | 0 <= i < |w.claims|
        ensures w.claims[i].job != job
      {
        ClaimedOnce(w.claims, i);
      }
    }
  }

  lemma StepClaimsTell(w: World, a: Action)
    requires ClaimsTell(w)
    ensures ClaimsTell(Apply(w, a))
  {
    match a
    case Deliver(job, worker, now) =>
      DeliveryTells(w, job, worker, now);
    case _ =>
      OtherStepsKeepClaims(w, a);
      KeptClaimsTell(w, Apply(w, a));
  }

  /** In every run, at most one claim on a job succeeds, and `attempts` counts it. */
  lemma {:induction false} RunClaimsTell(worlds: seq<World>, actions: seq<Action>, n: nat)
    requires IsRun(worlds, actions) && n < |worlds|
    ensures ClaimsTell(worlds[n])
  {
    if n == 0 {
    } else {
      RunClaimsTell(worlds, actions, n - 1);
      StepClaimsTell(worlds[n - 1], actions[n - 1]);
    }
  }

  // ----- jobs that have left the queue -----

  lemma UnqueuedIsNotClaimed(w: World, a: Action, job: Id)
    requires job < |w.db.jobs| && w.db.jobs[job].status != JobStatus.Queued
    ensures ClaimsOf(Apply(w, a).claims, job) == ClaimsOf(w.claims, job)
  {
    match a
    case Deliver(j, worker, now) =>
      OneMoreClaim(w.claims, Claim(j, worker, now), job);
    case _ =>
      OtherStepsKeepClaims(w, a);
  }

  /** A job that is running, succeeded, failed or cancelled is never claimed afterwards. */
  lemma {:induction false} NeverClaimedAfterLeavingQueue(
    worlds: seq<World>, actions: seq<Action>, i: nat, j: nat, job: Id)
    requires IsRun(worlds, actions) && i <= j < |worlds|
    requires job < |worlds[i].db.jobs| && worlds[i].db.jobs[job].status != JobStatus.Queued
    ensures ClaimsOf(worlds[j].claims, job) == ClaimsOf(worlds[i].claims, job)
    decreases j
  {
    if i == j {
    } else {
      NeverClaimedAfterLeavingQueue(worlds, actions, i, j - 1, job);
      RunIsLater(worlds, actions, i, j - 1);
      UnqueuedIsNotClaimed(worlds[j - 1], actions[j - 1], job);
    }
  }

  predicate OfSession(j: Job, ws: Id, sid: Id) { j.workspaceId == ws && j.sessionId == Some(sid) }

  /**
   After a session is stopped, none of its jobs is ever claimed again, and the stop itself
   leaves the jobs of every other session as they were.
   */
  lemma StoppedSessionsRunNothing(
    worlds: seq<World>, actions: seq<Action>, i: nat, n: nat, ws: Id, sid: Id, now: Time, job: Id)
    requires IsRun(worlds, actions) && i < n < |worlds|
    requires actions[i] == StopSession(ws, sid, now)
    requires GetSession(worlds[i].db, ws, sid).Some? && worlds[i].db.sessions[sid].status in STOPPABLE
    requires job < |worlds[i].db.jobs|
    ensures worlds[i].db.jobs[job].workspaceId == ws && worlds[i].db.jobs[job].sessionId == Some(sid) ==>
      ClaimsOf(worlds[n].claims, job) == ClaimsOf(worlds[i].claims, job)
    ensures worlds[i].db.jobs[job].workspaceId != ws || worlds[i].db.jobs[job].sessionId != Some(sid) ==>
      worlds[i + 1].db.jobs[job] == worlds[i].db.jobs[job]
  {
    var before, after := worlds[i].db, worlds[i + 1].db;
    assert after.jobs == SweptJobs(before.jobs, ws, sid, now);
    assert worlds[i + 1].claims == worlds[i].claims;
    if OfSession(before.jobs[job], ws, sid) {
      assert after.jobs[job].status != JobStatus.Queued;
      NeverClaimedAfterLeavingQueue(worlds, actions, i + 1, n, job);
    }
  }

  // ----- failed enqueues -----

  /**
   An approval commits at step `m`, and its enqueue fails at step `i`, whether or not the
   broker took the message. From then on no delivery claims the job, and everything the
   first commit wrote is still there: the approved row, its log entries, its audit record.
   */
  lemma FailedEnqueueKeepsTheApproval(
    worlds: seq<World>, actions: seq<Action>, m: nat, i: nat, n: nat,
    auth: Auth, id: Id, note: Option<string>, now: Time, error: string, later: Time)
    requires IsRun(worlds, actions) && m < i < n < |worlds|
    requires actions[m] == Approve(auth, id, note, now) && ApproveTx(worlds[m].db, auth, id, note, now).Ok?
    requires actions[i] == FailJob(ApproveTx(worlds[m].db, auth, id, note, now).value.1, error, later)
    ensures var (first, job) := ApproveTx(worlds[m].db, auth, id, note, now).value;
      && worlds[i + 1].db == worlds[i].db.(jobs := worlds[i + 1].db.jobs)
      && (forall k :: 0 <= k < |worlds[i].db.jobs| && k != job ==> worlds[i + 1].db.jobs[k] == worlds[i].db.jobs[k])
      && job < |worlds[i].db.jobs|
      && worlds[i + 1].db.jobs[job] == worlds[i].db.jobs[job].(
           status := JobStatus.Failed, lastError := Some(error), finishedAt := Some(later))
      && ClaimsOf(worlds[n].claims, job) == ClaimsOf(worlds[i].claims, job)
      && job < |worlds[n].db.jobs|
      && id < |worlds[n].db.approvals| && worlds[n].db.approvals[id] == first.approvals[id]
      && worlds[n].db.approvals[id].status == Approved
      && first.events <= worlds[n].db.events
      && first.audit <= worlds[n].db.audit
  {
    var (first, job) := ApproveTx(worlds[m].db, auth, id, note, now).value;
    assert worlds[m + 1].db == first;
    RunIsLater(worlds, actions, m + 1, n);
    RunIsLater(worlds, actions, m + 1, i);
    assert job < |worlds[i].db.jobs|;
    assert worlds[i + 1].db.jobs[job].status == JobStatus.Failed;
    assert worlds[i + 1].claims == worlds[i].claims;
    NeverClaimedAfterLeavingQueue(worlds, actions, i + 1, n, job);
    RunIsLater(worlds, actions, i + 1, n);
  }
}
