/**
 What serialised transactions buy. Every writer of a job row reads it, decides, and writes
 back the columns it changed, without a row lock; here the reads and writes of one job by
 workers, stops, enqueues and failure paths interleave freely.
 */
module ClaimRaces {
  import opened Options
  import opened SessionRows

  datatype Operation =
    | ClaimIt
    | MarkEnqueued(taskId: Option<string>)
    | Cancel
    | Fail(error: string)
    | Succeed(result: Option<string>, progress: Option<string>)

  datatype Action = Read(actor: string) | Write(actor: string, operation: Operation, now: Time)

  /** The row as an actor has read it, and when. */
  datatype Snapshot = Snapshot(row: Job, at: nat)

  /** One successful claim: when it was read and written, and the status it overwrote. */
  datatype ClaimRecord = ClaimRecord(actor: string, readAt: nat, wroteAt: nat, found: JobStatus)

  /** The stored row, the open reads, the claims in the order written, and when the row left the queue. */
  datatype Race = Race(
    row: Job, held: map<string, Snapshot>, claims: seq<ClaimRecord>, clock: nat, leftAt: Option<nat>)

  function Begin(job: Job): Race { Race(job, map[], [], 0, None) }

  /** The guard each operation evaluates on the row it has read. */
  predicate Decides(operation: Operation, row: Job, now: Time)
  {
    match operation
    case ClaimIt => Claimable(row, now)
    case Cancel => row.status == JobStatus.Queued
    case _ => true
  }

  function Effect(operation: Operation, row: Job, actor: string, now: Time): Job
  {
    match operation
    case ClaimIt => ClaimedJob(row, actor, now)
    case MarkEnqueued(taskId) => EnqueuedJob(row, taskId)
    case Cancel => CancelledJob(row, now)
    case Fail(error) => FailedJob(row, error, now)
    case Succeed(result, progress) => SucceededJob(row, result, progress, now)
  }

  /** A column is written only when the actor changed the value it had read. */
  function Column<T(==)>(stored: T, read: T, changed: T): T
  {
    if changed != read then changed else stored
  }

  function Stored(row: Job, read: Job, changed: Job): Job
  {
    row.(
      status := Column(row.status, read.status, changed.status),
      celeryTaskId := Column(row.celeryTaskId, read.celeryTaskId, changed.celeryTaskId),
      attempts := Column(row.attempts, read.attempts, changed.attempts),
      lockedBy := Column(row.lockedBy, read.lockedBy, changed.lockedBy),
      lockedAt := Column(row.lockedAt, read.lockedAt, changed.lockedAt),
      startedAt := Column(row.startedAt, read.startedAt, changed.startedAt),
      finishedAt := Column(row.finishedAt, read.finishedAt, changed.finishedAt),
      lastError := Column(row.lastError, read.lastError, changed.lastError),
      result := Column(row.result, read.result, changed.result),
      progress := Column(row.progress, read.progress, changed.progress))
  }

  function Apply(r: Race, a: Action): Race
  {
    match a
    case Read(actor) => r.(held := r.held[actor := Snapshot(r.row, r.clock)], clock := r.clock + 1)
    case Write(actor, operation, now) =>
      if actor !in r.held || !Decides(operation, r.held[actor].row, now) then
        r.(held := r.held - {actor}, clock := r.clock + 1)
      else
        var read := r.held[actor];
        var row := Stored(r.row, read.row, Effect(operation, read.row, actor, now));
        Race(
          row, r.held - {actor},
          if operation.ClaimIt? then r.claims + [ClaimRecord(actor, read.at, r.clock, r.row.status)] else r.claims,
          r.clock + 1,
          if r.leftAt.None? && row.status != JobStatus.Queued then Some(r.clock) else r.leftAt)
  }

  function Run(job: Job, actions: seq<Action>): Race
  {
    if actions == [] then Begin(job)
    else Apply(Run(job, actions[..|actions| - 1]), actions[|actions| - 1])
  }

  // ----- what every interleaving keeps -----

  /** A snapshot shows a queued row exactly when it was read before the row left the queue. */
  predicate Remembers(job: Job, s: Snapshot, clock: nat, leftAt: Option<nat>)
  {
    && s.at < clock
    && (s.row.status == JobStatus.Queued <==> leftAt.None? || s.at < leftAt.value)
    && (s.row.status == JobStatus.Queued ==> s.row.attempts == job.attempts)
  }

  /** Every claim was read before the row left the queue, and written then or later. */
  predicate Recorded(c: ClaimRecord, clock: nat, leftAt: Option<nat>)
  {
    && leftAt.Some? && c.readAt < leftAt.value <= c.wroteAt < clock
    && (c.found != JobStatus.Queued <==> leftAt.value < c.wroteAt)
  }

  ghost predicate Inv(job: Job, r: Race)
  {
    && (r.leftAt.Some? <==> r.row.status != JobStatus.Queued)
    && (r.leftAt.Some? ==> r.leftAt.value < r.clock)
    && r.row.attempts == job.attempts + (if r.claims == [] then 0 else 1)
    && (forall actor :: actor in r.held ==> Remembers(job, r.held[actor], r.clock, r.leftAt))
    && (forall i :: 0 <= i < |r.claims| ==> Recorded(r.claims[i], r.clock, r.leftAt))
    && (forall i, j :: 0 <= i < j < |r.claims| ==> r.claims[i].wroteAt < r.claims[j].wroteAt)
  }

  /** Nothing puts a job back into the queue. */
  lemma StoredStatus(row: Job, read: Job, operation: Operation, actor: string, now: Time)
    ensures var next := Stored(row, read, Effect(operation, read, actor, now));
      && (row.status != JobStatus.Queued ==> next.status != JobStatus.Queued)
      && next.attempts == if operation.ClaimIt? then read.attempts + 1 else row.attempts
  {
  }

  lemma WriteKeepsInv(job: Job, r: Race, actor: string, operation: Operation, now: Time)
    requires Inv(job, r) && actor in r.held && Decides(operation, r.held[actor].row, now)
    ensures Inv(job, Apply(r, Write(actor, operation, now)))
  {
    var read := r.held[actor];
    StoredStatus(r.row, read.row, operation, actor, now);
    var next := Apply(r, Write(actor, operation, now));
    forall other | other in next.held
      ensures Remembers(job, next.held[other], next.clock, next.leftAt)
    {
      assert Remembers(job, r.held[other], r.clock, r.leftAt);
    }
    forall i | 0 <= i < |r.claims|
      ensures Recorded(next.claims[i], next.clock, next.leftAt)
    {
      assert Recorded(r.claims[i], r.clock, r.leftAt);
    }
    assert Remembers(job, read, r.clock, r.leftAt);
  }

  lemma StepKeepsInv(job: Job, r: Race, a: Action)
    requires Inv(job, r)
    ensures Inv(job, Apply(r, a))
  {
    if a.Write? && a.actor in r.held && Decides(a.operation, r.held[a.actor].row, a.now) {
      WriteKeepsInv(job, r, a.actor, a.operation, a.now);
    } else {
      var next := Apply(r, a);
      assert r.claims != [] ==> Recorded(r.claims[0], r.clock, r.leftAt);
      forall other | other in next.held && other in r.held && next.held[other] == r.held[other]
        ensures Remembers(job, next.held[other], next.clock, next.leftAt)
      {
        assert Remembers(job, r.held[other], r.clock, r.leftAt);
      }
      forall i | 0 <= i < |r.claims|
        ensures Recorded(next.claims[i], next.clock, next.leftAt)
      {
        assert Recorded(r.claims[i], r.clock, r.leftAt);
      }
    }
  }

  lemma {:induction false} RunKeepsInv(job: Job, actions: seq<Action>)
    requires job.status == JobStatus.Queued
    ensures Inv(job, Run(job, actions))
  {
    if actions == [] {
    } else {
      RunKeepsInv(job, actions[..|actions| - 1]);
      StepKeepsInv(job, Run(job, actions[..|actions| - 1]), actions[|actions| - 1]);
    }
  }

  /**
   However the operations on a queued job interleave, it is claimed at most once exactly
   when no claim was read before an earlier claim was written. `attempts` shows one claim
   either way.
   */
  lemma OneClaimExactlyWhenClaimsAreSerial(job: Job, actions: seq<Action>)
    requires job.status == JobStatus.Queued
    ensures var r := Run(job, actions);
      && (|r.claims| <= 1
          <==> forall i, j :: 0 <= i < j < |r.claims| ==> r.claims[i].wroteAt < r.claims[j].readAt)
      && r.row.attempts == job.attempts + if r.claims == [] then 0 else 1
  {
    var r := Run(job, actions);
    RunKeepsInv(job, actions);
    if |r.claims| > 1 {
      assert Recorded(r.claims[0], r.clock, r.leftAt) && Recorded(r.claims[1], r.clock, r.leftAt);
      assert r.claims[1].readAt < r.claims[0].wroteAt;
    }
  }

  /**
   A claim takes a job that is no longer queued, because it was cancelled, failed, done or
   claimed, exactly when the row left the queue between the claim's read and its write.
   */
  lemma ClaimsOfUnqueuedJobsExactlyWhenRaced(job: Job, actions: seq<Action>, i: nat)
    requires job.status == JobStatus.Queued && i < |Run(job, actions).claims|
    ensures var r, c := Run(job, actions), Run(job, actions).claims[i];
      && r.leftAt.Some?
      && (c.found != JobStatus.Queued <==> c.readAt < r.leftAt.value < c.wroteAt)
  {
    var r := Run(job, actions);
    RunKeepsInv(job, actions);
    assert Recorded(r.claims[i], r.clock, r.leftAt);
  }

  // ----- four interleavings -----

  /** Worker `w` reads, `other` reads and writes in between, and `w` claims on what it has read. */
  function Overtaken(w: string, other: string, operation: Operation, now: Time): seq<Action>
  {
    [Read(w), Read(other), Write(other, operation, now), Write(w, ClaimIt, now)]
  }

  lemma OvertakenRun(job: Job, w: string, other: string, operation: Operation, now: Time)
    requires w != other && Claimable(job, now)
    requires Decides(operation, job, now)
    ensures var r, between := Run(job, Overtaken(w, other, operation, now)), Effect(operation, job, other, now);
      && r.row == Stored(Stored(job, job, between), job, ClaimedJob(job, w, now))
      && |r.claims| == (if operation.ClaimIt? then 2 else 1)
      && r.claims[|r.claims| - 1] == ClaimRecord(w, 0, 3, between.status)
  {
    var actions := Overtaken(w, other, operation, now);
    assert actions[..3][..2][..1][..0] == [];
    assert actions[..3][..2][..1] == [Read(w)];
    assert actions[..3][..2] == [Read(w), Read(other)];
    assert actions[..3] == [Read(w), Read(other), Write(other, operation, now)];
    var r2 := Race(job, map[w := Snapshot(job, 0), other := Snapshot(job, 1)], [], 2, None);
    assert Run(job, actions[..3][..2][..1]) == Race(job, map[w := Snapshot(job, 0)], [], 1, None);
    assert Run(job, actions[..3][..2]) == r2;
    assert Run(job, actions[..3]) == Apply(r2, Write(other, operation, now));
  }

  /** Two workers that both read before either writes both claim the job. */
  lemma TwoWorkersCanBothClaim(job: Job, a: string, b: string, now: Time) returns (actions: seq<Action>)
    requires a != b && Claimable(job, now)
    ensures |Run(job, actions).claims| == 2
  {
    actions := Overtaken(a, b, ClaimIt, now);
    OvertakenRun(job, a, b, ClaimIt, now);
  }

  /** A worker that read the row before a stop cancelled the job claims and runs it. */
  lemma CancelledJobCanBeClaimed(job: Job, w: string, api: string, now: Time) returns (actions: seq<Action>)
    requires w != api && Claimable(job, now)
    ensures Run(job, actions).row.status == JobStatus.Running
    ensures |Run(job, actions).claims| == 1 && Run(job, actions).claims[0].found == JobStatus.Cancelled
  {
    actions := Overtaken(w, api, Cancel, now);
    OvertakenRun(job, w, api, Cancel, now);
  }

  /** So does one that read it before a failed enqueue failed the job. */
  lemma FailedJobCanBeClaimed(job: Job, w: string, api: string, error: string, now: Time) returns (actions: seq<Action>)
    requires w != api && Claimable(job, now)
    ensures Run(job, actions).row.status == JobStatus.Running && Run(job, actions).row.lastError == Some(error)
    ensures |Run(job, actions).claims| == 1 && Run(job, actions).claims[0].found == JobStatus.Failed
  {
    actions := Overtaken(w, api, Fail(error), now);
    OvertakenRun(job, w, api, Fail(error), now);
  }

  /** On the ordinary path the enqueue marks the row in between: one claim, and the mark stays. */
  lemma MarkAndClaimCommute(job: Job, w: string, api: string, taskId: Option<string>, now: Time)
    requires w != api && Claimable(job, now)
    ensures var r := Run(job, Overtaken(w, api, MarkEnqueued(taskId), now));
      && |r.claims| == 1 && r.claims[0].found == JobStatus.Queued
      && r.row.celeryTaskId == taskId
      && r.row.status == JobStatus.Running && r.row.attempts == job.attempts + 1
      && r.row.lockedBy == Some(w) && r.row.lockedAt == Some(now)
      && r.row.startedAt == (match job.startedAt case Some(time) => Some(time) case None => Some(now))
      && r.row == job.(status := r.row.status, attempts := r.row.attempts, lockedBy := r.row.lockedBy,
                       lockedAt := r.row.lockedAt, startedAt := r.row.startedAt, celeryTaskId := taskId)
  {
    OvertakenRun(job, w, api, MarkEnqueued(taskId), now);
  }
}
