# ScopeForge backend: a verified model

This project models the state-bearing core of the ScopeForge Python backend in Dafny and
proves what that core promises, for every input and every run. `dafny verify dfyconfig.toml`
checks all of it.

| file | models |
|---|---|
| `VectorText.dfy` | `vector_to_db` and `db_to_vector`: the eight-decimal text of an embedding |
| `Cosine.dfy` | `cosine_similarity` over the reals |
| `SqlFilters.dfy` | the WHERE clauses of both memory searches, in SQL's three-valued logic |
| `MemorySearch.dfy` | the search in the program and the search in the database |
| `Promotion.dfy` | `promote_document` and the service's guards around it |
| `EventLog.dfy`, `EventStream.dfy` | the event table, its page query, and WebSocket delivery with cursors |
| `SessionRows.dfy`, `SessionRepository.dfy` | session rows and the repository's mutators, commit and rollback |
| `Approvals.dfy` | `ApprovalService.approve` and `deny`, with the enqueue and its failure path |
| `SessionServices.dfy` | starting and stopping a session, the agent's approval request and queued command |
| `TransactionEffects.dfy` | what each of these transactions refuses and leaves, column by column |
| `ControlPlane.dfy` | approvals, broker, workers and session changes as one state machine |
| `Trails.dfy`, `ApprovalRuns.dfy`, `ResolutionRuns.dfy`, `StatusRuns.dfy`, `ToolCallRuns.dfy`, `JobRuns.dfy` | what every run of that machine keeps |
| `ClaimRaces.dfy` | operations on one job whose reads and writes interleave |
| `JsonText.dfy`, `JsonReader.dfy`, `Replay.dfy` | writing JSON text, reading it back, and the replay sanitiser |
| `PosixPaths.dfy`, `WorkspaceGates.dfy` | `PurePosixPath`, and the path and command gates of API and runtime |
| `Options.dfy`, `Vectors.dfy`, `Decimals.dfy`, `Splitting.dfy`, `StableSort.dfy` | shared: option and result types, vectors, decimal digits, split/join/strip, a stable sort |

## Findings

Where a promise holds only under a condition, the condition is proved to be exact.

- The database search compares with the query as printed to eight decimals; the program
  compares with the query itself. On tables of non-zero embeddings of the query's dimension
  the two return the same scores exactly when the query is not zero and that rounding keeps
  its direction (`RoundingMattersExactlyWhenItTurns`, `RoundingCanTurn`). A query that rounds
  to zero gives NaN in the database.
- Storing and loading a vector a second time changes nothing, but the text itself is a fixed
  point only if no entry is negative and rounds to zero: such an entry prints as
  `-0.00000000` (`TextIsStable`).
- Promotion keeps every searcher exactly for the steps in `WideningStep`. Over any sequence
  of service requests reach never shrinks exactly when the document does not start
  workspace-wide with a project still attached (`RequestsWidenExactlyWhen`): such a document
  can be "promoted" to `project` and is then hidden from other projects.
- Event delivery is gap-free when ids become visible in increasing order. Without that, what a
  connection misses is precisely the events committed at or below its cursor
  (`CompleteExactlyWithoutLateCommits`).
- A session's last logged status change always names the status it has. The changes form one
  unbroken chain exactly as long as no failed start commits on a session that has left
  `planning`: that path does not look at the status and logs `planning` as the previous one
  (`RunReplaysExactlyWithoutLateFailures`, with a run in `StartFailureCanBreakTheChain`).
- The code takes no row lock. However claims, enqueue marks, cancellations, failures and
  completions of one job interleave, it is claimed at most once exactly when no claim is read
  before an earlier claim is written (`OneClaimExactlyWhenClaimsAreSerial`,
  `TwoWorkersCanBothClaim`). A job that was cancelled or failed is claimed exactly when it
  left the queue between the claim's read and its write
  (`ClaimsOfUnqueuedJobsExactlyWhenRaced`, `CancelledJobCanBeClaimed`,
  `FailedJobCanBeClaimed`). The runs of `ControlPlane` treat transactions as serialised.
- `approve` queues the tool call whatever its status, and leaves `completed_at` in place. Over
  whole runs an unfinished row carries a completion time exactly when the call had completed
  and was then approved, or marked running by a worker that checked its status in an earlier
  transaction, and nothing has closed it since (`IncoherentExactlyWhenRevived`). Without such
  late marks, the call finished or was cancelled while its approval was still pending
  (`IncoherentExactlyWhenApprovedTooLate`). Asking, stopping the session and approving is
  such a run (`ApprovalCanReviveACall`).
- The sanitiser hides and cuts for every size limit, also below the length of the redaction
  marker. For a dict the result keeps to the limit exactly when the cut tree does or
  `CompactLength`, the exact size of the compact record, does (`LimitHoldsExactlyWhen`); every
  limit is exceeded by some payload (`EveryLimitIsExceeded`). The code also handles a payload
  that is not a dict, which its type hints rule out, and then raises an AttributeError where
  the compact record would be needed.
- Opening a connection raises a ValueError exactly for a cursor of digits only of which one is
  not a decimal digit (`CursorRaisesExactlyWhen`); `²` is one (`SuperscriptRaises`).

## How it is modelled

- Vector entries are reals. `math.sqrt` is a parameter of which only the defining property of
  a non-negative square root is used. The database's `<=>` operator is the cosine distance,
  NaN for a zero vector, and NaN sorts last.
- A row's id is its position in its table, which stands for the uniqueness of generated
  UUIDs. One `now` parameter per transaction stands for its clock reads.
- The repository is a class over table fields, working and committed. What each call does to
  a row is a function in `SessionRows.dfy`; the runs use the same functions.
- `ControlPlane.Action` has a step for every transaction that writes approvals, tool calls,
  jobs, session statuses or the log entries modelled here: approvals that gate a call come only
  from the agent's request, execution jobs from approvals, from the agent's commands and from
  commands of a user. A transaction that writes several of these rows may be two steps, the
  agent's and the commands' guards on the session's status are dropped, and workers,
  reconcilers and failure paths may succeed or fail any job at any time. So a run may do more
  than the program, whose transactions are taken as serialised.
- In `ClaimRaces` an operation writes only the columns it changed, as the mapper does.
- A lost WebSocket peer is a number of sends that still succeed, and a reconnect says how many
  of the sent messages had arrived.
- The redaction patterns are a predicate on keys and a function on strings.
- Where the source's own loops fill lists and dicts the model is a method with that loop,
  proved against a function; the properties are lemmas about the function.

## Model

| member | source | states |
|---|---|---|
| VectorText.RoundTripIsClose | apps/api/app/repositories/memory.py:419-433 | loading a stored vector gives one of equal length (also the empty one), each entry within half of 10^-8, and equal exactly when it was a multiple of 10^-8 |
| VectorText.RoundTrip | apps/api/app/repositories/memory.py:419-433 | printing then parsing is exactly entry-wise rounding to the nearest multiple of 10^-8, negatives included |
| VectorText.SecondRoundTripChangesNothing | apps/api/app/repositories/memory.py:419-433 | a second store and load changes nothing |
| VectorText.TextIsStable | apps/api/app/repositories/memory.py:419-420 | the text is a fixed point exactly when no entry is negative and rounds to zero |
| VectorText.EntryFormat | apps/api/app/repositories/memory.py:420 | a printed entry is a minus sign for a negative value only, a whole part without leading zeros, a point and eight digits, which together are its units of 10^-8 |
| VectorText.VectorFormat | apps/api/app/repositories/memory.py:419-420 | the text is the printed entries in square brackets with a comma between any two |
| VectorText.BracketsAreOptional | apps/api/app/repositories/memory.py:423-429 | text reads the same with and without its brackets |
| VectorText.RefusesOtherText | apps/api/app/repositories/memory.py:430 | what reads as an unsigned number is digits with at most one point |
| VectorText.RoundHalfEven | apps/api/app/repositories/memory.py:420 | the rounding of the eighth decimal is to nearest, ties to even |
| Cosine.ScoreInRange | apps/api/app/repositories/memory.py:436-445 | the score of any two vectors lies in [-1, 1] |
| Cosine.ScoreSymmetric | apps/api/app/repositories/memory.py:436-445 | the score is symmetric |
| Cosine.ScoreIgnoresScale | apps/api/app/repositories/memory.py:436-445 | scaling either vector by a positive factor leaves the score unchanged |
| Cosine.ScoreOfSelf | apps/api/app/repositories/memory.py:436-445 | a non-zero vector scores 1 with itself, a zero vector 0 |
| Cosine.ScoreCases | apps/api/app/repositories/memory.py:437-445 | empty, unequal-length and zero vectors score 0; all others score the sum of the products over the roots of the two sums of squares, with both roots positive |
| Cosine.DotIsSum | apps/api/app/repositories/memory.py:439 | the inner product is the sum, entry by entry, of the products |
| Cosine.DotAppend | apps/api/app/repositories/memory.py:439 | one more entry adds one more product, and empty vectors have product 0 |
| Cosine.DotOfAxis | apps/api/app/repositories/memory.py:439 | the product with a unit vector is that entry |
| Cosine.ScoreOneIsSameDirection | apps/api/app/repositories/memory.py:436-445 | the score is 1 exactly for vectors of the same direction |
| Cosine.CauchySchwarz | apps/api/app/repositories/memory.py:439-445 | the inequality that keeps the score in range |
| SqlFilters.OrmSelectsEligible | apps/api/app/repositories/memory.py:310-337 | the query-object statement selects exactly the rows a search may return, with null columns and for every combination of optional filters |
| SqlFilters.TextSelectsEligible | apps/api/app/repositories/memory.py:356-393 | the text statement selects exactly the same rows under its bound parameters |
| SqlFilters.BuildTextFilters | apps/api/app/repositories/memory.py:356-381 | the assembled fragments and parameters: every name is bound to its own argument, none overwritten |
| SqlFilters.BindVisibility | apps/api/app/repositories/memory.py:366-372 | the loop binds each list entry under its own generated name and touches no other name |
| SqlFilters.VisibilityKeyInjective | apps/api/app/repositories/memory.py:368-371 | generated parameter names do not collide |
| SqlFilters.ThreeValuedLogic | apps/api/app/repositories/memory.py:329-335 | comparisons, negation and disjunction with nulls: when each is true and when false |
| MemorySearch.SearchPython | apps/api/app/repositories/memory.py:299-343 | the loop scores exactly the eligible rows and returns the sorted slice; it raises exactly when an eligible embedding is unreadable |
| MemorySearch.EligibleRowsInOrder | apps/api/app/repositories/memory.py:339-342 | eligible rows are taken in the order in which the database delivered them |
| MemorySearch.RankedLength | apps/api/app/repositories/memory.py:343 | min(limit, eligible) rows for a non-negative limit, and the number a negative slice bound leaves |
| MemorySearch.RankedRowsAreEligible | apps/api/app/repositories/memory.py:339-343 | rows come in descending score order, each a row of the table that the search may return, with its own document, chunk and the score of its own embedding |
| MemorySearch.OmittedRowsScoreNoHigher | apps/api/app/repositories/memory.py:339-343 | returned and omitted rows together are all eligible rows, and no omitted row outscores a returned one |
| MemorySearch.TiesKeepTheirOrder | apps/api/app/repositories/memory.py:343 | rows of equal score keep their original order |
| MemorySearch.RankedRowsAreDistinct | apps/api/app/repositories/memory.py:339-343 | no row is returned twice |
| MemorySearch.SearchesAgree | apps/api/app/repositories/memory.py:299-407 | for any order the database may choose among equal distances, it considers the same rows and returns the score sequence the program returns for the rounded query |
| MemorySearch.SearchesAgreeOnGrid | apps/api/app/repositories/memory.py:299-407 | for a query of eight-place decimals the two score sequences are equal |
| MemorySearch.DatabaseAnswers | apps/api/app/repositories/memory.py:384-393 | for every table of embeddings of the query's dimension the statement has a result |
| MemorySearch.RoundingMattersExactlyWhenItTurns | apps/api/app/repositories/memory.py:341-363 | the database returns the program's scores on every table of non-zero embeddings of the query's dimension, for any choice among equal distances, exactly when the query is not zero and rounding keeps its direction |
| MemorySearch.RoundingCanTurn | apps/api/app/repositories/memory.py:363 | a concrete query whose direction rounding changes |
| Promotion.MemoryDocument.Promote | apps/api/app/repositories/memory.py:162-171 | the whole row after a promotion |
| Promotion.MemoryDocument.RequestPromotion | apps/api/app/services/memory/service.py:380-387 | which requests are refused and why, and that a refused one changes nothing |
| Promotion.PromotedColumns | apps/api/app/repositories/memory.py:162-171 | which scope columns a promotion to each level clears and keeps, and when a request is accepted |
| Promotion.PromotionWidensExactlyWhen | apps/api/app/repositories/memory.py:162-171 | a promotion keeps every search that found the document and admits the new level exactly when it is a widening step or the document was not findable |
| Promotion.RequestsWidenExactlyWhen | apps/api/app/services/memory/service.py:380-387 | the same over every sequence of requests, exactly when the document did not start workspace-wide with a project |
| EventLog.PrefixIsBetween | apps/api/app/repositories/sessions.py:863-869 | any prefix of a page is exactly the session's events from the cursor to its last id |
| EventLog.PageHoldsItsRange | apps/api/app/repositories/sessions.py:855-869 | a page holds, in id order, exactly the rows of this session and workspace behind the cursor and up to its own last id, and a page that is not full leaves none behind |
| EventLog.BetweenHoldsItsRange | apps/api/app/repositories/sessions.py:863-866 | a range of the log in the columns of its rows |
| EventLog.SuffixIsNewer | apps/api/app/repositories/sessions.py:863-869 | what a page leaves is exactly what the next page query sees |
| EventLog.BetweenJoins | apps/api/app/repositories/sessions.py:863-869 | consecutive pages join without gap or overlap |
| EventStream.SendEvents | apps/api/app/realtime/router.py:113-127 | the loop emits the batch in order up to the loss of the peer, and returns the last id sent |
| EventStream.Connection.Poll | apps/api/app/realtime/router.py:66-72 | one poll of the connection is `PollStep` |
| EventStream.ConnectionIsGapFree | apps/api/app/realtime/router.py:40-72 | on every connection of every run the events sent are exactly the rows with this workspace and session behind the start and up to the last id sent, in strictly increasing id order, and the cursor stands there |
| EventStream.ReconnectsAreSeamless | apps/api/app/realtime/router.py:85-127 | across any disconnects, also inside a batch, the streams received concatenate to one gap-free, duplicate-free stretch of the log |
| EventStream.PollSendsAtMostAPage | apps/api/app/repositories/sessions.py:861-869 | a poll only appends, and at most 200 events |
| EventStream.PollsDrain | apps/api/app/realtime/router.py:50-72 | without new commits n polls deliver min(backlog, 200 n) events |
| EventStream.DrainedExactlyWhen | apps/api/app/realtime/router.py:50-72 | a backlog of b is delivered exactly from poll number ceil(b / 200) on |
| EventStream.CursorRoundTrip | apps/api/app/realtime/router.py:85-119 | passing back an event id as it was sent resumes exactly there |
| EventStream.NoCursorStartsOver | apps/api/app/realtime/router.py:85-94 | a missing or non-numeric cursor lists the session from its first event |
| EventStream.CursorRaisesExactlyWhen | apps/api/app/realtime/router.py:85-88 | a cursor raises exactly when it is all digits and one of them is not decimal, and gives no position exactly when it is missing, empty or holds a non-digit |
| EventStream.SuperscriptRaises | apps/api/app/realtime/router.py:87 | a superscript two raises, alone or after decimal digits |
| EventStream.CompleteExactlyWithoutLateCommits | apps/api/app/repositories/sessions.py:863-869 | with ids visible in any order, a connection's stream is complete exactly when no event was committed at or below its cursor, and misses exactly those |
| SessionRepositories.SessionRepository.ClaimJob | apps/api/app/repositories/sessions.py:303-315 | which jobs can be claimed, and the claimed row |
| SessionRepositories.SessionRepository.CancelQueuedSessionJobs | apps/api/app/repositories/sessions.py:340-360 | the sweep cancels exactly the session's queued jobs and reports exactly those |
| SessionRepositories.SessionRepository.CancelActiveToolCalls | apps/api/app/repositories/sessions.py:606-627 | the sweep cancels exactly the session's queued, running and waiting calls |
| SessionRepositories.SessionRepository.UpdateSessionStatus | apps/api/app/repositories/sessions.py:105-122 | the row after a status change, with its start and completion times |
| SessionRepositories.SessionRepository.UpdateToolCallStatus | apps/api/app/repositories/sessions.py:503-520 | the row after a status change; a completion time is set on final statuses and never cleared, and absent arguments leave their columns |
| Approvals.ApprovalService.Approve | apps/api/app/services/approvals.py:47-133 | refusals in order with nothing changed; otherwise the committed tables, the broker's messages and the reply for every outcome of the enqueue |
| Approvals.ApprovalService.EnqueueApproved | apps/api/app/services/approvals.py:121-131 | the mark on success; on any error a rollback that keeps the first commit and a failed job |
| Approvals.ApprovalService.Deny | apps/api/app/services/approvals.py:135-204 | refusals in order with nothing changed; otherwise the committed tables |
| SessionServices.SessionService.StartSession | apps/api/app/services/sessions/service.py:169-225 | refusals in order with nothing changed; otherwise both commits for every outcome of the enqueue |
| SessionServices.SessionService.StopSession | apps/api/app/services/sessions/service.py:246-323 | refusals in order with nothing changed; otherwise both sweeps and the logged status |
| SessionServices.AgentRunner.RequestApproval | apps/api/app/services/agents/runner.py:332-383 | a fresh waiting call, a pending approval that links it, and a waiting session with its log entries |
| SessionServices.AgentRunner.QueueTerminalTool | apps/api/app/services/agents/runner.py:384-420 | a fresh queued call with its job and log entry, and no approval |
| TransactionEffects.ApproveRefuses | apps/api/app/services/approvals.py:54-69 | which approvals are refused as what, in the order of the checks |
| TransactionEffects.ApproveLeaves | apps/api/app/services/approvals.py:71-119 | every table after an accepted approval, column by column |
| TransactionEffects.DenyRefuses | apps/api/app/services/approvals.py:142-151 | which denials are refused as what, in the order of the checks |
| TransactionEffects.DenyLeaves | apps/api/app/services/approvals.py:153-203 | every table after an accepted denial: the linked step of the same workspace is ready with its times unchanged, the linked call is finished, a row that is not found is passed over |
| TransactionEffects.EnqueueLeaves | apps/api/app/services/approvals.py:121-131 | the broker's task id is stored, or the error that failed the job, in this job only |
| TransactionEffects.DeliveryLeaves | apps/api/app/repositories/sessions.py:303-315 | which deliveries claim, and the columns of a claimed job |
| TransactionEffects.OutcomesLeave | apps/api/app/repositories/sessions.py:317-338 | the columns of succeeded and failed jobs |
| TransactionEffects.CallsLeave | apps/api/app/repositories/sessions.py:568-604 | the columns of running and finished tool calls |
| TransactionEffects.StatusColumns | apps/api/app/repositories/sessions.py:503-520 | times and optional columns of status changes of calls and steps |
| TransactionEffects.TransitionLeaves | apps/api/app/services/sessions/service.py:697-735 | refusals in order, the changed session row with its times, and its log entry |
| TransactionEffects.StartLeaves | apps/api/app/services/sessions/service.py:176-198 | who may start, and the rows of the first commit |
| TransactionEffects.FailedStartLeaves | apps/api/app/services/sessions/service.py:203-222 | the rows of the failure commit, whatever status the session has |
| TransactionEffects.StopLeaves | apps/api/app/services/sessions/service.py:246-309 | which sessions stop, and exactly which jobs and calls are cancelled |
| TransactionEffects.RequestLeaves | apps/api/app/services/agents/runner.py:341-383 | the rows and entries of an approval request |
| TransactionEffects.QueueLeaves | apps/api/app/services/agents/runner.py:393-420 | the rows and entry of a queued command |
| ControlPlane.StepIsLater | apps/api/app/services/approvals.py:55-58 | no step drops a row or log entry, changes a resolved approval, or queues a job again |
| ControlPlane.ResolvedApprovalsAreFrozen | apps/api/app/services/approvals.py:55-144 | in every run an approval leaves pending at most once, after which its row never changes |
| ApprovalRuns.RunCorresponds | apps/api/app/services/approvals.py:71-119 | in every run, with commands queued without an approval mixed in, queued events and execution jobs are the same links in order; those whose call an approval gates are one to one and in order with the approval records and with the approved approvals, naming the same session, call and job |
| ApprovalRuns.ApprovedApprovalsHaveOneJob | apps/api/app/services/approvals.py:90-119 | the call of an approved approval is executed by exactly one job and queued by exactly one event, both named by its record |
| ApprovalRuns.DeniedApprovalsLeaveNothing | apps/api/app/services/approvals.py:143-204 | a denied or pending approval has no approval record, and no queued event and no execution job names its tool call |
| ResolutionRuns.RunResolutionsTell | apps/api/app/services/approvals.py:96-196 | in every run the approval.resolved events name each approval no longer pending once, with its status, and no other |
| ToolCallRuns.ApproveRequeuesToolCall | apps/api/app/repositories/sessions.py:511-517 | approve queues the linked call whatever its status and keeps its completion time; the row is coherent exactly when there was none |
| ToolCallRuns.IncoherentExactlyWhenRevived | apps/api/app/repositories/sessions.py:503-604 | in every run an unfinished row carries a completion time exactly when a completed call was approved or marked running, and nothing has closed it since |
| ToolCallRuns.IncoherentExactlyWhenApprovedTooLate | apps/api/app/services/approvals.py:55-77 | when no completed call is marked running: exactly when the call finished or was cancelled while its approval was pending, was then approved, and has not been closed since |
| ToolCallRuns.ApprovalCanReviveACall | apps/api/app/services/approvals.py:77 | request, stop, approve: from every start with a session, a run that ends with a queued call that carries a completion time |
| ToolCallRuns.DenyFinishesToolCall | apps/api/app/services/approvals.py:159-169 | deny finishes exactly the linked call of the same workspace |
| ToolCallRuns.ResolutionResumesOnlyWaiting | apps/api/app/services/approvals.py:78-188 | a waiting session goes back to running, any other session is unchanged |
| StatusRuns.RunLastStatus | apps/api/app/services/sessions/service.py:719-720 | in every run the last logged status change of a session names its status |
| StatusRuns.RunReplaysExactlyWithoutLateFailures | apps/api/app/services/sessions/service.py:203-222 | in every run folding the logged changes over the starting status gives the current status exactly when no failed start has committed on the session after it left planning; after one it never does |
| StatusRuns.StartFailureCanBreakTheChain | apps/api/app/services/sessions/service.py:203-222 | a run in which the planner finishes before the failure commits, with its log |
| JobRuns.RunClaimsTell | apps/api/app/repositories/sessions.py:303-315 | in every run attempts counts the successful claims of a job, never more than one, and its recorded owner is its only claimer |
| JobRuns.NeverClaimedAfterLeavingQueue | apps/api/app/repositories/sessions.py:306-307 | a running, succeeded, failed or cancelled job is never claimed later |
| JobRuns.StoppedSessionsRunNothing | apps/api/app/repositories/sessions.py:340-360 | after a stop no existing job of the session is ever claimed, and jobs of other sessions are untouched |
| JobRuns.FailedEnqueueKeepsTheApproval | apps/api/app/services/approvals.py:119-131 | once a failed enqueue has failed the job no delivery claims it, only that job row changed, and the approved row, events and audit record of the first commit persist |
| ClaimRaces.OneClaimExactlyWhenClaimsAreSerial | apps/api/app/repositories/sessions.py:297-360 | however claims, marks, cancels, failures and completions interleave, a job is claimed at most once exactly when no claim was read before an earlier claim was written; attempts shows at most one either way |
| ClaimRaces.ClaimsOfUnqueuedJobsExactlyWhenRaced | apps/api/app/repositories/sessions.py:303-315 | a claim takes a job no longer queued exactly when the row left the queue between its read and its write |
| ClaimRaces.CancelledJobCanBeClaimed | apps/api/app/repositories/sessions.py:340-360 | a worker that read the job before it was cancelled runs it |
| ClaimRaces.FailedJobCanBeClaimed | apps/api/app/services/approvals.py:121-131 | so does one that read it before a failed enqueue failed it |
| ClaimRaces.MarkAndClaimCommute | apps/api/app/repositories/sessions.py:297-315 | an enqueue mark between a claim's read and write leaves one claim and the mark |
| ClaimRaces.TwoWorkersCanBothClaim | apps/api/app/repositories/sessions.py:303-315 | two workers that read before either writes both claim |
| JsonReader.StringRoundTrip | apps/api/app/services/replay.py:292-295 | a string as written in the payload's text, escapes and surrogate pairs included, reads back as itself under section 7 of RFC 8259 |
| JsonReader.TreeRoundTrip | apps/api/app/services/replay.py:294 | the text of every well-formed tree, with numbers, literals, lists and objects, reads back as that tree |
| JsonText.EscapeLengths | apps/api/app/services/replay.py:294 | how many bytes each character of a string takes |
| JsonText.EncodeIsAscii | apps/api/app/services/replay.py:294 | the encoded payload is ASCII, so its byte count is its character count |
| Replay.RedactValue | apps/api/app/services/replay.py:303-317 | the recursive pass with its loops computes `Redact` |
| Replay.TruncateLargeStrings | apps/api/app/services/replay.py:327-346 | the recursive pass computes `Truncate` and sets the flag exactly when some string leaf exceeds the limit |
| Replay.TruncateKeepsShape | apps/api/app/services/replay.py:327-346 | keys, list lengths and non-string leaves are kept |
| Replay.TruncateBounds | apps/api/app/services/replay.py:344-345 | no string leaf of the result exceeds the limit plus 15 |
| Replay.TruncateUnchanged | apps/api/app/services/replay.py:327-346 | without the flag the tree is returned as it was |
| Replay.TruncateTwice | apps/api/app/services/replay.py:327-346 | truncating twice gives the same tree |
| Replay.FlagIsRaisedAgain | apps/api/app/services/replay.py:327-346 | the second pass raises the flag exactly when the first did |
| Replay.SanitizePayload | apps/api/app/services/replay.py:282-300 | the cut tree when it fits, the compact record with the flag set when it does not, an AttributeError when a non-dict payload does not |
| Replay.SanitizerConstants | apps/api/app/services/replay.py:282-346 | the marker, the suffix, the limit of 1024 characters and the wrapping of a payload that is not a dict |
| Replay.StringLeqIsCodePointOrder | apps/api/app/services/replay.py:298 | keys are ordered by their first difference, a prefix first |
| Replay.SanitisedResults | apps/api/app/services/replay.py:282-346 | for every payload and size limit a result that is not compact has every secret key hidden at every depth and every string redacted and within the limit; without the flag it is the redacted payload |
| Replay.CompactListsSortedKeys | apps/api/app/services/replay.py:298-299 | the compact record lists exactly the payload's keys in code point order |
| Replay.CompactLengthIsExact | apps/api/app/services/replay.py:298-300 | the encoded length of the compact record, from the event type and the keys |
| Replay.LimitHoldsExactlyWhen | apps/api/app/services/replay.py:293-300 | the result for a dict keeps to the limit exactly when the cut tree or the compact record does |
| Replay.EveryLimitIsExceeded | apps/api/app/services/replay.py:298-300 | for every limit a payload whose compact record exceeds it |
| PosixPaths.FormatParses | apps/api/app/services/tool_registry.py:201-207 | printing a parsed path and parsing it again gives the same path, also with two leading slashes |
| WorkspaceGates.NormalisationIsStable | apps/api/app/services/tool_registry.py:200-207 | normalising an accepted result returns it unchanged |
| WorkspaceGates.AcceptedResultIsPlain | apps/api/app/services/tool_registry.py:200-207 | after its root an accepted result is workspace and further components, none empty, `.` or `..` |
| WorkspaceGates.WalkStaysInside | apps/api/app/services/tool_registry.py:200-207 | walking the given string from the root ends where the result says and never rises above the workspace directory |
| WorkspaceGates.AcceptedExactlyWhenWalkStaysInside | apps/api/app/services/tool_registry.py:203-206 | exactly which strings are accepted, in terms of the walk |
| WorkspaceGates.RefusedPaths | apps/api/app/services/tool_registry.py:203-206 | both errors exactly, in terms of the string: relative or not first in `workspace`, then `..` among its parts |
| WorkspaceGates.AcceptedPaths | apps/api/app/services/tool_registry.py:200-207 | the result as root and walked directories, two slashes only for exactly two |
| WorkspaceGates.NormalisersAgree | services/runtime/app/services/docker_runtime.py:337-344 | the runtime's normaliser accepts the same strings, with the same results and corresponding errors |
| WorkspaceGates.ApiRefinesRuntime | services/runtime/app/services/docker_runtime.py:325-344 | what the API's terminal.execute branch accepts passes the runtime's entry checks with cwd unchanged |
| WorkspaceGates.ValidatedArguments | apps/api/app/services/tool_registry.py:135-144 | an accepted argument set keeps its command, takes its limits or the defaults, and its directory walks where the given one, or /workspace, walks |
| WorkspaceGates.RefusedArguments | apps/api/app/services/tool_registry.py:131-144 | which argument sets are refused as what, in the order of the checks |
| WorkspaceGates.EntryExactly | services/runtime/app/services/docker_runtime.py:156-159 | which calls the runtime refuses as what, in the order of the checks |
| WorkspaceGates.AllowListMembers | services/runtime/app/services/docker_runtime.py:325-330 | the allow-list is the stripped pieces between commas, blank ones dropped |
| WorkspaceGates.GatesAcceptTheSame | apps/api/app/services/tool_registry.py:131-144 | apart from its numeric limits the API accepts exactly what the runtime accepts |
| WorkspaceGates.FilePathsPassUnchanged | apps/api/app/services/tool_registry.py:145-150 | an accepted file path passes the runtime's check unchanged |

## Left out

- Docker, Celery, Supabase, HTTP, the WebSocket protocol and SQLAlchemy: transport and storage; tables, transactions, deliveries and disconnects stand for them.
- IEEE rounding, NaN and infinities, single-precision vector columns, and the approximate vector index: entries are reals and scans are exact.
- ParseFixed: reads fixed-point notation only; exponents, underscores, `inf`, `nan` and the JSON fallback of `db_to_vector` are not modelled.
- ParseCursor: does not model the interpreter's limit on the number of digits `int` accepts.
- ConnectionIsGapFree: assumes ids become visible in increasing order, which an autoincrement column alone does not give; CompleteExactlyWithoutLateCommits drops the assumption.
- TruncateTwice: stated for limits of at least zero, as the configured byte limit is; a negative slice bound is not idempotent.
- RunClaimsTell: transactions are serialised; ClaimRaces states what holds of one job without that.
- SearchPython: a stored text that only the JSON fallback of `db_to_vector` or an exponent in `float`'s notation would read counts as unreadable.
- SessionRepository: rows are values in table fields, so object identity and aliasing of loaded rows are not captured.
- StopSession: `job.updated`, `tool_call.failed` and runtime events, session audit entries and the call that stops the runtime are left out, here and in StartSession.
- RequestApproval: task and message ids, risk level, reason and arguments are left out, here and in QueueTerminalTool.
- Changes of steps outside `deny`, and the fields of a row that no modelled call reads or writes.
- The connection.ready message, command acknowledgements and the one-second wait between polls.
- EncodeChar: strings are sequences of Unicode scalar values; Python strings that hold lone surrogates are not modelled.
- Payload leaves other than JSON values, which the encoder would turn into text with `str`, and keys that are not strings.
- Actors, user ids of audit entries, and event timestamps.
- The regular expressions behind redaction, and whole-payload idempotence of redaction, which the truncation suffix can break.
- `execute_command` beyond its entry checks, the table of running commands, and output decoding: operating-system behaviour.
- Tool definitions from the database and the branches of `validate_arguments` for other tools: lookups and length limits.
- Session planner, agent turns, analytics, policies, permissions, and the web front end.
