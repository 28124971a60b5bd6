# DispatchGrid dispatch engine: a verified model

DispatchGrid hands field jobs to agents. Its safety argument is spread over many small transactions at
Read Committed, an idempotency wrapper around them, and a queue layer that runs after commit. This project
states that argument in one place and proves it, for every interleaving and every run.

- **The job/assignment protocol** (`Dispatch`, `DispatchSafety`, `DispatchProgress`, `DispatchAlone`,
  `DispatchAnswers`, `DispatchVersions`, `DispatchServices`). Ten operations run as concurrent transactions over shared rows.
  One action is one statement of one call, so a sequence of actions is one interleaving of any number of
  calls. A read sees the committed rows; a conditional update waits for the row lock and tests its `where` on
  the committed row; locks are kept to commit; an abort, possible at any point, undoes everything.
  Membership edits of any kind fall in between. `DispatchServices`
  holds the operations as the services write them, statement after statement, with other calls' statements
  in between; each statement is one action of the protocol, so every theorem about runs applies to them. What
  each operation writes when it succeeds, when it is sure to succeed, and why it may be refused are contracts of
  the ten methods, told from the committed rows in `DispatchAnswers`.
- **The idempotency wrapper** (`Idempotency`, `IdempotencyRetries`) with crashes between any two steps, and
  the **canonical text** behind its fingerprints (`StableJson`, `Decimals`).
- **The SLA and queue layer**: timers (`SlaTimers`), the escalation handler under redelivery (`SlaCheck`) and
  the reconciliation sweep (`Reconcile`).
- **Smaller parts**: numbering (`Sequence`), refresh-token families (`RefreshTokens`), agent suggestions
  (`Suggestions`), the position cache beside the durable pings (`PositionCache`).

`Lifecycle` and `Eligibility` are the shared rules; `Optional` and `Collections` are small helpers. Runs
start from empty tables with memberships on file.
Where the code mutates state step by step the model is a class, and each method is proved against a
function of the old state, whose properties over whole runs are then proved as lemmas. Parameters named
`plan`, `others` and `meanwhile` are what other callers do in between: they are universally quantified.

Four results are about where a property stops:

- The version properties (versions rise by one, timelines are complete, one commit per expected version) need
  callers that only send versions already committed when their call starts. For every operation on an existing
  job, whenever it is enabled, this is exactly the condition for each of the three: `CommittedVersionIsTheCondition`
  proves both directions, because the new version comes from an earlier read than the one the `where` tests.
- An agent stays within the cap in a run if and only if no membership edit undercuts what the agent already has
  (`CapsHold`); the member route accepts such edits, and `LoweringBreaksTheCap` is a run with one. Offers are
  eligible when they commit whatever edits a run contains.
- One key is executed at most once only while no lookup finds its row expired. In general the bound is one
  plus the number of take-overs (`ExecutionsAreBudgeted`), and `TakeOversAreSpent` reaches it for every number.
- The cached position and the durable fallback pick different pings when the newest timestamp is repeated
  with different data: the cache keeps the first, the fallback the last (`TiesDecideAgreement`, `TiesDisagree`).
  After an expiry or a missed write they agree if and only if the newest ping was offered to the cache since
  (`ShownIsNewestIff`, `OlderIsShown`).

A conditional update in the model always waits for a held row lock before it tests. PostgreSQL may give up
earlier, when the row fails the test already before waiting; that outcome is covered by an abort.

## Model

| member | source | states |
|---|---|---|
| Lifecycle.PathsNeverFallBack | server/src/lib/jobs/state-machine.js:15-32 | along any path through the transition table progress never falls back, and a status past the offering stage is never entered twice |
| Eligibility.CheckAgentEligibility | server/src/lib/jobs/eligibility.js:4-43 | eligible exactly when no reason applies; each reason is reported exactly when its rule is broken, in the order of the checks and once, absent membership included; the effective cap is reported too |
| DispatchSafety.OpenOfferIsUnique | server/src/services/assignment-service.js:192-202 | in every reachable state a job has one open offer at most, so an agent's newest open offer is the only one |
| Dispatch.OnlyCommitsWrite | server/src/services/transaction.js:70-92 | only a commit changes jobs, assignments, events, the counter or the commit log |
| Dispatch.AfterAppend | server/src/services/transaction.js:70-92 | running one interleaving and then another is running their concatenation |
| DispatchSafety.JobsAndAssignmentsAgree | server/src/services/assignment-service.js:222-245 | in every interleaving, whatever versions callers send: ASSIGNED has exactly one active assignment, OFFERED to the assignee; ACCEPTED and IN_PROGRESS exactly one, ACCEPTED, the assignee's; all others none; the row CHECKs hold |
| DispatchSafety.ConstraintsNeverFire | server/prisma/migrations/20260910183500_add_job_domain/migration.sql:109-128 | no statement of any call is ever refused by the one-active index or by a CHECK on the job row |
| DispatchSafety.CapsHold | server/src/services/assignment-service.js:79-100 | in every interleaving, an agent's OFFERED and ACCEPTED assignments never outnumber the effective cap at any point if and only if no membership edit undercuts what the agent already has |
| DispatchSafety.StepKeepsCap | server/src/routes/organizations.js:187-199 | from a reachable state within the cap, nothing but an undercutting edit leads out of it |
| DispatchAlone.LoweringBreaksTheCap | server/src/routes/organizations.js:187-199 | for any agent who may hold two jobs there is a run that offers two and then lowers the cap to one, which the route accepts: within the cap before the edit, over it after |
| DispatchSafety.OffersAreEligibleAtCommit | server/src/services/assignment-service.js:374-401 | whatever membership edits a run contains, whoever is about to commit an offer offers to a member who passes the eligibility rules at that moment |
| DispatchSafety.NumbersAreGapless | server/src/services/job-service.js:65-99 | committed jobs carry exactly the numbers 1..counter, each once, with creates aborted at any point |
| DispatchSafety.OnlyTheAssigneeCommits | server/src/services/job-service.js:144-161 | a start, complete, fail, accept or decline that commits is the assignee's at commit time and finds the job in the status it needs, though both were tested on an earlier read |
| DispatchSafety.CommitsFollowTheTable | server/src/lib/jobs/state-machine.js:29-32 | every commit on an existing job is a legal move of its committed status, though the assignment operations never ask the table; a patch keeps the status |
| DispatchSafety.EveryCommitHasItsEvent | server/src/services/job-service.js:184-193 | whatever versions callers send, each commit on a job leaves exactly one event, in commit order, that names its actor and its move |
| DispatchSafety.WorkKeepsItsOwner | server/src/services/job-service.js:153-161 | however a run goes on, a job past the offering stage keeps its assignee until it leaves that status, and a status once left is never entered again |
| DispatchSafety.RunsKeepInv | server/src/services/assignment-service.js:20-25 | every reachable state keeps the invariant behind these theorems: exclusive row locks, and for each running call what its reads still say about the committed rows |
| DispatchSafety.LocksExclude | server/src/services/assignment-service.js:20-34 | in every reachable state two running calls that have taken a membership row offer to different agents, no two are past the eligibility check at once (they share the role row), no two creates hold a number, and no two calls have claimed one job |
| DispatchSafety.EditsWaitForOffers | server/src/routes/organizations.js:187-199 | a membership edit takes effect exactly when no running assign or reassign has taken that row and, for a new role, none holds that role's row; it then changes that row alone |
| DispatchVersions.TimelinesAreComplete | server/src/services/job-service.js:184-193 | honest callers: a job's events start with null to PENDING, each continues the one before, each is a legal move or a self-loop on a live status, the last names the current status, and their count is the version |
| DispatchVersions.EveryWriteRaisesTheVersionByOne | server/src/services/assignment-service.js:115-121 | honest callers: every action leaves every existing job as it is or raises its version by exactly one |
| DispatchVersions.OneCommitPerExpectedVersion | server/src/services/assignment-service.js:115-121 | honest callers: no two commits on one job carry the same expected version |
| DispatchVersions.CommittedVersionIsTheCondition | server/src/services/assignment-service.js:102-121 | for every operation on an existing job, when it is enabled: however honest others interleave, it writes the next version, the timeline stays complete, and each expected version commits once, each of the three if and only if the version sent is already committed when the call starts |
| DispatchVersions.UncommittedVersionBreaks | server/src/services/job-service.js:153-161 | for every enabled operation that sends a version not yet committed, or none, there are honest interleavings that make it write another version than the next, break the timeline, and commit twice under one expected version |
| DispatchAlone.EnabledCallsCommit | server/src/services/assignment-service.js:79-153 | on the machine: a call whose operation applies to the committed rows, that finds the rows it locks free and sends the current version, or none, commits: the row as its update says, its assignment changes and its event |
| DispatchAlone.RunsToRecorded | server/src/services/assignment-service.js:115-149 | a call whose claim is still open reaches its commit by its own statements, whoever else is running |
| DispatchAnswers.TheTableIsTheOperations | server/src/lib/jobs/state-machine.js:15-32 | the transition table holds exactly the moves that some operation makes |
| DispatchAnswers.CommitFits | server/src/services/assignment-service.js:115-121 | a call about to commit finds its job in a status its operation is for, at the version it sent; an answer finds the caller's own open offer, an offer finds the agent eligible |
| DispatchAnswers.CommitWrites | server/src/services/job-service.js:162-193 | what a commit changes, operation by operation: the job row field by field, the assignment rows with the state each active one is closed to, the counter, and nothing else of these |
| DispatchAnswers.SureGetsReady | server/src/services/assignment-service.js:79-153 | an operation that applies to the committed rows, with its locks free and the committed version or none, gets to its commit with the next version and no wait |
| DispatchAnswers.NoStopOnTheWay | server/src/services/assignment-service.js:79-153 | on that way there is no refusal and no wait |
| DispatchAnswers.SeenWasCommitted | server/src/services/transaction.js:31-39 | in any run, the row a call has read was its job's committed row at some point since the call began |
| DispatchAnswers.RefusalsAreJustified | server/src/services/assignment-service.js:79-121 | in every reachable state a refusal has its reason: NotFound an absent job, NotEligible a broken rule, InvalidTransition a wrong status read or no open offer, Forbidden another owner, VersionConflict the row read or the committed row with what makes it one, OfferGone the answered offer closed; an earlier test comes first, and the two constraint errors never come |
| DispatchAnswers.TimeoutsAreJustified | server/src/services/assignment-service.js:26-34 | a call that gives up on a lock does so because another running call holds a row it needs |
| DispatchProgress.LocksComeInOrder | server/src/services/assignment-service.js:20-34 | a call that waits holds only locks of lower rank than the one it waits for |
| DispatchProgress.AssignmentWritesNeverWait | server/src/services/assignment-service.js:406-438 | nobody ever waits for an assignment row or an index entry: they are written under the job lock |
| DispatchProgress.NoDeadlock | server/src/services/assignment-service.js:20-25 | no reachable state has a circle of calls each waiting for the next |
| DispatchProgress.FindMover | server/src/services/assignment-service.js:20-25 | whenever a call is running, some running call need not wait |
| DispatchProgress.MovesCountDown | server/src/services/assignment-service.js:79-153 | a statement that need not wait lowers the number of statements all running calls have left |
| DispatchProgress.SchedulesAreBounded | server/src/services/assignment-service.js:79-153 | under any schedule a finite set of started calls makes at most as many moves as it has statements left |
| DispatchProgress.CallsRunToTheEnd | server/src/services/assignment-service.js:20-25 | from every reachable state all running calls can be brought to commit or refusal within their total |
| DispatchServices.Database.constructor | server/prisma/migrations/20260910183500_add_job_domain/migration.sql:14-48 | empty tables with the given memberships, and an empty history |
| DispatchServices.Database.IsReachable | server/src/services/transaction.js:70-92 | the database is where its history of actions brings the protocol, so every theorem about runs holds of it |
| DispatchServices.Database.NothingInTheWay | server/prisma/migrations/20260910183500_add_job_domain/migration.sql:109-128 | on the database, no constraint refuses a running call's next statement, and none past the job claim waits |
| DispatchServices.Database.RefusalExplained | server/src/services/transaction.js:45-56 | a refused operation is refused for such a reason, on the committed rows of its last statement and a committed row it has read since it began |
| DispatchServices.Database.AnsweredAlone | server/src/services/transaction.js:70-92 | nobody else at work: until its last statement an operation has changed no table, and one that is sure to succeed is done, with the next version |
| DispatchServices.Database.Answered | server/src/services/transaction.js:70-92 | both for every operation, with the errors it can give |
| DispatchServices.Database.LockMembership | server/src/services/assignment-service.js:26-49 | the membership row and then the role row it is joined with are locked, each waited for in turn, or the call is over: it gave up on a held lock, or there is no such member |
| DispatchServices.Database.TakeMembership | server/src/services/assignment-service.js:27-36 | one action: the membership row is locked, or the call is over with NotEligible because there is none |
| DispatchServices.Database.TakeRole | server/src/services/assignment-service.js:27-34 | one action: the role row of the locked membership is locked too |
| DispatchServices.Database.CheckCap | server/src/services/assignment-service.js:86-100 | one action: the call goes on if and only if the locked row and the count pass the rules, and is over with NotEligible otherwise |
| DispatchServices.Database.FindJob | server/src/services/transaction.js:31-39 | one action: the committed job, or NotFound exactly when there is none |
| DispatchServices.Database.FindOwnOffer | server/src/services/assignment-service.js:194-219 | one action: an open offer of the actor's own for the job; without one, a version conflict exactly when somebody else's is open, and otherwise an invalid transition, both with the row read |
| DispatchServices.Database.ClaimJob | server/src/services/transaction.js:45-56 | one action: the row is claimed if and only if the `where` holds on the committed row; a loser learns that row's version and status, or that the job is gone |
| DispatchServices.Database.Refuse | server/src/services/assignment-service.js:103-113 | one action: a failed test ends the call with the error the protocol gives for it, and nothing is committed |
| DispatchServices.Database.CloseAssignments | server/src/services/job-service.js:174-183 | one action: exactly the job's active assignments, or the answered offer alone if still open, move to the closing state; an answered offer that is no longer open ends the call |
| DispatchServices.Database.CreateAssignment | server/src/services/assignment-service.js:123-138 | one action: the new offer is added to the call's writes and the one-active index has nothing to object |
| DispatchServices.Database.CreateEvent | server/src/services/assignment-service.js:140-149 | one action: the event that belongs to this operation on the job it read |
| DispatchServices.Database.Commit | server/src/services/transaction.js:70-92 | one action: the call's writes become the committed rows, operation by operation, and the reply shows the committed job |
| DispatchServices.Database.NextCounterValue | server/src/lib/sequence.js:7-23 | one action: under the counter lock, the next number is one more than the committed counter; without a counter row the call is over and nothing changes |
| DispatchServices.Database.CreateJob | server/src/services/job-service.js:55-104 | done: the new PENDING job at version 1 with the number after the committed counter; refused only for want of the counter row or its lock; alone with a free counter row it is done |
| DispatchServices.Database.Transition | server/src/services/job-service.js:118-199 | the shared runner: it ends with a commit of its operation or with an error that has its reason |
| DispatchServices.Database.StartJob | server/src/services/job-service.js:277-290 | done: the caller's own ACCEPTED job is IN_PROGRESS, nothing else of the row and no assignment changed; refused with NotFound, InvalidTransition, Forbidden, VersionConflict or a lock, each with its reason; alone it is done if the job is one for it, its row is free and the version is absent or current, at the next version |
| DispatchServices.Database.CompleteJob | server/src/services/job-service.js:292-307 | done: the caller's own job in progress is COMPLETED at the given time and its active assignment COMPLETED, all other assignments as they were; refusals and being alone as for a start |
| DispatchServices.Database.CancelJob | server/src/services/job-service.js:309-324 | done: the job is CANCELLED without assignee and its active assignment REVOKED, all others as they were; refused with NotFound, InvalidTransition, VersionConflict or a lock, each with its reason; alone it is done if the job is one for it, its row is free and the version is absent or current, at the next version |
| DispatchServices.Database.FailJob | server/src/services/job-service.js:326-341 | done: the caller's own job in progress is FAILED and its active assignment REVOKED, all others as they were; refusals and being alone as for a start |
| DispatchServices.Database.PatchJob | server/src/services/job-service.js:201-275 | done: the row committed just before with the given fields and a new version, everything else as it was; refusals and being alone as for a cancel |
| DispatchServices.Database.AssignJob | server/src/services/assignment-service.js:65-157 | done: the PENDING job is ASSIGNED to the agent, whose new OFFERED row is the only change to the assignments and the job's only active one; refused with NotEligible, NotFound, VersionConflict (row read no longer PENDING, or the claim failed) or a lock, each with its reason, and never InvalidTransition; alone it is done if the job is PENDING, the agent passes the rules, the rows are free and the version is absent or current |
| DispatchServices.Database.ReassignJob | server/src/services/assignment-service.js:356-458 | done: the ASSIGNED job is the new agent's, the open offer REVOKED, the new one OFFERED and the only active one, all other assignments as they were, the same agent included; InvalidTransition for a PENDING job only, the other refusals and being alone as for an assign |
| DispatchServices.Database.AcceptJob | server/src/services/assignment-service.js:179-265 | done: the ASSIGNED job is ACCEPTED and the caller's own open offer ACCEPTED, the only active one, all others as they were; refused with NotFound, VersionConflict, InvalidTransition, OfferGone or a lock, each with its reason; alone it is done if the job is one for it, its row is free and the version is absent or current, at the next version |
| DispatchServices.Database.DeclineJob | server/src/services/assignment-service.js:267-353 | done: the ASSIGNED job is PENDING without assignee and the caller's own open offer DECLINED, none left active, all others as they were; refusals and being alone as for an accept |
| StableJson.TextIsCanonical | server/src/lib/idempotency.js:10-19 | two values have the same text if and only if they are equal up to key order, at any depth; undefined counts as null, a date as its ISO string |
| StableJson.TextUnique | server/src/lib/idempotency.js:10-19 | texts are prefix-free: equal texts followed by anything that cannot continue a number come from equal values and equal rests |
| StableJson.QuoteUnique | server/src/lib/idempotency.js:16-18 | quoted strings are prefix-free: the quotes and escapes tell where a string ends and what it was |
| StableJson.SortedUnique | server/src/lib/idempotency.js:15-16 | sorting by distinct keys leaves one order, whatever the order the entries came in |
| Idempotency.ExecutionsAreBudgeted | server/src/services/transaction.js:62-94 | any callers, interleavings and crashes: the committed executions of a key are at most one plus the take-overs of an expired row |
| Idempotency.AtMostOneExecution | server/src/services/transaction.js:62-94 | while no lookup finds the row expired, all executions of a key are one |
| Idempotency.ReplaysAreFaithful | server/src/services/transaction.js:75-81 | every replay returns the body of a committed execution of that key, to a caller whose request is equal up to key order |
| Idempotency.OnlyOwnReservation | server/src/lib/idempotency.js:84-93 | completing and dropping change no row but the caller's own reservation |
| Idempotency.OnlyNextTouchesRows | server/src/services/transaction.js:83-92 | only a call's own next step touches the key table: a crash leaves the row it meets |
| IdempotencyRetries.RetryReplays | server/src/lib/idempotency.js:60-77 | whatever other calls do before and between its steps, a retry with an equal request that looks its completed row up before expiry replays the stored response, touches no row, and is over for good without executing |
| IdempotencyRetries.RetryIsOnItsWay | server/src/lib/idempotency.js:40-82 | until the row expires a retry never reserves and never executes: it is asking, has met the row, has replayed it, or has died |
| IdempotencyRetries.CompletedRowStays | server/src/lib/idempotency.js:68-93 | a completed row stays exactly as it is until it expires, whatever any calls do |
| IdempotencyRetries.OtherRequestIsReuse | server/src/lib/idempotency.js:74-79 | another request under a completed key, looked up before expiry, is refused as reuse and touches no row, whatever others do in between |
| IdempotencyRetries.CrashKeepsTheKey | server/src/services/transaction.js:75-92 | after a crash the reservation stays: until it expires every lookup, by an equal request or another, is told that the work is in progress; once expired it may be taken over |
| IdempotencyRetries.FailedCallsFreeTheirKey | server/src/lib/idempotency.js:91-93 | in every run a failed call's drop leaves no row of its own, frees its slot if the row there was its own, and changes no other |
| IdempotencyRetries.FailedCallsCanBeRetried | server/src/services/transaction.js:83-89 | however others go on, as long as nobody has taken the freed slot, its next call reserves, executes and stores its response |
| IdempotencyRetries.FreshIsStored | server/src/services/transaction.js:91-93 | an executed call that still finds its row reports its body and stores it there, and no other row changes; otherwise it throws and changes nothing |
| IdempotencyRetries.TakeOversAreSpent | server/src/lib/idempotency.js:68-72 | the budget is tight for every n: some run has n take-overs and n + 1 executions of one request |
| Idempotency.RunsKeepInv | server/src/services/transaction.js:62-94 | every reachable state keeps the budget per key and, for each completed row and each replay, its source |
| Idempotency.KeyTable.Attempt | server/src/lib/idempotency.js:40-58 | the row, in progress and good for 24 hours, is inserted if and only if the unique index has room |
| Idempotency.KeyTable.FindExisting | server/src/lib/idempotency.js:60-81 | the lookup touches no row; its verdict in the order of the tests: gone, expired, in progress, reuse by another request, replay of the stored body |
| Idempotency.KeyTable.Replace | server/src/lib/idempotency.js:68-72 | the expired row makes way for the caller's own if and only if it is still there; otherwise the call throws and no row changes |
| Idempotency.KeyTable.ReserveKey | server/src/lib/idempotency.js:40-82 | the caller holds the reservation, or has no row and is told replay, reuse, in progress or an error; undisturbed, exactly what the slot's row says |
| Idempotency.KeyTable.CompleteKey | server/src/lib/idempotency.js:84-89 | the response is stored on the caller's own row, every other row unchanged; a row that is gone throws |
| Idempotency.KeyTable.DropKey | server/src/lib/idempotency.js:91-93 | no row of the caller is left, and every other row is exactly as it was |
| Idempotency.KeyTable.RunIdempotent | server/src/services/transaction.js:62-94 | a fresh reply is what this call executed and what its row now holds; a replay has its source; every other answer executed nothing; a failed execution whose drop goes through leaves no row of the call. Undisturbed, the answer is decided: a free or expired slot executes, an unexpired row replays, refuses reuse or is in progress |
| SlaCheck.StateFollowsEscalations | server/src/worker/handlers/sla-check.js:64-116 | a job's SLA state is a function of its escalations: BREACH row, only a WARNING row, or none |
| SlaCheck.OneEscalationEach | server/src/worker/handlers/sla-check.js:83-98 | at most one escalation per job and threshold over any schedule of deaths, throws and redeliveries |
| SlaCheck.FanOutHasItsRow | server/src/worker/handlers/sla-check.js:100-125 | WARNING never fans out, and at every point each fan-out so far has its durable BREACH row |
| SlaCheck.AcknowledgedMeansDone | server/src/worker/handlers/sla-check.js:97-134 | a delivery acknowledged as escalated or complete has its row, and a BREACH has been published and enqueued |
| SlaCheck.CleanDeliveryIsAcknowledged | server/src/worker/handlers/sla-check.js:42-137 | a delivery that does not die is acknowledged exactly once, by the kind that fits, and fans out exactly when it is a live job's breach: publish with its row, then enqueue with the version it read |
| SlaCheck.NoopsOnlyAcknowledge | server/src/worker/handlers/sla-check.js:43-62 | an old timer, a missing job and a finished job each leave exactly one acknowledgement of their kind and nothing else; a malformed delivery leaves nothing |
| SlaCheck.DyingDeliveryLeavesItsTrail | server/src/worker/handlers/sla-check.js:59-134 | a delivery that dies is not acknowledged and leaves what came before its death: the row, then the publish, then the enqueue |
| SlaCheck.RowsAfter | server/src/worker/handlers/sla-check.js:59-95 | an escalation comes about only by a live job's delivery that reaches its commit and finds no row |
| SlaCheck.RecordedIffHit | server/src/worker/handlers/sla-check.js:59-95 | on a live job, a threshold is recorded if and only if some delivery of it reached its commit |
| SlaCheck.OrderAndDuplicatesDoNotMatter | server/src/worker/handlers/sla-check.js:64-116 | schedules that deliver the same set of thresholds, in any order and with any duplicates, end in the same SLA state and escalations |
| SlaCheck.Worker.Escalate | server/src/worker/handlers/sla-check.js:83-96 | one transaction: state and escalation together, or neither when the row exists |
| SlaCheck.Worker.PublishBreachSideEffects | server/src/worker/handlers/sla-check.js:70-81 | publish before enqueue, and a death between leaves exactly what was done |
| SlaCheck.Worker.OnJobFound | server/src/worker/handlers/sla-check.js:58-135 | for a job that is found, the handler's branches do exactly what its specification says |
| SlaCheck.Worker.HandleSlaCheck | server/src/worker/handlers/sla-check.js:42-137 | one delivery does to the database, the effects and the acknowledgements exactly what the handler's specification says, deaths included |
| SlaTimers.SlaDelayMs | server/src/lib/queue/index.js:128-139 | the delay ends at the due time less the warning minutes, or plus the breach minutes, and is zero exactly when that is past |
| SlaTimers.EarliestPolicy | server/src/lib/integration-adapters.js:93-96 | the promise source is the earliest created policy, the identity breaking ties |
| SlaTimers.AssignedArms | server/src/lib/integration-adapters.js:112-123 | an assignment leaves exactly one WARNING and one BREACH frozen to the earliest policy's promise and runnable at the promised times, if and only if no evaluation of the job was being processed |
| SlaTimers.OtherStatusDisarms | server/src/routes/jobs.js:101-106 | any other status leaves none of the job's timers, if and only if none was being processed |
| SlaTimers.EditsChangeNothing | server/src/lib/integration-adapters.js:102-111 | policy edits never change what is enqueued |
| SlaTimers.LastHookDecides | server/src/lib/integration-adapters.js:92-123 | after any history of hooks, queue moves and edits the last hook decides: the fresh pair, nothing, or, for an assignment without a policy, the queue as it was with a stale pair included; later edits change nothing |
| SlaTimers.TimersKeepThePromise | server/src/lib/queue/index.js:120-139 | after any history, the pending WARNING is runnable exactly its minutes before the due time and not after it, the BREACH exactly its minutes after and not before it; past times at once; neither early, and late by the clock's lag between hook and queue at most |
| SlaTimers.SlaQueue.RemovePendingSlaEvaluation | server/src/lib/queue/index.js:144-159 | the entry is gone unless it is being processed, and the result says which |
| SlaTimers.SlaQueue.RemovePendingSlaEvaluations | server/src/lib/queue/index.js:163-169 | exactly the job's entries that are not being processed are gone, and each result says whether its entry went |
| SlaTimers.SlaQueue.ScheduleSlaCheck | server/src/lib/queue/index.js:83-116 | work under way is kept and nothing changes; a settled or missing entry is armed afresh under the same identity |
| SlaTimers.SlaQueue.ScheduleSlaAfterAssign | server/src/lib/integration-adapters.js:92-123 | the stale pair is dropped and the fresh one armed |
| SlaTimers.SlaQueue.AfterJobCommit | server/src/routes/jobs.js:101-106 | the hook arms on ASSIGNED and disarms otherwise |
| Reconcile.MissingIsUncovered | server/src/worker/reconcile.js:46-48 | the jobs to enqueue are exactly those of the table whose version no scanned entry reaches |
| Reconcile.MissingKeepsOrder | server/src/worker/reconcile.js:37-48 | they come in key order, so no job is enqueued twice |
| Reconcile.NextSweepIsQuiet | server/src/worker/reconcile.js:25-67 | on an unchanged table a following sweep that scans every entry enqueues nothing |
| Reconcile.NothingMissing | server/src/worker/reconcile.js:46-48 | a sweep enqueues nothing if and only if the scan covers every job |
| Reconcile.OnlyChangedJobsReturn | server/src/worker/reconcile.js:25-67 | when the table moves on, a following sweep enqueues only rows that are new or changed |
| Reconcile.QueuedVersions | server/src/worker/reconcile.js:26-31 | the version map holds the highest usable version per job and skips malformed entries |
| Reconcile.FindMany | server/src/worker/reconcile.js:36-43 | a page continues exactly where the visited rows end, and is short only at the end of the table |
| Reconcile.BehindRows | server/src/worker/reconcile.js:46-48 | the page's uncovered rows, in order |
| Reconcile.Events | server/src/worker/reconcile.js:49-59 | one event per row, in order, with the row's own identity, version and organization |
| Reconcile.JobEventQueue.RequeueAll | server/src/worker/reconcile.js:49-59 | one event per missing row, in order, and no other job's entry in the version map changes |
| Reconcile.JobEventQueue.ReconcileJobEvents | server/src/worker/reconcile.js:25-67 | a limit below one is an error that changes nothing; otherwise report and queue are functions of table and scan alone: the same for every batch size, every job checked once, exactly the uncovered ones enqueued |
| Sequence.PaddingReadsBack | server/src/lib/sequence.js:25-28 | the padded number reads back as the number, past six digits too |
| Sequence.ReferenceReads | server/src/lib/sequence.js:25-28 | a reference is JOB, the year and the number, the number in at least six digits that read back as it |
| Sequence.ReferenceIsUnique | server/src/lib/sequence.js:25-28 | equal references have equal years and equal numbers |
| Sequence.ReferencesAreDistinct | server/src/services/job-service.js:65-99 | in every run the committed jobs' references are pairwise distinct, for all years |
| RefreshTokens.FamilyIsOneChain | server/src/auth/refresh-tokens.js:13-49 | after any history a family is one simple chain over all its tokens in creation order, only the last can be unrevoked, and one user owns all |
| RefreshTokens.RotationMovesTheEnd | server/src/auth/refresh-tokens.js:18-48 | a rotation succeeds if and only if the token is known, unexpired and unrevoked; it is then the end of its family's chain, the chain grows by the successor, and no other family changes |
| RefreshTokens.ReuseEndsTheFamily | server/src/auth/refresh-tokens.js:22-29 | once a rotation reports reuse, no token of that family ever rotates again |
| RefreshTokens.ReuseLeavesOtherFamiliesAlone | server/src/auth/refresh-tokens.js:22-29 | a reported reuse dates what was unrevoked in that family and changes nothing else; another family's unexpired, unrevoked token rotates right afterwards |
| RefreshTokens.ReplayIsDetected | server/src/auth/refresh-tokens.js:18-31 | a token rotates at most once; presenting it again is reported as reuse if and only if it has not expired, and an expired replay revokes nothing |
| RefreshTokens.TokensLastAWeek | server/src/auth/tokens.js:16-37 | a token just issued or rotated in rotates up to seven days later to the millisecond, and is refused after |
| RefreshTokens.LogoutEndsTheFamily | server/src/auth/refresh-tokens.js:52-61 | logging out ends the family for good, dates what was unrevoked in it and leaves every other row as it was |
| RefreshTokens.SignOutEndsAllFamilies | server/src/auth/refresh-tokens.js:64-69 | after signing out everywhere none of the user's families of that moment rotates again, and other users' tokens are as they were |
| RefreshTokens.TokenStore.IssueRefreshToken | server/src/auth/refresh-tokens.js:5-11 | a new unrevoked token in a family of its own, good for seven days, behind the tokens there were |
| RefreshTokens.TokenStore.RotateRefreshToken | server/src/auth/refresh-tokens.js:13-49 | which tokens are rotated, reused and invalid, both ways; a good one is replaced by a successor good for seven days, reuse revokes the unrevoked of its family alone, and an invalid one changes nothing |
| RefreshTokens.TokenStore.RevokeFamily | server/src/auth/refresh-tokens.js:52-61 | the unrevoked of the presented token's family are revoked and no other row changes; an unknown token changes nothing |
| RefreshTokens.TokenStore.RevokeAllForUser | server/src/auth/refresh-tokens.js:64-69 | every unrevoked token of the user is revoked and no other row changes |
| Suggestions.RankedDistinct | server/src/services/suggestion-service.js:72-96 | nobody is listed twice, and known positions come first |
| Suggestions.RankingIsUnique | server/src/services/suggestion-service.js:50-96 | there is one ranking, so every order in which memberships arrive gives the same list |
| Suggestions.RankingReads | server/src/lib/jobs/suggestion-scoring.js:25-47 | the ranking in plain terms: one point per kilometre and ten per active job where the position is known, lower first; then the others by load; the user identity breaks ties |
| Suggestions.OneRankedArrangement | server/src/lib/jobs/suggestion-scoring.js:40-47 | two lists of the same entries in ranking order are equal |
| Suggestions.SortSuggestions | server/src/services/suggestion-service.js:81-86 | a permutation in comparator order |
| Suggestions.RankAgents | server/src/lib/jobs/suggestion-scoring.js:40-47 | a permutation of the scores in order of score, then user identity |
| Suggestions.GroupByAgent | server/src/services/suggestion-service.js:39-47 | the grouped counts give every agent's number of active assignments, zero where absent |
| Suggestions.SuggestAgents | server/src/services/suggestion-service.js:28-97 | a missing job is an error; otherwise the list is the one ranking of the rows read, and an agent is on it, once, if and only if an assignment's eligibility check passes on the same rows |
| PositionCache.NeverBackwards | server/src/lib/tracking/position-cache.js:78-84 | a write never lowers the cached timestamp, and repeating it changes nothing |
| PositionCache.NeverBackwardsOverRuns | server/src/lib/tracking/position-cache.js:78-84 | between losses the cached timestamp never decreases over any run |
| PositionCache.CacheHoldsFirstNewest | server/src/lib/tracking/position-cache.js:77-100 | the cache holds the first arrival with the newest timestamp among those offered since it was last empty |
| PositionCache.Fallback | server/src/routes/pings.js:123-136 | the durable pick is the last created row with the newest timestamp |
| PositionCache.EveryOrderAgrees | server/src/routes/pings.js:123-136 | distinct timestamps and no loss: every arrival order leaves cached what the durable fallback picks |
| PositionCache.ShownIsNewestIff | server/src/routes/pings.js:123-136 | distinct timestamps, any losses: the durable newest is shown if and only if the cache is empty or was offered it since it was last empty |
| PositionCache.TiesDecideAgreement | server/src/routes/pings.js:123-136 | repeated timestamps: cache and fallback agree if and only if the first and the last row with the newest timestamp report the same |
| PositionCache.TiesDisagree | server/src/routes/pings.js:123-136 | any two pings with one timestamp and different data make them differ: the first is cached, the last is the fallback |
| PositionCache.OlderIsShown | server/src/routes/pings.js:123-136 | when the newest ping is lost from the cache, or never reached it, and an older one arrives, the older one is shown |
| PositionCache.PositionStore.WritePosition | server/src/lib/tracking/position-cache.js:71-105 | the no-backwards rule on one key, other keys untouched, an unreachable cache changing nothing |
| PositionCache.PositionStore.ReadPosition | server/src/lib/tracking/position-cache.js:53-66 | a hit is the owner's cached position; an unreachable cache or unreadable bytes are a miss |
| PositionCache.PositionStore.CreatePing | server/src/routes/pings.js:57-83 | the row is durable whatever happens to the cache |
| PositionCache.PositionStore.ResolveLatestPosition | server/src/routes/pings.js:123-136 | the cached position on a hit, the durable pick on a miss |

## Left out

- Tenant scoping: one protocol run has one organization; row-level security and cross-organization arguments are not modelled.
- The organization's default cap: no route edits it, so it is fixed in a run.
- Foreign-key share locks (other than a role change waiting for the role row) and lock queues: a waiting statement is one that cannot go on yet; the order in a lock queue and lock timeouts are left to the schedule.
- The SLA worker's own update of the job row is not a call of the dispatch protocol: it writes `slaState` only.
- A loser's second read, of the job after a failed claim or of a rival's offer after its own was not found, is taken together with the statement before it.
- Reads of the updated row at the end of an operation show what that operation has written, so they are not statements of their own.
- Event reasons, input validation and permission checks: they only refuse a call before it starts.
- RefreshTokens.TokenStore.IssueRefreshToken: the optional family argument is not modelled, because no caller passes it; a family in use would then start a second chain.
- Suggestions.SuggestAgents: the four reads are separate statements, and other commits may fall between them; the contract is about the rows they returned, put together as one state.
- Idempotency without a key: the work is then one plain transaction.
- Lost commit acknowledgements and savepoint mechanics; an insert that loses to the unique index counts when it is decided.
- SHA-256 is taken to be injective on canonical texts and random identities to be fresh.
- Canonical text: integers only, no unpaired surrogates, keys ordered by code point where the engine orders by UTF-16 unit; values with a custom `toJSON` other than dates.
- SLA deliveries for one job that overlap, rotations of one refresh token that overlap or die between their two writes, and position writes for one agent that overlap: the code is not atomic there, so the model handles each one at a time.
- Queue failures during the post-commit hook: queue calls succeed, except that an entry being processed cannot be removed.
- Queue internals, retries and dead letters: the queue is a map or a list with redelivery.
- A jobs table that changes during a sweep; the scan's cap, which only makes the scanned list one list among all.
- The counter as BigInt and the year as a Date: both are unbounded integers, and the year is a parameter.
- Floating point: distances and scores are reals and the distance is an arbitrary function; `localeCompare` is a strict total order on identities.
- A cache write that fails half-way counts as not written.
- Pings created in the same instant have the order of their creation.
- Board cache, sockets, notifications, audit log, rate limits, sessions, routing and the client: easy members or foreign code.
