# GreyQueue: a verified model of the job engine

GreyQueue hands jobs to workers under renewable leases, numbers every attempt with a fence,
retries within a budget, and keeps it all in one transactional database that many
coordinators share. This project models that engine in Dafny and proves what it keeps over
whole runs: one owner per job, fencing, bounded retries and ownership, replay safety,
admission limits, dependency safety, drain intent, FIFO fairness, a log that agrees with the
tables, recovery that finishes, and deadlock freedom.

## How it is built

| file | what it holds |
|---|---|
| `Tables.dfy` | rows, statuses, the transition table, queries, retry-delay arithmetic |
| `Protocol.dfy` | the eight kinds of committed change (`Effect`), what they write (`Apply`), when they are allowed (`Guard`) |
| `Scheduler.dfy` | eligibility, claim order, the head of the queue |
| `Operations.dfy` | one function per operation: the answer and the effect, for given clock readings |
| `Store.dfy` | the operations as imperative code on mutable tables (`Service`), and transactions, sweeps and detection around it (`Coordinator`) |
| `Invariant.dfy`, `Timing.dfy`, `EventLog.dfy`, `Admission.dfy`, `Workers.dfy` | the invariant in parts, each kept by every effect |
| `Runs.dfy`, `History.dfy` | actions, runs, the invariant along a run, what no step takes back |
| `Grants.dfy` | what every job request is granted and writes, said of the rows alone |
| `Ownership.dfy`, `ExecutionCap.dfy`, `Replay.dfy`, `Submissions.dfy`, `Lifecycle.dfy`, `Dependencies.dfy`, `WorkerLifecycle.dfy`, `Overtaking.dfy`, `Recovery.dfy` | the theorems |
| `Locks.dfy` | transactions as lock programs, and why they never deadlock |
| `Exchange.dfy`, `WorkerLoop.dfy` | the worker's retrying sender and the turns of a slot against any run, and what each answer means from then on |

A request, a sweep row or a detection row is one atomic step. A step either commits one effect
or changes nothing, because every exception rolls its transaction back. A run is any sequence
of steps with any arguments, so it covers every order in which clients, workers and coordinators
can commit and every loss, delay and duplication of requests, as long as clock readings follow
the order of commits. The clock is a parameter: each operation takes the (up to four) readings it
makes, in nondecreasing order, and readings never go back along a run. UUIDs are fresh parameters, random jitter is any factor in [0.5, 1.5], rows
locked by other transactions are a set to skip, and a digest is the definition itself.

`Service` methods follow the statements of the source; their contracts equate the new tables
with `Apply` of the effect that `Operations` decides. `Coordinator` keeps the whole run as a ghost
history: its tables are always the last state of a run, each request adds one step and each
sweep or detection one step per row, so every theorem about runs applies to a coordinator that
serves requests and sweeps in any order.

Rows carry four history variables that no operation reads to decide anything: `Job.serial`
(admission order), `Attempt.claimedAt`, `Attempt.epoch` and `Worker.epoch` (how often the
identity was taken over).

Validation of requests is taken as given: `max_retries` 0..10, `retry_delay` 0..300, `timeout`
0.05..300, exactly one of output and error, `suspect_after < dead_after`, a non-empty key.

One promise of the design notes is false of the code. They say the cap of five seconds over the
timeout always bounds ownership (`docs/design-decisions.md:22`, and the comment at
`greyqueue/service.py:258`). The code applies the cap only when a lease is renewed, so a first
lease longer than the cap outlives it. The model follows the code, and
`ExecutionCap.CapExactlyWhenLeaseIsShort` gives the exact condition.

## Model

| member | source | states |
|---|---|---|
| `Tables.RetryDelayBounds` | greyqueue/service.py:283-286 | a scheduled retry delay is never negative, never above 5400 seconds, and jitter at worst halves the capped exponential base |
| `Tables.DelayDoubles` | greyqueue/service.py:283-283 | the first retry waits for the configured delay, each later one twice as long as the one before, none longer than an hour |
| `Tables.LeastDelayAttained` | greyqueue/service.py:284-285 | the least delay of the spacing theorem is one that jitter can choose |
| `Scheduler.FirstExists` | greyqueue/scheduler.py:37-47 | both claim orders are total: every non-empty set of jobs has a first member |
| `Scheduler.Head` | greyqueue/scheduler.py:21-48 | the claimed row is the unique first of the eligible unlocked jobs in the policy's order, and is missing exactly when there are none |
| `Store.Service.Transition` | greyqueue/service.py:54-59 | a transition in the table is written and logged, any other is refused and changes nothing |
| `Store.Service.Admit` | greyqueue/service.py:66-152 | replays by key, applies both limits and the parent check in order, and inserts the job with its two events |
| `Store.Service.FindClaim` | greyqueue/service.py:186-188 | finds the one attempt with the claim ID, or there is none |
| `Store.Service.FindHolder` | greyqueue/service.py:194-198 | finds the one unfinished attempt of the slot, or there is none |
| `Store.Service.SelectHead` | greyqueue/service.py:205-208 | the scheduler query with limit one returns the head of the queue |
| `Store.Service.Claim` | greyqueue/service.py:165-223 | slot check, replay before the health check, occupied slot, then new work: answers and writes exactly as decided |
| `Store.Service.ClaimNew` | greyqueue/service.py:203-223 | only a healthy worker gets new work, and it gets the head |
| `Store.Service.Lease` | greyqueue/service.py:211-222 | the writes of a claim are one attempt with the next fence and one LEASED transition, which is always legal |
| `Store.Service.Start` | greyqueue/service.py:244-251 | starts a leased assignment once; a repeat is a no-op; the transition is always legal |
| `Store.Service.Renew` | greyqueue/service.py:254-269 | extends a started lease to the earlier of now plus lease and the execution cap, or refuses |
| `Store.Service.FailAttempt` | greyqueue/service.py:272-290 | retry with delay, dead letter or permanent failure, with the result row exactly when the job ends |
| `Store.Service.Finish` | greyqueue/service.py:293-321 | acknowledges an identical repeat, refuses any other, and records a first completion |
| `Store.Service.Cancel` | greyqueue/service.py:324-330 | cancels waiting jobs only; a repeat is a no-op |
| `Store.Service.ExpireLease` | greyqueue/recovery.py:35-47 | one expiry row: the unfinished attempt is looked up and its lease rechecked before it is ended |
| `Store.Service.DetectWorker` | greyqueue/recovery.py:89-97 | one detection row: SUSPECT or DEAD by silence, and DRAINING is not demoted to SUSPECT |
| `Store.Service.DetectWorkers` | greyqueue/recovery.py:80-97 | the loop visits every worker row that is not locked, and no other |
| `Store.Service.Register` | greyqueue/api.py:275-312 | first registration, replay that revives a DEAD worker, takeover of a DEAD identity, refusal of a live one |
| `Store.Service.Heartbeat` | greyqueue/api.py:322-328 | refreshes last seen and answers DRAINING while a drain is requested |
| `Store.Service.Drain` | greyqueue/api.py:253-270 | records the drain intent on any worker that is not DEAD |
| `Store.Select` | greyqueue/recovery.py:22-34 | a limited query returns distinct members of its pool, as many as there are up to the limit |
| `Store.Coordinator.Handle` | greyqueue/api.py:119-135 | every request, checked against the session, extends the coordinator's run by exactly that step |
| `Store.Coordinator.ExpireLoop` | greyqueue/recovery.py:35-54 | the expiry loop over any candidate list equals the row-by-row specification |
| `Store.Coordinator.CancelLoop` | greyqueue/recovery.py:75-76 | the dependants loop cancels every selected job without a recheck, every transition is legal, and the loop equals the row-by-row specification |
| `Store.Coordinator.RecoverJobs` | greyqueue/recovery.py:18-77 | one sweep: nothing without the advisory lock, else expired leases then blocked children, each up to the limit, not locked and at the given readings; it extends the run by one step per row |
| `Store.Coordinator.DetectWorkers` | greyqueue/recovery.py:80-97 | failure detection visits exactly the unlocked rows and extends the run by one step per row |
| `Grants.AdmissionExact` | greyqueue/service.py:106-152 | a submission under an unused key is accepted if and only if queue and last minute have room and the parent, if any, exists and has not failed; which refusal each failing condition gives |
| `Grants.AdmittedRow` | greyqueue/service.py:132-152 | a new job is QUEUED and untried, due at its schedule or at once, with its two events, and nothing else changes |
| `Grants.ClaimCreatesExactly` | greyqueue/service.py:179-223 | an attempt is created if and only if the ID is new, the slot free, the worker healthy and authorized, and a due QUEUED or RETRY_WAIT job with a successful parent, if any, is unlocked; an empty answer exactly when only work or health is missing |
| `Grants.ClaimTakesFirst` | greyqueue/scheduler.py:29-48 | the job taken is the least of all due unlocked jobs by admission time and ID, under the priority policies by greater priority first |
| `Grants.ClaimedRows` | greyqueue/service.py:211-223 | the attempt gets the next fence and a whole lease, the job becomes LEASED, and nothing else changes |
| `Grants.ClaimRefusals` | greyqueue/service.py:179-202 | which refusal each failing condition gives, and which assignment a repeated claim gets |
| `Grants.StartedRows` | greyqueue/service.py:244-251 | a first start moves the job to RUNNING and stamps the attempt, a repeat changes nothing |
| `Grants.RenewedLease` | greyqueue/service.py:254-269 | the lease set is the lease answered: a whole lease from the reading or the execution cap, whichever is earlier |
| `Grants.UnrenewedUnchanged` | greyqueue/service.py:257-268 | a renewal that sets no new deadline is refused and changes nothing |
| `Grants.ErrorRecorded` | greyqueue/service.py:272-315 | a recorded error makes the job FAILED if and only if it is not retryable, else RETRY_WAIT while the budget lasts and DEAD_LETTER after; a result row unless it is retried; the exact schedule of the retry |
| `Grants.OutputRecorded` | greyqueue/service.py:316-321 | a recorded output makes the job SUCCEEDED with that result |
| `Grants.AcknowledgedFirst` | greyqueue/service.py:301-321 | an acknowledged completion is recorded by that step if and only if the attempt was unfinished |
| `Grants.ExpiryExact` | greyqueue/recovery.py:35-47 | an unfinished attempt ends as a retryable LEASE_EXPIRED failure if and only if its lease has run out at the recheck |
| `Grants.NothingToExpire` | greyqueue/recovery.py:35-39 | a stale sweep row of a job without an unfinished attempt changes nothing |
| `Grants.CancelExact` | greyqueue/service.py:324-330 | QUEUED and RETRY_WAIT jobs are cancelled, a cancelled one is acknowledged, any other is refused |
| `Grants.CancelChildExact` | greyqueue/recovery.py:55-76 | exactly the waiting jobs whose parent failed, was dead-lettered or was cancelled are cancelled |
| `Invariant.JobsKept` | greyqueue/service.py:211-221 | every effect keeps what a status says about the retry budget |
| `Invariant.AttemptsKept` | greyqueue/service.py:212-321 | every effect keeps each attempt row consistent with its job row |
| `Invariant.FencesKept` | greyqueue/service.py:211-217 | fences of a job stay unique and cover 1..attempt_count |
| `Invariant.ResultsKept` | greyqueue/service.py:290-320 | a result row exists exactly for ended jobs and equals the last attempt's record |
| `Invariant.SlotsKept` | greyqueue/models.py:106-112 | no two unfinished attempts share a worker slot |
| `Invariant.ClaimsKept` | greyqueue/models.py:137 | no two attempts share a claim ID |
| `Invariant.KeysKept` | greyqueue/models.py:89 | no two jobs share an idempotency key |
| `Invariant.DependsKept` | greyqueue/service.py:125-131 | parents are admitted before children, and only children of successful parents ever get an attempt |
| `Timing.TimesKept` | greyqueue/service.py:218-286 | every effect keeps lease bounds, schedules and the spacing of attempts |
| `EventLog.RemainingFalls` | greyqueue/service.py:21-26 | every transition of the table lowers a job's remaining transitions |
| `EventLog.EffectMoves` | greyqueue/service.py:54-59 | every effect that changes a status takes one step of the transition table and logs it |
| `EventLog.CountersAgree` | greyqueue/observability.py:78-90 | log-derived counters equal table-derived ones; attempts equal retries plus owned plus ended jobs |
| `Admission.WindowAfterAdmission` | greyqueue/service.py:118-124 | looking back one minute from an admission bounds every closed minute that holds it |
| `Workers.WithinCapacity` | greyqueue/service.py:181-202 | by counting slots, attempts held under the current registration never exceed its capacity |
| `Runs.RunInvariant` | greyqueue/service.py:66-330 | the invariant holds in every state of every run |
| `History.RunEvolves` | greyqueue/service.py:226-241 | along a run, definitions, terminal jobs, finished attempts, results, registrations and the log are never taken back |
| `Ownership.OneOwner` | greyqueue/service.py:165-321 | a job is LEASED or RUNNING exactly when one attempt is unfinished; it has the highest fence and is started exactly when RUNNING; fences are exactly 1..attempt_count; older attempts are finished |
| `Ownership.FinishedIsFenced` | greyqueue/service.py:226-241 | a finished attempt keeps its row for ever and its token changes nothing from then on |
| `Ownership.OneSuccess` | greyqueue/service.py:317-321 | at most one attempt of a job succeeds, it has the highest fence, and the result row is what it recorded, for ever |
| `Ownership.ResultIsLastRecord` | greyqueue/service.py:290-320 | a result row never changes and equals the record of the job's last attempt |
| `Ownership.CompletionIsDurable` | greyqueue/service.py:317-321 | after a recorded success the job is SUCCEEDED with that output in every later state |
| `Ownership.AcknowledgedIsRecorded` | greyqueue/service.py:302-321 | an acknowledged completion is on record from then on |
| `Ownership.ReplayStable` | greyqueue/service.py:302-312 | in every later state the same payload is acknowledged as a no-op whatever the retryable flag, any other payload is refused |
| `Ownership.ExpiredNeverCompletes` | greyqueue/service.py:303-310 | no completion of a LEASE_EXPIRED attempt is ever accepted |
| `Ownership.OwnershipIsBounded` | greyqueue/service.py:254-269 | a lease never ends after max(claim + lease, start + timeout + 5), an unstarted one is never extended, and nothing but a repeated completion is accepted at or after the bound |
| `Ownership.IntervalsAreDisjoint` | greyqueue/service.py:280-287 | ownership intervals of a job are disjoint, follow the fences, start after the schedule, and lie the jittered retry delay apart |
| `Ownership.AcceptanceExact` | greyqueue/service.py:235-314 | in a sound state start, renew and finish are accepted exactly for the session and token of an unfinished attempt at the right stage and before its deadline (or an identical repeat) |
| `Ownership.HolderIsServed` | greyqueue/service.py:244-321 | over every run the holder of a live lease is never refused a start or a completion |
| `Ownership.LapsedStays` | greyqueue/service.py:235-240 | a lease that has run out is never revived: its attempt stays as it is or ends as LEASE_EXPIRED |
| `Ownership.RefusalIsFinal` | greyqueue/service.py:302-314 | a completion of a started attempt that was refused once is refused in every later state |
| `ExecutionCap.ShortLeaseIsCapped` | greyqueue/service.py:258-268 | with lease <= timeout + 5 no started lease ever outlives start + timeout + 5 |
| `ExecutionCap.LongLeaseOutlivesCap` | greyqueue/service.py:218-218 | for every valid definition, scheduled and dependent ones included, a run in which a longer lease outlives the cap |
| `ExecutionCap.CapExactlyWhenLeaseIsShort` | docs/design-decisions.md:22 | for every valid definition the promised cap holds in all runs if and only if lease <= timeout + 5 |
| `Replay.AssignmentCarriesClaim` | greyqueue/service.py:186-223 | an assignment always names the attempt that carries the request's claim ID, worker and slot |
| `Replay.OneAttemptPerClaim` | greyqueue/service.py:186-193 | all assignments answered to one claim ID name one attempt, and later deliveries create none |
| `Replay.AtMostOneCreation` | greyqueue/worker.py:100-107 | a claim ID creates at most one attempt in a whole run |
| `Replay.CreatedOnce` | greyqueue/service.py:212-219 | the claim ID of an existing attempt has created exactly one, by a claim under that ID |
| `Replay.RedeliveryIsSafe` | greyqueue/service.py:183-204 | a redelivered claim changes nothing; it answers the same assignment while that is unfinished and the identity not taken over, whatever the worker's state, and is refused afterwards |
| `Submissions.LimitsHold` | greyqueue/service.py:113-124 | active jobs never exceed the queue limit, and no closed 60-second window sees more admissions than the rate |
| `Submissions.ReplayIgnoresLimits` | greyqueue/service.py:107-112 | a known key answers its job however full the queue is, or refuses another definition |
| `Submissions.KeyNamesOneJob` | greyqueue/service.py:107-112 | all successful submissions under a key name one job, had equal definitions, and only the first created it |
| `Lifecycle.HistoryIsLegal` | greyqueue/service.py:21-59 | each job's events are a legal path from submission to its status, one LEASED event per attempt, at most 5 + 3 * max_retries events |
| `Lifecycle.RetriesAreBounded` | greyqueue/service.py:282-289 | attempts never exceed max_retries + 1, DEAD_LETTER means equality, RETRY_WAIT means some left |
| `Lifecycle.BudgetFalls` | greyqueue/service.py:54-59 | every status change of a run follows the table and lowers the remaining budget; other steps leave the job row alone |
| `Lifecycle.CountersAddUp` | greyqueue/observability.py:41-90 | in every state submitted = completed + failed + cancelled + active, terminal event counts equal table counts, LEASED events equal attempts |
| `Dependencies.ChainsAreFinite` | greyqueue/service.py:125-131 | dependency chains never revisit a job and are no longer than the table |
| `Dependencies.DependenciesAreSafe` | greyqueue/scheduler.py:23-37 | a job that ever had an attempt has only SUCCEEDED ancestors; one with a broken ancestor never had any and is QUEUED or CANCELLED |
| `WorkerLifecycle.StatesMeanSilence` | greyqueue/recovery.py:80-97 | drain intent is only masked by DEAD; DEAD and SUSPECT imply the configured silence |
| `WorkerLifecycle.DrainHolds` | greyqueue/api.py:262-270 | from a drain until a takeover no new attempt is created for the identity |
| `WorkerLifecycle.ReplacedOnlyWhenDead` | greyqueue/api.py:303-312 | a session, capacity or registration changes only by taking over a DEAD worker after the silence, with a clean slate |
| `WorkerLifecycle.StaysReplaced` | greyqueue/api.py:303-312 | a replaced session stays replaced until it registers anew with an identity that is dead after the silence |
| `WorkerLifecycle.OldSessionIsInert` | greyqueue/api.py:119-135 | in every later state no request of a replaced session changes a row, and it cannot register while the identity is alive |
| `WorkerLifecycle.RegisterExact` | greyqueue/api.py:275-312 | exactly the live identities of other processes are refused; what an insert, a replay, a revival and a takeover write |
| `WorkerLifecycle.HeartbeatExact` | greyqueue/api.py:322-328 | a heartbeat under the current session always refreshes last seen and revives the worker, and answers DRAINING exactly while a drain is requested |
| `WorkerLifecycle.DrainExact` | greyqueue/api.py:252-270 | a drain is recorded exactly on existing workers that are not DEAD |
| `WorkerLifecycle.CapacityHolds` | greyqueue/service.py:181-202 | in every run state, attempts of the current registration number at most its capacity |
| `WorkerLifecycle.IndexesNeverViolated` | greyqueue/models.py:106-118 | no run ever violates the active-slot or active-job index, a claim ID, an idempotency key or the result primary key |
| `Overtaking.ClaimTakesFirst` | greyqueue/scheduler.py:29-48 | the claimed job comes before every other eligible unlocked job |
| `Overtaking.DebtFalls` | greyqueue/service.py:211-221 | each claim past an eligible, unlocked job uses up one attempt of a job ahead of it, and no other step raises the bound |
| `Overtaking.OvertakingIsBounded` | greyqueue/scheduler.py:29-38 | under FIFO, claims that pass over an eligible job nobody has locked number at most the attempts left to the jobs ahead of it |
| `Recovery.OnlyExpiredEnd` | greyqueue/recovery.py:35-47 | from any stale candidate list only attempts whose lease has run out when processed are ended, their jobs then wait for a retry or are dead-lettered, and every other attempt, unvisited job and worker is untouched |
| `Recovery.OnlyBlockedCancelled` | greyqueue/recovery.py:55-76 | only waiting jobs with a broken parent are cancelled, nothing else changes |
| `Recovery.StillBlocked` | greyqueue/recovery.py:75-76 | cancelling some of the selected dependants leaves the others cancellable, so no illegal transition is attempted |
| `Recovery.SweepRun` | greyqueue/recovery.py:18-77 | a whole sweep from the end of any run is a continuation of that run |
| `Recovery.DetectRun` | greyqueue/recovery.py:80-97 | failure detection from the end of any run is a continuation of that run |
| `Recovery.SweptAlone` | greyqueue/recovery.py:18-77 | a coordinator's sweep with the lock, nothing locked elsewhere and one clock reading is a sweep of the clean-up theorem |
| `Recovery.DetectRowsExact` | greyqueue/recovery.py:80-97 | a visited worker is DEAD afterwards if and only if it was or has been silent for `dead_after`, SUSPECT if and only if it was or was HEALTHY with a shorter silence over `suspect_after`; nothing else changes |
| `Recovery.SweepProgress` | greyqueue/recovery.py:18-77 | a sweep lowers the work left, or there was none and it changes nothing |
| `Recovery.SweepsFinish` | greyqueue/recovery.py:107-116 | repeated sweeps at a fixed time reach a quiet state after at most `Work` of them |
| `Recovery.SweepsCleanUp` | greyqueue/recovery.py:55-76 | from any reachable state enough sweeps leave no expired unfinished attempt and no job waiting below a broken ancestor |
| `Locks.ProgramsAscend` | greyqueue/service.py:173-178 | every transaction blocks only in the order admission lock, worker row, job row, claim index |
| `Locks.NoDeadlock` | greyqueue/api.py:119-127 | no reachable lock table has a cycle of waiting transactions, of any length |
| `Locks.SomeoneCanMove` | greyqueue/recovery.py:19-34 | whenever transactions are active, one of them is not blocked |
| `Exchange.AnsweredClaim` | greyqueue/worker.py:100-117 | an assignment names, in every later state, the one attempt ever created under the request's claim ID |
| `Exchange.AnsweredFinish` | greyqueue/worker.py:83-98 | an acknowledged completion is on record for its token in every later state |
| `Exchange.RefusedFinish` | greyqueue/worker.py:143-150 | a completion answered 404 or 409 after its start was acknowledged is never accepted later, so dropping it loses nothing |
| `WorkerLoop.FirstAnswer` | greyqueue/worker.py:30-33 | everything before the first answer is a transport error, 408, 429 or 5xx, and the answer is none of them |
| `WorkerLoop.ReplyDecides` | greyqueue/api.py:137-147 | which reply ends a post and with which status; only a saturated queue is asked again |
| `WorkerLoop.Post` | greyqueue/worker.py:25-37 | only the first definitive answer decides; the same request goes out once per outcome up to it; waits double from 0.2 up to 3 seconds |
| `WorkerLoop.Finish` | greyqueue/worker.py:83-98 | posts the result, and exactly after a 413 or 422 the bounded failure that names that status |
| `WorkerLoop.Work` | greyqueue/worker.py:112-150 | start, then every renewal that execution leaves time for, then the completion, each exactly when the answer before calls for it; an error ends the turn or the worker |
| `WorkerLoop.Turn` | greyqueue/worker.py:100-157 | a whole turn follows the protocol automaton under its own claim ID |
| `WorkerLoop.Undisturbed` | greyqueue/worker.py:126-143 | with every message answered the work is the start, every renewal, and the result, which is reported |
| `WorkerLoop.SecondCompletion` | greyqueue/worker.py:83-98 | a second completion follows exactly the result, only after a 413 or 422, and is the permanent failure that names it |
| `WorkerLoop.ResultNotDropped` | greyqueue/worker.py:86-97 | a 413 or 422 on the result always leads to the bounded failure |
| `WorkerLoop.WorkKept` | greyqueue/worker.py:83-150 | against any run and any network: a reported completion is on record for good, a refused one is never taken, and work moves on only with one of them or fenced off before |
| `WorkerLoop.TurnKept` | greyqueue/worker.py:100-157 | the attempt assigned to a turn is the only one ever created under its claim ID, and its work keeps those promises |
| `WorkerLoop.TurnsAreDisjoint` | greyqueue/worker.py:101-107 | turns with different claim IDs, of whatever workers, are never assigned the same attempt |
| `WorkerLoop.Consume` | greyqueue/worker.py:100-157 | a slot takes its turns one after the other, each following the protocol, until a crash or a missing answer |

## Left out

- HTTP routing, bearer tokens, middleware, error shapes and the CLI: plumbing; a session is an opaque value compared for equality.
- Task validation, executors and tasks: execution returns an arbitrary payload, and a submission reaches the model after its arguments were validated.
- SHA-256, JSON canonicalisation and JSONB storage: the definition stands for its digest.
- System events, percentiles, averages, throughput and Prometheus text: reporting only; the model keeps the job event log and the counts.
- Migrations, roles, containers, dashboard, benchmarks and scripts: operations.
- `registered_at` and the server-default `created_at` of attempts and events: reporting only; `Attempt.claimedAt` is the reading the claim used.
- Interleaving inside a transaction: each request is atomic, as the row locks make it; `Locks.dfy` treats the locks themselves, with the foreign-key lock on a parent row taken as exclusive and a claim allowed to lock more than one queue row.
- A clock that goes back, and clock readings that commit out of order across transactions on different rows: readings are nondecreasing along a run.
- Overtaking under the priority policies: they may starve low priorities by design.
- Overtaking.OvertakingIsBounded: counts claims that found the job unlocked, and assumes that later admissions sort behind it, since equal admission times are ordered by a random identifier.
- WorkerLoop.Turn: the concurrent renewal and execution tasks of a slot are reduced to how many renewals execution leaves time for; the heartbeat task and shutdown are not modelled, and each turn has its own network.
- Exactly-once external effects and eventual success: the repository disclaims both.
