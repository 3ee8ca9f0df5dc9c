# Job scheduler: a verified model of the job lifecycle

The scheduler keeps its jobs in one Mongo collection and hands them out over Kafka. Scheduler loops
claim due jobs and publish them, executors fetch, claim, run and mark them, a reaper returns stuck
ones to `pending`, and cron templates spawn one-off instances. Each store call is small; what the
system promises comes from how they interleave, from time, and from what a crash leaves behind.

## How it is built

- **The state machine** (`System.dfy`). A state is the clock, the documents with a history of the
  writes they received, every scheduler claim, every delivery with the snapshot it fetched, and the
  dispatch and DLQ topics. A step is one store call, one message, one delivery or a move of the
  clock. Any number of loops, executors and reapers interleave; election is not assumed. A message
  may be delivered any number of times, in any order, or never; a crashed process is one that takes
  no further step. `MarkFailed` is two steps, and the instant a call is stamped with may lie well
  before the instant it reaches the store.
- **The processes** (`Store.dfy`, `Scheduling.dfy`, `Execution.dfy`, `Delivery.dfy`, `Reaping.dfy`,
  `Api.dfy`). The repository's calls, the scheduler loop, the executor, the consumer, the reaper and
  `POST /jobs` as methods that change a shared `Backend` in place. The field `others` is what
  everybody else does before each call, `faults` what becomes of each call: it works, it fails, or
  it takes effect and its reply is lost; a call reports an error of the store exactly when one went
  wrong. `Backend.Valid()` says that the state is where a run of the state machine has led, and
  `Own(me, trace)` picks out of that run the steps of one process. So every method is proved to take exactly the steps its contract lists, from every state and against
  every behaviour of the rest, and every theorem about runs holds of what the methods do
  (`Store.Backend.IsReachable`).
- **Two tiers of theorem.** `MarkRunning`, `MarkCompleted` and `MarkFailed` filter on `_id` only, so
  some promises hold only while no execution outlives its lease. That hypothesis is called [T]
  (`Timing.TimelyFor`): a write of an execution reaches the store less than ClaimTimeout after the
  stamp of its previous one, or never. A theorem about one job asks it of that job's executions only.
  `Pacing.dfy` derives it from the two-minute handler timeout.
  `Safety.dfy`, `Cron.dfy`, `CronWindow.dfy`, `Refiring.dfy`, `Keys.dfy`, `Claiming.dfy`, `Identity.dfy`,
  `Driving.NoJobIsStranded` and `Recovery.BoundedRecovery` do not use it.
- **Documents** (`Documents.dfy`, `Lifecycle.dfy`). The write of each call, and the five-state
  machine, ledger and potential of a one-off job.

Instants are nanoseconds, integers are unbounded, and the cron library is two unknown functions:
whether an expression parses, and its next occurrence after an instant.

## Where the code and its documentation part

- The repository's README says that a job out of attempts gets a Kafka message. Whether to send it
  is judged on the snapshot fetched before the claim, so a job can be dead-lettered in silence
  (`Witnesses.StaleSnapshotLosesDlqMessage`). A message can follow exactly when that snapshot was up
  to date (`Guarantees.DlqMessageIffFreshSnapshot`), and a silence is for good
  (`Guarantees.SilenceIsFinal`).
- `MarkRunning`, `MarkCompleted` and `MarkFailed` are described as transitions of a claimed or
  running job but check nothing. An execution that outlives its sweep reopens a completed job
  (`Witnesses.LateFailureReopensCompletedJob`). A finished job is final exactly when none of its
  executions is still at work (`Witnesses.FinishedIsFinalIff`).
- A cron expression that parses but never occurs again makes the library return the zero time, so
  the template is due at once, again and again
  (`Witnesses.NeverOccurringExpressionFiresAtEveryClaim`). The expressions that fire each occurrence
  once, and that are always rescheduled forward, are exactly those whose next occurrence is later
  than the instant it is searched from (`Witnesses.FiresOnceIff`, `Witnesses.ReschedulesForwardIff`).
- A reschedule that fails is left to the reaper, which recovers the template but fires the same
  occurrence twice (`Witnesses.LostRescheduleFiresTwice`). The sweep is what it takes, and all it
  takes: for an expression that keeps occurring later, a template keeps firing each occurrence once
  until its first sweep, and from that sweep on, whatever it interrupts, some run fires one twice
  (`Refiring.FiresOnceUnlessSwept`).

## Model

| member | source | states |
|---|---|---|
| Guarantees.Refinement | internal/executor/runner.go:42-96 | [T] every step of every run is, on every one-off job the run is timely for, one move of the machine Waiting, InQueue, Executing, Succeeded or DeadLettered, or nothing; messages, deliveries, lost claims, handler starts, reads and time are invisible |
| Guarantees.RefinementStart | internal/store/jobs_repo.go:47-78 | documents enter that machine waiting or queued, with no attempt spent and at least one to spend |
| Lifecycle.ExpectedWriteRefines | internal/store/jobs_repo.go:85-196 | a write that meets the status it expects moves the abstract machine by its own action, including the choice between retry and dead letter |
| Guarantees.ExclusiveExecution | internal/store/jobs_repo.go:118-135 | [T] at most one execution per job can still write; while it can, the document is claimed or running and no execution sweep matches it |
| Timing.WritesAreExpected | internal/store/jobs_repo.go:138-181 | [T] although the calls filter on `_id` only, every write of a one-off job finds the status it is meant for, and a failure finds the attempts it read |
| Timing.LiveIsAlone | internal/store/jobs_repo.go:261-276 | [T] no one else's write, sweeps included, reaches the document of a live execution |
| Timing.TimelyInvStep | internal/store/jobs_repo.go:85-196 | [T] the invariant behind the timed guarantees is kept by every step |
| Guarantees.LedgerConservation | internal/store/jobs_repo.go:85-196 | [T] claim wins = failures + completions + execution sweeps + (executing); entries to queued and to pending balance likewise; stored attempts = failures, at most MaxAttempts and equal to it exactly when dead-lettered; at most 4 * (MaxAttempts + sweeps) transitions |
| Lifecycle.ExpectedWriteBalances | internal/store/jobs_repo.go:158-181 | each expected write keeps the books balanced, so the read-then-write loses no failure |
| Guarantees.ProgressPotential | internal/store/jobs_repo.go:164-177 | [T] the potential 4 * (MaxAttempts - attempts - 1) + rank falls by exactly 1 on each write, to 0 on completion, and rises by 1 to 3 on a sweep |
| Lifecycle.PotentialStep | internal/store/jobs_repo.go:85-196 | the same of one write, and that an unfinished job always has potential left |
| Guarantees.TerminalIsFinal | internal/store/jobs_repo.go:147-181 | [T] a completed or dead-lettered one-off job keeps its whole document and history through every continuation: no write, no claim win, no handler start |
| Guarantees.DlqTopicSound | internal/executor/runner.go:78-96 | [T] a message on the DLQ topic names a one-off job stored as dlq, and is the only one that names it, stale snapshots or not |
| Guarantees.DlqMessageIffFreshSnapshot | internal/executor/runner.go:78-96 | [T] when a failure dead-letters a job no message for it is on the DLQ topic, and some timely continuation puts one there if and only if the snapshot carried the stored attempts |
| Guarantees.SilenceIsFinal | internal/executor/runner.go:90-95 | [T] a dead-lettered job is or can still be announced on the DLQ topic if and only if a message is there or an execution of it is about to send one; otherwise no timely continuation ever adds one |
| Guarantees.AnnouncedIffPublished | internal/executor/runner.go:90-95 | [T] the DLQ topic names a job if and only if an execution of it has published |
| Spacing.SnapshotsAreFresh | cmd/executor/main.go:55-69 | if at every retry of the job the age of the snapshot and the delay of the last failure's write stay together under one second, every claim of it that is won works on the stored attempts |
| Spacing.RetrySpacing | internal/executor/runner.go:78-102 | under the same condition, first failure to dead letter takes at least 2^(n-1)-1 seconds for n <= 10 attempts and 511 + 300 * (n-10) beyond, crashes and sweeps included |
| Spacing.DeadLettersAreAnnounced | internal/executor/runner.go:90-95 | under the same condition every dead-lettering leaves the execution with a DLQ message to send, which puts the job on the topic |
| Backoff.BackoffRange | internal/executor/runner.go:98-102 | backoff is 2^attempt seconds up to the ninth attempt and exactly 300 from the tenth on, and never shrinks |
| Backoff.TotalBackoffClosed | internal/executor/runner.go:98-102 | closed form of the sum of the first n backoffs |
| Pacing.PacedRunsAreTimely | internal/executor/runner.go:60-61 | [T] holds of every job whose executions go from call to call within a third of what ClaimTimeout leaves beyond the two minutes of the handler |
| Pacing.DefaultBudget | internal/config/config.go:38 | that third is just under a minute with the default five minutes, and there is one at all exactly if ClaimTimeout exceeds the handler's two |
| Driving.NoJobIsStranded | internal/store/jobs_repo.go:186-196 | with a positive ClaimTimeout, from every reachable state, timely or not, every unfinished one-off job has a schedule of real, timely steps to completed or dlq, against every behaviour of its handler |
| Driving.DrivenForGood | internal/store/jobs_repo.go:147-181 | [T] from a state reached in time for the job the same schedule ends it for good: no timely continuation writes it again |
| Driving.DrivePending | internal/executor/runner.go:42-96 | from pending, rounds of claim, publish, deliver and run end at the first attempt that succeeds or at MaxAttempts |
| Driving.BackToPending | cmd/reaper/main.go:39-61 | waiting and one sweep return any queued, claimed or running job to pending |
| Driving.BecomeHead | internal/store/jobs_repo.go:89-101 | claiming what is ahead of it brings any due job to the head of the claim order and leaves it untouched |
| Recovery.BoundedRecovery | cmd/reaper/main.go:39-61 | if every stretch of length S contains a full reaper pass, no job stays queued S past updatedAt + QueuedTimeout, nor claimed or running S past updatedAt + ClaimTimeout, or S past the landing of its last write if that is later |
| Recovery.SweptIffOverdue | internal/store/jobs_repo.go:261-270 | a sweep step writes a document if and only if it is queued (claimed or running, for the execution sweep) and was last updated at least the timeout before the sweep's instant; it only returns it to pending: nothing is swept early |
| Recovery.SweptIsDueAtOnce | internal/store/jobs_repo.go:261-276 | [T] a job the reaper returns to pending is due, so it can be claimed at once |
| Cron.TemplatesNeverExecute | internal/scheduler/loop.go:69-75 | in every reachable state a template is pending, queued or dlq with no attempt, no message, snapshot or execution names one, and no spawned instance is one |
| Cron.DeadLetterIsForever | internal/store/jobs_repo.go:244-259 | a dead-lettered template stays so in every continuation, however many loops still hold a claim of it |
| Cron.ApiTemplatesNeverDie | internal/api/handlers/jobs.go:41-47 | if every template came through the API, none is ever dead-lettered |
| Cron.FiringLedger | internal/scheduler/loop.go:88-106 | spawned instances = firings <= claims <= reschedules + dead-letterings + sweeps + (queued), for any number of loops: no claim fires twice, and each further firing is paid for by a reschedule, a dead-lettering or a sweep |
| CronWindow.RescheduleMovesForward | internal/scheduler/loop.go:96-106 | each reschedule of a never swept template whose expression keeps occurring moves it strictly past the instant it was searched from |
| CronWindow.FiringsInWindow | internal/scheduler/loop.go:88-106 | from any state in which, claims of crashed loops aside, at most one claim of the template is in flight and none while it is pending, as long as it is not swept: each firing is of a later occurrence than the one before, and in any window it fires at most once more than its expression occurs there |
| CronWindow.UnsweptFiringsInWindow | internal/scheduler/loop.go:88-106 | the same window bound over the whole life of a template that was never swept |
| CronWindow.OccurrencesFireOnce | internal/scheduler/loop.go:88-106 | a template that was never swept fires its occurrences in order and none of them twice |
| CronWindow.SweepRefiresIff | internal/store/jobs_repo.go:190-196 | the first sweep of a template makes it due at an occurrence that has already fired if and only if the claim it interrupts is no longer in a batch but has spawned its instance |
| Refiring.FiresOnceUnlessSwept | internal/store/jobs_repo.go:190-196 | a never swept template whose expression keeps occurring later fires no occurrence twice after a step, in any continuation without another sweep of it, if and only if that step is not its first sweep |
| Refiring.FirstSweepLetsOneFireTwice | internal/scheduler/loop.go:88-111 | after the first sweep of any template, whatever claim it interrupts, real and timely steps without another sweep fire one occurrence twice |
| Keys.InstanceKeyParsesBack | internal/store/jobs_repo.go:207 | a string parses to (key, instant) if and only if it is the instance key of that pair, for all strings and non-negative instants |
| Keys.InstanceKeysCollideOnlyTogether | internal/store/jobs_repo.go:207 | equal instance keys mean equal template key and equal nanosecond |
| Keys.KeysStayDistinct | internal/store/jobs_repo.go:34-37 | in every reachable state all idempotency keys differ, and two instances of one template differ in the nanosecond they were created |
| Keys.SpawnCollision | internal/store/jobs_repo.go:219-222 | a spawn refused because of another instance is of the same template at the same nanosecond |
| Identity.RunsAsAsked | internal/store/jobs_repo.go:54-67 | however the run goes on, a created document and the snapshot of every delivery of it carry the tenant, job type, payload, priority and attempts of the request |
| Identity.InstancesDoTheirTemplatesWork | internal/store/jobs_repo.go:206-218 | in every reachable state an instance, and the snapshot of every delivery of it, carries its template's tenant, job type and payload, with its priority and attempts and no cron |
| Identity.HistoryCounts | internal/store/jobs_repo.go:85-276 | each counter in a document's history counts the steps of one kind that wrote it, and the instants of its failures are the stamps of the failing steps |
| Safety.InvStep | internal/store/jobs_repo.go:47-276 | with no timing assumption every step keeps: templates in order, claims, messages and deliveries of the right kind of document, distinct keys |
| Safety.TemplateWrites | internal/store/jobs_repo.go:85-259 | only claims, reschedules, dead-letterings and queued sweeps ever write a template, each only when its guard holds |
| Claiming.ConcurrentClaims | internal/store/jobs_repo.go:80-114 | however the calls of any number of callers interleave, with each other and with anything that writes no document, each list is of due documents in claim order, nothing due left that goes before one of them, and no document is in two lists or twice in one |
| Claiming.ListsAreBestFirst | internal/store/jobs_repo.go:101 | in terms of priority and scheduledAt alone: each caller's list has the highest priority first and the earliest due first within a priority, and no pending due document left goes before one in it |
| Claiming.TopIsBest | internal/store/jobs_repo.go:89-101 | what findOneAndUpdate may pick is exactly a pending due document of the highest priority, and of the earliest scheduledAt at that priority |
| Claiming.ConcurrentDrain | internal/store/jobs_repo.go:80-114 | on a common cutoff, once all callers have stopped and their limits cover the pool, exactly the due documents have been returned |
| Claiming.PlayIsARun | internal/store/jobs_repo.go:80-114 | what the callers do, with time, messages and deliveries in between, is a run of the whole system, every step of it really taken |
| Witnesses.LateFailureReopensCompletedJob | internal/store/jobs_repo.go:158-181 | without [T], for all timeouts: a run in which a late failure returns a completed job to pending |
| Witnesses.FinishedIsFinalIff | internal/store/jobs_repo.go:138-181 | with no timing assumption, a finished one-off job is never written again in any continuation if and only if no execution of it is between winning its claim and its last write |
| Witnesses.FinishedJobWrittenIff | internal/store/jobs_repo.go:138-181 | with no timing assumption, the steps that write a finished one-off job are exactly the starts, finishes and failures of its own executions |
| Witnesses.StaleSnapshotLosesDlqMessage | internal/executor/runner.go:78-96 | a timely run that dead-letters a job with no DLQ message, after which no timely continuation sends one |
| Witnesses.NeverOccurringExpressionFiresAtEveryClaim | internal/scheduler/cron.go:19-25 | for every expression that parses and never occurs, and every n, a run with n firings within n nanoseconds, no sweep and no occurrence of the expression |
| Witnesses.FiresOnceIff | internal/scheduler/cron.go:19-25 | every never swept template with the expression fires each occurrence once and in order if and only if the next occurrence is always later than the instant it is searched from |
| Witnesses.ReschedulesForwardIff | internal/scheduler/loop.go:96-106 | every reschedule of a never swept template with the expression moves it past the instant of the search under exactly the same condition |
| Witnesses.LostRescheduleFiresTwice | internal/scheduler/loop.go:106-111 | for every expression that parses, a reschedule that fails and the sweep that recovers it fire the same occurrence twice |
| Store.Backend.constructor | internal/store/jobs_repo.go:23-25 | an empty store, at the start of a run |
| Store.Backend.IsReachable | internal/store/jobs_repo.go:47-276 | whatever calls have been made, the state is a reachable one, and a timely one for each job whose steps were |
| Store.Backend.Create | internal/store/jobs_repo.go:45-78 | one insert of a pending document with the request's fields, 3 attempts where it asks for none, and the instant of the call, under a key nobody had; refused only when the key is taken, and exactly then when undisturbed |
| Store.Backend.FindTop | internal/store/jobs_repo.go:89-101 | a pending document due by the cutoff with no higher priority among those, and none earlier due at its priority; none only if none is pending and due |
| Store.Backend.ClaimDueJobs | internal/store/jobs_repo.go:80-114 | at most `limit` fresh claims, returned with the error if one occurs; each is of the best document due at the step that claims it, whatever others do meanwhile, and the call returns short only when nothing is pending and due any more; undisturbed, a top-k selection, highest priority first and earliest due first within a priority, that leaves every other document unchanged |
| Store.Backend.MarkClaimed | internal/store/jobs_repo.go:116-135 | wins exactly if the job is queued when the call lands, else NotFound; no other step of its own |
| Store.Backend.MarkRunning | internal/store/jobs_repo.go:137-144 | one start step stamped when the call was made, whatever the status; or nothing, on error |
| Store.Backend.MarkCompleted | internal/store/jobs_repo.go:146-153 | one finish step, whatever the status; or nothing, on error |
| Store.Backend.MarkFailed | internal/store/jobs_repo.go:155-181 | a read and then a write computed from it, with the rest of the system in between; retry at stamp + backoff or dead letter; undisturbed, one attempt more and dlq exactly at MaxAttempts |
| Store.Backend.SweepByStatus | internal/store/jobs_repo.go:261-276 | unless it fails, visits every document there was at its start, in order, while others run, and returns on how many its filter matched; undisturbed, returns exactly the documents in its statuses updated no later than its start less the timeout to pending, counts them and leaves the rest |
| Store.Backend.SpawnCronInstance | internal/store/jobs_repo.go:198-225 | one queued instance with its template's tenant, job type, payload, priority and attempts, due at once, keyed by template and nanosecond, or an error; a duplicate key means the key was taken |
| Store.Backend.RescheduleCronTemplate | internal/store/jobs_repo.go:227-242 | the template pending at the given occurrence, or the loop going on without it after an error |
| Store.Backend.MarkCronInvalid | internal/store/jobs_repo.go:244-259 | the template dead-lettered with its reason, or nothing, on error |
| Store.Backend.GetByID | internal/store/jobs_repo.go:278-289 | the document as stored, for any id; fetched for a message it becomes the snapshot of a fresh delivery that has taken no step; NotFound only for an id not stored |
| Store.Backend.PublishDispatch | cmd/scheduler/main.go:47-60 | the job named by the claim is on the dispatch topic, or an error is returned; undisturbed, no document changes, so the job stays queued |
| Store.Backend.PublishDLQ | internal/dispatch/producer.go:64-72 | one message naming the job, or nothing, on error |
| Execution.Runner.Execute | internal/executor/runner.go:50-76 | its own steps form a course cut short only by an error and complete when no call fails: it loses, or wins in its worker's name, starts, and ends as the registry, the handler and the snapshot decide |
| Execution.Runner.RunHandler | internal/executor/runner.go:54-75 | a type without a handler fails with the registry's error and is never finished; else the handler's outcome decides between a finish and a failure with its error; a DLQ message only on the snapshot's last attempt |
| Execution.Runner.Fail | internal/executor/runner.go:78-96 | the failure is written with the backoff of the snapshot, then announced exactly if the snapshot was on its last attempt and a producer is set |
| Scheduling.Loop.HandleCronJob | internal/scheduler/loop.go:82-115 | spawn, then reschedule or dead-letter by whether the expression parses, cut short only by an error; a dispatch is started exactly if the reschedule call returned |
| Scheduling.Loop.RunOnce | internal/scheduler/loop.go:53-80 | on an error the batch is dropped untouched; else one dispatch is started, in batch order, for each one-off job and each template fired, and for nothing else; without errors what is left are invalid templates, dead-lettered, and templates whose instance key was taken; undisturbed, the batch is a top-k selection of what was due at its start |
| Reaping.Reaper.Pass | cmd/reaper/main.go:39-61 | each sweep that does not fail visits every document there was, whatever becomes of the other; if neither fails the tick is a full pass, the execution sweep over before the queued one begins |
| Delivery.Consumer.Handle | cmd/executor/main.go:55-69 | a message that names a job starts one new delivery of it unless the fetch fails, which runs a course in the worker's name, decided by registry and handler, and is never of a template; anything else takes no step |
| Delivery.Consumer.Round | internal/dispatch/consumer.go:45-84 | the records fetched are handled in order, each by a delivery of its own that ends as the registry and the outcome of its handler decide, before the offset is committed; a process that dies commits nothing, so no record before the committed offset is ever unhandled |
| Delivery.Consumer.TakeOver | internal/dispatch/consumer.go:45-50 | the next consumer begins at the committed offset and the at-least-once invariant holds again |
| Api.JobsHandler.CreateJob | internal/api/handlers/jobs.go:25-64 | bad request exactly for a missing field, an expression that does not parse, or no due time; conflict only if the key is taken, and exactly then when undisturbed; else stored pending with the request's fields, at its due time or first occurrence, under a key nobody had |

## Left out

- Recovery.BoundedRecovery: a write that was slow to reach the store counts from when it landed, because the sweep cannot see it earlier.
- Store.Backend.ClaimDueJobs: how concurrent callers share the pool is stated by Claiming.ConcurrentClaims on their claim steps, not in this contract.
- Store.Backend.MarkFailed: takes the backoff its only caller computes from the snapshot, not an arbitrary duration.
- Store.Backend.SweepByStatus: documents inserted during a sweep are not visited.
- Pacing.PacedRunsAreTimely: one direction only; a run can be timely without keeping any such pace.
- Two clock readings with no store call between them give the same instant in the methods; the state machine allows the later one to be later.
- Scheduling.Loop.RunOnce: it only reports which dispatch goroutines it starts; each is a later call of Store.Backend.PublishDispatch, at any moment and in any order.
- Leader election: any number of loops may be active, so nothing rests on it.
- The cron grammar and the search for the next occurrence, which belong to a library; both are unknown functions.
- The Mongo driver and BSON: stored instants are truncated to milliseconds there, so spacing bounds hold up to a millisecond per stored instant.
- Kafka beyond a set of published messages that can be delivered any number of times, and one partition with a committed offset.
- Document ids are positions in insertion order; an id is fresh because documents are never removed.
- The payload is an opaque string, and the text of a cron parse error is not the library's.
- Clock skew: one monotone clock, with stamps that may be older than the call's arrival.
- HTTP, JSON decoding, status codes, GetJob, ListJobs, configuration loading, metrics and logging.
- The registry's locking, the demo handlers, cmd/seed and cmd/loadtest; a handler succeeds, fails or is cut off by the death of its process.
- PublishRetry, StatusFailed (in the datatype, never written) and ExecutionRecord, which the code does not use.
- Election loss and shutdown by context: a stopped process is one that takes no further step.
