# DispatchGo: verified job lifecycle, delivery, scheduling and migration

A Dafny model of DispatchGo, a job queue that keeps every job as a row in
Postgres and passes only job ids through Redis. Correctness there is spread over
sequences that are not atomic: a worker claims a row, runs a handler and writes
an outcome with no status guard; producers commit first and push afterwards;
cancels and crashes fall in between. The project states what the whole system
guarantees over every interleaving and proves it.

`dafny verify dfyconfig.toml` checks everything.

## How it is built

- `Jobs.dfy` has the rows of `jobs` and `dead_letter_queue` and each SQL statement
  as a function on database values. `Store.dfy` is the store as an object whose
  methods update its tables statement by statement, proved to be those functions;
  `Paging.dfy` is the order and the pages of its listing.
- `Redis.dfy` and `Queue.dfy` do the same for a queue's list and delayed set,
  with the promotion script as the loop it is.
- `Lifecycle.dfy` is the specification of one job, with every column of its row: a
  small machine in which every move is guarded, and theorems about all its
  histories.
- `Protocol.dfy` is the system: any number of activities (one worker run, one
  submit, one retry or cancel request), each a process with a program counter and
  what it remembers, stepping one statement at a time in any order over an
  **arbitrary Redis** that may hand any id to any worker at any time. An activity
  may be abandoned anywhere. That stands for a crash and also for a call that
  returned an error: before its step if it had no effect, after it if it had.
  A write that lands late is its activity stepping late. Every run projects, job
  by job, onto the machine of `Lifecycle.dfy`; the run bound, the dead-letter
  ledger, cancellation and the counters (`Counters.dfy`) follow.
- `Delivery.dfy` adds a **faithful Redis** (each command takes effect at most
  once) and counts, for every id, its carriers: list entries, delayed members,
  ids in hand, and pushes a committed write still owes. `Fifo.dfy` and
  `Timing.dfy` are about the same runs. It is proved to be a special case of the
  arbitrary Redis, so everything in `Protocol.dfy` holds there too. `Recovery.dfy`
  settles which unfinished jobs can still be finished.
- `Alone.dfy` has the worker's and handlers' code as straight-line methods on the
  store and queue objects, each proved to be its process of the protocol run
  without interleaving, with its own clock reading at each statement and any call
  to Postgres or Redis failing. This is what ties the steps to the code.
- `Tenancy.dfy` is tenant isolation as noninterference of request streams;
  `Isolation.dfy` is the same over whole runs of the protocol, workers included.
- `Scheduler.dfy` is the compare-and-swap protocol of any number of schedulers;
  `SchedulerPass.dfy` is one pass as code.
- `Migrate.dfy` is the migration runner, concurrent and as code.

## Results that differ from the repository's comments

- The comments call a row left by a crash "recoverable". No code recovers it, and
  `Recovery` has the exact condition. A pending job can still run if and only if
  its id has a carrier (`PendingRunsIffCarried`); a processing job can still leave
  that status if and only if the activity that claimed it is still there
  (`ProcessingEndsIffCarried`, and `Protocol.ProcessingEndsIffOwned` whatever Redis
  does). Put together (`FinishableIffRecoverable`): some continuation, indeed one
  without crashes and with an ordinary clock, completes the job if and only if it
  is completed or dead-lettered, or is pending or processing with a carrier. Both
  failures happen, for every submission: `Recovery.CrashStrands`,
  `Recovery.CrashOrphans`.
- "At most once" for a schedule rests on the cron library answering with a future
  instant whenever that schedule is claimed. The claims about one schedule ask this
  of that schedule's claims only, a test `nextRunAt > now` that the code could make
  between cmd/scheduler/main.go:149 and :151; an expression that parses but has no
  activation is where it may fail. `Scheduler.AtMostOnceIffAdvances` shows, for
  each expression and any library, that firing at most once per cursor value in
  every run is equivalent to the library always answering that expression with a
  future instant.
- A listing orders by created_at alone, so consecutive pages may repeat one row and
  skip another. `Paging.PagesExactIffCleanCut` has the exact condition.
- `max_retries` is not validated, so zero and negative values occur; a job then
  still gets one attempt. Bounds are stated with `Budget(m)`, the larger of 1 and m.

## Model

| member | source | states |
|---|---|---|
| `Lifecycle.Accounting` | cmd/worker/main.go:213-239 | in every valid history of a job, claims = resets x budget + the claims its counter shows for the present cycle; burials = resets + 1 if dead, else resets; the counter is below the budget unless dead, and equal to it if dead |
| `Lifecycle.ClaimBound` | cmd/worker/main.go:213-239 | at most budget claims per submission or reset |
| `Lifecycle.Absorbing` | internal/store/list.go:160-187 | a completed or cancelled job never moves again |
| `Lifecycle.IdentityFixed` | internal/store/store.go:65-73 | tenant, queue, job type, payload and budget never change |
| `Lifecycle.ColumnsTellHistory` | internal/store/store.go:62-175 | every column follows from the history: the submission gives what the job is, the last move its status, and the moves since the last reset its count, error, result, start and end |
| `Protocol.StepKeepsInv` | internal/store/store.go:104-175 | each statement of each activity, crashes included, keeps: snapshots equal their rows, owners are exclusive, rows and dead-letter rows consistent |
| `Protocol.Reachable` | internal/store/store.go:104-175 | the ownership invariant holds in every state of every run over an arbitrary Redis |
| `Protocol.UnguardedWritesAreSafe` | internal/store/store.go:119-175 | whenever an outcome write without a status guard is due, its row is processing, equals the writer's snapshot and has no other owner |
| `Protocol.RowsStayConsistent` | internal/store/store.go:104-175 | result, error, counter and timestamps of every reachable row agree with its status |
| `Protocol.FailuresAreRecorded` | cmd/worker/main.go:213-239 | on a reachable failure the attempt number is between 1 and the budget and fits its column, and the job is dead-lettered exactly when attempts reach max_retries, else requeued with the backoff of that attempt |
| `Protocol.Refinement` | cmd/worker/main.go:163-239 | every run, seen from one job, is a valid history of the guarded machine, and the row is in every column the state that history leads to |
| `Protocol.RunBound` | cmd/worker/main.go:163-239 | the row's counter accounts for every claim ever made, and claims never exceed (1 + resets) x budget |
| `Protocol.DeadLetterAgreement` | internal/store/store.go:144-175 | a dead-letter row exists exactly for failed jobs, with the job's tenant, attempts and reason, and dead-letterings less retries is 1 if failed, else 0 |
| `Protocol.TerminalRowsFrozen` | internal/store/list.go:160-187 | completed and cancelled rows never change in any field |
| `Protocol.CancellationSticks` | internal/store/list.go:160-187 | once a cancel has committed no activity owns the job, none ever claims it again, and the row is final, whatever Redis delivers |
| `Protocol.RemoveOnlyNamesCancelled` | internal/handlers/jobs.go:188-191 | the Redis clean-up only ever names a cancelled job |
| `Protocol.SubmissionFixed` | internal/store/store.go:62-73 | tenant, queue, job type, payload and max_retries of a row are those of its submission, in every continuation |
| `Protocol.RowTellsHistory` | internal/store/store.go:62-175 | in every run, each column of a row read off what happened to the job: error is the last failure message since the last reset unless completed, startedAt the last claim, and so on |
| `Protocol.ClaimSeesTheRow` | internal/store/store.go:104-117 | a claim of a pending row changes its status and start and nothing else, and the claimant holds exactly that row; any other claim changes nothing |
| `Protocol.OutcomeRecorded` | cmd/worker/main.go:184-239 | whatever happens between a handler's answer and its record, the row becomes the claimed row with that answer in it, field for field, and a last failure has the dead-letter row with its message and count |
| `Protocol.OrphansStayProcessing` | cmd/worker/main.go:163-201 | a processing row without an owner stays exactly as it is forever |
| `Protocol.ProcessingEndsIffOwned` | cmd/worker/main.go:163-201 | over an arbitrary Redis, a processing row can leave that status if and only if some activity still owns it |
| `Counters.CountersReconcile` | cmd/worker/main.go:190-226 | counted + lost to a crash + about to be counted = completed rows, and likewise = failed rows + successful retries |
| `Counters.CountersExactWithoutCrashes` | cmd/worker/main.go:190-226 | without crashes or errors, and with nobody on the way to a counter, both counters are exact |
| `Delivery.Projects` | internal/queue/queue.go:1-6 | a run over a faithful Redis is a run over the arbitrary one |
| `Delivery.CarriersBalance` | internal/queue/queue.go:46-151 | each step changes the number of carriers of an id by exactly what it made (submission, reset) less what it used up (finished, refused, cleaned up, crashed) |
| `Delivery.AtMostOneCarrier` | internal/queue/queue.go:100-118 | in every run no id has two carriers, and missing, completed and failed jobs have none |
| `Delivery.NoDanglingIds` | internal/enqueue/enqueue.go:53-81 | every id in a queue or a hand names an existing job, and of that queue |
| `Delivery.ExactlyOneCarrier` | cmd/worker/main.go:230-235 | without crashes or errors every pending or processing job has exactly one carrier |
| `Delivery.StrandedNeverRuns` | internal/handlers/jobs.go:156-161 | a pending job without a carrier is never claimed in any continuation |
| `Recovery.CrashStrands` | internal/enqueue/enqueue.go:74-79 | a crash between insert and push leaves such a job |
| `Recovery.PendingRunsIffCarried` | internal/enqueue/enqueue.go:28-32 | some continuation claims a pending job if and only if its id has a carrier |
| `Recovery.OwnedIffCarried` | cmd/worker/main.go:163-201 | while a job is processing it has a carrier exactly when its claimant is still there, and none exactly when it is orphaned |
| `Recovery.ProcessingEndsIffCarried` | cmd/worker/main.go:163-201 | some continuation moves a processing job on if and only if it has a carrier |
| `Recovery.FinishableIffRecoverable` | cmd/worker/main.go:210-212 | from any clock reading some crash-free continuation with a forward clock completes the job if and only if it is completed, dead-lettered, or unfinished with a carrier; otherwise no continuation at all does |
| `Recovery.CancellableIff` | internal/handlers/jobs.go:166-193 | some continuation cancels the job if and only if it is neither completed nor processing with its handler already returned or its claimant gone; a pending job always can be |
| `Recovery.CrashOrphans` | cmd/worker/main.go:174-195 | any submission, popped and claimed by a worker that then crashes, is orphaned |
| `Fifo.FirstInFirstOut` | internal/queue/queue.go:46-74 | for each queue of any run, popped ids then the list in pop order = everything that entered, in order, less what a cancel removed |
| `Timing.RetryChain` | cmd/worker/main.go:228-239 | with one non-decreasing clock, while attempt n+1 is held more than ChainSeconds(n) - 1 seconds have passed since the first failure was recorded |
| `Timing.PromotionOnTime` | internal/queue/queue.go:111-129 | promotion never lists an id before its due second |
| `Timing.DueExactly` | cmd/worker/main.go:228-235 | in every run a delayed id, or one on its way to the set, is due at exactly the second its worker read when parking it plus min(2^attempt, 3600) |
| `Timing.PromotedExactlyWhenDue` | internal/queue/queue.go:111-129 | a promotion takes a retry only from that second on, and from then on always, unless its limit went to ids due no later |
| `Backoff.BackoffFor` | cmd/worker/main.go:241-251 | the delay is min(2^attempt, 3600) whole seconds of 10^9 nanoseconds |
| `Backoff.BackoffNeverOverflows` | cmd/worker/main.go:243-251 | below 30 attempts neither the shift nor the product wraps an int64 |
| `Backoff.BackoffMonotone` | cmd/worker/main.go:243-251 | a later attempt never waits less |
| `Backoff.ChainClosedForm` | cmd/worker/main.go:243-251 | the summed delays are 2^(n+1) - 2 up to n = 11 and 4094 + 3600(n - 11) from there |
| `Redis.FirstReady` | internal/queue/queue.go:54-74 | a blocking pop takes from a watched queue that has work, and from none only if all are empty |
| `Redis.FirstReadyIsFirst` | internal/queue/queue.go:54-74 | and every queue watched before that one is empty |
| `Redis.PromotePopOrder` | internal/queue/queue.go:111-118 | promoted ids pop after what was listed, in the order of the range |
| `Redis.RangeIsDue` | internal/queue/queue.go:111-118 | exactly min(limit, number due) ids are promoted, all due, none twice |
| `Redis.RangeIsLeast` | internal/queue/queue.go:111-118 | each promoted id has the least score, then the least member, of the due ids not taken before it |
| `Redis.RangeInScoreOrder` | internal/queue/queue.go:111-118 | the range is in ascending order of score, then member; every id in it is due and comes before every due id outside; and a due id is left out only when the limit is used up |
| `Redis.PromoteLeaves` | internal/queue/queue.go:111-118 | what is not promoted stays, with its score |
| `Redis.PromoteConserves` | internal/queue/queue.go:111-118 | promotion changes no id's number of occurrences over list and set |
| `Redis.PromoteTwice` | internal/queue/queue.go:120-129 | limits a and b at one instant = one promotion with limit a + b |
| `Redis.WithoutCounts` | internal/queue/queue.go:143-151 | LREM removes every occurrence of one id and no other |
| `Queue.WorkQueue.Enqueue` | internal/queue/queue.go:47-52 | prepends to that queue's list and changes nothing else |
| `Queue.WorkQueue.Dequeue` | internal/queue/queue.go:62-74 | takes the last entry of the first ready queue; on timeout nothing changed and all watched lists are empty |
| `Queue.WorkQueue.EnqueueDelayed` | internal/queue/queue.go:92-98 | the id is due at the whole second of runAt |
| `Queue.WorkQueue.PromoteDue` | internal/queue/queue.go:111-129 | the script's read-then-loop is promotion one at a time, and its count is the number moved |
| `Queue.WorkQueue.Remove` | internal/queue/queue.go:143-151 | the id leaves the list and then the delayed set of that queue; a failed LREM leaves both alone, a failed ZREM the set |
| `Queue.PollTick` | cmd/worker/main.go:133-157 | each queue is promoted with 100 times the number of its mentions as limit, and a queue not named is untouched |
| `Queue.EachMentionPromotes` | cmd/worker/main.go:142-143 | the tick as a function, for any limit: k mentions of a queue are one promotion with k times the limit |
| `Queue.UnnamedUntouched` | cmd/worker/main.go:142-143 | a queue that is not named is left as it was |
| `Queue.PollTickConserves` | cmd/worker/main.go:133-157 | a tick loses and duplicates no id of any queue |
| `Stores.Store.CreateJob` | internal/store/store.go:65-73 | the row has the fields handed in, count 0 and nothing else; a taken id or a max_retries outside 32 bits is refused and changes nothing |
| `Stores.Store.GetJob` | internal/store/store.go:80-90 | the stored row itself, or not found for a missing job and for another tenant's |
| `Stores.Store.ClaimJob` | internal/store/store.go:104-117 | pending to processing with its start, all else kept, or nothing |
| `Stores.Store.MarkCompleted` | internal/store/store.go:121-128 | status, result, end and a cleared error, all else kept; no guard |
| `Stores.Store.MarkForRetry` | internal/store/store.go:135-142 | status, count and message, all else kept; no guard |
| `Stores.Store.DeadLetter` | internal/store/store.go:148-175 | row and dead-letter row in one commit with the same message and count; a conflict keeps the stored tenant |
| `Stores.Store.RetryJob` | internal/store/list.go:121-158 | not found exactly for a missing job or another tenant's, not retryable exactly for a job that is not failed, else reset and cleared in one commit |
| `Stores.Store.CancelJob` | internal/store/list.go:167-187 | not found exactly for a missing job or another tenant's, not cancellable exactly for a job that is not pending, else cancelled |
| `Stores.Store.JobExists` | internal/store/list.go:192-199 | whether the tenant has such a job |
| `Stores.Store.ListJobs` | internal/store/list.go:29-72 | the number of the tenant's rows with the requested queue and status, and a page of them: the stored rows, each once, newest first, cut by limit and offset |
| `Paging.PagesExactIffCleanCut` | internal/store/list.go:55-57 | reading on from a page boundary shows every matching row exactly once, however each query orders its ties, if and only if no tie in created_at lies across the boundary |
| `Enqueue.WithDefaults` | internal/enqueue/enqueue.go:83-100 | each of id, queue, payload and status is kept when set and filled when not, independently; tenant, job type and max_retries are kept |
| `Enqueue.JobRecord.ApplyDefaults` | internal/enqueue/enqueue.go:87-100 | the same on the record, field by field |
| `Enqueue.Submit` | internal/enqueue/enqueue.go:53-81 | a tenantless job touches nothing, a refused or failed insert pushes nothing, a stored job is pushed on its queue; when that push fails the row is there, the queues are unchanged, and the error says so |
| `Alone.SoloIsProtocol` | cmd/worker/main.go:163-239 | an activity run alone, at any clock readings and with any of its calls failing, does in the protocol what it does by itself, and ends |
| `Alone.HandleFailure` | cmd/worker/main.go:213-239 | the code is its process from a failed dispatch on; a retry leaves the job pending with the message and due at the second read plus the delay of this attempt, a last failure leaves it dead-lettered, and only that is counted |
| `Alone.Process` | cmd/worker/main.go:163-201 | the code is its process from a popped id on; the final row, dead-letter row and queue are stated field by field for each answer and each failing call |
| `Alone.ConsumeOnce` | cmd/worker/main.go:105-129 | one turn pops as BRPOP does and processes what it got, or changes nothing, also when the pop fails |
| `Alone.EnqueueJob` | internal/handlers/jobs.go:62-108 | the handler is its submit process; 202 exactly when stored and pushed, with the row as requested and its id first on the requested queue and no other queue changed; 400 without a job type; 500 otherwise, the row being there exactly when only the push failed |
| `Alone.RetryJob` | internal/handlers/jobs.go:134-163 | the handler is its reset process; 404 for a missing job or another tenant's, 409 for one that is not failed, 200 with the row reset and its id first on its queue, 500 when the reset or the push fails |
| `Alone.CancelJob` | internal/handlers/jobs.go:166-193 | the handler is its cancel process; 404 for a missing job or another tenant's, 409 for one that is not pending, 200 with the row cancelled, whether or not the Redis clean-up succeeds |
| `Alone.GetJob` | internal/handlers/jobs.go:111-131 | 200 with the stored row, 404 for a missing job or another tenant's |
| `Alone.ListJobs` | internal/handlers/jobs.go:32-59 | 400 for a limit outside 1 to 100, a negative offset or a queue name over 100 characters, else the page and the count of the matching rows |
| `Tenancy.ServeTouchesOnlyItsTenant` | internal/store/list.go:110-187 | a tenant's call changes no job or dead-letter row of another, although later statements key on the id alone |
| `Tenancy.ServeConsistent` | internal/store/list.go:110-199 | databases agreeing on a tenant's rows answer its call alike and still agree |
| `Tenancy.Noninterference` | internal/store/list.go:110-199 | deleting all other tenants' requests and replacing their rows changes no answer a tenant gets and nothing in its rows |
| `Tenancy.IsolationInEveryRun` | internal/store/list.go:110-199 | the same between any two reachable systems |
| `Isolation.RunIsolation` | internal/store/store.go:92-175 | deleting from any run every activity of the other tenants, requests and job handling alike, leaves a run whose database is at every point exactly the tenant's rows and dead-letter rows, generated ids not clashing |
| `Isolation.AnsweredAsIfAlone` | internal/store/list.go:110-199 | so at every point of every run a tenant's request is answered as if it were alone |
| `Tenancy.EnqueueRevealsOnlyIdClash` | internal/store/store.go:62-73 | an enqueue is answered alike exactly when its id is taken in both databases or in neither |
| `Scheduler.BooksBalance` | cmd/scheduler/main.go:132-184 | whatever the cron library answers, in every run of any number of schedulers, operators and crashes: scanned rows keep their tenant, each claim used the library's answer, and claims, hands and jobs correspond |
| `Scheduler.AtMostOneJobPerClaim` | cmd/scheduler/main.go:158-184 | with no assumption, each job a scheduler creates answers one won claim, is the only job of that claim, and its row is made from that schedule's tenant, job type and payload |
| `Scheduler.ClaimDeliversIffHeld` | cmd/scheduler/main.go:113-121 | a won claim without a job can still get one if and only if the scheduler that won it still holds it, for a schedule with an owner |
| `Scheduler.CrashMissesTheRun` | cmd/scheduler/main.go:113-121 | a crash between claim and enqueue misses that run in every continuation: at most once, not at least once |
| `Scheduler.OffMeansOff` | internal/store/schedules.go:55-83 | once a schedule is switched off no scheduler claims it, not even from an earlier scan, until it is switched on |
| `Scheduler.EditTakesEffect` | cmd/scheduler/main.go:133-135 | an edited expression is the one in the table, hence in every later scan, until the next edit |
| `Scheduler.Reachable` | cmd/scheduler/main.go:132-184 | the cursor invariant of one schedule holds in every run in which that schedule's claims were answered with future instants |
| `Scheduler.CursorStrictlyIncreases` | internal/store/schedules.go:55-83 | for such a schedule, each won claim moves the cursor strictly forward and starts no earlier than the one before ended |
| `Scheduler.NoAba` | internal/store/schedules.go:55-83 | for such a schedule, a scheduler whose scan is older than another's claim loses |
| `Scheduler.AtMostOneJobPerCursor` | cmd/scheduler/main.go:158-184 | for such a schedule, no cursor value gets two jobs |
| `Scheduler.AtMostOnceIffAdvances` | cmd/scheduler/main.go:145-151 | schedules carrying an expression never have a cursor value claimed twice, in any run, if and only if the library always answers that expression with a future instant |
| `Scheduler.CatchUpCollapses` | cmd/scheduler/main.go:145-151 | the claims a schedule wins in a window number at most one plus the activations there of the expressions it was claimed with, @every shorthands included |
| `SchedulerPass.ScheduleStore.DueSchedules` | internal/store/schedules.go:29-53 | all due enabled schedules, each once, most overdue first |
| `SchedulerPass.ScheduleStore.ClaimScheduleRun` | internal/store/schedules.go:73-83 | the cursor moves, and the caller wins, exactly when enabled and unmoved |
| `SchedulerPass.FireSchedule` | cmd/scheduler/main.go:132-184 | the cursor moves exactly when the expression parses and the row is enabled and unmoved; then a job from the schedule's template is stored and is first on the default queue; without the claim there is no job |
| `SchedulerPass.HandleSchedules` | cmd/scheduler/main.go:87-102 | an undisturbed pass advances and fires exactly the enabled schedules whose cursor has come and whose expression parses, each once, and changes no other schedule, job or queue (`PassDone`) |
| `SchedulerPass.OneJobEach` | cmd/scheduler/main.go:164-175 | each fired schedule has its own job with its tenant, job type and payload, pending on the default queue with three attempts |
| `SchedulerPass.OldJobsKept` | cmd/scheduler/main.go:164-175 | no existing job row changes |
| `SchedulerPass.NoStrayJobs` | cmd/scheduler/main.go:164-175 | and there are no other new jobs |
| `SchedulerPass.PushesPopOrder` | cmd/scheduler/main.go:164-175 | the new jobs pop after what was queued, in firing order |
| `SchedulerPass.PassSettles` | cmd/scheduler/main.go:145-151 | after a pass an enabled schedule that parses lies in the future exactly when it was not due or the library's answer lies in the future |
| `SchedulerPass.QuietPass` | cmd/scheduler/main.go:87-102 | a pass fires nothing exactly when no schedule is due and parses, and then changes no schedule, job or queue |
| `SchedulerPass.SecondPassIsQuiet` | cmd/scheduler/main.go:145-151 | of two passes at one instant the second fires nothing, makes no job, pushes no id and leaves the table alone exactly when every schedule fired by the first was given a future instant |
| `SchedulerPass.FireIsMachine` | cmd/scheduler/main.go:132-184 | the code's claim and submit are the steps of the concurrent machine |
| `Migrate.AppliedOnce` | internal/store/migrate.go:17-73 | over any table and any mixture of binaries, runners and crashes: no version is recorded twice, none is forgotten, and a runner leaves every file it has passed applied |
| `Migrate.CommittedIsPrefix` | internal/store/migrate.go:17-73 | whatever concurrent runners of one binary and crashes do to a new database, the committed versions are a prefix of the sorted list, each once |
| `Migrate.Schema.ApplyMigration` | internal/store/migrate.go:58-73 | a version is recorded exactly when its SQL succeeds and it was not there |
| `Migrate.Schema.Migrate` | internal/store/migrate.go:17-54 | the *.up.sql files of the directory in ascending order; the loop reaches what `Migrated` says, and succeeds exactly when every one of them is applied |
| `Migrate.BeforeIff` | internal/store/migrate.go:30 | the order of the names: the first differing character decides, and a proper prefix comes first |
| `Migrate.PaddedOrder` | internal/store/migrate.go:30 | names that begin with numbers zero-padded to one width sort as their numbers |
| `Migrate.AloneIsMigrated` | internal/store/migrate.go:32-54 | a runner of the concurrent machine left alone does what the code does |
| `Migrate.RestartResumes` | internal/store/migrate.go:11-54 | wherever a runner crashes, a restart continues from what was committed |
| `Migrate.OneRunCompletes` | internal/store/migrate.go:32-54 | from any prefix one run extends it to the first file whose SQL fails |
| `Migrate.OneRunAppliesMissing` | internal/store/migrate.go:32-54 | from any table one run appends exactly the missing versions, in order, up to the first missing file whose SQL fails |
| `Migrate.CleanRunCompletes` | migrations/0011_add_tenant_id_to_jobs.up.sql:17-20 | after any history over any duplicate-free table, a run in which nothing fails appends the missing versions in order, leaves every file applied and no version twice, also when new files sort before applied ones |
| `Migrate.MissingIff` | internal/store/migrate.go:35-43 | missing are exactly the versions that the files have and the table lacks |
| `Migrate.MissingInOrder` | internal/store/migrate.go:30-54 | and they come in the order of their file names |
| `Migrate.RecoveryCompletes` | internal/store/migrate.go:11-54 | after any concurrent history of one binary over a new database, a run in which nothing fails leaves exactly its files, in order |
| `Migrate.SecondRunChangesNothing` | internal/store/migrate.go:35-43 | running again changes nothing, whatever the first run managed |

## Left out

- HTTP routing, CORS, JSON, parameter parsing (but for the bounds of a listing) and configuration: plumbing around the calls modelled here. The authenticated tenant is an input.
- Passwords, tokens, sessions and API keys: wrappers over crypto libraries and single queries.
- Job handlers and payload decoding: a dispatch is an outcome chosen by the environment.
- Cron parsing, the clocks and id generation: parameters. `Scheduler` quantifies over every cron library.
- Heartbeats, latency histograms, queue depth and the admin statistics: single reads and writes with no cross-step claim. Queue depth is shared between tenants by design, so it is not part of `Tenancy`.
- A Redis client that resends a command after a lost reply: `Delivery`, `Fifo` and `Timing` take each command to have effect at most once. `Protocol` makes no such assumption.
- Malformed ids on a queue: uuid.Parse drops them before any statement, so an id here is always well formed.
- Scores are integers: float64 holds Unix seconds exactly far beyond any date in use.
- updated_at, scheduled_at and the foreign key to tenants: not read by the logic modelled here. created_at is an input of the listing. A refused foreign key is an activity that ends before its insert.
- Alone: a call that takes effect and then reports an error; in the protocol that is an activity abandoned after its statement.
- Isolation.RunIsolation: asks that no id generated for the tenant is another tenant's; `Tenancy.EnqueueRevealsOnlyIdClash` shows what a clash would reveal.
- SchedulerPass.HandleSchedules: no call fails during the pass, every schedule has an owner, as the NOT NULL foreign key added by migration 0011 guarantees, and generated ids are new; an unowned schedule would be claimed and then refused by Submit, as `SchedulerPass.FireSchedule` shows.
- Scheduler: the Redis push of a fired job is part of `Enqueue.Submit` and `SchedulerPass`, not of the concurrent machine, whose claims are about schedules and job rows.
- Operators who move a schedule's cursor by hand: no code does, and the claims about cursors are about the code.
- Migrate: the SQL text of a migration is opaque; it succeeds or fails.
- Fairness: that an enabled step is eventually taken. `Recovery` says which jobs can be finished, not when.
