# Execution plane of the scheduler: model and proofs

The scheduler turns jobs into runs. Everything it does goes through three tables (`jobs`,
`job_runs` and the append-only `run_events` outbox), a queue, and five kinds of actor that step
them: `create_job` / `cancel_job`, the watcher, the workers, the reconciler's sweeps A, B and C, and
the continuation consumer (`poll_once`). This project models that plane as a labelled transition
system with crashes, lost and duplicated messages, leases and redelivered events, proves an
inductive invariant of it, and derives what the design promises about every reachable state and
every history. The transactions themselves are methods over mutable tables, each proved to do
exactly what the corresponding step says.

## How the modules fit together

- `Tables`, `Settle`, `CronTime`, `ChainWalk`: rows, the closed form of the settle cascade, cron
  times, the ancestor walk.
- `Steps`: the step functions, the whole system `Sys` (tables, messages still to be sent, queue,
  live holders, clock), `Enabled` / `Apply`, histories (`Admits`, `Exec`) and `Reachable`.
- `Invariant`, `Moves`, `Changes`, `Preserve`, `System`: the invariant and its preservation by every
  step; `History`: what stays fixed along a history.
- `Theorems`, `Recovery`, `LeaseBound`, `Quota`: the promises, read off the invariant.
- `Creation`, `Cancellation`, `Continuation`, `Timing`, `Outcomes`: what each operation does to the
  rows, spelled out by status, column and literal time, and what follows over later histories.
- `Cascade`, `Batches`, `Store`, `Polling`: the code's recursion, loops and bulk updates as methods,
  and why they compute what the steps say.
- `SpawnLock`: the advisory lock of `_spawn_run` and `settle_check` at statement level.
- `SendKey`, `SendGate`, `LateSend`, `SendStore`: the effectively-once send gate, composed with the
  whole system, with requests that stay in flight after their caller gave up or died.
- `RateLimit`: the sliding windows.

## Hypotheses

- Each `session.begin()` block is one atomic step, over before its worker goes on. `poll_once` takes
  one step per event, with the downstreams in any order; the step is also enabled for events that are already stamped, which over-approximates redelivery. A unique-index
  violation inside a savepoint leaves the tables as they were. Only `SpawnLock` goes below this level.
- Times are integer microseconds on one clock. Event ids are in commit order. Rows are never deleted,
  so a row's id is its position (gaps left by rolled-back inserts are not modelled).
- Time may not advance so far that a live worker's `heartbeat_at` becomes older than `staleness`
  (30 s interval plus 60 s visibility in `app/config/settings.py`). Holder exclusivity is derived from
  this and the orphan grace, and `LeaseBound.LeaseBoundIsExact` shows that `staleness <= grace` is
  exactly what is needed; the settings comment asks for a strict inequality.
- croniter's `get_next` is any function returning the least fire time strictly after its argument.
- A message can be delivered any number of times once it is visible; deletion and dead-lettering are
  the same loss. The handler's `execute` is any verdict, exception, timeout or crash.
- Cron validation, zoneinfo and ISO 8601 parsing are parameters of the configuration. `cron_expr` is
  set exactly for `job_type = 'recurring'` (`ck_jobs_schedule_consistency`).
- A request handed to the mail provider stays in flight until the provider accepts or refuses it, at
  any later time and independently of its caller.
- The rate limiter and the containment check run before `create_job` in sessions of their own; the
  caps below are for creates that are checked one after another.

## Where code and documentation differ

The model follows the code in each case.

- `_triggers_on` says that `ANY` also matches CANCELLED. It does, but `poll_once` never offers an
  event of a cancelled job to its downstreams and only a cancel makes a run CANCELLED, so no run is
  ever caused by a CANCELLED one (`Theorems.CauseIsSound`).
- `app/__init__.py` describes the claim as accepting PENDING and QUEUED; `_claim` also accepts RETRYING.
- The rate limiter's retry hint is not always sufficient. The hint is the whole second in which the
  oldest creation leaves the window, so the window is open then exactly when the creations leaving in
  that second outnumber the overshoot of the count over the limit (`RateLimit.RetryHint`). A window
  that is full but not over its limit always reopens at the hint (`RateLimit.FullWindowReopens`),
  which covers every serially checked history (`RateLimit.RetryIsExact`). Above the limit, for example
  after the limit was lowered, it can still be closed (`RateLimit.HintTooShort`). With a limit of zero or less and an empty
  window the checker raises instead of deciding (`RateLimit.FaultNeedsNoLimit`).
- `_materialize_downstreams` says that a completed downstream never gets a new run. Transaction by
  transaction that holds (`Theorems.NoRunForSettledJob`). Statement by statement it does not: the
  select of the active downstreams precedes the lock, so another session can settle the job in
  between (`SpawnLock.StaleSelectRunsSettled`). Reading `Job.state` again under the lock is exactly
  what would rule it out (`SpawnLock.RereadKeepsSettledIdle`).
- The send gate is documented as tolerating a rare duplicate. One form of it comes after the intent is
  already sent: an earlier request, still in flight, is accepted late (`LateSend.LateDuplicate`). It is
  possible exactly when such a request is in flight (`SendGate.LateAcceptanceExactly`).

## Model

| member | source | states |
|---|---|---|
| `System.StepKeeps` | app/workers/executor.py:44-202 | every enabled step of every actor keeps the whole invariant: rows, serial runs, outbox, lifecycle, ticks, leases and times |
| `System.ReachableInv` | app/__init__.py:28-35 | the invariant holds in every state reachable from empty tables by any history of creates, cancels, deliveries, losses, crashes, sweeps and redeliveries |
| `Theorems.AtMostOneExecuting` | app/domain/run_materializer.py:121-144 | at most one PENDING/QUEUED/RUNNING/RETRYING run per job, it is the job's newest, and a completed job has none |
| `Theorems.NoRunForSettledJob` | app/workers/recurring_watcher.py:144-155 | no step ever inserts a run for an existing job that is not active |
| `Theorems.LogRebuildsTable` | app/__init__.py:28-31 | folding the status events rebuilds every run's status; each event starts where the previous one of its run ended and follows the lifecycle graph; a run is terminal exactly when the log holds one terminal event for it |
| `Theorems.QuotaCountsResidentLoad` | app/quotas/containment.py:8-12 | the incrementally kept `Job.state` never misses a job with resident load, and once no terminal event is unprocessed it counts exactly those, as defined along the whole trigger chain |
| `Theorems.NoJobStranded` | app/domain/jobs.py:389-482 | an active non-recurring job with no executing run and no active parent has an unprocessed terminal event on itself or on its non-cancelled parent |
| `Theorems.OutboxDrains` | app/workers/recurring_watcher.py:218-294 | from every reachable state the consumer alone empties the outbox, in as many events as were pending, and `Job.state` is then exactly resident load |
| `Theorems.RecurrenceContinues` | app/workers/recurring_watcher.py:70-124 | an active recurring root's newest run is executing or has its own terminal event pending; all its older runs are over and ticks strictly increase |
| `Theorems.OneSuccessorPerEvent` | app/domain/run_materializer.py:203-248 | a terminal event has at most one successor however often it is processed, and for an active root it has one exactly when it is stamped |
| `Theorems.SpawnsOnFirstDelivery` | app/workers/recurring_watcher.py:99-124 | for an active root the successor insert succeeds exactly on the first delivery: neither the executing-run check nor the tick index blocks it, and a redelivery inserts nothing |
| `Continuation.DownstreamsFireExactly` | app/workers/recurring_watcher.py:127-215 | on the first delivery of a terminal event of a job that is not cancelled, each active downstream has a PENDING run caused by that run and due when the event occurred if and only if its trigger wants the status and all its runs are over; a predicate miss or a slow consumer is logged exactly otherwise |
| `Continuation.RootFiresExactly` | app/workers/recurring_watcher.py:70-124 | the first delivery for an active recurring root inserts one PENDING run at the earliest fire time not before the event and after the ended tick; a redelivery inserts none |
| `Continuation.WaitingCausedNothing` | app/workers/recurring_watcher.py:283-292 | a run whose terminal event is not stamped yet has caused no other run |
| `Theorems.TicksAreSuccessors` | app/domain/run_materializer.py:224-236 | each later tick is the earliest fire time not before the previous run's terminal event and strictly after its tick |
| `Theorems.CauseIsSound` | app/workers/recurring_watcher.py:144-188 | `wait_for_run_id` names a SUCCEEDED or FAILED run of the trigger parent that matches the predicate, is unique per job, and is found under the owner filter of `read_upstream` |
| `Theorems.UpstreamIsOwned` | app/chain/upstream_reader.py:69-73 | `read_upstream` finds exactly the asking owner's row with that id, and never another owner's |
| `Theorems.ChainedRunsBounded` | app/domain/run_materializer.py:251-278 | a chained job never has more runs than its parent has SUCCEEDED or FAILED ones |
| `Theorems.OneShotPipelineRunsOnce` | app/db/models.py:182-198 | every job of a pipeline rooted at a one-shot job runs at most once over the whole history, at any depth |
| `Theorems.LeaseExclusive` | app/workers/reconciler.py:243-257 | every live holder's run is RUNNING and nobody else's, and sweep C never picks it, so the holder's unguarded writes are sound |
| `LeaseBound.LeaseBoundIsExact` | app/config/settings.py:60-70 | lease exclusivity as a whole, sweep C sparing live holders, and live holders' runs staying RUNNING each hold in all reachable states if and only if the permitted heartbeat lag does not exceed the orphan grace |
| `LeaseBound.ShortGraceBreaksLease` | app/workers/reconciler.py:243-257 | with a shorter grace a concrete history lets sweep C pick a run whose worker is alive |
| `LeaseBound.ShortGraceTwoHolders` | app/workers/reconciler.py:283-303 | an idempotent run is then sent out again and two live workers hold it at once |
| `LeaseBound.ShortGraceTwoEnds` | app/workers/executor.py:95-115 | any other run is then failed, its worker's unguarded write overwrites the terminal row, and the log holds two terminal events for it |
| `Theorems.NoEarlyStart` | app/workers/watcher.py:87-97 | over all histories a claim happens later than `scheduled_at` minus one second, and never on a PENDING row |
| `Theorems.StartTimes` | app/workers/executor.py:62-72 | every recorded `start_at` lies after `scheduled_at` minus one second and not in the future |
| `Theorems.ChainsStayShort` | app/domain/chain_validation.py:152-167 | reachable chains have at most ten jobs, the cycle error never fires, and an (owner, idempotency key) pair names at most one job |
| `System.DelayBounds` | app/workers/watcher.py:87-97 | the truncated delay is zero for rows past due, stays in [0, 300) s for due rows, and never makes a message visible a whole second early or late for its time |
| `Timing.PublishedOnTime` | app/workers/watcher.py:87-106 | a message sent right after the watcher's commit is visible less than a second before the scheduled time and never after it, or at once when that time has passed |
| `Timing.DueExactly` | app/workers/reconciler.py:152-158 | the exact conditions, with the five-minute lookahead and the three graces, under which the watcher and each sweep may take a run |
| `Timing.RetryIsLeftAlone` | app/workers/reconciler.py:74-82 | after a retryable failure no later history lets sweep A touch the run before its grace has passed |
| `Timing.QueuedIsLeftAlone` | app/workers/reconciler.py:145-158 | after the watcher, a requeue or an orphan reset no later history lets sweep B send the run again before its grace has passed, nor before its scheduled time |
| `Timing.LeaseIsLeftAlone` | app/workers/reconciler.py:239-257 | after a claim or a heartbeat no later history lets sweep C touch the run before its grace has passed |
| `Outcomes.ClaimEffect` | app/workers/executor.py:57-83 | a visible message starts exactly a PENDING, QUEUED or RETRYING run; start, lease and the STARTED event are written and nothing else changes |
| `Outcomes.VerdictEffect` | app/workers/executor.py:86-184 | a final verdict ends the run with its event and completes exactly an active one-shot root's job; a retryable one leaves RETRYING and every job as it was |
| `Outcomes.QueueSweepEffect` | app/workers/reconciler.py:94-208 | sweep A fails the run and touches no job; sweep B rewrites the write time, logs and sends |
| `Outcomes.OrphanEffect` | app/workers/reconciler.py:275-350 | sweep C requeues and sends exactly a run whose action is registered as idempotent; any other, unknown actions included, fails with its one-shot job completed |
| `Outcomes.EveryChangeIsLogged` | app/__init__.py:28-31 | whenever a step changes a run's status, the same step appends an event dated now that records a lifecycle step of that run out of the status it had |
| `Outcomes.EventsFollowLifecycle` | app/db/models.py:202-234 | every status event of a reachable state is one of the lifecycle's transitions, status by status |
| `System.FlipRunsExactly` | app/domain/jobs.py:579-601 | the cancel loop turns exactly the pending, queued and retrying runs of the job CANCELLED and touches no other row |
| `Cancellation.CancelEffect` | app/domain/jobs.py:540-609 | a cancel of the caller's active job stamps the job, turns its PENDING, QUEUED and RETRYING runs CANCELLED with one event each and leaves all other runs alone; any other cancel changes nothing |
| `Cancellation.CancelStopsStarts` | app/domain/jobs.py:359-359 | no run of the job that was not RUNNING at the cancel is started in any later history, and none is created |
| `Cancellation.CancelledNeverPending` | app/domain/jobs.py:579-601 | in every reachable state a cancelled job has no PENDING run |
| `System.SweepCUnheld` | app/workers/reconciler.py:243-257 | a run sweep C is due for has no live holder |
| `History.ExecEvolves` | app/db/models.py:202-234 | along every history nothing is deleted, a job leaves active once, a terminal run row is frozen, and the log is append-only up to the consumer's mark |
| `History.StepLive` | app/workers/recurring_watcher.py:266-273 | every run a step inserts belongs to a brand-new root or to an active job whose parent is not cancelled |
| `History.StoppedForGood` | app/workers/recurring_watcher.py:81-88 | once a job is cancelled no history creates a run for it or for a job it triggers |
| `History.CancelIsFinal` | app/domain/jobs.py:556-609 | after a cancel the job stays cancelled, neither it nor its direct downstreams ever get a run again, and its then unstarted runs stay CANCELLED and never start |
| `Quota.CapsBoundResidentLoad` | app/quotas/containment.py:49-105 | if every create passes the check serially, then in all later states both per-user caps hold, the recurring jobs of everybody but the operator stay within the global ceiling whatever the operator adds, and the total cap also bounds true resident load |
| `Quota.ContainmentExactly` | app/quotas/containment.py:49-105 | anybody but the operator is allowed if and only if all three counts are below their caps, and is otherwise told the first that is not |
| `Recovery.NoRunUnrecoverable` | app/workers/reconciler.py:64-376 | from every reachable state every executing run can be brought to a terminal status by clock, watcher, worker and sweep steps alone, whatever was lost or crashed before |
| `Recovery.Wait` | app/workers/executor.py:187-202 | with live workers renewing their leases the clock can advance by any amount, changing only held runs' heartbeats |
| `Settle.SettleCheckSettles` | app/domain/jobs.py:423-482 | the closed form of `settle_check` completes only free jobs that have no active parent afterwards, and leaves no newly exhausted job behind |
| `Settle.SettleDownSettles` | app/domain/jobs.py:407-420 | the same for the cascade below a job that is no longer active |
| `Cascade.CascadeStep` | app/domain/jobs.py:407-420 | visiting one more downstream adds exactly its own released subtree, whatever its siblings did |
| `Cascade.CascadeDone` | app/domain/jobs.py:407-482 | visiting all downstreams, in any order, settles exactly the descendants reachable through free jobs |
| `Cascade.SiblingsDisjoint` | app/domain/jobs.py:414-420 | two downstreams of one job release disjoint subtrees |
| `CronTime.NextAfterIsEarliest` | app/config/cron.py:66-82 | `next_after` returns a fire time, at or after the reference, with none in between |
| `CronTime.SuccessorIsEarliest` | app/domain/run_materializer.py:224-229 | the clamped anchor yields the earliest fire time that is strictly after the previous tick and not before the event |
| `ChainWalk.WalkAcceptsExactly` | app/domain/chain_validation.py:79-108 | on any table, cyclic ones included, the capped walk is clean and below the cap exactly when the true ancestry ends and has at most nine jobs |
| `ChainWalk.ValidateChainExactly` | app/domain/chain_validation.py:111-167 | on any table a trigger is accepted if and only if it exists, is the caller's, is active and has a true ancestry of at most nine jobs; and the exact condition of each of the four errors |
| `ChainWalk.WalkOnForest` | app/domain/chain_validation.py:152-167 | when parents are older than children the walk reports no cycle and the true depth |
| `ChainWalk.AncestryDistinct` | app/domain/chain_validation.py:79-108 | an ancestry that ends visits no job twice |
| `Batches.BatchIsTrace` | app/workers/watcher.py:34-108 | a batch over distinct due rows is a history of single-row steps and sends exactly what they send |
| `Batches.TwoPasses` | app/workers/reconciler.py:96-124 | updating all rows first and logging all events afterwards equals the row-by-row transaction |
| `Store.Database.SettleJob` | app/domain/jobs.py:366-404 | settles exactly an active one-shot root, reports whether it did, and leaves every other job and column alone |
| `Store.Database.SettleCheck` | app/domain/jobs.py:423-482 | the recursive method terminates, computes the closed form, and returns whether the job was exhausted |
| `Store.Database.SettleDownstreams` | app/domain/jobs.py:407-420 | the loop over downstreams computes the closed form of the cascade |
| `Store.Database.CancelJob` | app/domain/jobs.py:540-611 | new tables, and the exact condition of each of the four results: not found, already cancelled, exhausted, cancelled with cascade |
| `Store.Database.CreateJob` | app/domain/jobs.py:131-266 | new tables and result for each rejection in the order of the checks, for an idempotent repeat, and for a chained or scheduled job |
| `Creation.ChecksExactly` | app/domain/jobs.py:166-203 | a request passes the first checks if and only if it meets every demand, and each error is reported exactly when its demand is the first that is not met |
| `Creation.CreatesExactly` | app/domain/jobs.py:205-264 | a job row is added if and only if the request is well formed, its idempotency key is free and its trigger fits; a repeat returns a job of this owner with this key; anything else changes nothing |
| `Creation.CreateEffect` | app/domain/jobs.py:229-264 | the job row follows the request column by column; a scheduled job gets one PENDING run at the parsed time, the earliest fire time or now, with its CREATED event; a chained one gets none |
| `Creation.OneShotRunsOnTime` | app/domain/jobs.py:192-199 | over all later histories a one-shot has exactly one run, for the time it asked for, which never starts a second early |
| `Creation.FirstRunOnTime` | app/domain/run_materializer.py:178-200 | the first run of every scheduled job keeps the wanted time and never starts a second before it |
| `Store.Database.SpawnRun` | app/domain/run_materializer.py:121-175 | fails exactly on an executing run or on a cause already used, leaving the tables alone, and otherwise inserts the PENDING run and its CREATED event |
| `Store.Database.MaterializeRecurringSuccessor` | app/workers/recurring_watcher.py:70-124 | spawns the next tick unless the job is cancelled; both errors are skips |
| `Store.Database.SelectDownstreams` | app/workers/recurring_watcher.py:144-155 | lists every active downstream once, in no promised order |
| `Store.Database.MaterializeDownstreams` | app/workers/recurring_watcher.py:127-215 | offers the event to each active downstream, in whatever order they came, with an audit event per predicate miss and per slow consumer |
| `Store.Database.ProcessEvent` | app/workers/recurring_watcher.py:255-292 | one event: successor, downstreams, settle checks, stamp, equal to the consumer's step |
| `Polling.PollOnce` | app/workers/recurring_watcher.py:218-294 | one tick is a history of consumer steps over the oldest waiting events, handles exactly min(batch, backlog), shrinks the backlog by that number, keeps the invariant, and leaves nothing pending when not full |
| `Polling.SelectWaiting` | app/workers/recurring_watcher.py:233-249 | the selected ids are the oldest unprocessed terminal events, in order, min(batch, backlog) of them |
| `Store.Database.Claim` | app/workers/executor.py:44-83 | wins exactly on a PENDING, QUEUED or RETRYING row, and then writes status, start, lease and the STARTED event |
| `Store.Database.WriteTerminal` | app/workers/executor.py:86-153 | what the unguarded write does to any row, present or not; on a RUNNING row of the job it is the terminal transition with its event and the self-settle of a one-shot |
| `Store.Database.WriteRetrying` | app/workers/executor.py:156-184 | what the unguarded write does to any row; on a RUNNING row of the job it is the transition to RETRYING |
| `Store.Database.BumpHeartbeat` | app/workers/executor.py:187-202 | afterwards sweep C is not due for the run for a whole grace period, under any settings; every other row is unchanged |
| `Store.Database.Dispatch` | app/workers/executor.py:301-470 | a lost claim changes nothing; otherwise the verdict decides the final row, and the message is kept exactly when the run is left RETRYING |
| `Store.Database.ClaimAndPublish` | app/workers/watcher.py:34-108 | the bulk update, the event loop and the entries equal the batch of single-row watcher steps and their delays |
| `Store.Database.SweepDlqRetrying` | app/workers/reconciler.py:64-126 | equals the batch of sweep A steps |
| `Store.Database.SweepQueuedStuck` | app/workers/reconciler.py:129-210 | requeues exactly the rows whose send succeeded, in order, and leaves the others |
| `Store.Database.SweepRunningOrphan` | app/workers/reconciler.py:213-376 | equals the batch of sweep C steps and returns exactly the idempotent rows for the post-commit send |
| `SpawnLock.LockSerializesSpawns` | app/domain/run_materializer.py:79-157 | over all interleavings of select, lock, check, insert, settle, rollback and commit, at most one executing run per job exists, uncommitted inserts included, if and only if the lock is taken |
| `SpawnLock.WithoutLockTwoRuns` | app/domain/run_materializer.py:79-87 | without the lock two sessions can both insert |
| `SpawnLock.StaleSelectRunsSettled` | app/workers/recurring_watcher.py:144-155 | with the lock as it is, a session whose select preceded another's settle inserts a run into the completed job |
| `SpawnLock.RereadKeepsSettledIdle` | app/domain/jobs.py:456-482 | under the lock no interleaving leaves a live run of a settled job, uncommitted writes included, if and only if `Job.state` is read again after the lock is granted |
| `SendKey.KeyInjective` | app/actions/send_dedup.py:38-44 | the key determines action and run, even for actions containing colons |
| `SendGate.EffectivelyOnce` | app/actions/email_send.py:189-262 | in every reachable state, late and unheard acceptances included, the provider has accepted exactly one send of a run beyond those never marked if the intent is sent and none if not, and never more than were issued |
| `SendGate.SentIsFinal` | app/actions/send_dedup.py:110-149 | once sent, no history changes the intent row or issues another request for the run, and later acceptances are of requests that were in flight at that time |
| `SendGate.LateAcceptanceExactly` | app/actions/email_send.py:207-215 | after sent the provider accepts no further send of the run, in any history, if and only if none of its requests is in flight |
| `LateSend.LateDuplicate` | app/actions/email_send.py:207-215 | a reachable state in which the run is sent and a timed-out earlier request is accepted one step later |
| `SendGate.GateOpensExactly` | app/actions/send_dedup.py:110-139 | the request goes out if and only if the run is not sent, always with its intent written ahead |
| `SendGate.MarkRecords` | app/actions/email_send.py:254-262 | a confirmed send makes the intent sent with the id of its answer |
| `SendGate.PlacesKept` | app/workers/executor.py:404-410 | a worker keeps its place in the send exactly as long as it keeps its run; a new claim starts over |
| `SendGate.ReplayIsDeduped` | app/actions/send_dedup.py:110-139 | any later replay gets the stored provider id back without calling the provider |
| `SendStore.DedupStore.Begin` | app/actions/send_dedup.py:110-139 | inserts an attempting intent for a new key only; decides send, resend or skip exactly on no row, an attempting row or a sent row, and returns the stored id only on a skip |
| `SendStore.DedupStore.MarkSent` | app/actions/send_dedup.py:141-149 | marks the key's row sent with the id, if it exists; no other row changes and none appears |
| `SendStore.DedupStore.SendViaGmail` | app/actions/email_send.py:189-262 | calls the provider exactly when the key is not sent, marks a confirmed send before reporting it, and leaves any other answer attempting with the right retry verdict |
| `RateLimit.WindowsAreCapped` | app/ratelimit/checker.py:51-83 | in a serially checked history every 60-second and 24-hour window, wherever it ends, holds at most its limit |
| `RateLimit.VerdictExactly` | app/ratelimit/checker.py:51-83 | a create is allowed if and only if fewer than the limits were created in the last minute and the last 24 hours; the minute is reported first |
| `RateLimit.RetryHint` | app/ratelimit/checker.py:66-83 | for all inputs the window stays closed until the hint, and is open at the hint exactly when the creations leaving in the oldest one's whole second outnumber the overshoot of the count over the limit |
| `RateLimit.FullWindowReopens` | app/ratelimit/checker.py:66-83 | whenever the count equals the limit the hint is exact, with no history assumed |
| `RateLimit.RetryIsExact` | app/ratelimit/checker.py:66-83 | in a serially checked history the hint is the least whole number of seconds after which the window admits again |
| `RateLimit.HintTooShort` | app/ratelimit/checker.py:66-68 | a state above the limit in which the window is still closed at the hint |
| `RateLimit.FaultNeedsNoLimit` | app/ratelimit/checker.py:51-83 | the checker raises exactly when the first window whose limit is not positive is empty, so never under positive limits |

## Left out

- HTTP and MCP transport, OAuth, JWT, the dashboard, logging and load shedding: input and output only.
- Action handlers other than the send gate: any verdict is allowed, with an idempotency flag per action.
- Queue internals (batch limits, receipt handles, visibility extension): messages are a bag with visible-at times.
- croniter parsing, time zones and daylight saving: parameters that validate, parse and return the next fire time.
- Listing, pagination, status rendering and the status hint of a refused cancel are not modelled.
- Columns that never steer a step: result, error text, finish_at, time_bucket, job parameters, and the payload variants of read_upstream.
- The concurrent-create race of the idempotency key: the unique constraint turns the loser's insert into an error, which changes nothing.
- Migrations and row deletion: the model starts from the current schema and the application deletes no row.
- The LLM token budget: its check is documented as non-reserving, so no bound is promised.
- Interleavings of single statements other than those of spawn, settle and their lock: unguarded updates and cancels are claimed at transaction level.
- A mark_sent that commits after its worker was cancelled in the middle of it: a transaction is over before its worker goes on.
