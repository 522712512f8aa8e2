/** The three core tables of app/db/models.py: jobs, job_runs and the append-only run_events
    outbox. Rows are never deleted, so a table is a sequence and a row's id is its position.
    All times are integer microseconds on one clock. */
module Tables {

  const SECOND: int := 1_000_000

  datatype Option<+T> = None | Some(value: T)

  /** Run statuses; the first four are the executing ("resident load") ones. */
  datatype Status = Pending | Queued | Running | Retrying | Succeeded | Failed | Cancelled

  predicate Executing(s: Status) {
    s.Pending? || s.Queued? || s.Running? || s.Retrying?
  }

  predicate Claimable(s: Status) {
    s.Pending? || s.Queued? || s.Retrying?
  }

  datatype JobState = Active | Completed | Stopped  // Stopped is 'cancelled'

  datatype Predicate = OnSucceeded | OnFailed | OnAny

  datatype Trigger = Trigger(parent: nat, pred: Predicate)

  datatype Cron = Cron(expr: string, zone: string)

  /** A row of jobs. cron is set exactly for job_type 'recurring'. */
  datatype Job = Job(
    owner: string,
    action: string,
    cron: Option<Cron>,
    trigger: Option<Trigger>,
    key: Option<string>,
    state: JobState,
    cancelledAt: Option<int>)

  /** A row of job_runs. cause is wait_for_run_id. */
  datatype Run = Run(
    job: nat,
    owner: string,
    scheduledAt: int,
    status: Status,
    cause: Option<nat>,
    startAt: Option<int>,
    heartbeatAt: Option<int>,
    updatedAt: int)

  /** event_type of an outbox row. Ended(s) is SUCCEEDED, FAILED or CANCELLED. */
  datatype Kind =
    | Created | Enqueued | Started | Retry | Reenqueued
    | Ended(status: Status)
    | SkippedPredicateMiss(downstream: nat)
    | SkippedSlowConsumer(downstream: nat)

  /** A row of run_events. processed is the continuation consumer's cursor mark. */
  datatype Event = Event(
    run: nat,
    job: nat,
    kind: Kind,
    from: Option<Status>,
    to: Option<Status>,
    at: int,
    processed: bool)

  datatype Db = Db(jobs: seq<Job>, runs: seq<Run>, events: seq<Event>)

  /** Every trigger parent is an older job. */
  ghost predicate Forest(jobs: seq<Job>) {
    forall j :: 0 <= j < |jobs| && jobs[j].trigger.Some? ==> jobs[j].trigger.value.parent < j
  }

  /** Job c is triggered by job p. */
  ghost predicate IsChild(jobs: seq<Job>, p: nat, c: nat) {
    c < |jobs| && jobs[c].trigger.Some? && jobs[c].trigger.value.parent == p
  }

  /** has_executing_run */
  predicate HasExecuting(runs: seq<Run>, j: nat) {
    exists r :: 0 <= r < |runs| && runs[r].job == j && Executing(runs[r].status)
  }

  /** Does job j have a terminal event the consumer has not stamped yet? */
  predicate HasPending(events: seq<Event>, j: nat) {
    exists i :: 0 <= i < |events| && IsPending(events[i], j)
  }

  /** A terminal event the consumer has not stamped yet. */
  predicate Waiting(e: Event) {
    e.kind.Ended? && !e.processed
  }

  predicate IsPending(e: Event, j: nat) {
    e.job == j && Waiting(e)
  }

  function Audit(e: Event, kind: Kind, now: int): Event {
    Event(e.run, e.job, kind, None, None, now, false)
  }

  /** Overwrite one run row and append the status event of the same transaction. */
  function Transition(db: Db, r: nat, run: Run, kind: Kind, now: int): Db
    requires r < |db.runs|
  {
    db.(runs := db.runs[r := run],
        events := db.events + [Event(r, db.runs[r].job, kind, Some(db.runs[r].status), Some(run.status), now, false)])
  }

  /** Insert a run row with its CREATED event. */
  function InsertRun(db: Db, run: Run, now: int): Db {
    db.(runs := db.runs + [run],
        events := db.events + [Event(|db.runs|, run.job, Created, None, Some(run.status), now, false)])
  }

  function AppendEvent(db: Db, e: Event): Db {
    db.(events := db.events + [e])
  }

  function Stamp(db: Db, i: nat): Db
    requires i < |db.events|
  {
    db.(events := db.events[i := db.events[i].(processed := true)])
  }
}
