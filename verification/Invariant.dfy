/** The inductive invariant of the tables. */
module Invariant {
  import opened Tables
  import opened Settle
  import opened Steps

  // ---------------------------------------------------------------- jobs

  ghost predicate JobOk(jobs: seq<Job>, j: nat)
    requires j < |jobs|
  {
    var job := jobs[j];
    (job.trigger.Some? ==> job.trigger.value.parent < j && jobs[job.trigger.value.parent].owner == job.owner && job.cron.None?)
    && (job.cancelledAt.Some? <==> job.state.Stopped?)
    && (job.cron.Some? ==> !job.state.Completed?)
    && (job.state.Completed? ==> !ParentActive(jobs, j))
  }

  ghost predicate JobsOk(db: Db) {
    forall j :: 0 <= j < |db.jobs| ==> JobOk(db.jobs, j)
  }

  // ---------------------------------------------------------------- runs

  /** The run that caused a trigger-driven run: a SUCCEEDED or FAILED run of the trigger parent
      that satisfies the create predicate. */
  ghost predicate CauseOk(db: Db, r: nat)
    requires r < |db.runs| && db.runs[r].cause.Some?
  {
    var u := db.runs[r].cause.value;
    u < r && db.runs[r].job < |db.jobs| && db.jobs[db.runs[r].job].trigger.Some?
    && db.runs[u].job == db.jobs[db.runs[r].job].trigger.value.parent
    && (db.runs[u].status.Succeeded? || db.runs[u].status.Failed?)
    && TriggersOn(db.jobs[db.runs[r].job].trigger.value.pred, db.runs[u].status)
  }

  ghost predicate RunOk(db: Db, r: nat)
    requires r < |db.runs|
  {
    var run := db.runs[r];
    run.job < |db.jobs|
    && run.owner == db.jobs[run.job].owner
    && (run.status.Cancelled? ==> db.jobs[run.job].state.Stopped?)
    && (Executing(run.status) ==> !db.jobs[run.job].state.Completed?)
    && (run.cause.Some? <==> db.jobs[run.job].trigger.Some?)
    && (run.cause.Some? ==> CauseOk(db, r))
  }

  ghost predicate RunsOk(db: Db) {
    forall r :: 0 <= r < |db.runs| ==> RunOk(db, r)
  }

  /** Two runs of one job: the older one is over, their causes differ, and ticks increase. */
  ghost predicate InOrder(db: Db, r: nat, q: nat)
    requires r < q < |db.runs| && db.runs[r].job < |db.jobs|
  {
    db.runs[r].job == db.runs[q].job ==>
      !Executing(db.runs[r].status)
      && (db.jobs[db.runs[r].job].trigger.Some? || db.jobs[db.runs[r].job].cron.Some?)
      && (db.runs[r].cause.Some? ==> db.runs[r].cause != db.runs[q].cause)
      && (db.jobs[db.runs[r].job].cron.Some? ==> db.runs[r].scheduledAt < db.runs[q].scheduledAt)
  }

  ghost predicate Serial(db: Db)
    requires RunsOk(db)
  {
    forall r, q {:trigger InOrder(db, r, q)} :: 0 <= r < q < |db.runs| ==> (assert RunOk(db, r); InOrder(db, r, q))
  }

  // ---------------------------------------------------------------- outbox

  /** The status a reader of the log derives for run r: the last status-bearing event wins. */
  ghost function LogStatus(events: seq<Event>, r: nat): Option<Status>
    decreases |events|
  {
    if events == [] then None
    else
      var e := events[|events| - 1];
      if e.run == r && e.to.Some? then e.to else LogStatus(events[..|events| - 1], r)
  }

  /** The edges of the run lifecycle, with the event type each one is logged under. */
  predicate Edge(from: Option<Status>, to: Status, kind: Kind) {
    match kind
    case Created => from.None? && to.Pending?
    case Enqueued => from == Some(Pending) && to.Queued?
    case Started => from.Some? && Claimable(from.value) && to.Running?
    case Retry => from == Some(Running) && to.Retrying?
    case Reenqueued => (from == Some(Queued) || from == Some(Running)) && to.Queued?
    case Ended(s) =>
      to == s && from.Some?
      && ((s.Cancelled? && Claimable(from.value))
          || (from.value.Running? && (s.Succeeded? || s.Failed?))
          || (from.value.Retrying? && s.Failed?))
    case _ => false
  }

  ghost predicate EventOk(db: Db, i: nat)
    requires i < |db.events|
  {
    var e := db.events[i];
    e.run < |db.runs| && e.job == db.runs[e.run].job
    && (if e.to.Some? then e.from == LogStatus(db.events[..i], e.run) && Edge(e.from, e.to.value, e.kind)
        else e.kind.SkippedPredicateMiss? || e.kind.SkippedSlowConsumer?)
    && (e.kind.Ended? ==> db.runs[e.run].status == e.kind.status)
  }

  ghost predicate EventsOk(db: Db) {
    forall i :: 0 <= i < |db.events| ==> EventOk(db, i)
  }

  ghost predicate LogOk(db: Db) {
    forall r :: 0 <= r < |db.runs| ==> LogStatus(db.events, r) == Some(db.runs[r].status)
  }

  ghost predicate OneEnd(db: Db) {
    forall i, k :: 0 <= i < k < |db.events| && db.events[i].kind.Ended? && db.events[k].kind.Ended? ==>
      db.events[i].run != db.events[k].run
  }

  // ---------------------------------------------------------------- lifecycle

  /** An exhausted job that is still active has a terminal event waiting that will settle it. */
  ghost predicate NotStranded(db: Db, j: nat)
    requires j < |db.jobs|
  {
    Exhausted(db.jobs, db.runs, j) ==>
      HasPending(db.events, j)
      || (db.jobs[j].trigger.Some? && db.jobs[j].trigger.value.parent < |db.jobs|
          && !db.jobs[db.jobs[j].trigger.value.parent].state.Stopped?
          && HasPending(db.events, db.jobs[j].trigger.value.parent))
  }

  /** An active recurring root has a run in flight, or a terminal event that will spawn the next. */
  ghost predicate NotDry(db: Db, j: nat)
    requires j < |db.jobs|
  {
    db.jobs[j].cron.Some? && db.jobs[j].state.Active? ==>
      HasExecuting(db.runs, j) || HasPending(db.events, j)
  }

  ghost predicate Lifecycle(db: Db, exempt: set<nat>) {
    forall j :: 0 <= j < |db.jobs| && j !in exempt ==> NotStranded(db, j) && NotDry(db, j)
  }

  // ---------------------------------------------------------------- recurring ticks

  ghost predicate IsSuccessor(cfg: Config, db: Db, i: nat, q: nat)
    requires i < |db.events| && q < |db.runs|
  {
    var e := db.events[i];
    e.kind.Ended? && e.run < q && e.job < |db.jobs| && db.jobs[e.job].cron.Some?
    && db.runs[q].job == e.job && db.runs[q].cause.None?
    && db.runs[q].scheduledAt == SuccessorAt(cfg, db, e)
  }

  ghost predicate HasSuccessor(cfg: Config, db: Db, i: nat)
    requires i < |db.events|
  {
    exists q :: 0 <= q < |db.runs| && IsSuccessor(cfg, db, i, q)
  }

  /** No run of the job is newer than run r. */
  ghost predicate Newest(runs: seq<Run>, j: nat, r: nat) {
    forall q :: r < q < |runs| ==> runs[q].job != j
  }

  /** While a recurring job is active, a stamped terminal event has its successor and an unstamped
      one belongs to the job's newest run. */
  ghost predicate EndOk(cfg: Config, db: Db, i: nat)
    requires i < |db.events|
  {
    var e := db.events[i];
    e.kind.Ended? && e.job < |db.jobs| && db.jobs[e.job].cron.Some? && db.jobs[e.job].state.Active? ==>
      if e.processed then HasSuccessor(cfg, db, i) else Newest(db.runs, e.job, e.run)
  }

  /** Every run of a recurring job but its first is the successor of the run just before it. */
  ghost predicate TickOk(cfg: Config, db: Db, q: nat)
    requires q < |db.runs|
  {
    db.runs[q].job < |db.jobs| && db.jobs[db.runs[q].job].cron.Some? ==>
      (forall r :: 0 <= r < q ==> db.runs[r].job != db.runs[q].job)
      || (exists i :: 0 <= i < |db.events| && IsSuccessor(cfg, db, i, q)
                      && (forall r :: db.events[i].run < r < q ==> db.runs[r].job != db.runs[q].job))
  }

  ghost predicate Ticks(cfg: Config, db: Db, open: int) {
    (forall i :: 0 <= i < |db.events| && i != open ==> EndOk(cfg, db, i))
    && (forall q :: 0 <= q < |db.runs| ==> TickOk(cfg, db, q))
  }

  // ---------------------------------------------------------------- together

  /** The invariant inside a transaction: the lifecycle clauses are waived for the jobs in exempt,
      and the stamp clause for the event being processed. */
  ghost predicate Mid(cfg: Config, db: Db, exempt: set<nat>, open: int) {
    JobsOk(db) && RunsOk(db) && Serial(db)
    && EventsOk(db) && LogOk(db) && OneEnd(db)
    && Lifecycle(db, exempt) && Ticks(cfg, db, open)
  }

  ghost predicate DbInv(cfg: Config, db: Db) {
    Mid(cfg, db, {}, -1)
  }
}
