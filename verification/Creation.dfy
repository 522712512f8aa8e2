/** What create_job accepts and what it leaves in the tables, in the terms of its arguments. */
module Creation {
  import opened Tables
  import opened CronTime
  import opened ChainWalk
  import opened Steps
  import opened Invariant
  import opened Preserve
  import opened System
  import opened History

  // ---------------------------------------------------------------- acceptance

  predicate KnownSchedule(req: Request) {
    req.schedule == "immediate" || req.schedule == "one-shot" || req.schedule == "recurring"
  }

  /** Not an operator-only action, or the caller is the operator. */
  predicate Permitted(cfg: Config, req: Request) {
    req.action in cfg.operatorOnly ==> cfg.operator.Some? && cfg.operator.value == req.owner
  }

  predicate KnownTriggerStatus(req: Request) {
    req.triggerStatus.Some? ==>
      req.triggerStatus.value == "SUCCEEDED" || req.triggerStatus.value == "FAILED" || req.triggerStatus.value == "ANY"
  }

  predicate CronGiven(req: Request) {
    req.cronExpr.Some? && |req.cronExpr.value| > 0
  }

  /** A one-shot's time parses and lies in the future. */
  predicate FutureTime(cfg: Config, req: Request, now: int) {
    req.scheduledAt.Some? && cfg.parse(req.scheduledAt.value, req.zone).Some?
    && now < cfg.parse(req.scheduledAt.value, req.zone).value
  }

  /** Everything create_job demands of its arguments before it looks at the tables. */
  predicate WellFormed(cfg: Config, req: Request, now: int) {
    KnownSchedule(req) && req.action in cfg.registry && Permitted(cfg, req) && KnownTriggerStatus(req)
    && !(req.triggerJob.Some? && CronGiven(req))
    && (req.schedule == "recurring" ==> CronGiven(req) && cfg.validCron(req.cronExpr.value) && cfg.validZone(req.zone))
    && (req.schedule == "one-shot" ==> cfg.validZone(req.zone) && FutureTime(cfg, req, now))
  }

  /** The demands that do not depend on the schedule. */
  predicate Admissible(cfg: Config, req: Request) {
    KnownSchedule(req) && req.action in cfg.registry && Permitted(cfg, req) && KnownTriggerStatus(req)
    && !(req.triggerJob.Some? && CronGiven(req))
  }

  predicate CronFine(cfg: Config, req: Request) {
    CronGiven(req) && cfg.validCron(req.cronExpr.value)
  }

  /** The request is rejected before the transaction exactly when it is not well formed, and the
      error names the first demand that is not met. */
  lemma ChecksExactly(cfg: Config, req: Request, now: int)
    ensures CheckRequest(cfg, req, now).None? <==> WellFormed(cfg, req, now)
    ensures
      var e := CheckRequest(cfg, req, now);
      var known := KnownSchedule(req) && req.action in cfg.registry;
      (e == Some(UnsupportedScheduleType) <==> !KnownSchedule(req))
      && (e == Some(UnknownAction) <==> KnownSchedule(req) && req.action !in cfg.registry)
      && (e == Some(OperatorOnly) <==> known && !Permitted(cfg, req))
      && (e == Some(InvalidTriggerStatus) <==> known && Permitted(cfg, req) && !KnownTriggerStatus(req))
      && (e == Some(RunSource) <==> known && Permitted(cfg, req) && KnownTriggerStatus(req) && req.triggerJob.Some? && CronGiven(req))
      && (e == Some(InvalidCron) <==> Admissible(cfg, req) && req.schedule == "recurring" && !CronFine(cfg, req))
      && (e == Some(InvalidTimezone) <==>
            Admissible(cfg, req) && !cfg.validZone(req.zone)
            && (req.schedule == "one-shot" || (req.schedule == "recurring" && CronFine(cfg, req))))
      && (e == Some(InvalidScheduledAt) <==>
            Admissible(cfg, req) && req.schedule == "one-shot" && cfg.validZone(req.zone) && !FutureTime(cfg, req, now))
      && (e.Some? ==> !e.value.ChainRejected?)
  {
  }

  /** Job k of the caller carries the request's idempotency key. */
  predicate SameKey(job: Job, req: Request) {
    req.key.Some? && job.owner == req.owner && job.key == req.key
  }

  ghost predicate KeyUsed(db: Db, req: Request) {
    exists k :: 0 <= k < |db.jobs| && SameKey(db.jobs[k], req)
  }

  /** The chosen trigger, if any, passes the chain rules. */
  ghost predicate ChainFits(db: Db, req: Request) {
    req.triggerJob.Some? ==>
      Chainable(db.jobs, req.owner, req.triggerJob.value) && ShortAncestry(db.jobs, req.triggerJob.value)
  }

  /** For all tables and requests: a job row is added if and only if the request is well formed, its
      key is free and its trigger fits; a well-formed repeat returns a job of this owner with this
      key; and everything but a new job leaves the tables as they were. */
  lemma CreatesExactly(cfg: Config, db: Db, req: Request, now: int)
    ensures |CreateJob(cfg, db, req, now).jobs| > |db.jobs|
      <==> WellFormed(cfg, req, now) && !KeyUsed(db, req) && ChainFits(db, req)
    ensures CreateOutcome(cfg, db, req, now).NewJob? <==> |CreateJob(cfg, db, req, now).jobs| > |db.jobs|
    ensures CreateOutcome(cfg, db, req, now).Existing? <==> WellFormed(cfg, req, now) && KeyUsed(db, req)
    ensures
      var r := CreateOutcome(cfg, db, req, now);
      (r.Existing? ==> r.id < |db.jobs| && SameKey(db.jobs[r.id], req))
      && (r.NewJob? ==> r.id == |db.jobs|)
      && (!r.NewJob? ==> CreateJob(cfg, db, req, now) == db)
  {
    ChecksExactly(cfg, req, now);
    KeyUsedIs(db, req);
    if req.triggerJob.Some? { ValidateChainExactly(db.jobs, req.owner, req.triggerJob.value); }
    CreateAddsJob(cfg, db, req, now);
  }

  lemma CreateAddsJob(cfg: Config, db: Db, req: Request, now: int)
    ensures |CreateJob(cfg, db, req, now).jobs| == |db.jobs| + if CreateOutcome(cfg, db, req, now).NewJob? then 1 else 0
  {
  }

  lemma KeyUsedIs(db: Db, req: Request)
    ensures KeyUsed(db, req) <==> exists j :: 0 <= j < |db.jobs| && KeyTaken(db.jobs, req.owner, req.key, j)
  {
    if KeyUsed(db, req) {
      var k :| 0 <= k < |db.jobs| && SameKey(db.jobs[k], req);
      assert KeyTaken(db.jobs, req.owner, req.key, k);
    }
    if j :| 0 <= j < |db.jobs| && KeyTaken(db.jobs, req.owner, req.key, j) {
      assert SameKey(db.jobs[j], req);
    }
  }

  // ---------------------------------------------------------------- the new rows

  /** The job row follows the request column by column: cron exactly for a recurring job, and the
      create predicate from trigger_on_status with SUCCEEDED as its default. */
  predicate RowFits(req: Request, job: Job) {
    job.owner == req.owner && job.action == req.action && job.key == req.key
    && job.state == Active && job.cancelledAt == None
    && (job.cron.Some? <==> req.schedule == "recurring")
    && (job.cron.Some? && req.cronExpr.Some? ==> job.cron.value.expr == req.cronExpr.value && job.cron.value.zone == req.zone)
    && (job.trigger.Some? <==> req.triggerJob.Some?)
    && (job.trigger.Some? && req.triggerJob.Some? ==>
          job.trigger.value.parent == req.triggerJob.value
          && (job.trigger.value.pred == OnFailed <==> req.triggerStatus == Some("FAILED"))
          && (job.trigger.value.pred == OnAny <==> req.triggerStatus == Some("ANY"))
          && (job.trigger.value.pred == OnSucceeded <==> req.triggerStatus == Some("SUCCEEDED") || req.triggerStatus == None))
  }

  /** at is when the request wants its first run: the parsed time of a one-shot, the earliest fire
      time not before now of a recurring job, and now otherwise. */
  ghost predicate WantedAt(cfg: Config, req: Request, now: int, at: int) {
    if req.schedule == "one-shot" then
      req.scheduledAt.Some? && cfg.parse(req.scheduledAt.value, req.zone) == Some(at)
    else if req.schedule == "recurring" then
      req.cronExpr.Some? && EarliestFrom(cfg.next, Cron(req.cronExpr.value, req.zone), now, at)
    else at == now
  }

  ghost predicate EarliestFrom(next: Calendar, c: Cron, now: int, at: int) {
    now <= at && Fires(next, c, at) && forall u :: now <= u < at ==> !Fires(next, c, u)
  }

  /** The first run of a scheduled job. */
  predicate FirstRun(req: Request, j: nat, run: Run) {
    run.job == j && run.owner == req.owner && run.status == Pending && run.cause == None
    && run.startAt == None && run.heartbeatAt == None
  }

  /** What a create that makes a job adds: one job row that fits the request, and for a scheduled
      job one PENDING run at the wanted time with its CREATED event; for a chained job no run. */
  lemma CreateEffect(cfg: Config, db: Db, req: Request, now: int)
    requires ValidCalendar(cfg.next) && CreateOutcome(cfg, db, req, now).NewJob?
    ensures
      var d := CreateJob(cfg, db, req, now);
      var j, r := |db.jobs|, |db.runs|;
      |d.jobs| == j + 1 && db.jobs <= d.jobs && RowFits(req, d.jobs[j])
      && db.runs <= d.runs && db.events <= d.events
      && (req.triggerJob.Some? ==> d.runs == db.runs && d.events == db.events)
      && (req.triggerJob.None? ==>
            |d.runs| == r + 1 && FirstRun(req, j, d.runs[r]) && WantedAt(cfg, req, now, d.runs[r].scheduledAt)
            && d.events == db.events + [Event(r, j, Created, None, Some(Pending), now, false)])
  {
    ChecksExactly(cfg, req, now);
    if req.schedule == "recurring" {
      NextAfterIsEarliest(cfg.next, Cron(req.cronExpr.value, req.zone), now);
    }
  }

  // ---------------------------------------------------------------- histories

  /** Run r is the only run of job j, was requested for at, and has not started a second early. */
  ghost predicate OnlyRunOnTime(db: Db, j: nat, r: nat, at: int) {
    r < |db.runs| && db.runs[r].job == j && db.runs[r].scheduledAt == at
    && (forall q :: 0 <= q < |db.runs| && db.runs[q].job == j ==> q == r)
    && (db.runs[r].startAt.Some? ==> db.runs[r].startAt.value > at - 1_000_000)
  }

  /** Over all later histories: a one-shot that is not chained has exactly one run, for the time its
      request named, and that run never starts a whole second early. */
  lemma OneShotRunsOnTime(cfg: Config, s: Sys, req: Request, trace: seq<Step>)
    requires ValidConfig(cfg) && Reachable(cfg, s) && CreateOutcome(cfg, s.db, req, s.now).NewJob?
    requires req.schedule == "one-shot" && req.triggerJob.None? && Admits(cfg, Apply(cfg, s, Create(req)), trace)
    ensures req.scheduledAt.Some? && cfg.parse(req.scheduledAt.value, req.zone).Some?
    ensures
      var u := Exec(cfg, Apply(cfg, s, Create(req)), trace);
      OnlyRunOnTime(u.db, |s.db.jobs|, |s.db.runs|, cfg.parse(req.scheduledAt.value, req.zone).value)
  {
    ReachableInv(cfg, s);
    CreateEffect(cfg, s.db, req, s.now);
    CreateStepKeeps(cfg, s, req);
    var t := s.(db := CreateJob(cfg, s.db, req, s.now));
    OnlyRunLater(cfg, t, |s.db.jobs|, |s.db.runs|, trace);
  }

  /** A run of a root that is not recurring stays its only run, at its time. */
  lemma OnlyRunLater(cfg: Config, t: Sys, j: nat, r: nat, trace: seq<Step>)
    requires ValidConfig(cfg) && Inv(cfg, t) && Admits(cfg, t, trace)
    requires j < |t.db.jobs| && t.db.jobs[j].cron.None? && t.db.jobs[j].trigger.None?
    requires r < |t.db.runs| && t.db.runs[r].job == j
    ensures OnlyRunOnTime(Exec(cfg, t, trace).db, j, r, t.db.runs[r].scheduledAt)
  {
    var u := Exec(cfg, t, trace);
    assert Evolves(t.db, u.db) by { ExecEvolves(cfg, t, trace); }
    assert Inv(cfg, u) by { ExecKeeps(cfg, t, trace); }
    assert RunEvolves(t.db.runs[r], u.db.runs[r]) && JobEvolves(t.db.jobs[j], u.db.jobs[j]);
    assert RunTimes(u.db.runs[r], u.now);
    forall q: nat | q < |u.db.runs| && u.db.runs[q].job == j ensures q == r {
      if q != r { Pairwise(u.db, q, r); }
    }
  }

  /** The first run of any scheduled job, recurring ones included, keeps the wanted time for good and
      never starts a whole second before it. */
  lemma FirstRunOnTime(cfg: Config, s: Sys, req: Request, trace: seq<Step>)
    requires ValidConfig(cfg) && Reachable(cfg, s) && CreateOutcome(cfg, s.db, req, s.now).NewJob?
    requires req.triggerJob.None? && Admits(cfg, Apply(cfg, s, Create(req)), trace)
    ensures
      var u := Exec(cfg, Apply(cfg, s, Create(req)), trace);
      var r := |s.db.runs|;
      r < |u.db.runs| && u.db.runs[r].job == |s.db.jobs| && WantedAt(cfg, req, s.now, u.db.runs[r].scheduledAt)
      && (u.db.runs[r].startAt.Some? ==> u.db.runs[r].startAt.value > u.db.runs[r].scheduledAt - 1_000_000)
  {
    ReachableInv(cfg, s);
    CreateEffect(cfg, s.db, req, s.now);
    CreateStepKeeps(cfg, s, req);
    var t := s.(db := CreateJob(cfg, s.db, req, s.now));
    var u := Exec(cfg, t, trace);
    assert Evolves(t.db, u.db) by { ExecEvolves(cfg, t, trace); }
    assert Inv(cfg, u) by { ExecKeeps(cfg, t, trace); }
    assert RunEvolves(t.db.runs[|s.db.runs|], u.db.runs[|s.db.runs|]) && RunTimes(u.db.runs[|s.db.runs|], u.now);
  }
}
