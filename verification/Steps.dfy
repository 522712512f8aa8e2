/** The execution plane as a labelled transition system: every transaction of the five actors is
    one step on the tables, and the queue, the live workers and the clock are the environment. */
module Steps {
  import opened Tables
  import opened Settle
  import opened CronTime
  import opened ChainWalk

  const LOOKAHEAD: int := 300 * SECOND

  /** What the code takes from settings, the action registry and its libraries. registry maps an
      action to its idempotency flag, operatorOnly holds those that require the operator;
      staleness bounds how old a live worker's lease can get; validCron, validZone and parse stand
      for cron validation, zoneinfo and ISO 8601 parsing in a zone. */
  datatype Config = Config(
    next: Calendar,
    registry: map<string, bool>,
    operatorOnly: set<string>,
    operator: Option<string>,
    validCron: string -> bool,
    validZone: string -> bool,
    parse: (string, string) -> Option<int>,
    staleness: int,
    runningGrace: int,
    dlqGrace: int,
    queuedGrace: int)

  ghost predicate ValidConfig(cfg: Config) {
    ValidCalendar(cfg.next) && 0 < cfg.staleness <= cfg.runningGrace
    && 0 <= cfg.dlqGrace && 0 <= cfg.queuedGrace
  }

  // ---------------------------------------------------------------- run_materializer.py

  datatype SpawnResult = Spawned(db: Db) | ConcurrencyError | IntegrityError

  /** The partial unique indexes on a run's cause: (job, wait_for_run_id) when it is set, and
      (job, scheduled_at) when it is not. */
  predicate Duplicate(runs: seq<Run>, j: nat, at: int, cause: Option<nat>) {
    exists r :: 0 <= r < |runs| && SameCause(runs[r], j, at, cause)
  }

  predicate SameCause(run: Run, j: nat, at: int, cause: Option<nat>) {
    run.job == j && run.cause == cause && (cause.None? ==> run.scheduledAt == at)
  }

  function NewRun(db: Db, j: nat, at: int, cause: Option<nat>, now: int): Run
    requires j < |db.jobs|
  {
    Run(j, db.jobs[j].owner, at, Pending, cause, None, None, now)
  }

  /** _spawn_run */
  function SpawnRun(db: Db, j: nat, at: int, cause: Option<nat>, now: int): SpawnResult
    requires j < |db.jobs|
  {
    if HasExecuting(db.runs, j) then ConcurrencyError
    else if Duplicate(db.runs, j, at, cause) then IntegrityError
    else Spawned(InsertRun(db, NewRun(db, j, at, cause, now), now))
  }

  // ---------------------------------------------------------------- jobs.py

  /** The arguments of create_job. zone is the resolved timezone. */
  datatype Request = Request(
    owner: string,
    action: string,
    schedule: string,
    scheduledAt: Option<string>,
    cronExpr: Option<string>,
    zone: string,
    key: Option<string>,
    triggerJob: Option<nat>,
    triggerStatus: Option<string>)

  datatype CreateError =
    | UnsupportedScheduleType | UnknownAction | OperatorOnly | InvalidTriggerStatus | RunSource
    | InvalidCron | InvalidTimezone | InvalidScheduledAt | ChainRejected(error: ChainError)

  datatype CreateResult = NewJob(id: nat) | Existing(id: nat) | Rejected(error: CreateError)

  /** trigger_on_status: SUCCEEDED is the default. */
  function PredicateOf(status: Option<string>): Option<Predicate> {
    if status.None? || status.value == "SUCCEEDED" then Some(OnSucceeded)
    else if status.value == "FAILED" then Some(OnFailed)
    else if status.value == "ANY" then Some(OnAny)
    else None
  }

  /** An empty cron_expr counts as absent. */
  predicate HasCron(req: Request) {
    req.cronExpr.Some? && req.cronExpr.value != ""
  }

  /** The checks create_job makes before it opens its transaction, in its order. */
  function CheckRequest(cfg: Config, req: Request, now: int): Option<CreateError> {
    if req.schedule != "immediate" && req.schedule != "one-shot" && req.schedule != "recurring" then
      Some(UnsupportedScheduleType)
    else if req.action !in cfg.registry then Some(UnknownAction)
    else if req.action in cfg.operatorOnly && cfg.operator != Some(req.owner) then Some(OperatorOnly)
    else if PredicateOf(req.triggerStatus).None? then Some(InvalidTriggerStatus)
    else if req.triggerJob.Some? && HasCron(req) then Some(RunSource)
    else CheckSchedule(cfg, req, now)
  }

  function CheckSchedule(cfg: Config, req: Request, now: int): Option<CreateError> {
    if req.schedule == "recurring" then
      if !HasCron(req) || !cfg.validCron(req.cronExpr.value) then Some(InvalidCron)
      else if !cfg.validZone(req.zone) then Some(InvalidTimezone)
      else None
    else if req.schedule == "one-shot" then
      if !cfg.validZone(req.zone) then Some(InvalidTimezone)
      else if !(ParsedAt(cfg, req).Some? && ParsedAt(cfg, req).value > now) then Some(InvalidScheduledAt)
      else None
    else None
  }

  /** scheduled_at as a time, if it is given and parses. */
  function ParsedAt(cfg: Config, req: Request): Option<int> {
    if req.scheduledAt.None? then None else cfg.parse(req.scheduledAt.value, req.zone)
  }

  function FirstRunAt(cfg: Config, req: Request, now: int): int
    requires CheckRequest(cfg, req, now).None?
  {
    if req.schedule == "recurring" then NextAfter(cfg.next, Cron(req.cronExpr.value, req.zone), now)
    else if req.schedule == "one-shot" then ParsedAt(cfg, req).value
    else now
  }

  predicate KeyTaken(jobs: seq<Job>, owner: string, key: Option<string>, j: nat)
    requires j < |jobs|
  {
    key.Some? && jobs[j].owner == owner && jobs[j].key == key
  }

  function JobRow(req: Request): Job
    requires PredicateOf(req.triggerStatus).Some?
  {
    Job(req.owner, req.action,
        if req.schedule == "recurring" && HasCron(req) then Some(Cron(req.cronExpr.value, req.zone)) else None,
        if req.triggerJob.Some? then Some(Trigger(req.triggerJob.value, PredicateOf(req.triggerStatus).value)) else None,
        req.key, Active, None)
  }

  function CreateOutcome(cfg: Config, db: Db, req: Request, now: int): CreateResult {
    if CheckRequest(cfg, req, now).Some? then Rejected(CheckRequest(cfg, req, now).value)
    else if exists j :: 0 <= j < |db.jobs| && KeyTaken(db.jobs, req.owner, req.key, j) then
      Existing(FindKey(db.jobs, req.owner, req.key))
    else if req.triggerJob.Some? && ValidateChain(db.jobs, req.owner, req.triggerJob.value).Some? then
      Rejected(ChainRejected(ValidateChain(db.jobs, req.owner, req.triggerJob.value).value))
    else NewJob(|db.jobs|)
  }

  /** The job holding (owner, key). */
  function FindKey(jobs: seq<Job>, owner: string, key: Option<string>): (k: nat)
    requires exists j :: 0 <= j < |jobs| && KeyTaken(jobs, owner, key, j)
    ensures k < |jobs| && KeyTaken(jobs, owner, key, k)
  {
    if KeyTaken(jobs, owner, key, |jobs| - 1) then |jobs| - 1
    else
      assert forall j :: 0 <= j < |jobs| - 1 ==> KeyTaken(jobs[..|jobs| - 1], owner, key, j) == KeyTaken(jobs, owner, key, j);
      FindKey(jobs[..|jobs| - 1], owner, key)
  }

  /** create_job */
  function CreateJob(cfg: Config, db: Db, req: Request, now: int): Db {
    if !CreateOutcome(cfg, db, req, now).NewJob? then db
    else
      var added := db.(jobs := db.jobs + [JobRow(req)]);
      if req.triggerJob.Some? then added
      else InsertRun(added, NewRun(added, |db.jobs|, FirstRunAt(cfg, req, now), None, now), now)
  }

  /** The loop of cancel_job over the job's runs, up to run n. */
  function FlipRuns(db: Db, j: nat, n: nat, now: int): (d: Db)
    requires n <= |db.runs|
    ensures |d.runs| == |db.runs| && d.jobs == db.jobs
  {
    if n == 0 then db
    else
      var d := FlipRuns(db, j, n - 1, now);
      if d.runs[n - 1].job == j && Claimable(d.runs[n - 1].status)
      then Transition(d, n - 1, d.runs[n - 1].(status := Cancelled), Ended(Cancelled), now)
      else d
  }

  predicate CanCancel(db: Db, owner: string, j: nat) {
    j < |db.jobs| && db.jobs[j].owner == owner && db.jobs[j].state.Active?
  }

  function StopJob(db: Db, j: nat, now: int): Db
    requires j < |db.jobs|
  {
    db.(jobs := db.jobs[j := db.jobs[j].(state := Stopped, cancelledAt := Some(now))])
  }

  /** cancel_job */
  ghost function CancelJob(db: Db, owner: string, j: nat, now: int): Db {
    if !CanCancel(db, owner, j) then db
    else
      var d := FlipRuns(StopJob(db, j, now), j, |db.runs|, now);
      d.(jobs := SettleDown(d.jobs, d.runs, j))
  }

  // ---------------------------------------------------------------- recurring_watcher.py

  /** _triggers_on: does a terminal status satisfy the create predicate? */
  predicate TriggersOn(pred: Predicate, status: Status) {
    match pred
    case OnSucceeded => status.Succeeded?
    case OnFailed => status.Failed?
    case OnAny => true
  }

  predicate EventInRange(db: Db, i: nat) {
    i < |db.events| && db.events[i].run < |db.runs| && db.events[i].job < |db.jobs|
  }

  function SuccessorAt(cfg: Config, db: Db, e: Event): int
    requires e.run < |db.runs| && e.job < |db.jobs| && db.jobs[e.job].cron.Some?
  {
    SuccessorTime(cfg.next, db.jobs[e.job].cron.value, db.runs[e.run].scheduledAt, e.at)
  }

  /** _materialize_recurring_successor: both errors are skips. */
  function Recur(cfg: Config, db: Db, e: Event, now: int): (d: Db)
    requires e.run < |db.runs| && e.job < |db.jobs|
    ensures d.jobs == db.jobs && |d.events| >= |db.events| && |d.runs| >= |db.runs|
  {
    if db.jobs[e.job].cron.None? || db.jobs[e.job].cancelledAt.Some? then db
    else
      var s := SpawnRun(db, e.job, SuccessorAt(cfg, db, e), None, now);
      if s.Spawned? then s.db else db
  }

  /** Active jobs with id below n that are triggered by p, in id order. */
  function Downstreams(jobs: seq<Job>, p: nat, n: nat): (ids: seq<nat>)
    requires n <= |jobs|
    ensures forall x: nat :: x in ids <==> x < n && IsActiveDownstream(jobs, p, x)
    ensures forall k :: 0 <= k < |ids| ==> ids[k] < n
    ensures forall i, k :: 0 <= i < k < |ids| ==> ids[i] < ids[k]
  {
    if n == 0 then []
    else if IsActiveDownstream(jobs, p, n - 1) then Downstreams(jobs, p, n - 1) + [n - 1]
    else Downstreams(jobs, p, n - 1)
  }

  /** ids lists the active downstreams of p, each once and in any order: the query has no ORDER BY. */
  ghost predicate ListsDownstreams(jobs: seq<Job>, p: nat, ids: seq<nat>) {
    (forall k :: 0 <= k < |ids| ==> IsActiveDownstream(jobs, p, ids[k]))
    && (forall i, k :: 0 <= i < k < |ids| ==> ids[i] != ids[k])
    && (forall x: nat :: IsActiveDownstream(jobs, p, x) ==> x in ids)
  }

  predicate IsActiveDownstream(jobs: seq<Job>, p: nat, x: nat) {
    x < |jobs| && jobs[x].state.Active? && jobs[x].trigger.Some? && jobs[x].trigger.value.parent == p
  }

  /** One iteration of _materialize_downstreams. */
  function Fire(db: Db, e: Event, c: nat, now: int): (d: Db)
    requires e.kind.Ended? && c < |db.jobs| && db.jobs[c].trigger.Some?
    ensures d.jobs == db.jobs && |d.events| >= |db.events| && |d.runs| >= |db.runs|
  {
    if !TriggersOn(db.jobs[c].trigger.value.pred, e.kind.status) then
      AppendEvent(db, Audit(e, SkippedPredicateMiss(c), now))
    else
      match SpawnRun(db, c, e.at, Some(e.run), now)
      case Spawned(d) => d
      case ConcurrencyError => AppendEvent(db, Audit(e, SkippedSlowConsumer(c), now))
      case IntegrityError => db
  }

  function FireAll(db: Db, e: Event, ids: seq<nat>, now: int): (d: Db)
    requires e.kind.Ended?
    requires forall k :: 0 <= k < |ids| ==> ids[k] < |db.jobs| && db.jobs[ids[k]].trigger.Some?
    ensures d.jobs == db.jobs && |d.events| >= |db.events| && |d.runs| >= |db.runs|
  {
    if ids == [] then db
    else Fire(FireAll(db, e, ids[..|ids| - 1], now), e, ids[|ids| - 1], now)
  }

  ghost function SettleEach(jobs: seq<Job>, runs: seq<Run>, ids: seq<nat>): (r: seq<Job>)
    ensures |r| == |jobs|
  {
    if ids == [] then jobs
    else SettleCheck(SettleEach(jobs, runs, ids[..|ids| - 1]), runs, ids[|ids| - 1])
  }

  /** ids are the downstream jobs one event is offered to, in the order the query returned them;
      none below a cancelled upstream. */
  ghost predicate Offering(db: Db, e: Event, ids: seq<nat>)
    requires e.job < |db.jobs|
  {
    if db.jobs[e.job].state.Stopped? then ids == [] else ListsDownstreams(db.jobs, e.job, ids)
  }

  /** There always is an order: by id, for one. */
  lemma SomeOffering(db: Db, e: Event) returns (ids: seq<nat>)
    requires e.job < |db.jobs|
    ensures Offering(db, e, ids)
  {
    ids := if db.jobs[e.job].state.Stopped? then [] else Downstreams(db.jobs, e.job, |db.jobs|);
    forall k | 0 <= k < |ids| ensures IsActiveDownstream(db.jobs, e.job, ids[k]) { assert ids[k] in ids; }
  }

  /** The continuation consumer on one terminal event. Nothing here looks at the processed mark, so
      the same function also describes a redelivered event. */
  ghost function Continue(cfg: Config, db: Db, i: nat, ids: seq<nat>, now: int): Db
    requires EventInRange(db, i) && db.events[i].kind.Ended? && Offering(db, db.events[i], ids)
  {
    var e := db.events[i];
    var fired := FireAll(Recur(cfg, db, e, now), e, ids, now);
    var settled := SettleEach(SettleCheck(fired.jobs, fired.runs, e.job), fired.runs, ids);
    Stamp(fired.(jobs := settled), i)
  }

  // ---------------------------------------------------------------- watcher.py, executor.py, reconciler.py

  function WatcherRow(db: Db, r: nat, now: int): Db
    requires r < |db.runs|
  {
    Transition(db, r, db.runs[r].(status := Queued, updatedAt := now), Enqueued, now)
  }

  /** Python's int() on a duration: whole seconds, truncated toward zero. */
  function TruncSeconds(us: int): int {
    if us >= 0 then us / SECOND else -((-us) / SECOND)
  }

  /** DelaySeconds of the watcher's queue entry. */
  function Delay(scheduledAt: int, now: int): (d: int)
    ensures d >= 0
  {
    if TruncSeconds(scheduledAt - now) > 0 then TruncSeconds(scheduledAt - now) else 0
  }

  /** _claim */
  function ClaimRow(db: Db, r: nat, now: int): Db
    requires r < |db.runs|
  {
    Transition(db, r, db.runs[r].(status := Running, startAt := Some(now), heartbeatAt := Some(now), updatedAt := now),
               Started, now)
  }

  /** _write_terminal and _write_permanent_failure, settle_job included. */
  function FinishRow(db: Db, r: nat, status: Status, now: int): Db
    requires r < |db.runs|
  {
    var d := Transition(db, r, db.runs[r].(status := status, updatedAt := now), Ended(status), now);
    d.(jobs := SettleSelf(d.jobs, db.runs[r].job))
  }

  /** _write_retrying */
  function RetryRow(db: Db, r: nat, now: int): Db
    requires r < |db.runs|
  {
    Transition(db, r, db.runs[r].(status := Retrying, updatedAt := now), Retry, now)
  }

  /** Sweep A on one row: it does not settle the job. */
  function SweepARow(db: Db, r: nat, now: int): Db
    requires r < |db.runs|
  {
    Transition(db, r, db.runs[r].(status := Failed, updatedAt := now), Ended(Failed), now)
  }

  /** Sweep B on one row whose send succeeded. */
  function SweepBRow(db: Db, r: nat, now: int): Db
    requires r < |db.runs|
  {
    Transition(db, r, db.runs[r].(updatedAt := now), Reenqueued, now)
  }

  /** An unknown action counts as not idempotent. */
  predicate Idempotent(cfg: Config, db: Db, r: nat)
    requires r < |db.runs|
  {
    db.runs[r].job < |db.jobs| && db.jobs[db.runs[r].job].action in cfg.registry
    && cfg.registry[db.jobs[db.runs[r].job].action]
  }

  /** Sweep C on one row. */
  function SweepCRow(cfg: Config, db: Db, r: nat, now: int): Db
    requires r < |db.runs|
  {
    if Idempotent(cfg, db, r)
    then Transition(db, r, db.runs[r].(status := Queued, updatedAt := now), Reenqueued, now)
    else FinishRow(db, r, Failed, now)
  }

  function HeartbeatRow(db: Db, r: nat, now: int): Db
    requires r < |db.runs|
  {
    db.(runs := db.runs[r := db.runs[r].(heartbeatAt := Some(now))])
  }

  predicate WatcherDue(db: Db, r: nat, now: int) {
    r < |db.runs| && db.runs[r].status.Pending? && db.runs[r].scheduledAt < now + LOOKAHEAD
  }

  predicate SweepADue(cfg: Config, db: Db, r: nat, now: int) {
    r < |db.runs| && db.runs[r].status.Retrying? && db.runs[r].updatedAt < now - cfg.dlqGrace
  }

  predicate SweepBDue(cfg: Config, db: Db, r: nat, now: int) {
    r < |db.runs| && db.runs[r].status.Queued? && db.runs[r].updatedAt < now - cfg.queuedGrace
    && db.runs[r].scheduledAt < now
  }

  predicate SweepCDue(cfg: Config, db: Db, r: nat, now: int) {
    r < |db.runs| && db.runs[r].status.Running?
    && (db.runs[r].heartbeatAt.None? || db.runs[r].heartbeatAt.value < now - cfg.runningGrace)
  }

  // ---------------------------------------------------------------- the whole system

  /** A queue message: it may be delivered, any number of times, from visibleAt on. */
  datatype Message = Message(run: nat, visibleAt: int)

  /** A committed row whose message is still to be sent; delay in seconds. */
  datatype Entry = Entry(run: nat, delay: int)

  /** holders maps each live worker to the run it claimed and has not written back yet. */
  datatype Sys = Sys(
    db: Db,
    outgoing: multiset<Entry>,
    queue: multiset<Message>,
    holders: map<nat, nat>,
    now: int)

  datatype Step =
    | Create(req: Request)
    | Cancel(owner: string, job: nat)
    | WatcherCommit(run: nat)
    | Deliver(entry: Entry)               // a post-commit send that succeeds
    | DropEntry(entry: Entry)             // one that fails, or whose sender died
    | LoseMessage(message: Message)       // deleted, or routed to the dead-letter queue
    | Claim(worker: nat, message: Message)
    | Heartbeat(worker: nat)
    | Finish(worker: nat, ok: bool)
    | RetryLater(worker: nat)
    | Crash(worker: nat)
    | SweepA(run: nat)
    | SweepB(run: nat, committed: bool)   // the send precedes the commit, which may roll back
    | SweepC(run: nat)
    | Process(event: nat, order: seq<nat>) // first delivery or redelivery; order of the downstreams
    | Tick(d: int)

  predicate Holds(s: Sys, w: nat) {
    w in s.holders && s.holders[w] < |s.db.runs|
  }

  /** The lease hypothesis: no live worker's heartbeat is older than the staleness bound. */
  ghost predicate LeasesFresh(cfg: Config, s: Sys, now: int) {
    forall w :: w in s.holders && s.holders[w] < |s.db.runs| && s.db.runs[s.holders[w]].heartbeatAt.Some? ==>
      now - s.db.runs[s.holders[w]].heartbeatAt.value <= cfg.staleness
  }

  ghost predicate Enabled(cfg: Config, s: Sys, step: Step) {
    match step
    case Create(_) => true
    case Cancel(_, _) => true
    case WatcherCommit(r) => WatcherDue(s.db, r, s.now)
    case Deliver(e) => e in s.outgoing
    case DropEntry(e) => e in s.outgoing
    case LoseMessage(m) => m in s.queue
    case Claim(w, m) => m in s.queue && m.visibleAt <= s.now && w !in s.holders
                        && m.run < |s.db.runs| && Claimable(s.db.runs[m.run].status)
    case Heartbeat(w) => Holds(s, w)
    case Finish(w, _) => Holds(s, w)
    case RetryLater(w) => Holds(s, w)
    case Crash(w) => w in s.holders
    case SweepA(r) => SweepADue(cfg, s.db, r, s.now)
    case SweepB(r, _) => SweepBDue(cfg, s.db, r, s.now)
    case SweepC(r) => SweepCDue(cfg, s.db, r, s.now)
    case Process(i, ids) => EventInRange(s.db, i) && s.db.events[i].kind.Ended? && Offering(s.db, s.db.events[i], ids)
    case Tick(d) => d >= 0 && LeasesFresh(cfg, s, s.now + d)
  }

  ghost function Apply(cfg: Config, s: Sys, step: Step): Sys
    requires Enabled(cfg, s, step)
  {
    match step
    case Create(req) => s.(db := CreateJob(cfg, s.db, req, s.now))
    case Cancel(owner, j) => s.(db := CancelJob(s.db, owner, j, s.now))
    case WatcherCommit(r) =>
      s.(db := WatcherRow(s.db, r, s.now),
         outgoing := s.outgoing + multiset{Entry(r, Delay(s.db.runs[r].scheduledAt, s.now))})
    case Deliver(e) =>
      s.(outgoing := s.outgoing - multiset{e}, queue := s.queue + multiset{Message(e.run, s.now + e.delay * SECOND)})
    case DropEntry(e) => s.(outgoing := s.outgoing - multiset{e})
    case LoseMessage(m) => s.(queue := s.queue - multiset{m})
    case Claim(w, m) => s.(db := ClaimRow(s.db, m.run, s.now), holders := s.holders[w := m.run])
    case Heartbeat(w) => s.(db := HeartbeatRow(s.db, s.holders[w], s.now))
    case Finish(w, ok) =>
      s.(db := FinishRow(s.db, s.holders[w], if ok then Succeeded else Failed, s.now), holders := s.holders - {w})
    case RetryLater(w) => s.(db := RetryRow(s.db, s.holders[w], s.now), holders := s.holders - {w})
    case Crash(w) => s.(holders := s.holders - {w})
    case SweepA(r) => s.(db := SweepARow(s.db, r, s.now))
    case SweepB(r, committed) =>
      s.(db := if committed then SweepBRow(s.db, r, s.now) else s.db, queue := s.queue + multiset{Message(r, s.now)})
    case SweepC(r) =>
      s.(db := SweepCRow(cfg, s.db, r, s.now),
         outgoing := if Idempotent(cfg, s.db, r) then s.outgoing + multiset{Entry(r, 0)} else s.outgoing)
    case Process(i, ids) => s.(db := Continue(cfg, s.db, i, ids, s.now))
    case Tick(d) => s.(now := s.now + d)
  }

  ghost function Init(now: int): Sys {
    Sys(Db([], [], []), multiset{}, multiset{}, map[], now)
  }

  /** Each step of the trace is enabled where it is taken. */
  ghost predicate Admits(cfg: Config, s: Sys, trace: seq<Step>)
    decreases |trace|
  {
    trace == [] || (Enabled(cfg, s, trace[0]) && Admits(cfg, Apply(cfg, s, trace[0]), trace[1..]))
  }

  ghost function Exec(cfg: Config, s: Sys, trace: seq<Step>): Sys
    requires Admits(cfg, s, trace)
    decreases |trace|
  {
    if trace == [] then s else Exec(cfg, Apply(cfg, s, trace[0]), trace[1..])
  }

  /** Some history from the empty tables ends in s. */
  ghost predicate Reachable(cfg: Config, s: Sys) {
    exists t0, trace :: Admits(cfg, Init(t0), trace) && Exec(cfg, Init(t0), trace) == s
  }

  lemma Single(cfg: Config, s: Sys, step: Step)
    requires Enabled(cfg, s, step)
    ensures Admits(cfg, s, [step]) && Exec(cfg, s, [step]) == Apply(cfg, s, step)
  {
    assert [step][1..] == [];
  }

  lemma {:induction false} ExecConcat(cfg: Config, s: Sys, a: seq<Step>, b: seq<Step>)
    requires Admits(cfg, s, a) && Admits(cfg, Exec(cfg, s, a), b)
    ensures Admits(cfg, s, a + b) && Exec(cfg, s, a + b) == Exec(cfg, Exec(cfg, s, a), b)
    decreases |a|
  {
    if a == [] {
      assert a + b == b;
    } else {
      ExecConcat(cfg, Apply(cfg, s, a[0]), a[1..], b);
      assert (a + b)[1..] == a[1..] + b;
    }
  }
}
