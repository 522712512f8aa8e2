/** What the remaining table primitives do to the invariant: lifecycle changes of jobs, inserted
    runs and jobs, audit events and the consumer's stamp. */
module Changes {
  import opened Tables
  import opened Settle
  import opened CronTime
  import opened Steps
  import opened Invariant
  import opened Moves

  // ---------------------------------------------------------------- job lifecycle changes

  /** Successor facts survive any change of lifecycle columns. */
  lemma TicksKept(cfg: Config, db: Db, jobs2: seq<Job>, open: int)
    requires Ticks(cfg, db, open) && SameShape(db.jobs, jobs2)
    requires forall j :: 0 <= j < |jobs2| && jobs2[j].cron.Some? && jobs2[j].state.Active? ==> db.jobs[j].state.Active?
    ensures Ticks(cfg, db.(jobs := jobs2), open)
  {
    var d := db.(jobs := jobs2);
    forall i: nat | i < |d.events| && i != open ensures EndOk(cfg, d, i) {
      assert EndOk(cfg, db, i);
      if q: nat :| q < |db.runs| && IsSuccessor(cfg, db, i, q) {
        assert IsSuccessor(cfg, d, i, q);
      }
    }
    forall q: nat | q < |d.runs| ensures TickOk(cfg, d, q) {
      assert TickOk(cfg, db, q);
      if i: nat :| i < |db.events| && IsSuccessor(cfg, db, i, q)
                   && (forall x :: db.events[i].run < x < q ==> db.runs[x].job != db.runs[q].job) {
        SuccessorKept(cfg, db, d, i, q);
      }
    }
  }

  /** Order and outbox do not read lifecycle columns at all. */
  lemma OrderKept(db: Db, jobs2: seq<Job>)
    requires RunsOk(db) && Serial(db) && EventsOk(db) && LogOk(db) && OneEnd(db) && SameShape(db.jobs, jobs2)
    requires RunsOk(db.(jobs := jobs2))
    ensures Serial(db.(jobs := jobs2)) && EventsOk(db.(jobs := jobs2)) && LogOk(db.(jobs := jobs2)) && OneEnd(db.(jobs := jobs2))
  {
    var d := db.(jobs := jobs2);
    forall a: nat, b: nat | a < b < |d.runs| ensures RunOk(d, a) && InOrder(d, a, b) {
      assert RunOk(d, a) && RunOk(db, a) && InOrder(db, a, b);
    }
    forall i: nat | i < |d.events| ensures EventOk(d, i) {
      assert EventOk(db, i);
    }
  }

  lemma SettleRows(db: Db, jobs2: seq<Job>)
    requires JobsOk(db) && RunsOk(db) && Settles(db.jobs, db.runs, jobs2)
    ensures JobsOk(db.(jobs := jobs2)) && RunsOk(db.(jobs := jobs2)) && SameShape(db.jobs, jobs2)
  {
    var d := db.(jobs := jobs2);
    forall j: nat | j < |d.jobs| ensures JobOk(d.jobs, j) {
      assert JobOk(db.jobs, j);
    }
    forall r: nat | r < |d.runs| ensures RunOk(d, r) {
      assert RunOk(db, r);
    }
  }

  /** Completing free jobs whose parents are over strands nobody new. */
  lemma SettleKeeps(cfg: Config, db: Db, jobs2: seq<Job>, exempt: set<nat>, open: int)
    requires Mid(cfg, db, exempt, open) && Settles(db.jobs, db.runs, jobs2)
    requires forall x :: 0 <= x < |jobs2| && Exhausted(jobs2, db.runs, x) ==> Exhausted(db.jobs, db.runs, x) && x !in exempt
    requires forall x :: 0 <= x < |jobs2| && x in exempt ==> db.jobs[x].cron.None?
    ensures Mid(cfg, db.(jobs := jobs2), {}, open)
  {
    var d := db.(jobs := jobs2);
    SettleRows(db, jobs2);
    OrderKept(db, jobs2);
    TicksKept(cfg, db, jobs2, open);
    forall j: nat | j < |d.jobs| ensures NotStranded(d, j) && NotDry(d, j) {
      if j !in exempt { assert NotStranded(db, j) && NotDry(db, j); }
    }
  }

  lemma ForestOf(db: Db)
    requires JobsOk(db)
    ensures Forest(db.jobs)
  {
    forall j: nat | j < |db.jobs| && db.jobs[j].trigger.Some? ensures db.jobs[j].trigger.value.parent < j {
      assert JobOk(db.jobs, j);
    }
  }

  lemma SettleCheckKeeps(cfg: Config, db: Db, j: nat, open: int)
    requires Mid(cfg, db, {}, open)
    ensures Mid(cfg, db.(jobs := SettleCheck(db.jobs, db.runs, j)), {}, open)
  {
    ForestOf(db);
    SettleCheckSettles(db.jobs, db.runs, j);
    SettleKeeps(cfg, db, SettleCheck(db.jobs, db.runs, j), {}, open);
  }

  /** settle_job leaves the children waiting on the terminal event of the same transaction. */
  lemma SettleSelfKeeps(cfg: Config, db: Db, j: nat, open: int)
    requires Mid(cfg, db, {}, open)
    requires j < |db.jobs| && HasPending(db.events, j) && !HasExecuting(db.runs, j)
    ensures Mid(cfg, db.(jobs := SettleSelf(db.jobs, j)), {}, open)
  {
    var jobs2 := SettleSelf(db.jobs, j);
    var d := db.(jobs := jobs2);
    assert Settles(db.jobs, db.runs, jobs2);
    SettleRows(db, jobs2);
    OrderKept(db, jobs2);
    TicksKept(cfg, db, jobs2, open);
    forall x: nat | x < |d.jobs| ensures NotStranded(d, x) && NotDry(d, x) {
      assert NotStranded(db, x) && NotDry(db, x) && JobOk(db.jobs, x);
    }
  }

  ghost function ChildrenOf(jobs: seq<Job>, p: nat): set<nat> {
    set x: nat | x < |jobs| && IsChild(jobs, p, x)
  }

  /** Cancelling a job can strand only its direct downstreams, which the cascade then visits. */
  lemma StopKeeps(cfg: Config, db: Db, j: nat, now: int)
    requires DbInv(cfg, db) && j < |db.jobs| && db.jobs[j].state.Active?
    ensures Mid(cfg, StopJob(db, j, now), ChildrenOf(db.jobs, j), -1)
  {
    var d := StopJob(db, j, now);
    forall x: nat | x < |d.jobs| ensures JobOk(d.jobs, x) {
      assert JobOk(db.jobs, x);
    }
    forall r: nat | r < |d.runs| ensures RunOk(d, r) {
      assert RunOk(db, r);
    }
    OrderKept(db, d.jobs);
    TicksKept(cfg, db, d.jobs, -1);
    forall x: nat | x < |d.jobs| && x !in ChildrenOf(db.jobs, j) ensures NotStranded(d, x) && NotDry(d, x) {
      assert NotStranded(db, x) && NotDry(db, x) && JobOk(db.jobs, x);
    }
  }

  // ---------------------------------------------------------------- inserted runs

  /** run is due right after the terminal event at index i, which belongs to the job's newest run. */
  ghost predicate Follows(cfg: Config, db: Db, run: Run, i: int) {
    0 <= i < |db.events|
    && var e := db.events[i];
    e.kind.Ended? && e.job == run.job && e.run < |db.runs| && db.runs[e.run].job == run.job
    && run.job < |db.jobs| && db.jobs[run.job].cron.Some?
    && run.scheduledAt == SuccessorAt(cfg, db, e)
    && Newest(db.runs, run.job, e.run)
  }

  ghost predicate CanInsert(cfg: Config, db: Db, run: Run, open: int) {
    run.job < |db.jobs| && db.jobs[run.job].state.Active? && run.status.Pending?
    && run.owner == db.jobs[run.job].owner
    && !HasExecuting(db.runs, run.job)
    && (run.cause.Some? <==> db.jobs[run.job].trigger.Some?)
    && (run.cause.Some? ==>
          var u := run.cause.value;
          u < |db.runs| && db.runs[u].job == db.jobs[run.job].trigger.value.parent
          && (db.runs[u].status.Succeeded? || db.runs[u].status.Failed?)
          && TriggersOn(db.jobs[run.job].trigger.value.pred, db.runs[u].status)
          && !Duplicate(db.runs, run.job, run.scheduledAt, run.cause))
    && (run.cause.None? ==>
          (forall r :: 0 <= r < |db.runs| ==> db.runs[r].job != run.job) || Follows(cfg, db, run, open))
  }

  lemma InsertRuns(cfg: Config, db: Db, run: Run, now: int, open: int)
    requires ValidCalendar(cfg.next) && JobsOk(db) && RunsOk(db) && Serial(db) && CanInsert(cfg, db, run, open)
    ensures RunsOk(InsertRun(db, run, now)) && Serial(InsertRun(db, run, now))
  {
    var d := InsertRun(db, run, now);
    assert JobOk(db.jobs, run.job);
    forall q: nat | q < |d.runs| ensures RunOk(d, q) {
      if q < |db.runs| { assert RunOk(db, q); }
    }
    forall a: nat, b: nat | a < b < |d.runs| ensures RunOk(d, a) && InOrder(d, a, b) {
      assert RunOk(d, a) && RunOk(db, a);
      if b < |db.runs| {
        assert InOrder(db, a, b);
      } else if db.runs[a].job == run.job {
        InsertAfter(cfg, db, run, open, a);
        assert !Executing(db.runs[a].status);
        if run.cause.Some? { assert !SameCause(db.runs[a], run.job, run.scheduledAt, run.cause); }
      }
    }
  }

  /** A successor's tick lies after every earlier tick of the job. */
  lemma InsertAfter(cfg: Config, db: Db, run: Run, open: int, a: nat)
    requires ValidCalendar(cfg.next) && RunsOk(db) && Serial(db) && CanInsert(cfg, db, run, open)
    requires a < |db.runs| && db.runs[a].job == run.job
    ensures db.jobs[run.job].cron.Some? && run.cause.None? ==> db.runs[a].scheduledAt < run.scheduledAt
  {
    if db.jobs[run.job].cron.Some? && run.cause.None? {
      var e := db.events[open];
      SuccessorIsEarliest(cfg.next, db.jobs[run.job].cron.value, db.runs[e.run].scheduledAt, e.at);
      if a < e.run { assert RunOk(db, a) && InOrder(db, a, e.run); }
    }
  }

  lemma InsertEvents(db: Db, run: Run, now: int)
    requires RunsOk(db) && EventsOk(db) && LogOk(db) && OneEnd(db) && run.status.Pending?
    ensures EventsOk(InsertRun(db, run, now)) && LogOk(InsertRun(db, run, now)) && OneEnd(InsertRun(db, run, now))
  {
    var d := InsertRun(db, run, now);
    UnseenRun(db, db.events, |db.runs|);
    assert d.events[..|db.events|] == db.events;
    forall i: nat | i < |d.events| ensures EventOk(d, i) {
      if i < |db.events| {
        assert EventOk(db, i) && d.events[..i] == db.events[..i];
      }
    }
    forall q: nat | q < |d.runs| ensures LogStatus(d.events, q) == Some(d.runs[q].status) {
      LogAppend(db.events, d.events[|db.events|], q);
    }
  }

  /** The log says nothing about a run that does not exist. */
  lemma {:induction false} UnseenRun(db: Db, events: seq<Event>, r: nat)
    requires EventsOk(db) && events <= db.events && r >= |db.runs|
    ensures LogStatus(events, r) == None
    decreases |events|
  {
    if events != [] {
      assert EventOk(db, |events| - 1);
      UnseenRun(db, events[..|events| - 1], r);
    }
  }

  lemma InsertLifecycle(db: Db, run: Run, now: int, exempt: set<nat>)
    requires Lifecycle(db, exempt) && Executing(run.status)
    ensures Lifecycle(InsertRun(db, run, now), exempt - {run.job})
  {
    var d := InsertRun(db, run, now);
    var e := d.events[|db.events|];
    assert d.runs[|db.runs|] == run;
    forall j: nat | j < |d.jobs| && j !in exempt - {run.job} ensures NotStranded(d, j) && NotDry(d, j) {
      if j == run.job {
        assert HasExecuting(d.runs, j);
      } else {
        assert NotStranded(db, j) && NotDry(db, j);
        PendingGrows(db.events, e, j);
        if d.jobs[j].trigger.Some? { PendingGrows(db.events, e, d.jobs[j].trigger.value.parent); }
        if q: nat :| q < |db.runs| && db.runs[q].job == j && Executing(db.runs[q].status) {
          assert d.runs[q] == db.runs[q];
        }
      }
    }
  }

  /** Only the open event can belong to the newest run of a job that gets a successor. */
  lemma OnlyOpen(cfg: Config, db: Db, run: Run, open: int, i: nat)
    requires JobsOk(db) && RunsOk(db) && EventsOk(db) && OneEnd(db) && Ticks(cfg, db, open) && CanInsert(cfg, db, run, open)
    requires i < |db.events| && i != open && db.events[i].kind.Ended? && db.events[i].job == run.job
    requires db.jobs[run.job].cron.Some?
    ensures db.events[i].processed
  {
    assert EventOk(db, i) && EndOk(cfg, db, i) && JobOk(db.jobs, run.job);
    assert db.runs[db.events[i].run].job == run.job;
    assert Follows(cfg, db, run, open);
  }

  lemma InsertTicks(cfg: Config, db: Db, run: Run, now: int, open: int)
    requires JobsOk(db) && RunsOk(db) && EventsOk(db) && OneEnd(db) && Ticks(cfg, db, open) && CanInsert(cfg, db, run, open)
    ensures Ticks(cfg, InsertRun(db, run, now), open)
  {
    var d := InsertRun(db, run, now);
    assert JobOk(db.jobs, run.job);
    forall i: nat | i < |d.events| && i != open ensures EndOk(cfg, d, i) {
      if i < |db.events| {
        assert EndOk(cfg, db, i) && EventOk(db, i);
        if q: nat :| q < |db.runs| && IsSuccessor(cfg, db, i, q) {
          assert IsSuccessor(cfg, d, i, q);
        }
        if db.events[i].kind.Ended? && db.events[i].job == run.job && db.jobs[run.job].cron.Some? {
          OnlyOpen(cfg, db, run, open, i);
        }
      }
    }
    forall q: nat | q < |d.runs| ensures TickOk(cfg, d, q) {
      if q < |db.runs| {
        assert TickOk(cfg, db, q);
        if i: nat :| i < |db.events| && IsSuccessor(cfg, db, i, q)
                     && (forall x :: db.events[i].run < x < q ==> db.runs[x].job != db.runs[q].job) {
          SuccessorKept(cfg, db, d, i, q);
        }
      } else if run.cause.None? && Follows(cfg, db, run, open) {
        assert IsSuccessor(cfg, d, open, q);
      }
    }
  }

  lemma InsertKeeps(cfg: Config, db: Db, run: Run, now: int, exempt: set<nat>, open: int)
    requires ValidCalendar(cfg.next) && Mid(cfg, db, exempt, open) && CanInsert(cfg, db, run, open)
    ensures Mid(cfg, InsertRun(db, run, now), exempt - {run.job}, open)
  {
    InsertRuns(cfg, db, run, now, open);
    InsertEvents(db, run, now);
    InsertLifecycle(db, run, now, exempt);
    InsertTicks(cfg, db, run, now, open);
  }

  // ---------------------------------------------------------------- inserted jobs

  ghost predicate CanAdd(db: Db, job: Job) {
    job.state.Active? && job.cancelledAt.None?
    && (job.trigger.Some? ==>
          job.cron.None? && job.trigger.value.parent < |db.jobs|
          && db.jobs[job.trigger.value.parent].state.Active? && db.jobs[job.trigger.value.parent].owner == job.owner)
  }

  lemma AddJobKeeps(cfg: Config, db: Db, job: Job)
    requires DbInv(cfg, db) && CanAdd(db, job)
    ensures Mid(cfg, db.(jobs := db.jobs + [job]), if job.trigger.Some? then {} else {|db.jobs|}, -1)
  {
    var d := db.(jobs := db.jobs + [job]);
    forall x: nat | x < |d.jobs| ensures JobOk(d.jobs, x) {
      if x < |db.jobs| { assert JobOk(db.jobs, x); }
    }
    forall r: nat | r < |d.runs| ensures RunOk(d, r) {
      assert RunOk(db, r);
    }
    forall a: nat, b: nat | a < b < |d.runs| ensures RunOk(d, a) && InOrder(d, a, b) {
      assert RunOk(d, a) && RunOk(db, a) && InOrder(db, a, b);
    }
    forall i: nat | i < |d.events| ensures EventOk(d, i) {
      assert EventOk(db, i);
    }
    AddJobLifecycle(cfg, db, job);
    AddJobTicks(cfg, db, job);
  }

  lemma AddJobLifecycle(cfg: Config, db: Db, job: Job)
    requires DbInv(cfg, db) && CanAdd(db, job)
    ensures Lifecycle(db.(jobs := db.jobs + [job]), if job.trigger.Some? then {} else {|db.jobs|})
  {
    var d := db.(jobs := db.jobs + [job]);
    var exempt := if job.trigger.Some? then {} else {|db.jobs|};
    forall j: nat | j < |d.jobs| && j !in exempt ensures NotStranded(d, j) && NotDry(d, j) {
      if j < |db.jobs| {
        assert NotStranded(db, j) && NotDry(db, j) && JobOk(db.jobs, j);
      }
    }
  }

  lemma AddJobTicks(cfg: Config, db: Db, job: Job)
    requires DbInv(cfg, db)
    ensures Ticks(cfg, db.(jobs := db.jobs + [job]), -1)
  {
    var d := db.(jobs := db.jobs + [job]);
    forall i: nat | i < |d.events| ensures EndOk(cfg, d, i) {
      assert EndOk(cfg, db, i) && EventOk(db, i) && RunOk(db, db.events[i].run);
      if q: nat :| q < |db.runs| && IsSuccessor(cfg, db, i, q) {
        assert IsSuccessor(cfg, d, i, q);
      }
    }
    forall q: nat | q < |d.runs| ensures TickOk(cfg, d, q) {
      assert TickOk(cfg, db, q) && RunOk(db, q);
      if i: nat :| i < |db.events| && IsSuccessor(cfg, db, i, q)
                   && (forall x :: db.events[i].run < x < q ==> db.runs[x].job != db.runs[q].job) {
        SuccessorKept(cfg, db, d, i, q);
      }
    }
  }

  // ---------------------------------------------------------------- audit events and the stamp

  lemma AuditKeeps(cfg: Config, db: Db, e: Event, exempt: set<nat>, open: int)
    requires Mid(cfg, db, exempt, open)
    requires e.run < |db.runs| && e.job == db.runs[e.run].job && e.to.None?
    requires e.kind.SkippedPredicateMiss? || e.kind.SkippedSlowConsumer?
    ensures Mid(cfg, AppendEvent(db, e), exempt, open)
  {
    var d := AppendEvent(db, e);
    assert RunsOk(d) by {
      forall r: nat | r < |d.runs| ensures RunOk(d, r) { assert RunOk(db, r); }
    }
    forall a: nat, b: nat | a < b < |d.runs| ensures RunOk(d, a) && InOrder(d, a, b) {
      assert RunOk(d, a) && RunOk(db, a) && InOrder(db, a, b);
    }
    forall i: nat | i < |d.events| ensures EventOk(d, i) {
      if i < |db.events| { assert EventOk(db, i) && d.events[..i] == db.events[..i]; }
    }
    forall q: nat | q < |d.runs| ensures LogStatus(d.events, q) == Some(d.runs[q].status) {
      LogAppend(db.events, e, q);
    }
    AuditLifecycle(db, e, exempt);
    AuditTicks(cfg, db, e, open);
  }

  lemma AuditLifecycle(db: Db, e: Event, exempt: set<nat>)
    requires Lifecycle(db, exempt)
    ensures Lifecycle(AppendEvent(db, e), exempt)
  {
    var d := AppendEvent(db, e);
    forall j: nat | j < |d.jobs| && j !in exempt ensures NotStranded(d, j) && NotDry(d, j) {
      assert NotStranded(db, j) && NotDry(db, j);
      PendingGrows(db.events, e, j);
      if d.jobs[j].trigger.Some? { PendingGrows(db.events, e, d.jobs[j].trigger.value.parent); }
    }
  }

  lemma AuditTicks(cfg: Config, db: Db, e: Event, open: int)
    requires Ticks(cfg, db, open) && !e.kind.Ended?
    ensures Ticks(cfg, AppendEvent(db, e), open)
  {
    var d := AppendEvent(db, e);
    forall i: nat | i < |d.events| && i != open ensures EndOk(cfg, d, i) {
      if i < |db.events| {
        assert EndOk(cfg, db, i);
        if q: nat :| q < |db.runs| && IsSuccessor(cfg, db, i, q) {
          assert IsSuccessor(cfg, d, i, q);
        }
      }
    }
    forall q: nat | q < |d.runs| ensures TickOk(cfg, d, q) {
      assert TickOk(cfg, db, q);
      if i: nat :| i < |db.events| && IsSuccessor(cfg, db, i, q)
                   && (forall x :: db.events[i].run < x < q ==> db.runs[x].job != db.runs[q].job) {
        SuccessorKept(cfg, db, d, i, q);
      }
    }
  }

  /** The stamp is invisible to the log. */
  lemma {:induction false} LogStamp(events: seq<Event>, i: nat, r: nat)
    requires i < |events|
    ensures LogStatus(events[i := events[i].(processed := true)], r) == LogStatus(events, r)
    decreases |events|
  {
    var n := |events| - 1;
    var stamped := events[i := events[i].(processed := true)];
    if i < n {
      assert stamped[..n] == events[..n][i := events[..n][i].(processed := true)];
      LogStamp(events[..n], i, r);
    } else {
      assert stamped[..n] == events[..n];
    }
  }

  /** Stamping event i is safe once nothing depends on it any more: its job and its job's
      downstreams are settled or busy, and an active recurring root has its successor. */
  lemma StampKeeps(cfg: Config, db: Db, i: nat)
    requires Mid(cfg, db, {}, i) && i < |db.events| && db.events[i].kind.Ended?
    requires forall x :: 0 <= x < |db.jobs| && Exhausted(db.jobs, db.runs, x) ==> Unneeded(db, i, x)
    requires EndOk(cfg, Stamp(db, i), i)
    requires var j := db.events[i].job; j < |db.jobs| && db.jobs[j].cron.Some? && db.jobs[j].state.Active? ==> HasExecuting(db.runs, j) || HasPending(Stamp(db, i).events, j)
    ensures DbInv(cfg, Stamp(db, i))
  {
    var d := Stamp(db, i);
    assert RunsOk(d) by {
      forall r: nat | r < |d.runs| ensures RunOk(d, r) { assert RunOk(db, r); }
    }
    forall a: nat, b: nat | a < b < |d.runs| ensures RunOk(d, a) && InOrder(d, a, b) {
      assert RunOk(d, a) && RunOk(db, a) && InOrder(db, a, b);
    }
    forall r: nat | r < |d.runs| ensures LogStatus(d.events, r) == Some(d.runs[r].status) {
      LogStamp(db.events, i, r);
    }
    StampEvents(db, i);
    StampLifecycle(db, i);
    StampTicks(cfg, db, i);
  }

  /** Job x does not wait for event i. */
  ghost predicate Unneeded(db: Db, i: nat, x: nat)
    requires i < |db.events| && x < |db.jobs|
  {
    x != db.events[i].job
    && (db.events[i].job < |db.jobs| && IsChild(db.jobs, db.events[i].job, x) ==> db.jobs[db.events[i].job].state.Stopped?)
  }

  lemma StampEvents(db: Db, i: nat)
    requires EventsOk(db) && OneEnd(db) && i < |db.events|
    ensures EventsOk(Stamp(db, i)) && OneEnd(Stamp(db, i))
  {
    var d := Stamp(db, i);
    forall k: nat | k < |d.events| ensures EventOk(d, k) {
      assert EventOk(db, k);
      if i < k {
        assert d.events[..k] == db.events[..k][i := db.events[..k][i].(processed := true)];
        LogStamp(db.events[..k], i, db.events[k].run);
      } else {
        assert d.events[..k] == db.events[..k];
      }
    }
  }

  /** Pending events of other jobs survive the stamp. */
  lemma PendingKept(db: Db, i: nat, j: nat)
    requires i < |db.events| && db.events[i].job != j
    ensures HasPending(db.events, j) ==> HasPending(Stamp(db, i).events, j)
  {
    if k: nat :| k < |db.events| && IsPending(db.events[k], j) {
      assert IsPending(Stamp(db, i).events[k], j);
    }
  }

  lemma StampLifecycle(db: Db, i: nat)
    requires Lifecycle(db, {}) && i < |db.events|
    requires forall x :: 0 <= x < |db.jobs| && Exhausted(db.jobs, db.runs, x) ==> Unneeded(db, i, x)
    requires var j := db.events[i].job; j < |db.jobs| && db.jobs[j].cron.Some? && db.jobs[j].state.Active? ==> HasExecuting(db.runs, j) || HasPending(Stamp(db, i).events, j)
    ensures Lifecycle(Stamp(db, i), {})
  {
    var d := Stamp(db, i);
    forall x: nat | x < |d.jobs| ensures NotStranded(d, x) && NotDry(d, x) {
      assert NotStranded(db, x) && NotDry(db, x);
      if Exhausted(db.jobs, db.runs, x) { assert Unneeded(db, i, x); }
      if x != db.events[i].job { PendingKept(db, i, x); }
      if db.jobs[x].trigger.Some? && db.jobs[x].trigger.value.parent != db.events[i].job {
        PendingKept(db, i, db.jobs[x].trigger.value.parent);
      }
    }
  }

  lemma StampTicks(cfg: Config, db: Db, i: nat)
    requires Ticks(cfg, db, i) && i < |db.events| && EndOk(cfg, Stamp(db, i), i)
    ensures Ticks(cfg, Stamp(db, i), -1)
  {
    var d := Stamp(db, i);
    forall k: nat | k < |d.events| ensures EndOk(cfg, d, k) {
      if k != i {
        assert EndOk(cfg, db, k);
        if q: nat :| q < |db.runs| && IsSuccessor(cfg, db, k, q) {
          assert IsSuccessor(cfg, d, k, q);
        }
      }
    }
    forall q: nat | q < |d.runs| ensures TickOk(cfg, d, q) {
      assert TickOk(cfg, db, q);
      if k: nat :| k < |db.events| && IsSuccessor(cfg, db, k, q)
                   && (forall x :: db.events[k].run < x < q ==> db.runs[x].job != db.runs[q].job) {
        SuccessorKept(cfg, db, d, k, q);
      }
    }
  }
}
