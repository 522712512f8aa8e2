/** Every step keeps the table invariant. */
module Preserve {
  import opened Tables
  import opened Settle
  import opened CronTime
  import opened Steps
  import opened Invariant
  import opened Moves
  import opened Changes

  // ---------------------------------------------------------------- create_job

  lemma CreateKeeps(cfg: Config, db: Db, req: Request, now: int)
    requires ValidConfig(cfg) && DbInv(cfg, db)
    ensures DbInv(cfg, CreateJob(cfg, db, req, now))
  {
    if CreateOutcome(cfg, db, req, now).NewJob? {
      var job := JobRow(req);
      var added := db.(jobs := db.jobs + [job]);
      AddJobKeeps(cfg, db, job);
      if req.triggerJob.None? {
        var run := NewRun(added, |db.jobs|, FirstRunAt(cfg, req, now), None, now);
        forall r: nat | r < |db.runs| ensures db.runs[r].job != |db.jobs| {
          assert RunOk(db, r);
        }
        InsertKeeps(cfg, added, run, now, {|db.jobs|}, -1);
        assert {|db.jobs|} - {run.job} == {};
      }
    }
  }

  // ---------------------------------------------------------------- cancel_job

  lemma {:induction false} FlipKeeps(cfg: Config, db: Db, j: nat, n: nat, now: int, exempt: set<nat>)
    requires n <= |db.runs| && j < |db.jobs| && db.jobs[j].state.Stopped?
    requires Mid(cfg, db, exempt, -1)
    ensures Mid(cfg, FlipRuns(db, j, n, now), exempt, -1)
  {
    if n > 0 {
      FlipKeeps(cfg, db, j, n - 1, now, exempt);
      var d := FlipRuns(db, j, n - 1, now);
      if d.runs[n - 1].job == j && Claimable(d.runs[n - 1].status) {
        MoveKeeps(cfg, d, n - 1, d.runs[n - 1].(status := Cancelled), Ended(Cancelled), now, exempt, -1);
      }
    }
  }

  lemma CancelKeeps(cfg: Config, db: Db, owner: string, j: nat, now: int)
    requires DbInv(cfg, db)
    ensures DbInv(cfg, CancelJob(db, owner, j, now))
  {
    if CanCancel(db, owner, j) {
      var stopped := StopJob(db, j, now);
      StopKeeps(cfg, db, j, now);
      FlipKeeps(cfg, stopped, j, |db.runs|, now, ChildrenOf(db.jobs, j));
      var d := FlipRuns(stopped, j, |db.runs|, now);
      ForestOf(d);
      SettleDownSettles(d.jobs, d.runs, j);
      forall x | 0 <= x < |d.jobs| && x in ChildrenOf(db.jobs, j) ensures d.jobs[x].cron.None? {
        assert JobOk(d.jobs, x);
      }
      SettleKeeps(cfg, d, SettleDown(d.jobs, d.runs, j), ChildrenOf(db.jobs, j), -1);
    }
  }

  // ---------------------------------------------------------------- workers, watcher and sweeps

  /** InOrder for two distinct runs of one job, whichever is older. */
  lemma Pairwise(db: Db, r: nat, q: nat)
    requires RunsOk(db) && Serial(db) && r < |db.runs| && q < |db.runs| && r != q && db.runs[r].job == db.runs[q].job
    ensures db.runs[r].job < |db.jobs|
    ensures if r < q then InOrder(db, r, q) else InOrder(db, q, r)
  {
    assert RunOk(db, r) && (if r < q then InOrder(db, r, q) else InOrder(db, q, r));
  }

  lemma MoveStep(cfg: Config, db: Db, r: nat, run: Run, kind: Kind, now: int)
    requires DbInv(cfg, db) && r < |db.runs|
    requires run == db.runs[r].(status := run.status, startAt := run.startAt, heartbeatAt := run.heartbeatAt, updatedAt := run.updatedAt)
    requires Edge(Some(db.runs[r].status), run.status, kind) && !run.status.Cancelled?
    ensures DbInv(cfg, Transition(db, r, run, kind, now))
  {
    assert RunOk(db, r);
    MoveKeeps(cfg, db, r, run, kind, now, {}, -1);
  }

  lemma FinishKeeps(cfg: Config, db: Db, r: nat, status: Status, now: int)
    requires DbInv(cfg, db) && r < |db.runs| && db.runs[r].status.Running? && (status.Succeeded? || status.Failed?)
    ensures DbInv(cfg, FinishRow(db, r, status, now))
  {
    var run := db.runs[r].(status := status, updatedAt := now);
    var d := Transition(db, r, run, Ended(status), now);
    MoveStep(cfg, db, r, run, Ended(status), now);
    assert RunOk(d, r) && IsPending(d.events[|db.events|], run.job);
    forall q | 0 <= q < |d.runs| && d.runs[q].job == run.job ensures !Executing(d.runs[q].status) {
      if q != r { Pairwise(db, q, r); }
    }
    SettleSelfKeeps(cfg, d, run.job, -1);
  }

  lemma SweepCKeeps(cfg: Config, db: Db, r: nat, now: int)
    requires DbInv(cfg, db) && r < |db.runs| && db.runs[r].status.Running?
    ensures DbInv(cfg, SweepCRow(cfg, db, r, now))
  {
    if Idempotent(cfg, db, r) {
      MoveStep(cfg, db, r, db.runs[r].(status := Queued, updatedAt := now), Reenqueued, now);
    } else {
      FinishKeeps(cfg, db, r, Failed, now);
    }
  }

  lemma HeartbeatKeeps(cfg: Config, db: Db, r: nat, now: int)
    requires DbInv(cfg, db) && r < |db.runs|
    ensures DbInv(cfg, HeartbeatRow(db, r, now))
  {
    var d := HeartbeatRow(db, r, now);
    assert RunsOk(d) by {
      forall q: nat | q < |d.runs| ensures RunOk(d, q) { assert RunOk(db, q); }
    }
    forall a: nat, b: nat | a < b < |d.runs| ensures RunOk(d, a) && InOrder(d, a, b) {
      assert RunOk(d, a) && RunOk(db, a) && InOrder(db, a, b);
    }
    forall i: nat | i < |d.events| ensures EventOk(d, i) { assert EventOk(db, i); }
    HeartbeatLifecycle(db, r, now);
    HeartbeatTicks(cfg, db, r, now);
  }

  lemma HeartbeatLifecycle(db: Db, r: nat, now: int)
    requires Lifecycle(db, {}) && r < |db.runs|
    ensures Lifecycle(HeartbeatRow(db, r, now), {})
  {
    var d := HeartbeatRow(db, r, now);
    forall j: nat | j < |d.jobs| ensures NotStranded(d, j) && NotDry(d, j) {
      assert NotStranded(db, j) && NotDry(db, j);
      if q: nat :| q < |db.runs| && db.runs[q].job == j && Executing(db.runs[q].status) {
        assert d.runs[q].job == j && Executing(d.runs[q].status);
      }
    }
  }

  lemma HeartbeatTicks(cfg: Config, db: Db, r: nat, now: int)
    requires Ticks(cfg, db, -1) && r < |db.runs|
    ensures Ticks(cfg, HeartbeatRow(db, r, now), -1)
  {
    var d := HeartbeatRow(db, r, now);
    forall i: nat | i < |d.events| ensures EndOk(cfg, d, i) {
      assert EndOk(cfg, db, i);
      if q: nat :| q < |db.runs| && IsSuccessor(cfg, db, i, q) {
        assert IsSuccessor(cfg, d, i, q);
      }
    }
    forall q: nat | q < |d.runs| ensures TickOk(cfg, d, q) {
      assert TickOk(cfg, db, q);
      if i: nat :| i < |db.events| && IsSuccessor(cfg, db, i, q)
                   && (forall x :: db.events[i].run < x < q ==> db.runs[x].job != db.runs[q].job) {
        SuccessorKept(cfg, db, d, i, q);
      }
    }
  }

  // ---------------------------------------------------------------- the continuation consumer

  /** What the recurring root of event i has after _materialize_recurring_successor. */
  ghost predicate Continued(cfg: Config, db: Db, i: nat)
    requires i < |db.events|
  {
    var j := db.events[i].job;
    j < |db.jobs| && db.jobs[j].cron.Some? && db.jobs[j].state.Active? ==>
      HasSuccessor(cfg, db, i) && (HasExecuting(db.runs, j) || HasPending(Stamp(db, i).events, j))
  }

  ghost predicate Terminal(db: Db, i: nat) {
    EventInRange(db, i) && db.events[i].kind.Ended?
  }

  /** A new tick is only ever spawned by the unstamped event of the newest run. */
  lemma SpawnFollows(cfg: Config, db: Db, i: nat, now: int)
    requires DbInv(cfg, db) && Terminal(db, i)
    requires var j := db.events[i].job; db.jobs[j].cron.Some? && db.jobs[j].state.Active? && !HasExecuting(db.runs, j)
    requires !Duplicate(db.runs, db.events[i].job, SuccessorAt(cfg, db, db.events[i]), None)
    ensures CanInsert(cfg, db, NewRun(db, db.events[i].job, SuccessorAt(cfg, db, db.events[i]), None, now), i)
  {
    var e := db.events[i];
    assert EventOk(db, i) && EndOk(cfg, db, i) && JobOk(db.jobs, e.job);
    if HasSuccessor(cfg, db, i) { SuccessorIsDuplicate(cfg, db, i); }
  }

  lemma SuccessorIsDuplicate(cfg: Config, db: Db, i: nat)
    requires i < |db.events| && HasSuccessor(cfg, db, i) && EventInRange(db, i) && db.jobs[db.events[i].job].cron.Some?
    ensures Duplicate(db.runs, db.events[i].job, SuccessorAt(cfg, db, db.events[i]), None)
  {
    var q: nat :| q < |db.runs| && IsSuccessor(cfg, db, i, q);
    assert SameCause(db.runs[q], db.events[i].job, SuccessorAt(cfg, db, db.events[i]), None);
  }

  /** When an executing run blocks the spawn, the event's successor is already there. */
  lemma BlockedHasSuccessor(cfg: Config, db: Db, i: nat)
    requires DbInv(cfg, db) && Terminal(db, i)
    requires var j := db.events[i].job; db.jobs[j].cron.Some? && db.jobs[j].state.Active? && HasExecuting(db.runs, j)
    ensures HasSuccessor(cfg, db, i)
  {
    var e := db.events[i];
    assert EventOk(db, i) && EndOk(cfg, db, i);
    EndedIsOver(db, i);
    var q: nat :| q < |db.runs| && db.runs[q].job == e.job && Executing(db.runs[q].status);
    Pairwise(db, q, e.run);
  }

  /** The run of a terminal event is no longer executing. */
  lemma EndedIsOver(db: Db, i: nat)
    requires EventsOk(db) && i < |db.events| && db.events[i].kind.Ended?
    ensures db.events[i].run < |db.runs| && db.runs[db.events[i].run].status == db.events[i].kind.status
    ensures !Executing(db.events[i].kind.status)
  {
    assert EventOk(db, i);
  }

  /** When the tick index blocks the spawn, the row in the way is the event's own successor, and
      the job still has another pending event. */
  lemma DuplicateIsSuccessor(cfg: Config, db: Db, i: nat)
    requires ValidCalendar(cfg.next) && DbInv(cfg, db) && Terminal(db, i)
    requires var j := db.events[i].job; db.jobs[j].cron.Some? && db.jobs[j].state.Active? && !HasExecuting(db.runs, j)
    requires Duplicate(db.runs, db.events[i].job, SuccessorAt(cfg, db, db.events[i]), None)
    ensures HasSuccessor(cfg, db, i) && HasPending(Stamp(db, i).events, db.events[i].job)
  {
    var e := db.events[i];
    assert EventOk(db, i) && EndOk(cfg, db, i) && NotDry(db, e.job);
    var q: nat :| q < |db.runs| && SameCause(db.runs[q], e.job, SuccessorAt(cfg, db, e), None);
    SuccessorIsEarliest(cfg.next, db.jobs[e.job].cron.value, db.runs[e.run].scheduledAt, e.at);
    Pairwise(db, q, e.run);
    assert IsSuccessor(cfg, db, i, q);
    var k: nat :| k < |db.events| && IsPending(db.events[k], e.job);
    assert k != i;
    assert IsPending(Stamp(db, i).events[k], e.job);
  }

  lemma RecurKeeps(cfg: Config, db: Db, i: nat, now: int)
    requires ValidConfig(cfg) && DbInv(cfg, db) && Terminal(db, i)
    ensures
      var d := Recur(cfg, db, db.events[i], now);
      Mid(cfg, d, {}, i) && db.events <= d.events && db.runs <= d.runs && Continued(cfg, d, i)
  {
    var e := db.events[i];
    var d := Recur(cfg, db, e, now);
    assert JobOk(db.jobs, e.job);
    if db.jobs[e.job].cron.Some? && db.jobs[e.job].cancelledAt.None? {
      var at := SuccessorAt(cfg, db, e);
      if HasExecuting(db.runs, e.job) {
        BlockedHasSuccessor(cfg, db, i);
      } else if Duplicate(db.runs, e.job, at, None) {
        DuplicateIsSuccessor(cfg, db, i);
      } else {
        var run := NewRun(db, e.job, at, None, now);
        SpawnFollows(cfg, db, i, now);
        assert Mid(cfg, db, {}, i);
        InsertKeeps(cfg, db, run, now, {}, i);
        assert {} - {run.job} == {};
        assert d.runs[|db.runs|] == run && EventOk(db, i);
        assert IsSuccessor(cfg, d, i, |db.runs|);
        assert HasExecuting(d.runs, e.job);
      }
    }
  }

  /** e is a terminal event of a job that is not cancelled, sitting at index i. */
  ghost predicate Firing(db: Db, i: nat, e: Event) {
    Terminal(db, i) && db.events[i] == e && !db.jobs[e.job].state.Stopped?
  }

  lemma FireKeeps(cfg: Config, db: Db, i: nat, e: Event, c: nat, now: int)
    requires ValidConfig(cfg) && Mid(cfg, db, {}, i) && Firing(db, i, e) && IsActiveDownstream(db.jobs, e.job, c)
    ensures
      var d := Fire(db, e, c, now);
      Mid(cfg, d, {}, i) && d.jobs == db.jobs && db.events <= d.events && db.runs <= d.runs && Firing(d, i, e)
  {
    var pred := db.jobs[c].trigger.value.pred;
    assert EventOk(db, i) && RunOk(db, e.run);
    if !TriggersOn(pred, e.kind.status) {
      AuditKeeps(cfg, db, Audit(e, SkippedPredicateMiss(c), now), {}, i);
    } else if HasExecuting(db.runs, c) {
      AuditKeeps(cfg, db, Audit(e, SkippedSlowConsumer(c), now), {}, i);
    } else if !Duplicate(db.runs, c, e.at, Some(e.run)) {
      EndedIsOver(db, i);
      var run := NewRun(db, c, e.at, Some(e.run), now);
      InsertKeeps(cfg, db, run, now, {}, i);
      assert {} - {run.job} == {};
    }
  }

  lemma {:induction false} FireAllKeeps(cfg: Config, db: Db, i: nat, e: Event, ids: seq<nat>, now: int)
    requires ValidConfig(cfg) && Mid(cfg, db, {}, i)
    requires Terminal(db, i) && db.events[i] == e && (ids != [] ==> Firing(db, i, e))
    requires forall k :: 0 <= k < |ids| ==> ids[k] < |db.jobs| && db.jobs[ids[k]].trigger.Some? && IsActiveDownstream(db.jobs, e.job, ids[k])
    ensures
      var d := FireAll(db, e, ids, now);
      Mid(cfg, d, {}, i) && d.jobs == db.jobs && db.events <= d.events && db.runs <= d.runs
    decreases |ids|
  {
    if ids != [] {
      FireAllKeeps(cfg, db, i, e, ids[..|ids| - 1], now);
      FireKeeps(cfg, FireAll(db, e, ids[..|ids| - 1], now), i, e, ids[|ids| - 1], now);
    }
  }

  /** jobs2 only moves active jobs to completed, and what is exhausted in it was so before and is
      not in done. */
  ghost predicate Narrows(jobs: seq<Job>, runs: seq<Run>, jobs2: seq<Job>, done: set<nat>) {
    |jobs| == |jobs2|
    && (forall x :: 0 <= x < |jobs| ==> jobs2[x] == jobs[x] || (jobs[x].state.Active? && jobs[x].cron.None? && jobs2[x] == jobs[x].(state := Completed)))
    && (forall x :: 0 <= x < |jobs| && Exhausted(jobs2, runs, x) ==> Exhausted(jobs, runs, x) && x !in done)
  }

  lemma {:induction false} SettleEachKeeps(cfg: Config, db: Db, ids: seq<nat>, open: int)
    requires Mid(cfg, db, {}, open)
    ensures Mid(cfg, db.(jobs := SettleEach(db.jobs, db.runs, ids)), {}, open)
    ensures Narrows(db.jobs, db.runs, SettleEach(db.jobs, db.runs, ids), set x | x in ids)
    decreases |ids|
  {
    if ids != [] {
      var init, c := ids[..|ids| - 1], ids[|ids| - 1];
      SettleEachKeeps(cfg, db, init, open);
      var d := db.(jobs := SettleEach(db.jobs, db.runs, init));
      SettleCheckKeeps(cfg, d, c, open);
      ForestOf(d);
      SettleCheckSettles(d.jobs, d.runs, c);
      assert forall x :: x in ids ==> x in init || x == c;
    }
  }

  /** After the settles of one event nothing exhausted still waits for that event. */
  lemma SettledUnneeded(cfg: Config, db: Db, i: nat, ids: seq<nat>)
    requires Mid(cfg, db, {}, i) && Terminal(db, i) && Offering(db, db.events[i], ids)
    ensures
      var settled := SettleEach(SettleCheck(db.jobs, db.runs, db.events[i].job), db.runs, ids);
      var d := db.(jobs := settled);
      Mid(cfg, d, {}, i)
      && Narrows(db.jobs, db.runs, settled, {})
      && forall x :: 0 <= x < |settled| && Exhausted(settled, d.runs, x) ==> Unneeded(d, i, x)
  {
    var j := db.events[i].job;
    var d1 := db.(jobs := SettleCheck(db.jobs, db.runs, j));
    ForestOf(db);
    SettleCheckSettles(db.jobs, db.runs, j);
    SettleCheckKeeps(cfg, db, j, i);
    SettleEachKeeps(cfg, d1, ids, i);
  }

  lemma ContinueKeeps(cfg: Config, db: Db, i: nat, ids: seq<nat>, now: int)
    requires ValidConfig(cfg) && DbInv(cfg, db) && Terminal(db, i) && Offering(db, db.events[i], ids)
    ensures DbInv(cfg, Continue(cfg, db, i, ids, now))
  {
    var e := db.events[i];
    var d1 := Recur(cfg, db, e, now);
    RecurKeeps(cfg, db, i, now);
    var d2 := FireAll(d1, e, ids, now);
    FireAllKeeps(cfg, d1, i, e, ids, now);
    SettledUnneeded(cfg, d2, i, ids);
    var d3 := d2.(jobs := SettleEach(SettleCheck(d2.jobs, d2.runs, e.job), d2.runs, ids));
    ContinuedKept(cfg, d1, d3, i);
    StampKeeps(cfg, d3, i);
  }

  /** Continued survives more rows and settled jobs. */
  lemma ContinuedKept(cfg: Config, db: Db, d: Db, i: nat)
    requires i < |db.events| && Continued(cfg, db, i) && db.runs <= d.runs && db.events <= d.events
    requires |db.jobs| == |d.jobs|
    requires forall x :: 0 <= x < |db.jobs| ==> d.jobs[x].cron == db.jobs[x].cron && (d.jobs[x].state.Active? ==> db.jobs[x].state.Active?)
    ensures Continued(cfg, d, i) && EndOk(cfg, Stamp(d, i), i)
  {
    var j := db.events[i].job;
    if j < |d.jobs| && d.jobs[j].cron.Some? && d.jobs[j].state.Active? {
      var q: nat :| q < |db.runs| && IsSuccessor(cfg, db, i, q);
      assert IsSuccessor(cfg, d, i, q) && IsSuccessor(cfg, Stamp(d, i), i, q);
      if r: nat :| r < |db.runs| && db.runs[r].job == j && Executing(db.runs[r].status) {
        assert d.runs[r] == db.runs[r];
      }
      if k: nat :| k < |db.events| && IsPending(Stamp(db, i).events[k], j) {
        assert IsPending(Stamp(d, i).events[k], j);
      }
    }
  }
}
