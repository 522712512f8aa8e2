/** What the invariant says about every reachable state, in the terms of the design documents. */
module Theorems {
  import opened Tables
  import opened Settle
  import opened CronTime
  import opened ChainWalk
  import opened Steps
  import opened Invariant
  import opened Changes
  import opened Preserve
  import opened System
  import opened History

  // ---------------------------------------------------------------- one executing run

  /** Forbid-concurrency: at most one executing run per job, it is the job's newest run, and a
      completed job has none. */
  lemma AtMostOneExecuting(cfg: Config, s: Sys)
    requires ValidConfig(cfg) && Reachable(cfg, s)
    ensures forall r, q ::
      0 <= r < |s.db.runs| && 0 <= q < |s.db.runs| && s.db.runs[r].job == s.db.runs[q].job && Executing(s.db.runs[r].status)
      ==> (r == q || !Executing(s.db.runs[q].status)) && q <= r
    ensures forall j :: 0 <= j < |s.db.jobs| && s.db.jobs[j].state.Completed? ==> !HasExecuting(s.db.runs, j)
  {
    ReachableInv(cfg, s);
    forall r, q | 0 <= r < |s.db.runs| && 0 <= q < |s.db.runs| && s.db.runs[r].job == s.db.runs[q].job && Executing(s.db.runs[r].status)
      ensures (r == q || !Executing(s.db.runs[q].status)) && q <= r
    {
      if r != q { Pairwise(s.db, r, q); }
    }
    forall j, r | 0 <= j < |s.db.jobs| && s.db.jobs[j].state.Completed? && 0 <= r < |s.db.runs| && s.db.runs[r].job == j
      ensures !Executing(s.db.runs[r].status)
    {
      assert RunOk(s.db, r);
    }
  }

  /** No run is ever created for a job that is not active, by any step from any reachable state. */
  lemma NoRunForSettledJob(cfg: Config, s: Sys, step: Step, r: nat)
    requires ValidConfig(cfg) && Reachable(cfg, s) && Enabled(cfg, s, step)
    requires |s.db.runs| <= r < |Apply(cfg, s, step).db.runs|
    requires Apply(cfg, s, step).db.runs[r].job < |s.db.jobs|
    ensures s.db.jobs[Apply(cfg, s, step).db.runs[r].job].state.Active?
  {
    ReachableInv(cfg, s);
    StepLive(cfg, s, step);
    assert MayGetRun(s.db.jobs, Apply(cfg, s, step).db.jobs, Apply(cfg, s, step).db.runs[r].job);
  }

  // ---------------------------------------------------------------- the outbox refines the table

  /** Number of terminal events the log holds for run r. */
  ghost function EndCount(events: seq<Event>, r: nat): nat
    decreases |events|
  {
    if events == [] then 0
    else EndCount(events[..|events| - 1], r)
         + (if events[|events| - 1].run == r && events[|events| - 1].kind.Ended? then 1 else 0)
  }

  lemma {:induction false} EndCountIs(db: Db, n: nat, r: nat)
    requires EventsOk(db) && n <= |db.events|
    ensures EndCount(db.events[..n], r) ==
      match LogStatus(db.events[..n], r) case None => 0 case Some(st) => if Executing(st) then 0 else 1
  {
    if n > 0 {
      assert db.events[..n][..n - 1] == db.events[..n - 1];
      EndCountIs(db, n - 1, r);
      assert EventOk(db, n - 1);
    }
  }

  /** The log alone rebuilds the table: folding the status events gives every run's status, each
      event starts where the previous one of its run ended and follows the lifecycle graph, and a
      run is terminal exactly when the log holds one terminal event for it (and never two). */
  lemma LogRebuildsTable(cfg: Config, s: Sys)
    requires ValidConfig(cfg) && Reachable(cfg, s)
    ensures forall r :: 0 <= r < |s.db.runs| ==> LogStatus(s.db.events, r) == Some(s.db.runs[r].status)
    ensures forall i :: 0 <= i < |s.db.events| && s.db.events[i].to.Some? ==>
      s.db.events[i].from == LogStatus(s.db.events[..i], s.db.events[i].run)
      && Edge(s.db.events[i].from, s.db.events[i].to.value, s.db.events[i].kind)
    ensures forall r :: 0 <= r < |s.db.runs| ==>
      EndCount(s.db.events, r) == if Executing(s.db.runs[r].status) then 0 else 1
  {
    ReachableInv(cfg, s);
    forall i | 0 <= i < |s.db.events| && s.db.events[i].to.Some?
      ensures s.db.events[i].from == LogStatus(s.db.events[..i], s.db.events[i].run)
              && Edge(s.db.events[i].from, s.db.events[i].to.value, s.db.events[i].kind)
    {
      assert EventOk(s.db, i);
    }
    forall r | 0 <= r < |s.db.runs|
      ensures EndCount(s.db.events, r) == if Executing(s.db.runs[r].status) then 0 else 1
    {
      EndCountIs(s.db, |s.db.events|, r);
      assert s.db.events[..|s.db.events|] == s.db.events;
    }
  }

  // ---------------------------------------------------------------- resident load

  /** The declarative meaning of 'active': not cancelled, and able to hold or get a run, decided
      along the whole trigger chain from run rows alone. */
  ghost predicate Resident(db: Db, j: nat)
    requires j < |db.jobs|
    decreases j
  {
    !db.jobs[j].state.Stopped?
    && (db.jobs[j].cron.Some? || HasExecuting(db.runs, j)
        || (db.jobs[j].trigger.Some? && db.jobs[j].trigger.value.parent < j && Resident(db, db.jobs[j].trigger.value.parent)))
  }

  ghost predicate Quiescent(db: Db) {
    forall j :: 0 <= j < |db.jobs| ==> !HasPending(db.events, j)
  }

  lemma {:induction false} ActiveIsResident(cfg: Config, db: Db, j: nat)
    requires DbInv(cfg, db) && j < |db.jobs|
    ensures Resident(db, j) ==> db.jobs[j].state.Active?
    ensures Quiescent(db) ==> (db.jobs[j].state.Active? <==> Resident(db, j))
    decreases j
  {
    assert JobOk(db.jobs, j) && NotStranded(db, j);
    if db.jobs[j].trigger.Some? {
      ActiveIsResident(cfg, db, db.jobs[j].trigger.value.parent);
    }
    if r: nat :| r < |db.runs| && db.runs[r].job == j && Executing(db.runs[r].status) {
      assert RunOk(db, r);
    }
  }

  /** Jobs of owner that check_containment counts as active. */
  ghost function CountedActive(db: Db, owner: string): set<nat> {
    set j: nat | j < |db.jobs| && db.jobs[j].owner == owner && db.jobs[j].state.Active?
  }

  ghost function ResidentOf(db: Db, owner: string): set<nat> {
    set j: nat | j < |db.jobs| && db.jobs[j].owner == owner && Resident(db, j)
  }

  /** The incrementally kept Job.state counts true resident load: it never misses a resident job,
      and once no terminal event is unprocessed it counts nothing else. */
  lemma QuotaCountsResidentLoad(cfg: Config, s: Sys, owner: string)
    requires ValidConfig(cfg) && Reachable(cfg, s)
    ensures ResidentOf(s.db, owner) <= CountedActive(s.db, owner)
    ensures Quiescent(s.db) ==> CountedActive(s.db, owner) == ResidentOf(s.db, owner)
    ensures Quiescent(s.db) ==> forall j :: 0 <= j < |s.db.jobs| ==> (s.db.jobs[j].state.Active? <==> Resident(s.db, j))
  {
    ReachableInv(cfg, s);
    forall j: nat | j < |s.db.jobs|
      ensures Resident(s.db, j) ==> s.db.jobs[j].state.Active?
      ensures Quiescent(s.db) ==> (s.db.jobs[j].state.Active? <==> Resident(s.db, j))
    {
      ActiveIsResident(cfg, s.db, j);
    }
  }

  /** No job is stranded: an active non-recurring job with no executing run and no active parent
      has an unprocessed terminal event on itself or on its parent, and the parent is then not
      cancelled. */
  lemma NoJobStranded(cfg: Config, s: Sys, j: nat)
    requires ValidConfig(cfg) && Reachable(cfg, s) && j < |s.db.jobs|
    requires s.db.jobs[j].state.Active? && s.db.jobs[j].cron.None?
    requires !HasExecuting(s.db.runs, j) && !ParentActive(s.db.jobs, j)
    ensures HasPending(s.db.events, j)
      || (s.db.jobs[j].trigger.Some? && s.db.jobs[j].trigger.value.parent < |s.db.jobs|
          && s.db.jobs[s.db.jobs[j].trigger.value.parent].state.Completed?
          && HasPending(s.db.events, s.db.jobs[j].trigger.value.parent))
  {
    ReachableInv(cfg, s);
    assert NotStranded(s.db, j) && JobOk(s.db.jobs, j);
  }

  // ---------------------------------------------------------------- draining the outbox

  ghost function PendingCount(events: seq<Event>): nat
    decreases |events|
  {
    if events == [] then 0
    else PendingCount(events[..|events| - 1])
         + (if Waiting(events[|events| - 1]) then 1 else 0)
  }

  lemma CountAppend(events: seq<Event>, e: Event)
    ensures PendingCount(events + [e]) == PendingCount(events) + (if Waiting(e) then 1 else 0)
  {
    assert (events + [e])[..|events|] == events;
  }

  lemma {:induction false} CountStamp(events: seq<Event>, i: nat)
    requires i < |events| && Waiting(events[i])
    ensures PendingCount(events[i := events[i].(processed := true)]) == PendingCount(events) - 1
    decreases |events|
  {
    var n := |events| - 1;
    var stamped := events[i := events[i].(processed := true)];
    if i < n {
      assert stamped[..n] == events[..n][i := events[..n][i].(processed := true)];
      CountStamp(events[..n], i);
    } else {
      assert stamped[..n] == events[..n];
    }
  }

  lemma {:induction false} CountWitness(events: seq<Event>) returns (i: nat)
    requires PendingCount(events) > 0
    ensures i < |events| && Waiting(events[i])
    decreases |events|
  {
    var e := events[|events| - 1];
    if Waiting(e) { i := |events| - 1; }
    else { i := CountWitness(events[..|events| - 1]); }
  }

  lemma {:induction false} CountZero(events: seq<Event>, j: nat)
    requires PendingCount(events) == 0
    ensures !HasPending(events, j)
    decreases |events|
  {
    if events != [] {
      CountZero(events[..|events| - 1], j);
      forall i | 0 <= i < |events| ensures !IsPending(events[i], j) {
        if i < |events| - 1 { assert !IsPending(events[..|events| - 1][i], j); }
      }
    }
  }

  lemma InsertCount(db: Db, run: Run, now: int)
    ensures PendingCount(InsertRun(db, run, now).events) == PendingCount(db.events)
  {
    CountAppend(db.events, Event(|db.runs|, run.job, Created, None, Some(run.status), now, false));
  }

  lemma FireCount(db: Db, e: Event, c: nat, now: int)
    requires e.kind.Ended? && c < |db.jobs| && db.jobs[c].trigger.Some?
    ensures PendingCount(Fire(db, e, c, now).events) == PendingCount(db.events)
  {
    if !TriggersOn(db.jobs[c].trigger.value.pred, e.kind.status) {
      CountAppend(db.events, Audit(e, SkippedPredicateMiss(c), now));
    } else if HasExecuting(db.runs, c) {
      CountAppend(db.events, Audit(e, SkippedSlowConsumer(c), now));
    } else {
      InsertCount(db, NewRun(db, c, e.at, Some(e.run), now), now);
    }
  }

  lemma {:induction false} FireAllCount(db: Db, e: Event, ids: seq<nat>, now: int)
    requires e.kind.Ended?
    requires forall k :: 0 <= k < |ids| ==> ids[k] < |db.jobs| && db.jobs[ids[k]].trigger.Some?
    ensures PendingCount(FireAll(db, e, ids, now).events) == PendingCount(db.events)
    decreases |ids|
  {
    if ids != [] {
      var first, c := ids[..|ids| - 1], ids[|ids| - 1];
      FireAllCount(db, e, first, now);
      FireCount(FireAll(db, e, first, now), e, c, now);
    }
  }

  lemma RecurCount(cfg: Config, db: Db, e: Event, now: int)
    requires e.run < |db.runs| && e.job < |db.jobs|
    ensures PendingCount(Recur(cfg, db, e, now).events) == PendingCount(db.events)
  {
    if db.jobs[e.job].cron.Some? {
      InsertCount(db, NewRun(db, e.job, SuccessorAt(cfg, db, e), None, now), now);
    }
  }

  /** Processing an event emits no terminal event, so it strictly shrinks the backlog. */
  lemma ContinueCount(cfg: Config, db: Db, i: nat, ids: seq<nat>, now: int)
    requires Terminal(db, i) && !db.events[i].processed && Offering(db, db.events[i], ids)
    ensures PendingCount(Continue(cfg, db, i, ids, now).events) == PendingCount(db.events) - 1
  {
    var e := db.events[i];
    var d1 := Recur(cfg, db, e, now);
    RecurCount(cfg, db, e, now);
    var d2 := FireAll(d1, e, ids, now);
    FireAllCount(d1, e, ids, now);
    FireAllEvolves(d1, e, ids, now);
    CountStamp(d2.events, i);
  }

  ghost predicate Drains(cfg: Config, s: Sys, trace: seq<Step>) {
    Admits(cfg, s, trace)
    && (forall k :: 0 <= k < |trace| ==> trace[k].Process?)
    && PendingCount(Exec(cfg, s, trace).db.events) == 0
  }

  lemma {:induction false} DrainTrace(cfg: Config, s: Sys) returns (trace: seq<Step>)
    requires ValidConfig(cfg) && Inv(cfg, s)
    ensures Drains(cfg, s, trace) && |trace| == PendingCount(s.db.events)
    decreases PendingCount(s.db.events)
  {
    if PendingCount(s.db.events) == 0 {
      trace := [];
    } else {
      var i := CountWitness(s.db.events);
      assert EventOk(s.db, i) && RunOk(s.db, s.db.events[i].run);
      var ids := SomeOffering(s.db, s.db.events[i]);
      var t := s.(db := Continue(cfg, s.db, i, ids, s.now));
      ContinueCount(cfg, s.db, i, ids, s.now);
      ProcessStepKeeps(cfg, s, i, ids);
      var rest := DrainTrace(cfg, t);
      DrainMore(cfg, s, t, Process(i, ids), rest);
      trace := [Process(i, ids)] + rest;
    }
  }

  lemma DrainMore(cfg: Config, s: Sys, t: Sys, step: Step, rest: seq<Step>)
    requires step.Process? && Enabled(cfg, s, step) && t == Apply(cfg, s, step) && Drains(cfg, t, rest)
    ensures Drains(cfg, s, [step] + rest)
  {
    assert ([step] + rest)[1..] == rest;
  }

  /** From every reachable state the consumer alone drains the outbox, in as many events as are
      pending, and then Job.state is exactly resident load. */
  lemma OutboxDrains(cfg: Config, s: Sys) returns (trace: seq<Step>)
    requires ValidConfig(cfg) && Reachable(cfg, s)
    ensures |trace| == PendingCount(s.db.events) && Drains(cfg, s, trace)
    ensures
      var d := Exec(cfg, s, trace).db;
      Quiescent(d) && forall j :: 0 <= j < |d.jobs| ==> (d.jobs[j].state.Active? <==> Resident(d, j))
  {
    ReachableInv(cfg, s);
    trace := DrainTrace(cfg, s);
    ExecKeeps(cfg, s, trace);
    var d := Exec(cfg, s, trace).db;
    forall j: nat | j < |d.jobs| ensures !HasPending(d.events, j) { CountZero(d.events, j); }
    forall j: nat | j < |d.jobs| ensures d.jobs[j].state.Active? <==> Resident(d, j) { ActiveIsResident(cfg, d, j); }
  }

  // ---------------------------------------------------------------- recurrence

  /** Recurrence never goes dry and never doubles: an active recurring root either has exactly one
      executing run, its newest, or has none and the terminal event of its newest run is pending. */
  lemma RecurrenceContinues(cfg: Config, s: Sys, j: nat)
    requires ValidConfig(cfg) && Reachable(cfg, s) && j < |s.db.jobs|
    requires s.db.jobs[j].cron.Some? && s.db.jobs[j].state.Active?
    ensures exists r :: 0 <= r < |s.db.runs| && s.db.runs[r].job == j && Newest(s.db.runs, j, r) && (Executing(s.db.runs[r].status) || HasOwnPending(s.db, r))
    ensures forall r, q :: 0 <= r < q < |s.db.runs| && s.db.runs[r].job == j && s.db.runs[q].job == j ==>
      !Executing(s.db.runs[r].status) && s.db.runs[r].scheduledAt < s.db.runs[q].scheduledAt
  {
    ReachableInv(cfg, s);
    assert NotDry(s.db, j);
    forall r: nat, q: nat | r < q < |s.db.runs| && s.db.runs[r].job == j && s.db.runs[q].job == j
      ensures !Executing(s.db.runs[r].status) && s.db.runs[r].scheduledAt < s.db.runs[q].scheduledAt
    {
      Pairwise(s.db, r, q);
    }
    if HasExecuting(s.db.runs, j) {
      var r: nat :| r < |s.db.runs| && s.db.runs[r].job == j && Executing(s.db.runs[r].status);
      assert Newest(s.db.runs, j, r);
    } else {
      var i: nat :| i < |s.db.events| && IsPending(s.db.events[i], j);
      assert EventOk(s.db, i) && EndOk(cfg, s.db, i);
      assert HasOwnPending(s.db, s.db.events[i].run);
    }
  }

  /** The terminal event of run r itself is unprocessed. */
  ghost predicate HasOwnPending(db: Db, r: nat) {
    exists i :: 0 <= i < |db.events| && db.events[i].run == r && Waiting(db.events[i])
  }

  /** Each terminal event yields at most one successor, however often it is reprocessed, and while
      the root is active a processed one has exactly one. */
  lemma OneSuccessorPerEvent(cfg: Config, s: Sys, i: nat)
    requires ValidConfig(cfg) && Reachable(cfg, s) && i < |s.db.events|
    requires s.db.events[i].kind.Ended? && s.db.events[i].job < |s.db.jobs| && s.db.jobs[s.db.events[i].job].cron.Some?
    ensures forall q, p ::
      0 <= q < |s.db.runs| && 0 <= p < |s.db.runs| && IsSuccessor(cfg, s.db, i, q) && IsSuccessor(cfg, s.db, i, p)
      ==> q == p
    ensures s.db.jobs[s.db.events[i].job].state.Active? ==>
      (s.db.events[i].processed <==> HasSuccessor(cfg, s.db, i))
  {
    ReachableInv(cfg, s);
    assert EndOk(cfg, s.db, i);
    forall q: nat, p: nat | q < |s.db.runs| && p < |s.db.runs| && IsSuccessor(cfg, s.db, i, q) && IsSuccessor(cfg, s.db, i, p)
      ensures q == p
    {
      if q != p { Pairwise(s.db, q, p); }
    }
  }

  /** The first delivery of an active root's terminal event always inserts the next tick: neither
      the executing-run check nor the tick index is ever in its way. A redelivery never does. */
  lemma SpawnsOnFirstDelivery(cfg: Config, s: Sys, i: nat)
    requires ValidConfig(cfg) && Reachable(cfg, s) && EventInRange(s.db, i) && s.db.events[i].kind.Ended?
    requires s.db.jobs[s.db.events[i].job].cron.Some? && s.db.jobs[s.db.events[i].job].state.Active?
    ensures
      var e := s.db.events[i];
      SpawnRun(s.db, e.job, SuccessorAt(cfg, s.db, e), None, s.now).Spawned? <==> !e.processed
  {
    ReachableInv(cfg, s);
    var e := s.db.events[i];
    assert EndOk(cfg, s.db, i);
    if e.processed {
      SuccessorIsDuplicate(cfg, s.db, i);
    } else if HasExecuting(s.db.runs, e.job) {
      BlockedHasSuccessor(cfg, s.db, i);
    } else if Duplicate(s.db.runs, e.job, SuccessorAt(cfg, s.db, e), None) {
      DuplicateIsSuccessor(cfg, s.db, i);
    }
  }

  /** Every tick after the first is the earliest fire time that is not before the terminal event of
      the run just before it and is strictly after that run's own tick. */
  lemma TicksAreSuccessors(cfg: Config, s: Sys, p: nat, q: nat)
    requires ValidConfig(cfg) && Reachable(cfg, s)
    requires p < q < |s.db.runs| && s.db.runs[p].job == s.db.runs[q].job < |s.db.jobs|
    requires s.db.jobs[s.db.runs[q].job].cron.Some?
    requires forall r :: p < r < q ==> s.db.runs[r].job != s.db.runs[q].job
    ensures exists i :: EndsRun(s.db, i, p) && TickBetween(cfg, s.db.jobs[s.db.runs[q].job].cron.value, s.db.runs[p].scheduledAt, s.db.events[i].at, s.db.runs[q].scheduledAt)
  {
    ReachableInv(cfg, s);
    assert TickOk(cfg, s.db, q);
    var i: nat :| i < |s.db.events| && IsSuccessor(cfg, s.db, i, q)
                  && forall r :: s.db.events[i].run < r < q ==> s.db.runs[r].job != s.db.runs[q].job;
    assert EventOk(s.db, i);
    assert EndsRun(s.db, i, p);
    SuccessorIsEarliest(cfg.next, s.db.jobs[s.db.runs[q].job].cron.value, s.db.runs[p].scheduledAt, s.db.events[i].at);
  }

  /** Event i is the terminal event of run p. */
  ghost predicate EndsRun(db: Db, i: int, p: nat) {
    0 <= i < |db.events| && db.events[i].run == p && db.events[i].kind.Ended?
  }

  ghost predicate TickBetween(cfg: Config, c: Cron, prev: int, occurred: int, tick: int) {
    tick > prev && tick >= occurred && Fires(cfg.next, c, tick)
    && forall u :: prev < u < tick && occurred <= u ==> !Fires(cfg.next, c, u)
  }

  // ---------------------------------------------------------------- causes and counting

  /** The row read_upstream selects: found by id, but only for its owner. */
  function ReadUpstream(runs: seq<Run>, id: nat, owner: string): Option<Run> {
    if id < |runs| && runs[id].owner == owner then Some(runs[id]) else None
  }

  /** read_upstream never shows another owner's run: it finds exactly the caller's own row with that
      id. */
  lemma UpstreamIsOwned(runs: seq<Run>, id: nat, owner: string)
    ensures
      var found := ReadUpstream(runs, id, owner);
      (found.Some? <==> id < |runs| && runs[id].owner == owner)
      && (found.Some? ==> found.value.owner == owner && found.value == runs[id])
  {
  }

  /** A trigger-driven run was caused by a SUCCEEDED or FAILED (never a CANCELLED) run of its
      trigger parent that satisfies the create predicate; no other run of the job has that cause;
      and the injected from_run_id finds its row under the owner filter. */
  lemma CauseIsSound(cfg: Config, s: Sys, r: nat)
    requires ValidConfig(cfg) && Reachable(cfg, s) && r < |s.db.runs| && s.db.runs[r].cause.Some?
    ensures
      var run := s.db.runs[r];
      var u := run.cause.value;
      run.job < |s.db.jobs| && s.db.jobs[run.job].trigger.Some? && u < r
      && s.db.runs[u].job == s.db.jobs[run.job].trigger.value.parent
      && (s.db.runs[u].status.Succeeded? || s.db.runs[u].status.Failed?)
      && (s.db.jobs[run.job].trigger.value.pred == OnSucceeded ==> s.db.runs[u].status == Succeeded)
      && (s.db.jobs[run.job].trigger.value.pred == OnFailed ==> s.db.runs[u].status == Failed)
      && ReadUpstream(s.db.runs, u, run.owner) == Some(s.db.runs[u])
    ensures forall q :: 0 <= q < |s.db.runs| && q != r && s.db.runs[q].job == s.db.runs[r].job ==>
      s.db.runs[q].cause != s.db.runs[r].cause
  {
    ReachableInv(cfg, s);
    assert RunOk(s.db, r) && CauseOk(s.db, r) && RunOk(s.db, s.db.runs[r].cause.value);
    assert JobOk(s.db.jobs, s.db.runs[r].job);
    forall q | 0 <= q < |s.db.runs| && q != r && s.db.runs[q].job == s.db.runs[r].job
      ensures s.db.runs[q].cause != s.db.runs[r].cause
    {
      Pairwise(s.db, q, r);
    }
  }

  ghost function RunsOf(db: Db, j: nat): set<nat> {
    set r: nat | r < |db.runs| && db.runs[r].job == j
  }

  ghost function FinishedOf(db: Db, j: nat): set<nat> {
    set r: nat | r < |db.runs| && db.runs[r].job == j && (db.runs[r].status.Succeeded? || db.runs[r].status.Failed?)
  }

  /** A set that maps injectively into another is no larger. */
  lemma {:induction false} InjectionBounds(a: set<nat>, b: set<nat>, f: nat -> nat)
    requires forall x :: x in a ==> f(x) in b
    requires forall x, y :: x in a && y in a && f(x) == f(y) ==> x == y
    ensures |a| <= |b|
    decreases |a|
  {
    if a != {} {
      var x :| x in a;
      InjectionBounds(a - {x}, b - {f(x)}, f);
    }
  }

  /** Run counting: a chained job never has more runs than its parent has finished ones. */
  lemma ChainedRunsBounded(cfg: Config, s: Sys, c: nat)
    requires ValidConfig(cfg) && Reachable(cfg, s) && c < |s.db.jobs| && s.db.jobs[c].trigger.Some?
    ensures |RunsOf(s.db, c)| <= |FinishedOf(s.db, s.db.jobs[c].trigger.value.parent)|
  {
    ReachableInv(cfg, s);
    var f := (r: nat) => if r < |s.db.runs| && s.db.runs[r].cause.Some? then s.db.runs[r].cause.value else 0;
    forall r | r in RunsOf(s.db, c) ensures f(r) in FinishedOf(s.db, s.db.jobs[c].trigger.value.parent) {
      assert RunOk(s.db, r);
    }
    forall r, q | r in RunsOf(s.db, c) && q in RunsOf(s.db, c) && f(r) == f(q) ensures r == q {
      assert RunOk(s.db, r) && RunOk(s.db, q);
      if r != q { Pairwise(s.db, r, q); }
    }
    InjectionBounds(RunsOf(s.db, c), FinishedOf(s.db, s.db.jobs[c].trigger.value.parent), f);
  }

  /** The root of j's trigger chain. */
  ghost function RootOf(jobs: seq<Job>, j: nat): (r: nat)
    requires Forest(jobs) && j < |jobs|
    ensures r <= j && jobs[r].trigger.None?
    decreases j
  {
    if jobs[j].trigger.None? then j else RootOf(jobs, jobs[j].trigger.value.parent)
  }

  lemma {:induction false} PipelineStep(cfg: Config, db: Db, j: nat, r: nat, q: nat)
    requires DbInv(cfg, db) && Forest(db.jobs) && j < |db.jobs| && db.jobs[RootOf(db.jobs, j)].cron.None?
    requires r < |db.runs| && q < |db.runs| && db.runs[r].job == j && db.runs[q].job == j
    ensures r == q
    decreases j
  {
    if r != q {
      Pairwise(db, r, q);
      assert RunOk(db, r) && RunOk(db, q);
      PipelineStep(cfg, db, db.jobs[j].trigger.value.parent, db.runs[r].cause.value, db.runs[q].cause.value);
    }
  }

  /** Every job of a pipeline rooted at a one-shot job runs at most once over the whole history,
      at any depth. */
  lemma OneShotPipelineRunsOnce(cfg: Config, s: Sys, j: nat)
    requires ValidConfig(cfg) && Reachable(cfg, s) && j < |s.db.jobs|
    ensures Forest(s.db.jobs)
    ensures s.db.jobs[RootOf(s.db.jobs, j)].cron.None? ==>
      forall r, q :: r in RunsOf(s.db, j) && q in RunsOf(s.db, j) ==> r == q
  {
    ReachableInv(cfg, s);
    ForestOf(s.db);
    if s.db.jobs[RootOf(s.db.jobs, j)].cron.None? {
      forall r, q | r in RunsOf(s.db, j) && q in RunsOf(s.db, j) ensures r == q {
        PipelineStep(cfg, s.db, j, r, q);
      }
    }
  }

  // ---------------------------------------------------------------- leases and starts

  /** Lease exclusivity: each live worker's run is RUNNING and nobody else's, so its unguarded
      write is sound; and sweep C never picks a run that has a live holder. */
  lemma LeaseExclusive(cfg: Config, s: Sys)
    requires ValidConfig(cfg) && Reachable(cfg, s)
    ensures forall w :: w in s.holders ==> s.holders[w] < |s.db.runs| && s.db.runs[s.holders[w]].status.Running?
    ensures forall v, w :: v in s.holders && w in s.holders && v != w ==> s.holders[v] != s.holders[w]
    ensures forall w :: w in s.holders ==> !SweepCDue(cfg, s.db, s.holders[w], s.now)
  {
    ReachableInv(cfg, s);
    forall w | w in s.holders
      ensures s.holders[w] < |s.db.runs| && s.db.runs[s.holders[w]].status.Running? && !SweepCDue(cfg, s.db, s.holders[w], s.now)
    {
      assert HolderOk(cfg, s, w);
    }
  }

  /** No early start: over all histories every claim happens less than a second before
      scheduled_at at the earliest, and a claimed run is never still PENDING. */
  lemma NoEarlyStart(cfg: Config, s: Sys, w: nat, m: Message)
    requires ValidConfig(cfg) && Reachable(cfg, s) && Enabled(cfg, s, Claim(w, m))
    ensures s.now > s.db.runs[m.run].scheduledAt - 1_000_000
    ensures s.db.runs[m.run].status.Queued? || s.db.runs[m.run].status.Retrying?
  {
    ReachableInv(cfg, s);
    assert MessageOk(s.db.runs, m);
  }

  /** The same, read off the table: every recorded start lies after scheduled_at minus a second. */
  lemma StartTimes(cfg: Config, s: Sys, r: nat)
    requires ValidConfig(cfg) && Reachable(cfg, s) && r < |s.db.runs| && s.db.runs[r].startAt.Some?
    ensures s.db.runs[r].scheduledAt - 1_000_000 < s.db.runs[r].startAt.value <= s.now
  {
    ReachableInv(cfg, s);
    assert RunTimes(s.db.runs[r], s.now);
  }

  // ---------------------------------------------------------------- chain shape and keys

  ghost predicate ShapeOk(jobs: seq<Job>) {
    Forest(jobs)
    && (forall j :: 0 <= j < |jobs| ==> DepthOf(jobs, j) <= MAX_CHAIN_DEPTH)
    && (forall j, k :: 0 <= j < k < |jobs| && jobs[j].key.Some? && jobs[j].owner == jobs[k].owner ==> jobs[j].key != jobs[k].key)
  }

  /** Only create_job adds a job row. */
  lemma OnlyCreateAdds(cfg: Config, s: Sys, step: Step)
    requires Enabled(cfg, s, step) && !step.Create?
    ensures |Apply(cfg, s, step).db.jobs| == |s.db.jobs|
  {
  }

  lemma CreateShape(cfg: Config, db: Db, req: Request, now: int)
    requires ShapeOk(db.jobs)
    ensures ShapeOk(CreateJob(cfg, db, req, now).jobs)
  {
    if CreateOutcome(cfg, db, req, now).NewJob? {
      var jobs2 := db.jobs + [JobRow(req)];
      if req.triggerJob.Some? {
        WalkOnForest(db.jobs, req.triggerJob.value, 1, [req.triggerJob.value]);
      }
      assert Forest(jobs2);
      forall j: nat | j < |jobs2| ensures DepthOf(jobs2, j) <= MAX_CHAIN_DEPTH {
        if j < |db.jobs| { DepthFrame(db.jobs, jobs2, j); }
        else if req.triggerJob.Some? { DepthFrame(db.jobs, jobs2, req.triggerJob.value); }
      }
      forall j | 0 <= j < |db.jobs| && db.jobs[j].key.Some? && db.jobs[j].owner == req.owner ensures db.jobs[j].key != req.key {
        assert !KeyTaken(db.jobs, req.owner, req.key, j);
      }
    }
  }

  lemma StepShape(cfg: Config, s: Sys, step: Step)
    requires ValidConfig(cfg) && Inv(cfg, s) && Enabled(cfg, s, step) && ShapeOk(s.db.jobs)
    ensures ShapeOk(Apply(cfg, s, step).db.jobs)
  {
    if step.Create? {
      CreateShape(cfg, s.db, step.req, s.now);
    } else {
      var jobs2 := Apply(cfg, s, step).db.jobs;
      OnlyCreateAdds(cfg, s, step);
      StepEvolves(cfg, s, step);
      forall j | 0 <= j < |jobs2| ensures jobs2[j].trigger == s.db.jobs[j].trigger && jobs2[j].key == s.db.jobs[j].key && jobs2[j].owner == s.db.jobs[j].owner {
        assert JobEvolves(s.db.jobs[j], jobs2[j]);
      }
      forall j: nat | j < |jobs2| ensures DepthOf(jobs2, j) <= MAX_CHAIN_DEPTH {
        DepthFrame(s.db.jobs, jobs2, j);
      }
    }
  }

  lemma {:induction false} ExecShape(cfg: Config, s: Sys, trace: seq<Step>)
    requires ValidConfig(cfg) && Inv(cfg, s) && ShapeOk(s.db.jobs) && Admits(cfg, s, trace)
    ensures ShapeOk(Exec(cfg, s, trace).db.jobs)
    decreases |trace|
  {
    if trace != [] {
      StepShape(cfg, s, trace[0]);
      StepKeeps(cfg, s, trace[0]);
      ExecShape(cfg, Apply(cfg, s, trace[0]), trace[1..]);
    }
  }

  /** In every reachable state chains have at most ten jobs, the cycle rule never fires on a
      create, and an (owner, idempotency key) pair names at most one job. */
  lemma ChainsStayShort(cfg: Config, s: Sys)
    requires ValidConfig(cfg) && Reachable(cfg, s)
    ensures Forest(s.db.jobs) && forall j :: 0 <= j < |s.db.jobs| ==> DepthOf(s.db.jobs, j) <= 10
    ensures forall owner, t: nat :: ValidateChain(s.db.jobs, owner, t) != Some(Cycle)
    ensures forall j, k :: 0 <= j < k < |s.db.jobs| && s.db.jobs[j].key.Some? && s.db.jobs[j].owner == s.db.jobs[k].owner ==>
      s.db.jobs[j].key != s.db.jobs[k].key
  {
    var t0, trace :| Admits(cfg, Init(t0), trace) && Exec(cfg, Init(t0), trace) == s;
    InitInv(cfg, t0);
    ExecShape(cfg, Init(t0), trace);
    forall owner, t: nat | t < |s.db.jobs| ensures ValidateChain(s.db.jobs, owner, t) != Some(Cycle) {
      WalkOnForest(s.db.jobs, t, 1, [t]);
    }
  }
}
