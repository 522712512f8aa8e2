/** What stays fixed along a history: frozen terminal rows, the append-only log, one-way job
    lifecycles, and the finality of a cancel. */
module History {
  import opened Tables
  import opened Settle
  import opened Steps
  import opened Invariant
  import opened Changes
  import opened Preserve
  import opened System

  ghost predicate JobEvolves(a: Job, b: Job) {
    b == a.(state := b.state, cancelledAt := b.cancelledAt) && (!a.state.Active? ==> b == a)
  }

  ghost predicate RunEvolves(a: Run, b: Run) {
    b == a.(status := b.status, startAt := b.startAt, heartbeatAt := b.heartbeatAt, updatedAt := b.updatedAt)
    && (!Executing(a.status) ==> b == a)
  }

  ghost predicate EventEvolves(a: Event, b: Event) {
    b == a.(processed := b.processed) && (a.processed ==> b.processed)
  }

  /** Nothing is deleted; jobs leave active once and for all; the row of a finished run is frozen;
      the log is append-only up to the consumer's mark, which is never taken back. */
  ghost predicate Evolves(a: Db, b: Db) {
    |a.jobs| <= |b.jobs| && |a.runs| <= |b.runs| && |a.events| <= |b.events|
    && (forall j :: 0 <= j < |a.jobs| ==> JobEvolves(a.jobs[j], b.jobs[j]))
    && (forall r :: 0 <= r < |a.runs| ==> RunEvolves(a.runs[r], b.runs[r]))
    && (forall i :: 0 <= i < |a.events| ==> EventEvolves(a.events[i], b.events[i]))
  }

  lemma EvolvesTransitive(a: Db, b: Db, c: Db)
    requires Evolves(a, b) && Evolves(b, c)
    ensures Evolves(a, c)
  {
    forall j | 0 <= j < |a.jobs| ensures JobEvolves(a.jobs[j], c.jobs[j]) {
      assert JobEvolves(a.jobs[j], b.jobs[j]) && JobEvolves(b.jobs[j], c.jobs[j]);
    }
    forall r | 0 <= r < |a.runs| ensures RunEvolves(a.runs[r], c.runs[r]) {
      assert RunEvolves(a.runs[r], b.runs[r]) && RunEvolves(b.runs[r], c.runs[r]);
    }
    forall i | 0 <= i < |a.events| ensures EventEvolves(a.events[i], c.events[i]) {
      assert EventEvolves(a.events[i], b.events[i]) && EventEvolves(b.events[i], c.events[i]);
    }
  }

  lemma {:induction false} FlipEvolves(db: Db, j: nat, n: nat, now: int)
    requires n <= |db.runs|
    ensures Evolves(db, FlipRuns(db, j, n, now))
  {
    if n > 0 {
      FlipEvolves(db, j, n - 1, now);
      EvolvesTransitive(db, FlipRuns(db, j, n - 1, now), FlipRuns(db, j, n, now));
    }
  }

  lemma CancelEvolves(db: Db, owner: string, j: nat, now: int)
    requires JobsOk(db)
    ensures Evolves(db, CancelJob(db, owner, j, now))
  {
    if CanCancel(db, owner, j) {
      var d1 := StopJob(db, j, now);
      var d2 := FlipRuns(d1, j, |db.runs|, now);
      FlipEvolves(d1, j, |db.runs|, now);
      EvolvesTransitive(db, d1, d2);
      EvolvesTransitive(db, d2, d2.(jobs := SettleDown(d2.jobs, d2.runs, j)));
    }
  }

  lemma {:induction false} FireAllEvolves(db: Db, e: Event, ids: seq<nat>, now: int)
    requires e.kind.Ended?
    requires forall k :: 0 <= k < |ids| ==> ids[k] < |db.jobs| && db.jobs[ids[k]].trigger.Some?
    ensures Evolves(db, FireAll(db, e, ids, now)) && db.events <= FireAll(db, e, ids, now).events
    decreases |ids|
  {
    if ids != [] {
      FireAllEvolves(db, e, ids[..|ids| - 1], now);
      EvolvesTransitive(db, FireAll(db, e, ids[..|ids| - 1], now), FireAll(db, e, ids, now));
    }
  }

  lemma {:induction false} SettleEachEvolves(db: Db, ids: seq<nat>)
    ensures Evolves(db, db.(jobs := SettleEach(db.jobs, db.runs, ids)))
    decreases |ids|
  {
    if ids != [] { SettleEachEvolves(db, ids[..|ids| - 1]); }
  }

  lemma FiredEvolves(cfg: Config, db: Db, e: Event, ids: seq<nat>, now: int)
    requires e.kind.Ended? && e.run < |db.runs| && e.job < |db.jobs| && Offering(db, e, ids)
    ensures
      var d := FireAll(Recur(cfg, db, e, now), e, ids, now);
      Evolves(db, d) && db.events <= d.events
  {
    var d1 := Recur(cfg, db, e, now);
    FireAllEvolves(d1, e, ids, now);
    EvolvesTransitive(db, d1, FireAll(d1, e, ids, now));
  }

  lemma SettledEvolves(db: Db, j: nat, ids: seq<nat>)
    ensures Evolves(db, db.(jobs := SettleEach(SettleCheck(db.jobs, db.runs, j), db.runs, ids)))
  {
    var d := db.(jobs := SettleCheck(db.jobs, db.runs, j));
    SettleEachEvolves(d, ids);
    EvolvesTransitive(db, d, d.(jobs := SettleEach(d.jobs, d.runs, ids)));
  }

  lemma StampEvolves(db: Db, i: nat)
    requires i < |db.events|
    ensures Evolves(db, Stamp(db, i))
  {
  }

  lemma ContinueEvolves(cfg: Config, db: Db, i: nat, ids: seq<nat>, now: int)
    requires Terminal(db, i) && Offering(db, db.events[i], ids)
    ensures Evolves(db, Continue(cfg, db, i, ids, now))
  {
    var e := db.events[i];
    var d2 := FireAll(Recur(cfg, db, e, now), e, ids, now);
    FiredEvolves(cfg, db, e, ids, now);
    var d4 := d2.(jobs := SettleEach(SettleCheck(d2.jobs, d2.runs, e.job), d2.runs, ids));
    SettledEvolves(d2, e.job, ids);
    EvolvesTransitive(db, d2, d4);
    StampEvolves(d4, i);
    EvolvesTransitive(db, d4, Stamp(d4, i));
  }

  lemma CreateEvolves(cfg: Config, db: Db, req: Request, now: int)
    ensures Evolves(db, CreateJob(cfg, db, req, now))
  {
  }

  lemma MoveEvolves(db: Db, r: nat, run: Run, kind: Kind, now: int)
    requires r < |db.runs| && Executing(db.runs[r].status)
    requires run == db.runs[r].(status := run.status, startAt := run.startAt, heartbeatAt := run.heartbeatAt, updatedAt := run.updatedAt)
    ensures Evolves(db, Transition(db, r, run, kind, now))
  {
  }

  lemma FinishEvolves(db: Db, r: nat, status: Status, now: int)
    requires r < |db.runs| && Executing(db.runs[r].status)
    ensures Evolves(db, FinishRow(db, r, status, now))
  {
    var d := Transition(db, r, db.runs[r].(status := status, updatedAt := now), Ended(status), now);
    MoveEvolves(db, r, d.runs[r], Ended(status), now);
    EvolvesTransitive(db, d, FinishRow(db, r, status, now));
  }

  lemma RowStepEvolves(cfg: Config, s: Sys, step: Step)
    requires Enabled(cfg, s, step)
    requires step.WatcherCommit? || step.Claim? || step.SweepA? || step.SweepB? || step.SweepC?
    ensures Evolves(s.db, Apply(cfg, s, step).db)
  {
    var d := Apply(cfg, s, step).db;
    match step
    case WatcherCommit(r) => MoveEvolves(s.db, r, d.runs[r], Enqueued, s.now);
    case Claim(_, m) => MoveEvolves(s.db, m.run, d.runs[m.run], Started, s.now);
    case SweepA(r) => MoveEvolves(s.db, r, d.runs[r], Ended(Failed), s.now);
    case SweepB(r, _) => MoveEvolves(s.db, r, s.db.runs[r].(updatedAt := s.now), Reenqueued, s.now);
    case SweepC(r) =>
      MoveEvolves(s.db, r, s.db.runs[r].(status := Queued, updatedAt := s.now), Reenqueued, s.now);
      FinishEvolves(s.db, r, Failed, s.now);
  }

  lemma HolderStepEvolves(cfg: Config, s: Sys, step: Step)
    requires HoldersOk(cfg, s) && Enabled(cfg, s, step)
    requires step.Heartbeat? || step.Finish? || step.RetryLater?
    ensures Evolves(s.db, Apply(cfg, s, step).db)
  {
    var r := s.holders[step.worker];
    assert HolderOk(cfg, s, step.worker);
    match step
    case Heartbeat(w) => assert RunEvolves(s.db.runs[r], s.db.runs[r].(heartbeatAt := Some(s.now)));
    case Finish(w, ok) => FinishEvolves(s.db, r, if ok then Succeeded else Failed, s.now);
    case RetryLater(w) => MoveEvolves(s.db, r, s.db.runs[r].(status := Retrying, updatedAt := s.now), Retry, s.now);
  }

  lemma StepEvolves(cfg: Config, s: Sys, step: Step)
    requires ValidConfig(cfg) && Inv(cfg, s) && Enabled(cfg, s, step)
    ensures Evolves(s.db, Apply(cfg, s, step).db)
  {
    if step.Create? {
      CreateEvolves(cfg, s.db, step.req, s.now);
    } else if step.Cancel? {
      CancelEvolves(s.db, step.owner, step.job, s.now);
    } else if step.Process? {
      ContinueEvolves(cfg, s.db, step.event, step.order, s.now);
    } else if step.Heartbeat? || step.Finish? || step.RetryLater? {
      HolderStepEvolves(cfg, s, step);
    } else if step.WatcherCommit? || step.Claim? || step.SweepA? || step.SweepB? || step.SweepC? {
      RowStepEvolves(cfg, s, step);
    } else {
      assert Apply(cfg, s, step).db == s.db;
    }
  }

  /** Every later state of every history evolves from the earlier one. */
  lemma {:induction false} ExecEvolves(cfg: Config, s: Sys, trace: seq<Step>)
    requires ValidConfig(cfg) && Inv(cfg, s) && Admits(cfg, s, trace)
    ensures Evolves(s.db, Exec(cfg, s, trace).db)
    decreases |trace|
  {
    if trace != [] {
      var t := Apply(cfg, s, trace[0]);
      StepEvolves(cfg, s, trace[0]);
      StepKeeps(cfg, s, trace[0]);
      ExecEvolves(cfg, t, trace[1..]);
      EvolvesTransitive(s.db, t.db, Exec(cfg, s, trace).db);
    }
  }

  // ---------------------------------------------------------------- who gets new runs

  /** Every run of db2 beyond those of db belongs to a brand-new root, or to an active job whose
      trigger parent, if any, is not cancelled. */
  ghost predicate NewRunsLive(db: Db, db2: Db) {
    forall r :: |db.runs| <= r < |db2.runs| ==> MayGetRun(db.jobs, db2.jobs, db2.runs[r].job)
  }

  ghost predicate MayGetRun(jobs: seq<Job>, jobs2: seq<Job>, c: nat) {
    (|jobs| <= c < |jobs2| && jobs2[c].trigger.None?)
    || (c < |jobs| && jobs[c].state.Active?
        && (jobs[c].trigger.Some? && jobs[c].trigger.value.parent < |jobs| ==> !jobs[jobs[c].trigger.value.parent].state.Stopped?))
  }

  lemma {:induction false} FireAllLive(db: Db, jobs: seq<Job>, e: Event, ids: seq<nat>, now: int)
    requires e.kind.Ended? && db.jobs == jobs && e.job < |jobs| && (ids != [] ==> !jobs[e.job].state.Stopped?)
    requires forall k :: 0 <= k < |ids| ==> ids[k] < |jobs| && jobs[ids[k]].trigger.Some? && IsActiveDownstream(jobs, e.job, ids[k])
    ensures NewRunsLive(db, FireAll(db, e, ids, now)) && db.runs <= FireAll(db, e, ids, now).runs
    decreases |ids|
  {
    if ids != [] { FireAllLive(db, jobs, e, ids[..|ids| - 1], now); }
  }

  lemma ContinueLive(cfg: Config, db: Db, i: nat, ids: seq<nat>, now: int)
    requires DbInv(cfg, db) && Terminal(db, i) && Offering(db, db.events[i], ids)
    ensures NewRunsLive(db, Continue(cfg, db, i, ids, now))
  {
    var e := db.events[i];
    assert JobOk(db.jobs, e.job);
    var d1 := Recur(cfg, db, e, now);
    FireAllLive(d1, db.jobs, e, ids, now);
  }

  lemma CreateLive(cfg: Config, db: Db, req: Request, now: int)
    ensures NewRunsLive(db, CreateJob(cfg, db, req, now))
  {
  }

  /** Nothing but create_job and the consumer inserts a run row. */
  lemma OthersInsertNothing(cfg: Config, s: Sys, step: Step)
    requires Enabled(cfg, s, step) && !step.Create? && !step.Process?
    ensures |Apply(cfg, s, step).db.runs| == |s.db.runs|
  {
  }

  lemma StepLive(cfg: Config, s: Sys, step: Step)
    requires ValidConfig(cfg) && Inv(cfg, s) && Enabled(cfg, s, step)
    ensures NewRunsLive(s.db, Apply(cfg, s, step).db)
  {
    if step.Create? {
      CreateLive(cfg, s.db, step.req, s.now);
    } else if step.Process? {
      ContinueLive(cfg, s.db, step.event, step.order, s.now);
    } else {
      OthersInsertNothing(cfg, s, step);
    }
  }

  /** No run of the job or of its direct downstreams. */
  ghost predicate Spares(jobs: seq<Job>, runs: seq<Run>, from: nat, j: nat) {
    forall r :: from <= r < |runs| ==> runs[r].job != j && !IsChild(jobs, j, runs[r].job)
  }

  /** From a state where j is cancelled on, no history creates another run for j or for a job
      triggered by j. */
  lemma {:induction false} StoppedForGood(cfg: Config, s: Sys, j: nat, trace: seq<Step>)
    requires ValidConfig(cfg) && Inv(cfg, s) && Admits(cfg, s, trace)
    requires j < |s.db.jobs| && s.db.jobs[j].state.Stopped?
    ensures Spares(Exec(cfg, s, trace).db.jobs, Exec(cfg, s, trace).db.runs, |s.db.runs|, j)
    decreases |trace|
  {
    if trace != [] {
      var t := Apply(cfg, s, trace[0]);
      StepKeeps(cfg, s, trace[0]);
      StepEvolves(cfg, s, trace[0]);
      StepLive(cfg, s, trace[0]);
      assert JobEvolves(s.db.jobs[j], t.db.jobs[j]);
      StoppedForGood(cfg, t, j, trace[1..]);
      ExecEvolves(cfg, t, trace[1..]);
      var u := Exec(cfg, t, trace[1..]);
      forall r | |s.db.runs| <= r < |u.db.runs| ensures u.db.runs[r].job != j && !IsChild(u.db.jobs, j, u.db.runs[r].job) {
        if r < |t.db.runs| {
          SparedRun(s.db, t.db, u.db, j, r);
        }
      }
    } else {
    }
  }

  lemma SparedRun(a: Db, b: Db, c: Db, j: nat, r: nat)
    requires JobsOk(b) && Evolves(a, b) && Evolves(b, c) && NewRunsLive(a, b) && |a.runs| <= r < |b.runs|
    requires j < |a.jobs| && a.jobs[j].state.Stopped?
    ensures c.runs[r].job != j && !IsChild(c.jobs, j, c.runs[r].job)
  {
    var x := b.runs[r].job;
    assert RunEvolves(b.runs[r], c.runs[r]) && MayGetRun(a.jobs, b.jobs, x);
    assert JobEvolves(b.jobs[x], c.jobs[x]);
    if x < |a.jobs| { assert JobEvolves(a.jobs[x], b.jobs[x]); }
  }

  /** Cancel finality: after a cancel no history creates a run for the job or its direct
      downstreams, and every run that was pending, queued or retrying stays CANCELLED and is
      never started again. */
  lemma CancelIsFinal(cfg: Config, s: Sys, owner: string, j: nat, trace: seq<Step>)
    requires ValidConfig(cfg) && Reachable(cfg, s) && CanCancel(s.db, owner, j)
    requires Admits(cfg, Apply(cfg, s, Cancel(owner, j)), trace)
    ensures
      var u := Exec(cfg, Apply(cfg, s, Cancel(owner, j)), trace).db;
      j < |u.jobs| && u.jobs[j].state.Stopped?
      && Spares(u.jobs, u.runs, |s.db.runs|, j)
      && |s.db.runs| <= |u.runs|
      && forall r :: 0 <= r < |s.db.runs| && s.db.runs[r].job == j && Claimable(s.db.runs[r].status) ==>
           u.runs[r] == s.db.runs[r].(status := Cancelled)
  {
    ReachableInv(cfg, s);
    var t := Apply(cfg, s, Cancel(owner, j));
    StepKeeps(cfg, s, Cancel(owner, j));
    FlipRunsExactly(StopJob(s.db, j, s.now), j, |s.db.runs|, s.now);
    ForestOf(s.db);
    StillStopped(s.db, owner, j, s.now);
    StoppedForGood(cfg, t, j, trace);
    ExecEvolves(cfg, t, trace);
    var u := Exec(cfg, t, trace).db;
    assert JobEvolves(t.db.jobs[j], u.jobs[j]);
    forall r | 0 <= r < |s.db.runs| && s.db.runs[r].job == j && Claimable(s.db.runs[r].status)
      ensures u.runs[r] == s.db.runs[r].(status := Cancelled)
    {
      assert RunEvolves(t.db.runs[r], u.runs[r]);
    }
  }

  /** The cascade never touches the cancelled job itself. */
  lemma StillStopped(db: Db, owner: string, j: nat, now: int)
    requires CanCancel(db, owner, j)
    ensures CancelJob(db, owner, j, now).jobs[j].state.Stopped?
  {
  }
}
