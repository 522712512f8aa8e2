/** What a cancel stops, status by status, at once and for good. */
module Cancellation {
  import opened Tables
  import opened Steps
  import Settle
  import opened Invariant
  import opened Preserve
  import opened System
  import opened History

  /** A run that has not been started, or is waiting to be started again. */
  predicate Unstarted(s: Status) {
    s == Pending || s == Queued || s == Retrying
  }

  // ---------------------------------------------------------------- the transaction

  /** The event one flipped run leaves in the log. */
  predicate Flips(e: Event, r: nat, j: nat, from: Status, now: int) {
    e.run == r && e.job == j && e.kind == Ended(Cancelled) && e.from == Some(from) && e.to == Some(Cancelled)
    && e.at == now && !e.processed
  }

  ghost predicate FlipLogged(a: Db, b: Db, r: nat, j: nat, from: Status, now: int) {
    exists k :: |a.events| <= k < |b.events| && Flips(b.events[k], r, j, from, now)
  }

  /** b is a with run r of job j cancelled if it was unstarted, and untouched otherwise. */
  ghost predicate RunCancelled(a: Db, b: Db, r: nat, j: nat, now: int)
    requires r < |a.runs| && r < |b.runs|
  {
    if a.runs[r].job == j && Unstarted(a.runs[r].status)
    then b.runs[r] == a.runs[r].(status := Cancelled) && FlipLogged(a, b, r, j, a.runs[r].status, now)
    else b.runs[r] == a.runs[r]
  }

  lemma {:induction false} FlipsAll(db: Db, j: nat, n: nat, now: int, r: nat)
    requires n <= |db.runs| && r < |db.runs|
    ensures
      var d := FlipRuns(db, j, n, now);
      db.events <= d.events
      && if r < n then RunCancelled(db, d, r, j, now) else d.runs[r] == db.runs[r]
  {
    if n > 0 {
      FlipsAll(db, j, n - 1, now, r);
      FlipsAll(db, j, n - 1, now, n - 1);
      var d, f := FlipRuns(db, j, n - 1, now), FlipRuns(db, j, n, now);
      if r == n - 1 {
        if db.runs[r].job == j && Unstarted(db.runs[r].status) {
          assert Flips(f.events[|d.events|], r, j, db.runs[r].status, now);
        }
      } else if r < n - 1 && db.runs[r].job == j && Unstarted(db.runs[r].status) {
        var k :| |db.events| <= k < |d.events| && Flips(d.events[k], r, j, db.runs[r].status, now);
        assert Flips(f.events[k], r, j, db.runs[r].status, now);
      }
    }
  }

  /** A cancel of an active job of the caller stamps the job, turns its PENDING, QUEUED and RETRYING
      runs CANCELLED with an event each, and leaves every other run alone; any other cancel changes
      nothing. */
  lemma CancelEffect(db: Db, owner: string, j: nat, now: int)
    ensures !(j < |db.jobs| && db.jobs[j].owner == owner && db.jobs[j].state == Active) ==> CancelJob(db, owner, j, now) == db
    ensures j < |db.jobs| && db.jobs[j].owner == owner && db.jobs[j].state == Active ==>
      var d := CancelJob(db, owner, j, now);
      |d.jobs| == |db.jobs| && |d.runs| == |db.runs|
      && d.jobs[j] == db.jobs[j].(state := Stopped, cancelledAt := Some(now))
      && forall r :: 0 <= r < |db.runs| ==> RunCancelled(db, d, r, j, now)
  {
    if CanCancel(db, owner, j) {
      var stopped := StopJob(db, j, now);
      var d := CancelJob(db, owner, j, now);
      forall r | 0 <= r < |db.runs| ensures RunCancelled(db, d, r, j, now) {
        FlipsAll(stopped, j, |db.runs|, now, r);
        RunCancelledKept(db, stopped, FlipRuns(stopped, j, |db.runs|, now), d, r, j, now);
      }
    }
  }

  /** Job rows do not matter to what happens to a run. */
  lemma RunCancelledKept(a: Db, b: Db, c: Db, d: Db, r: nat, j: nat, now: int)
    requires a.runs == b.runs && a.events == b.events && c.runs == d.runs && c.events == d.events
    requires r < |a.runs| && r < |c.runs| && RunCancelled(b, c, r, j, now)
    ensures RunCancelled(a, d, r, j, now)
  {
    if a.runs[r].job == j && Unstarted(a.runs[r].status) {
      var k :| |b.events| <= k < |c.events| && Flips(c.events[k], r, j, a.runs[r].status, now);
      assert Flips(d.events[k], r, j, a.runs[r].status, now);
    }
  }

  // ---------------------------------------------------------------- histories

  /** Runs of job j in b that were not running in a have not been started since. */
  ghost predicate NoneStarts(a: Db, b: Db, j: nat) {
    |a.runs| <= |b.runs|
    && (forall r :: |a.runs| <= r < |b.runs| ==> b.runs[r].job != j)
    && (forall r :: 0 <= r < |a.runs| && a.runs[r].job == j && a.runs[r].status != Running ==>
          b.runs[r].status != Running && b.runs[r].startAt == a.runs[r].startAt)
  }

  lemma NoneStartsLater(a: Db, t: Db, u: Db, j: nat, now: int)
    requires |t.runs| == |a.runs| && Evolves(t, u) && Spares(u.jobs, u.runs, |t.runs|, j)
    requires forall r :: 0 <= r < |a.runs| ==> RunCancelled(a, t, r, j, now)
    requires forall r :: 0 <= r < |a.runs| && a.runs[r].job == j && a.runs[r].status != Running ==> !Executing(t.runs[r].status)
    ensures NoneStarts(a, u, j)
  {
    forall r | 0 <= r < |a.runs| && a.runs[r].job == j && a.runs[r].status != Running
      ensures u.runs[r].status != Running && u.runs[r].startAt == a.runs[r].startAt
    {
      assert RunCancelled(a, t, r, j, now) && RunEvolves(t.runs[r], u.runs[r]);
    }
  }

  lemma OverAfterCancel(a: Db, t: Db, j: nat, now: int, r: nat)
    requires r < |a.runs| && r < |t.runs| && RunCancelled(a, t, r, j, now) && a.runs[r].job == j && a.runs[r].status != Running
    ensures !Executing(t.runs[r].status)
  {
  }

  /** After a cancel, no run of the job that was not RUNNING at that moment is started in any later
      history, and none is created. */
  lemma CancelStopsStarts(cfg: Config, s: Sys, owner: string, j: nat, trace: seq<Step>)
    requires ValidConfig(cfg) && Reachable(cfg, s)
    requires j < |s.db.jobs| && s.db.jobs[j].owner == owner && s.db.jobs[j].state == Active
    requires Admits(cfg, Apply(cfg, s, Cancel(owner, j)), trace)
    ensures NoneStarts(s.db, Exec(cfg, Apply(cfg, s, Cancel(owner, j)), trace).db, j)
  {
    var t := s.(db := CancelJob(s.db, owner, j, s.now));
    ReachableInv(cfg, s);
    CancelStepKeeps(cfg, s, owner, j);
    CancelEffect(s.db, owner, j, s.now);
    forall r: nat | r < |s.db.runs| && s.db.runs[r].job == j && s.db.runs[r].status != Running
      ensures !Executing(t.db.runs[r].status)
    {
      assert RunCancelled(s.db, t.db, r, j, s.now);
      OverAfterCancel(s.db, t.db, j, s.now, r);
    }
    LaterHistory(cfg, s.db, t, j, s.now, trace);
  }

  lemma LaterHistory(cfg: Config, a: Db, t: Sys, j: nat, now: int, trace: seq<Step>)
    requires ValidConfig(cfg) && Inv(cfg, t) && Admits(cfg, t, trace) && j < |t.db.jobs| && t.db.jobs[j].state == Stopped
    requires |t.db.runs| == |a.runs| && forall r :: 0 <= r < |a.runs| ==> RunCancelled(a, t.db, r, j, now)
    requires forall r :: 0 <= r < |a.runs| && a.runs[r].job == j && a.runs[r].status != Running ==> !Executing(t.db.runs[r].status)
    ensures NoneStarts(a, Exec(cfg, t, trace).db, j)
  {
    StoppedForGood(cfg, t, j, trace);
    assert Evolves(t.db, Exec(cfg, t, trace).db) by { ExecEvolves(cfg, t, trace); }
    NoneStartsLater(a, t.db, Exec(cfg, t, trace).db, j, now);
  }

  // ---------------------------------------------------------------- the invariant

  /** A run of a cancelled job is never waiting for its first start. */
  ghost predicate NonePending(db: Db) {
    forall r :: 0 <= r < |db.runs| && db.runs[r].status == Pending ==>
      db.runs[r].job < |db.jobs| && db.jobs[db.runs[r].job].state != Stopped
  }

  /** Existing jobs keep cancelled_at, and new ones have none. */
  ghost predicate SameCancelledAt(a: seq<Job>, b: seq<Job>) {
    |a| <= |b|
    && forall j :: 0 <= j < |b| ==> b[j].cancelledAt == if j < |a| then a[j].cancelledAt else None
  }

  lemma {:induction false} SettleEachCancelled(jobs: seq<Job>, runs: seq<Run>, ids: seq<nat>)
    ensures SameCancelledAt(jobs, SettleEach(jobs, runs, ids))
    decreases |ids|
  {
    if ids != [] { SettleEachCancelled(jobs, runs, ids[..|ids| - 1]); }
  }

  lemma CreateCancelled(cfg: Config, db: Db, req: Request, now: int)
    ensures SameCancelledAt(db.jobs, CreateJob(cfg, db, req, now).jobs)
  {
  }

  lemma ContinueCancelled(cfg: Config, db: Db, i: nat, ids: seq<nat>, now: int)
    requires Terminal(db, i) && Offering(db, db.events[i], ids)
    ensures SameCancelledAt(db.jobs, Continue(cfg, db, i, ids, now).jobs)
  {
    var e := db.events[i];
    var fired := FireAll(Recur(cfg, db, e, now), e, ids, now);
    var first := Settle.SettleCheck(fired.jobs, fired.runs, e.job);
    SettleEachCancelled(first, fired.runs, ids);
    assert SameCancelledAt(db.jobs, first);
  }

  predicate OnRows(step: Step) {
    !step.Create? && !step.Cancel? && !step.Process?
  }

  lemma RowStepCancelled(cfg: Config, s: Sys, step: Step)
    requires Enabled(cfg, s, step) && OnRows(step)
    ensures SameCancelledAt(s.db.jobs, Apply(cfg, s, step).db.jobs)
  {
  }

  /** No step but a cancel stops a job. */
  lemma OnlyCancelStops(cfg: Config, s: Sys, step: Step)
    requires Enabled(cfg, s, step) && !step.Cancel?
    ensures SameCancelledAt(s.db.jobs, Apply(cfg, s, step).db.jobs)
  {
    if step.Create? {
      CreateCancelled(cfg, s.db, step.req, s.now);
    } else if step.Process? {
      ContinueCancelled(cfg, s.db, step.event, step.order, s.now);
    } else {
      RowStepCancelled(cfg, s, step);
    }
  }

  lemma NotStoppedKept(a: Db, b: Db, j: nat)
    requires JobsOk(a) && JobsOk(b) && SameCancelledAt(a.jobs, b.jobs) && j < |b.jobs|
    requires j < |a.jobs| ==> a.jobs[j].state != Stopped
    ensures b.jobs[j].state != Stopped
  {
    assert JobOk(b.jobs, j);
    if j < |a.jobs| { assert JobOk(a.jobs, j); }
  }

  /** Rows that become PENDING were not there before. */
  ghost predicate NoneReopens(a: seq<Run>, b: seq<Run>) {
    |a| <= |b| && forall r :: 0 <= r < |a| && b[r].status == Pending ==> a[r].status == Pending
  }

  lemma RowStepReopens(cfg: Config, s: Sys, step: Step)
    requires Enabled(cfg, s, step) && OnRows(step)
    ensures NoneReopens(s.db.runs, Apply(cfg, s, step).db.runs)
  {
  }

  lemma CancelReopens(db: Db, owner: string, j: nat, now: int)
    ensures NoneReopens(db.runs, CancelJob(db, owner, j, now).runs)
  {
    var d := CancelJob(db, owner, j, now);
    CancelEffect(db, owner, j, now);
    if CanCancel(db, owner, j) {
      forall r | 0 <= r < |db.runs| && d.runs[r].status == Pending ensures db.runs[r].status == Pending {
        assert RunCancelled(db, d, r, j, now);
      }
    }
  }

  /** No step makes an existing run PENDING. */
  lemma NeverPendingAgain(cfg: Config, s: Sys, step: Step)
    requires Enabled(cfg, s, step)
    ensures NoneReopens(s.db.runs, Apply(cfg, s, step).db.runs)
  {
    if step.Cancel? {
      CancelReopens(s.db, step.owner, step.job, s.now);
    } else if step.Process? {
      ContinueRows(cfg, s.db, step.event, step.order, s.now);
    } else if step.Create? {
    } else {
      RowStepReopens(cfg, s, step);
    }
  }

  lemma StepNonePending(cfg: Config, s: Sys, step: Step)
    requires ValidConfig(cfg) && Inv(cfg, s) && Enabled(cfg, s, step) && NonePending(s.db)
    ensures NonePending(Apply(cfg, s, step).db)
  {
    var t := Apply(cfg, s, step);
    assert Inv(cfg, t) by { StepKeeps(cfg, s, step); }
    assert Evolves(s.db, t.db) by { StepEvolves(cfg, s, step); }
    StepLive(cfg, s, step);
    forall r: nat | r < |t.db.runs| && t.db.runs[r].status == Pending
      ensures t.db.runs[r].job < |t.db.jobs| && t.db.jobs[t.db.runs[r].job].state != Stopped
    {
      assert RunOk(t.db, r);
      PendingStaysLive(cfg, s, step, r);
    }
  }

  lemma PendingStaysLive(cfg: Config, s: Sys, step: Step, r: nat)
    requires ValidConfig(cfg) && Inv(cfg, s) && Enabled(cfg, s, step) && NonePending(s.db)
    requires var d := Apply(cfg, s, step).db; JobsOk(d) && NewRunsLive(s.db, d) && Evolves(s.db, d) && r < |d.runs|
    requires Apply(cfg, s, step).db.runs[r].status == Pending && Apply(cfg, s, step).db.runs[r].job < |Apply(cfg, s, step).db.jobs|
    ensures Apply(cfg, s, step).db.jobs[Apply(cfg, s, step).db.runs[r].job].state != Stopped
  {
    var t := Apply(cfg, s, step);
    var j := t.db.runs[r].job;
    if r < |s.db.runs| {
      NeverPendingAgain(cfg, s, step);
      assert RunEvolves(s.db.runs[r], t.db.runs[r]);
    } else {
      assert MayGetRun(s.db.jobs, t.db.jobs, j);
    }
    if step.Cancel? {
      CancelledHasNone(s.db, step.owner, step.job, s.now, r, j);
    } else {
      OnlyCancelStops(cfg, s, step);
      NotStoppedKept(s.db, t.db, j);
    }
  }

  /** The cancelled job itself keeps no PENDING run. */
  lemma CancelledHasNone(db: Db, owner: string, j: nat, now: int, r: nat, x: nat)
    requires r < |CancelJob(db, owner, j, now).runs| && CancelJob(db, owner, j, now).runs[r].status == Pending
    requires CancelJob(db, owner, j, now).runs[r].job == x < |CancelJob(db, owner, j, now).jobs|
    requires NonePending(db)
    ensures CancelJob(db, owner, j, now).jobs[x].state != Stopped
  {
    CancelEffect(db, owner, j, now);
    if CanCancel(db, owner, j) {
      assert RunCancelled(db, CancelJob(db, owner, j, now), r, j, now);
      assert x != j;
      OthersNotStopped(db, owner, j, now, x);
    }
  }

  lemma OthersNotStopped(db: Db, owner: string, j: nat, now: int, x: nat)
    requires CanCancel(db, owner, j) && x < |db.jobs| && x != j && db.jobs[x].state != Stopped
    ensures CancelJob(db, owner, j, now).jobs[x].state != Stopped
  {
  }

  lemma {:induction false} ExecNonePending(cfg: Config, s: Sys, trace: seq<Step>)
    requires ValidConfig(cfg) && Inv(cfg, s) && NonePending(s.db) && Admits(cfg, s, trace)
    ensures NonePending(Exec(cfg, s, trace).db)
    decreases |trace|
  {
    if trace != [] {
      StepNonePending(cfg, s, trace[0]);
      StepKeeps(cfg, s, trace[0]);
      ExecNonePending(cfg, Apply(cfg, s, trace[0]), trace[1..]);
    }
  }

  /** In every reachable state a cancelled job has no PENDING run. */
  lemma CancelledNeverPending(cfg: Config, s: Sys, r: nat)
    requires ValidConfig(cfg) && Reachable(cfg, s) && r < |s.db.runs| && s.db.runs[r].status == Pending
    ensures s.db.runs[r].job < |s.db.jobs| && s.db.jobs[s.db.runs[r].job].state != Stopped
  {
    var t0, trace :| Admits(cfg, Init(t0), trace) && Exec(cfg, Init(t0), trace) == s;
    InitInv(cfg, t0);
    ExecNonePending(cfg, Init(t0), trace);
  }
}
