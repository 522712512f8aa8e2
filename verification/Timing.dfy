/** When the watcher and the sweeps may touch a run, and when they must not: the lookahead, the
    graces, and the time a published run can start. */
module Timing {
  import opened Tables
  import opened Steps
  import opened Invariant
  import opened System
  import opened History
  import Cancellation

  /** The exact conditions: the watcher looks five minutes ahead; sweep A waits for dlqGrace after the
      last status write of a RETRYING run, sweep B for queuedGrace after that of a QUEUED one and for
      its scheduled time, and sweep C for runningGrace after the last lease of a RUNNING one. */
  lemma DueExactly(cfg: Config, s: Sys, r: nat, committed: bool)
    ensures Enabled(cfg, s, WatcherCommit(r)) <==>
      r < |s.db.runs| && s.db.runs[r].status == Pending && s.db.runs[r].scheduledAt < s.now + 300_000_000
    ensures Enabled(cfg, s, SweepA(r)) <==>
      r < |s.db.runs| && s.db.runs[r].status == Retrying && s.db.runs[r].updatedAt + cfg.dlqGrace < s.now
    ensures Enabled(cfg, s, SweepB(r, committed)) <==>
      r < |s.db.runs| && s.db.runs[r].status == Queued && s.db.runs[r].updatedAt + cfg.queuedGrace < s.now
      && s.db.runs[r].scheduledAt < s.now
    ensures Enabled(cfg, s, SweepC(r)) <==>
      r < |s.db.runs| && s.db.runs[r].status == Running
      && (s.db.runs[r].heartbeatAt == None || s.db.runs[r].heartbeatAt.value + cfg.runningGrace < s.now)
  {
  }

  // ---------------------------------------------------------------- last writes only move forward

  /** b's status-write time and lease are a's, or newer. */
  predicate Later(a: Run, b: Run) {
    b.updatedAt >= a.updatedAt
    && (a.heartbeatAt.Some? ==> b.heartbeatAt.Some? && b.heartbeatAt.value >= a.heartbeatAt.value)
  }

  lemma RowStepLater(cfg: Config, s: Sys, step: Step, r: nat)
    requires Enabled(cfg, s, step) && Cancellation.OnRows(step) && r < |s.db.runs| && RunTimes(s.db.runs[r], s.now)
    ensures r < |Apply(cfg, s, step).db.runs| && Later(s.db.runs[r], Apply(cfg, s, step).db.runs[r])
  {
  }

  lemma StepLater(cfg: Config, s: Sys, step: Step, r: nat)
    requires ValidConfig(cfg) && Inv(cfg, s) && Enabled(cfg, s, step) && r < |s.db.runs|
    ensures r < |Apply(cfg, s, step).db.runs| && Later(s.db.runs[r], Apply(cfg, s, step).db.runs[r])
  {
    assert RunTimes(s.db.runs[r], s.now);
    if step.Cancel? {
      CancelRows(s.db, step.owner, step.job, s.now);
    } else if step.Process? {
      ContinueRows(cfg, s.db, step.event, step.order, s.now);
    } else if step.Create? {
    } else {
      RowStepLater(cfg, s, step, r);
    }
  }

  lemma {:induction false} ExecLater(cfg: Config, s: Sys, trace: seq<Step>, r: nat)
    requires ValidConfig(cfg) && Inv(cfg, s) && Admits(cfg, s, trace) && r < |s.db.runs|
    ensures r < |Exec(cfg, s, trace).db.runs| && Later(s.db.runs[r], Exec(cfg, s, trace).db.runs[r])
    decreases |trace|
  {
    if trace != [] {
      StepLater(cfg, s, trace[0], r);
      StepKeeps(cfg, s, trace[0]);
      ExecLater(cfg, Apply(cfg, s, trace[0]), trace[1..], r);
    }
  }

  /** From t on, sweep A and sweep B respect the time of run r's last status write in t, and sweep C
      that of its last lease. */
  lemma GracesHold(cfg: Config, t: Sys, trace: seq<Step>, r: nat, committed: bool)
    requires ValidConfig(cfg) && Inv(cfg, t) && Admits(cfg, t, trace) && r < |t.db.runs|
    ensures
      var u := Exec(cfg, t, trace);
      (Enabled(cfg, u, SweepA(r)) ==> u.now > t.db.runs[r].updatedAt + cfg.dlqGrace)
      && (Enabled(cfg, u, SweepB(r, committed)) ==> u.now > t.db.runs[r].updatedAt + cfg.queuedGrace && u.now > t.db.runs[r].scheduledAt)
      && (Enabled(cfg, u, SweepC(r)) && t.db.runs[r].heartbeatAt.Some? ==> u.now > t.db.runs[r].heartbeatAt.value + cfg.runningGrace)
  {
    var u := Exec(cfg, t, trace);
    ExecLater(cfg, t, trace, r);
    DueExactly(cfg, u, r, committed);
    assert Evolves(t.db, u.db) by { ExecEvolves(cfg, t, trace); }
    assert RunEvolves(t.db.runs[r], u.db.runs[r]);
  }

  // ---------------------------------------------------------------- theorems

  /** After a retryable failure the run is RETRYING, and over every later history sweep A does not
      touch it before dlqGrace has passed, whatever else happens. */
  lemma RetryIsLeftAlone(cfg: Config, s: Sys, w: nat, trace: seq<Step>)
    requires ValidConfig(cfg) && Reachable(cfg, s) && Enabled(cfg, s, RetryLater(w))
    requires Admits(cfg, Apply(cfg, s, RetryLater(w)), trace)
    ensures
      var t := Apply(cfg, s, RetryLater(w));
      s.holders[w] < |t.db.runs| && t.db.runs[s.holders[w]].status == Retrying
      && (Enabled(cfg, Exec(cfg, t, trace), SweepA(s.holders[w])) ==> Exec(cfg, t, trace).now > s.now + cfg.dlqGrace)
  {
    ReachableInv(cfg, s);
    RetryStepKeeps(cfg, s, w);
    GracesHold(cfg, Apply(cfg, s, RetryLater(w)), trace, s.holders[w], true);
  }

  /** The steps that put run r, or put it again, into the queue. */
  predicate Queues(cfg: Config, s: Sys, step: Step, r: nat) {
    step == WatcherCommit(r) || step == SweepB(r, true)
    || (step == SweepC(r) && r < |s.db.runs| && s.db.runs[r].job < |s.db.jobs|
        && s.db.jobs[s.db.runs[r].job].action in cfg.registry && cfg.registry[s.db.jobs[s.db.runs[r].job].action])
  }

  lemma QueuesNow(cfg: Config, s: Sys, step: Step, r: nat)
    requires Enabled(cfg, s, step) && Queues(cfg, s, step, r)
    ensures
      var d := Apply(cfg, s, step).db;
      r < |d.runs| && d.runs[r].status == Queued && d.runs[r].updatedAt == s.now && d.runs[r].scheduledAt == s.db.runs[r].scheduledAt
  {
  }

  /** After the watcher, a requeue or an orphan reset the run is QUEUED, and over every later history
      sweep B does not send it again before queuedGrace has passed, nor before its scheduled time. */
  lemma QueuedIsLeftAlone(cfg: Config, s: Sys, step: Step, r: nat, committed: bool, trace: seq<Step>)
    requires ValidConfig(cfg) && Reachable(cfg, s) && Enabled(cfg, s, step) && Queues(cfg, s, step, r)
    requires Admits(cfg, Apply(cfg, s, step), trace)
    ensures
      var t := Apply(cfg, s, step);
      r < |t.db.runs| && t.db.runs[r].status == Queued
      && (Enabled(cfg, Exec(cfg, t, trace), SweepB(r, committed)) ==>
            Exec(cfg, t, trace).now > s.now + cfg.queuedGrace && Exec(cfg, t, trace).now > s.db.runs[r].scheduledAt)
  {
    ReachableInv(cfg, s);
    StepKeeps(cfg, s, step);
    QueuesNow(cfg, s, step, r);
    GracesHold(cfg, Apply(cfg, s, step), trace, r, committed);
  }

  /** The steps that renew run r's lease. */
  predicate Leases(s: Sys, step: Step, r: nat) {
    (step.Claim? && step.message.run == r) || (step.Heartbeat? && step.worker in s.holders && s.holders[step.worker] == r)
  }

  lemma LeasesNow(cfg: Config, s: Sys, step: Step, r: nat)
    requires Enabled(cfg, s, step) && Leases(s, step, r)
    ensures r < |Apply(cfg, s, step).db.runs| && Apply(cfg, s, step).db.runs[r].heartbeatAt == Some(s.now)
  {
  }

  /** After a claim or a heartbeat, over every later history sweep C does not touch the run before
      runningGrace has passed. */
  lemma LeaseIsLeftAlone(cfg: Config, s: Sys, step: Step, r: nat, trace: seq<Step>)
    requires ValidConfig(cfg) && Reachable(cfg, s) && Enabled(cfg, s, step) && Leases(s, step, r)
    requires Admits(cfg, Apply(cfg, s, step), trace)
    ensures
      var u := Exec(cfg, Apply(cfg, s, step), trace);
      Enabled(cfg, u, SweepC(r)) ==> u.now > s.now + cfg.runningGrace
  {
    ReachableInv(cfg, s);
    StepKeeps(cfg, s, step);
    LeasesNow(cfg, s, step, r);
    GracesHold(cfg, Apply(cfg, s, step), trace, r, true);
  }

  /** A published run can start on time: if the send after the watcher's commit succeeds at once, its
      message becomes visible less than a second before the scheduled time and never after it, or
      right away when that time has passed. */
  lemma PublishedOnTime(cfg: Config, s: Sys, r: nat) returns (e: Entry, m: Message)
    requires Enabled(cfg, s, WatcherCommit(r))
    ensures e in Apply(cfg, s, WatcherCommit(r)).outgoing && e.run == r && Enabled(cfg, Apply(cfg, s, WatcherCommit(r)), Deliver(e))
    ensures m in Apply(cfg, Apply(cfg, s, WatcherCommit(r)), Deliver(e)).queue && m.run == r
    ensures
      var at := s.db.runs[r].scheduledAt;
      if at <= s.now then m.visibleAt == s.now else at - 1_000_000 < m.visibleAt <= at
  {
    e := Entry(r, Delay(s.db.runs[r].scheduledAt, s.now));
    m := Message(r, s.now + e.delay * SECOND);
    DelayBounds(s.db.runs[r].scheduledAt, s.now);
  }
}
