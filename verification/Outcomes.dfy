/** What the workers and the sweeps leave behind, column by column, and the outbox promise that no
    status changes without its event. */
module Outcomes {
  import opened Tables
  import opened Steps
  import opened Invariant
  import opened System
  import opened History
  import Cancellation

  // ---------------------------------------------------------------- one row, one event

  /** b is a with row r replaced and one event for the change; no other row or event differs. */
  ghost predicate Moved(a: Db, b: Db, r: nat, run: Run, kind: Kind, now: int) {
    r < |a.runs| && b.runs == a.runs[r := run]
    && b.events == a.events + [Event(r, a.runs[r].job, kind, Some(a.runs[r].status), Some(run.status), now, false)]
  }

  /** The executor's settle: an active job that is neither recurring nor chained is completed. */
  ghost predicate SelfSettled(a: seq<Job>, b: seq<Job>, j: nat) {
    |b| == |a|
    && forall x :: 0 <= x < |a| ==>
      b[x] == if x == j && a[x].state == Active && a[x].cron == None && a[x].trigger == None
              then a[x].(state := Completed) else a[x]
  }

  /** A delivery of a visible message starts exactly a PENDING, QUEUED or RETRYING run, and records
      start and lease. */
  lemma ClaimEffect(cfg: Config, s: Sys, w: nat, m: Message)
    ensures Enabled(cfg, s, Claim(w, m)) <==>
      m in s.queue && m.visibleAt <= s.now && w !in s.holders && m.run < |s.db.runs|
      && (s.db.runs[m.run].status == Pending || s.db.runs[m.run].status == Queued || s.db.runs[m.run].status == Retrying)
    ensures Enabled(cfg, s, Claim(w, m)) ==>
      var t := Apply(cfg, s, Claim(w, m));
      var run := s.db.runs[m.run];
      Moved(s.db, t.db, m.run, run.(status := Running, startAt := Some(s.now), heartbeatAt := Some(s.now), updatedAt := s.now), Started, s.now)
      && t.db.jobs == s.db.jobs && t.holders == s.holders[w := m.run]
  {
  }

  /** A final verdict ends the holder's run and completes the job of a one-shot root with it; a
      retryable one does neither. Either way the worker lets go of its run. */
  lemma VerdictEffect(cfg: Config, s: Sys, w: nat, ok: bool)
    requires w in s.holders && s.holders[w] < |s.db.runs|
    ensures
      var r := s.holders[w];
      var run := s.db.runs[r];
      var t := Apply(cfg, s, Finish(w, ok));
      var over := if ok then Succeeded else Failed;
      Moved(s.db, t.db, r, run.(status := over, updatedAt := s.now), Ended(over), s.now)
      && SelfSettled(s.db.jobs, t.db.jobs, run.job) && w !in t.holders
    ensures
      var r := s.holders[w];
      var run := s.db.runs[r];
      var t := Apply(cfg, s, RetryLater(w));
      Moved(s.db, t.db, r, run.(status := Retrying, updatedAt := s.now), Retry, s.now)
      && t.db.jobs == s.db.jobs && w !in t.holders
  {
  }

  /** Sweep A fails the run and leaves its job to the consumer; sweep B rewrites its write time and
      sends it again. */
  lemma QueueSweepEffect(cfg: Config, s: Sys, r: nat)
    ensures Enabled(cfg, s, SweepA(r)) ==>
      var t := Apply(cfg, s, SweepA(r));
      Moved(s.db, t.db, r, s.db.runs[r].(status := Failed, updatedAt := s.now), Ended(Failed), s.now) && t.db.jobs == s.db.jobs
    ensures Enabled(cfg, s, SweepB(r, true)) ==>
      var t := Apply(cfg, s, SweepB(r, true));
      Moved(s.db, t.db, r, s.db.runs[r].(updatedAt := s.now), Reenqueued, s.now) && t.db.jobs == s.db.jobs
      && t.queue == s.queue + multiset{Message(r, s.now)}
  {
  }

  /** The action of run r is registered, and registered as idempotent. */
  predicate SafeToReplay(cfg: Config, db: Db, r: nat) {
    r < |db.runs| && db.runs[r].job < |db.jobs|
    && db.jobs[db.runs[r].job].action in cfg.registry && cfg.registry[db.jobs[db.runs[r].job].action] == true
  }

  /** Sweep C sends an orphan out again exactly when its action is known to be idempotent; any other
      orphan fails for good, with its one-shot job completed, and is not sent. */
  lemma OrphanEffect(cfg: Config, s: Sys, r: nat)
    requires Enabled(cfg, s, SweepC(r))
    ensures
      var t := Apply(cfg, s, SweepC(r));
      if SafeToReplay(cfg, s.db, r) then
        Moved(s.db, t.db, r, s.db.runs[r].(status := Queued, updatedAt := s.now), Reenqueued, s.now)
        && t.db.jobs == s.db.jobs && t.outgoing == s.outgoing + multiset{Entry(r, 0)}
      else
        Moved(s.db, t.db, r, s.db.runs[r].(status := Failed, updatedAt := s.now), Ended(Failed), s.now)
        && SelfSettled(s.db.jobs, t.db.jobs, s.db.runs[r].job) && t.outgoing == s.outgoing
  {
  }

  // ---------------------------------------------------------------- the outbox promise

  /** The run lifecycle: what each event type may record. */
  predicate Recordable(e: Event) {
    match e.kind
    case Created => e.from == None && e.to == Some(Pending)
    case Enqueued => e.from == Some(Pending) && e.to == Some(Queued)
    case Started => (e.from == Some(Pending) || e.from == Some(Queued) || e.from == Some(Retrying)) && e.to == Some(Running)
    case Retry => e.from == Some(Running) && e.to == Some(Retrying)
    case Reenqueued => (e.from == Some(Queued) || e.from == Some(Running)) && e.to == Some(Queued)
    case Ended(over) =>
      e.to == Some(over)
      && ((over == Succeeded && e.from == Some(Running))
          || (over == Failed && (e.from == Some(Running) || e.from == Some(Retrying)))
          || (over == Cancelled && (e.from == Some(Pending) || e.from == Some(Queued) || e.from == Some(Retrying))))
    case _ => e.from == None && e.to == None
  }

  /** The events a step appends are all written at its own time. */
  ghost predicate Dated(a: Db, b: Db, now: int) {
    |a.events| <= |b.events| && forall k :: |a.events| <= k < |b.events| ==> b.events[k].at == now
  }

  lemma {:induction false} FlipsDated(db: Db, j: nat, n: nat, now: int)
    requires n <= |db.runs|
    ensures Dated(db, FlipRuns(db, j, n, now), now)
  {
    if n > 0 { FlipsDated(db, j, n - 1, now); }
  }

  lemma {:induction false} FireAllDated(db: Db, e: Event, ids: seq<nat>, now: int)
    requires e.kind.Ended?
    requires forall k :: 0 <= k < |ids| ==> ids[k] < |db.jobs| && db.jobs[ids[k]].trigger.Some?
    ensures Dated(db, FireAll(db, e, ids, now), now)
    decreases |ids|
  {
    if ids != [] { FireAllDated(db, e, ids[..|ids| - 1], now); }
  }

  lemma ContinueDated(cfg: Config, db: Db, i: nat, ids: seq<nat>, now: int)
    requires EventInRange(db, i) && db.events[i].kind.Ended? && Offering(db, db.events[i], ids)
    ensures Dated(db, Continue(cfg, db, i, ids, now), now)
  {
    var e := db.events[i];
    var d1 := Recur(cfg, db, e, now);
    assert Dated(db, d1, now);
    FireAllDated(d1, e, ids, now);
    FireAllEvolves(d1, e, ids, now);
    var d2 := FireAll(d1, e, ids, now);
    assert d1.events <= d2.events;
    forall k | |db.events| <= k < |d2.events| ensures d2.events[k].at == now {
      if k < |d1.events| { assert d2.events[k] == d1.events[k]; }
    }
  }

  lemma RowStepDated(cfg: Config, s: Sys, step: Step)
    requires Enabled(cfg, s, step) && Cancellation.OnRows(step)
    ensures Dated(s.db, Apply(cfg, s, step).db, s.now)
  {
  }

  lemma StepDated(cfg: Config, s: Sys, step: Step)
    requires Enabled(cfg, s, step)
    ensures Dated(s.db, Apply(cfg, s, step).db, s.now)
  {
    if step.Cancel? {
      if CanCancel(s.db, step.owner, step.job) {
        FlipsDated(StopJob(s.db, step.job, s.now), step.job, |s.db.runs|, s.now);
      }
    } else if step.Process? {
      ContinueDated(cfg, s.db, step.event, step.order, s.now);
    } else if step.Create? {
    } else {
      RowStepDated(cfg, s, step);
    }
  }

  /** The consumer's mark does not matter to the fold. */
  lemma {:induction false} LogStatusEvolves(a: seq<Event>, b: seq<Event>, r: nat)
    requires |a| == |b| && forall i :: 0 <= i < |a| ==> EventEvolves(a[i], b[i])
    ensures LogStatus(a, r) == LogStatus(b, r)
    decreases |a|
  {
    if a != [] { LogStatusEvolves(a[..|a| - 1], b[..|b| - 1], r); }
  }

  /** The first of the events from n on that changes the folded status of r. */
  lemma {:induction false} FirstChange(events: seq<Event>, n: nat, r: nat) returns (k: nat)
    requires n <= |events| && LogStatus(events, r) != LogStatus(events[..n], r)
    ensures n <= k < |events| && events[k].run == r && events[k].to.Some? && LogStatus(events[..k], r) == LogStatus(events[..n], r)
    decreases |events|
  {
    var last := |events| - 1;
    assert events[..|events|] == events;
    assert n <= last;
    if LogStatus(events[..last], r) == LogStatus(events[..n], r) {
      k := last;
    } else {
      assert events[..last][..n] == events[..n];
      k := FirstChange(events[..last], n, r);
      assert events[..last][..k] == events[..k];
    }
  }

  /** Event k of b records that run r left status from. */
  predicate Records(e: Event, r: nat, from: Status, now: int) {
    e.run == r && e.from == Some(from) && e.to.Some? && e.at == now && Recordable(e)
  }

  /** Every event of every reachable state records a step of the lifecycle, or none. */
  lemma EventsFollowLifecycle(cfg: Config, s: Sys, i: nat)
    requires ValidConfig(cfg) && Inv(cfg, s) && i < |s.db.events|
    ensures s.db.events[i].to.Some? ==> Recordable(s.db.events[i])
  {
    assert EventOk(s.db, i);
  }

  /** The outbox promise: whenever a step changes the status of an existing run, the same step appends
      an event, dated now, that records a lifecycle step of that run out of the status it had. */
  lemma EveryChangeIsLogged(cfg: Config, s: Sys, step: Step, r: nat) returns (k: nat)
    requires ValidConfig(cfg) && Reachable(cfg, s) && Enabled(cfg, s, step) && r < |s.db.runs|
    requires r < |Apply(cfg, s, step).db.runs| && Apply(cfg, s, step).db.runs[r].status != s.db.runs[r].status
    ensures |s.db.events| <= k < |Apply(cfg, s, step).db.events|
    ensures Records(Apply(cfg, s, step).db.events[k], r, s.db.runs[r].status, s.now)
  {
    var t := Apply(cfg, s, step);
    ReachableInv(cfg, s);
    assert Inv(cfg, t) by { StepKeeps(cfg, s, step); }
    assert Evolves(s.db, t.db) by { StepEvolves(cfg, s, step); }
    StepDated(cfg, s, step);
    k := ChangeEvent(cfg, s, t, r);
    EventsFollowLifecycle(cfg, t, k);
  }

  lemma ChangeEvent(cfg: Config, s: Sys, t: Sys, r: nat) returns (k: nat)
    requires Inv(cfg, s) && Inv(cfg, t) && Evolves(s.db, t.db) && r < |s.db.runs|
    requires t.db.runs[r].status != s.db.runs[r].status
    ensures |s.db.events| <= k < |t.db.events|
    ensures t.db.events[k].run == r && t.db.events[k].to.Some? && t.db.events[k].from == Some(s.db.runs[r].status)
  {
    var n := |s.db.events|;
    LogStatusEvolves(s.db.events, t.db.events[..n], r);
    assert LogStatus(t.db.events[..n], r) == Some(s.db.runs[r].status);
    k := FirstChange(t.db.events, n, r);
    assert EventOk(t.db, k);
  }
}
