/** What one terminal event starts: which runs the consumer inserts, and what it logs instead, in
    terms of the rows before and after. */
module Continuation {
  import opened Tables
  import opened CronTime
  import opened Steps
  import opened Invariant
  import opened Preserve
  import opened System
  import opened History
  import opened Theorems

  // ---------------------------------------------------------------- causes are stamped

  /** The terminal event of run u has been processed. */
  ghost predicate Stamped(db: Db, u: nat) {
    exists i :: 0 <= i < |db.events| && StampsRun(db.events[i], u)
  }

  predicate StampsRun(e: Event, u: nat) {
    e.run == u && e.kind.Ended? && e.processed
  }

  /** A run only ever causes others through its stamped terminal event. */
  ghost predicate CausesStamped(db: Db) {
    forall r :: 0 <= r < |db.runs| && db.runs[r].cause.Some? ==> Stamped(db, db.runs[r].cause.value)
  }

  lemma StampedStays(a: Db, b: Db, u: nat)
    requires Evolves(a, b) && Stamped(a, u)
    ensures Stamped(b, u)
  {
    var i :| 0 <= i < |a.events| && StampsRun(a.events[i], u);
    assert EventEvolves(a.events[i], b.events[i]) && StampsRun(b.events[i], u);
  }

  /** The rows b has beyond a were caused by u or by nothing. */
  ghost predicate NewCauses(a: Db, b: Db, u: nat) {
    |a.runs| <= |b.runs|
    && forall r :: |a.runs| <= r < |b.runs| ==> b.runs[r].cause.None? || b.runs[r].cause == Some(u)
  }

  lemma {:induction false} FireAllCauses(db: Db, e: Event, ids: seq<nat>, now: int)
    requires e.kind.Ended?
    requires forall k :: 0 <= k < |ids| ==> ids[k] < |db.jobs| && db.jobs[ids[k]].trigger.Some?
    ensures NewCauses(db, FireAll(db, e, ids, now), e.run)
    decreases |ids|
  {
    if ids != [] { FireAllCauses(db, e, ids[..|ids| - 1], now); }
  }

  lemma ContinueCauses(cfg: Config, db: Db, i: nat, ids: seq<nat>, now: int)
    requires Terminal(db, i) && Offering(db, db.events[i], ids)
    ensures NewCauses(db, Continue(cfg, db, i, ids, now), db.events[i].run)
    ensures Stamped(Continue(cfg, db, i, ids, now), db.events[i].run)
  {
    var e := db.events[i];
    var d1 := Recur(cfg, db, e, now);
    FireAllCauses(d1, e, ids, now);
    FireAllRows(d1, e, ids, now);
    var d2 := FireAll(d1, e, ids, now);
    forall r | |db.runs| <= r < |d2.runs| ensures d2.runs[r].cause.None? || d2.runs[r].cause == Some(e.run) {
      if r < |d1.runs| { assert d2.runs[r] == d1.runs[r]; }
    }
    FiredEvolves(cfg, db, e, ids, now);
    assert StampsRun(Continue(cfg, db, i, ids, now).events[i], e.run);
  }

  lemma CreateCauses(cfg: Config, db: Db, req: Request, now: int)
    ensures NewCauses(db, CreateJob(cfg, db, req, now), 0)
    ensures forall r :: |db.runs| <= r < |CreateJob(cfg, db, req, now).runs| ==> CreateJob(cfg, db, req, now).runs[r].cause.None?
  {
  }

  lemma KeepStamped(a: Db, b: Db)
    requires CausesStamped(a) && Evolves(a, b)
    requires forall r :: |a.runs| <= r < |b.runs| && b.runs[r].cause.Some? ==> Stamped(b, b.runs[r].cause.value)
    ensures CausesStamped(b)
  {
    forall r | 0 <= r < |b.runs| && b.runs[r].cause.Some? ensures Stamped(b, b.runs[r].cause.value) {
      if r < |a.runs| {
        assert RunEvolves(a.runs[r], b.runs[r]);
        StampedStays(a, b, a.runs[r].cause.value);
      }
    }
  }

  lemma StepStamped(cfg: Config, s: Sys, step: Step)
    requires ValidConfig(cfg) && Inv(cfg, s) && Enabled(cfg, s, step) && CausesStamped(s.db)
    ensures CausesStamped(Apply(cfg, s, step).db)
  {
    var t := Apply(cfg, s, step);
    assert Evolves(s.db, t.db) by { StepEvolves(cfg, s, step); }
    if step.Create? {
      CreateCauses(cfg, s.db, step.req, s.now);
    } else if step.Process? {
      ContinueCauses(cfg, s.db, step.event, step.order, s.now);
    } else {
      OthersInsertNothing(cfg, s, step);
    }
    KeepStamped(s.db, t.db);
  }

  lemma {:induction false} ExecStamped(cfg: Config, s: Sys, trace: seq<Step>)
    requires ValidConfig(cfg) && Inv(cfg, s) && CausesStamped(s.db) && Admits(cfg, s, trace)
    ensures CausesStamped(Exec(cfg, s, trace).db)
    decreases |trace|
  {
    if trace != [] {
      StepStamped(cfg, s, trace[0]);
      StepKeeps(cfg, s, trace[0]);
      ExecStamped(cfg, Apply(cfg, s, trace[0]), trace[1..]);
    }
  }

  lemma ReachableStamped(cfg: Config, s: Sys)
    requires ValidConfig(cfg) && Reachable(cfg, s)
    ensures CausesStamped(s.db)
  {
    var t0, trace :| Admits(cfg, Init(t0), trace) && Exec(cfg, Init(t0), trace) == s;
    InitInv(cfg, t0);
    ExecStamped(cfg, Init(t0), trace);
  }

  /** Nothing was caused by a run whose terminal event is still waiting. */
  lemma WaitingCausedNothing(cfg: Config, s: Sys, i: nat, r: nat)
    requires ValidConfig(cfg) && Reachable(cfg, s) && i < |s.db.events| && Waiting(s.db.events[i]) && r < |s.db.runs|
    ensures s.db.runs[r].cause != Some(s.db.events[i].run)
  {
    ReachableInv(cfg, s);
    ReachableStamped(cfg, s);
    assert OneEnd(s.db);
  }

  // ---------------------------------------------------------------- one downstream

  /** A fresh run of c, caused by the event's run and due when the event occurred. */
  predicate StartedBy(run: Run, e: Event, c: nat) {
    run.job == c && run.cause == Some(e.run) && run.status.Pending? && run.scheduledAt == e.at && run.startAt.None?
  }

  ghost predicate Fired(a: Db, b: Db, e: Event, c: nat) {
    exists r :: |a.runs| <= r < |b.runs| && StartedBy(b.runs[r], e, c)
  }

  predicate Logs(l: Event, e: Event, kind: Kind) {
    l.run == e.run && l.job == e.job && l.kind == kind
  }

  ghost predicate Logged(a: Db, b: Db, e: Event, kind: Kind) {
    exists k :: |a.events| <= k < |b.events| && Logs(b.events[k], e, kind)
  }

  /** b has no new run of c and no new audit event about it. */
  ghost predicate Silent(a: Db, b: Db, c: nat) {
    a.runs <= b.runs && a.events <= b.events
    && (forall r :: |a.runs| <= r < |b.runs| ==> b.runs[r].job != c)
    && (forall k :: |a.events| <= k < |b.events| ==>
          b.events[k].kind != SkippedPredicateMiss(c) && b.events[k].kind != SkippedSlowConsumer(c))
  }

  /** Every run of c is over. */
  ghost predicate Idle(db: Db, c: nat) {
    forall r :: 0 <= r < |db.runs| && db.runs[r].job == c ==>
      db.runs[r].status.Succeeded? || db.runs[r].status.Failed? || db.runs[r].status.Cancelled?
  }

  /** The trigger's create predicate, status by status; ANY takes every terminal status. */
  predicate Wants(pred: Predicate, status: Status) {
    (pred.OnAny? && (status.Succeeded? || status.Failed? || status.Cancelled?))
    || (pred.OnSucceeded? && status.Succeeded?)
    || (pred.OnFailed? && status.Failed?)
  }

  /** The three outcomes for downstream c of event e. */
  ghost predicate Answered(a: Db, b: Db, e: Event, c: nat)
    requires e.kind.Ended? && c < |a.jobs| && a.jobs[c].trigger.Some?
  {
    var wanted := Wants(a.jobs[c].trigger.value.pred, e.kind.status);
    (Fired(a, b, e, c) <==> wanted && Idle(a, c))
    && (Logged(a, b, e, SkippedPredicateMiss(c)) <==> !wanted)
    && (Logged(a, b, e, SkippedSlowConsumer(c)) <==> wanted && !Idle(a, c))
  }

  /** The event is being served to c for the first time. */
  ghost predicate Unserved(db: Db, e: Event, c: nat) {
    forall r :: 0 <= r < |db.runs| && db.runs[r].job == c ==> db.runs[r].cause != Some(e.run)
  }

  lemma IdleIs(db: Db, c: nat)
    ensures Idle(db, c) <==> !HasExecuting(db.runs, c)
  {
    if !Idle(db, c) {
      var r :| 0 <= r < |db.runs| && db.runs[r].job == c
               && !(db.runs[r].status.Succeeded? || db.runs[r].status.Failed? || db.runs[r].status.Cancelled?);
      assert Executing(db.runs[r].status);
    }
  }

  /** One iteration, for a downstream that this event has not served before. */
  lemma FireAnswers(db: Db, e: Event, c: nat, now: int)
    requires e.kind.Ended? && !Executing(e.kind.status) && c < |db.jobs| && db.jobs[c].trigger.Some?
    requires Unserved(db, e, c)
    ensures Answered(db, Fire(db, e, c, now), e, c)
    ensures forall x :: x != c ==> Silent(db, Fire(db, e, c, now), x)
  {
    IdleIs(db, c);
    var d := Fire(db, e, c, now);
    var wanted := Wants(db.jobs[c].trigger.value.pred, e.kind.status);
    if wanted && Idle(db, c) {
      assert StartedBy(d.runs[|db.runs|], e, c);
    } else if wanted {
      assert Logs(d.events[|db.events|], e, SkippedSlowConsumer(c));
    } else {
      assert Logs(d.events[|db.events|], e, SkippedPredicateMiss(c));
    }
  }

  /** What was answered for c stays answered while others are served, before and after. */
  lemma AnswerKept(a: Db, b: Db, d: Db, f: Db, e: Event, c: nat)
    requires e.kind.Ended? && c < |b.jobs| && b.jobs[c].trigger.Some? && a.jobs == b.jobs
    requires Silent(a, b, c) && b.runs <= d.runs && b.events <= d.events && Answered(b, d, e, c) && Silent(d, f, c)
    ensures Answered(a, f, e, c)
  {
    assert Idle(a, c) <==> Idle(b, c) by {
      if Idle(a, c) {
        forall r | 0 <= r < |b.runs| && b.runs[r].job == c
          ensures b.runs[r].status.Succeeded? || b.runs[r].status.Failed? || b.runs[r].status.Cancelled?
        { assert r < |a.runs| && a.runs[r] == b.runs[r]; }
      }
      if Idle(b, c) {
        forall r | 0 <= r < |a.runs| && a.runs[r].job == c
          ensures a.runs[r].status.Succeeded? || a.runs[r].status.Failed? || a.runs[r].status.Cancelled?
        { assert a.runs[r] == b.runs[r]; }
      }
    }
    FiredKept(a, b, d, f, e, c);
    LoggedKept(a, b, d, f, e, c, SkippedPredicateMiss(c));
    LoggedKept(a, b, d, f, e, c, SkippedSlowConsumer(c));
  }

  lemma FiredKept(a: Db, b: Db, d: Db, f: Db, e: Event, c: nat)
    requires Silent(a, b, c) && b.runs <= d.runs && Silent(d, f, c)
    ensures Fired(b, d, e, c) <==> Fired(a, f, e, c)
  {
    if Fired(b, d, e, c) {
      var r :| |b.runs| <= r < |d.runs| && StartedBy(d.runs[r], e, c);
      assert StartedBy(f.runs[r], e, c);
    }
    if Fired(a, f, e, c) {
      assert forall q :: 0 <= q < |b.runs| ==> d.runs[q] == b.runs[q];
      var r :| |a.runs| <= r < |f.runs| && StartedBy(f.runs[r], e, c);
      assert r < |d.runs| && f.runs[r] == d.runs[r];
      assert StartedBy(d.runs[r], e, c);
    }
  }

  lemma LoggedKept(a: Db, b: Db, d: Db, f: Db, e: Event, c: nat, kind: Kind)
    requires Silent(a, b, c) && b.events <= d.events && Silent(d, f, c)
    requires kind == SkippedPredicateMiss(c) || kind == SkippedSlowConsumer(c)
    ensures Logged(b, d, e, kind) <==> Logged(a, f, e, kind)
  {
    if Logged(b, d, e, kind) {
      var k :| |b.events| <= k < |d.events| && Logs(d.events[k], e, kind);
      assert Logs(f.events[k], e, kind);
    }
    if Logged(a, f, e, kind) {
      assert forall q :: 0 <= q < |b.events| ==> d.events[q] == b.events[q];
      var k :| |a.events| <= k < |f.events| && Logs(f.events[k], e, kind);
      assert k < |d.events| && f.events[k] == d.events[k];
      assert Logs(d.events[k], e, kind);
    }
  }

  lemma SilentTransitive(a: Db, b: Db, d: Db, c: nat)
    requires Silent(a, b, c) && Silent(b, d, c)
    ensures Silent(a, d, c)
  {
    assert a.runs <= d.runs && a.events <= d.events;
    forall r | |a.runs| <= r < |d.runs| ensures d.runs[r].job != c {
      if r < |b.runs| { assert d.runs[r] == b.runs[r]; }
    }
    forall k | |a.events| <= k < |d.events|
      ensures d.events[k].kind != SkippedPredicateMiss(c) && d.events[k].kind != SkippedSlowConsumer(c)
    {
      if k < |b.events| { assert d.events[k] == b.events[k]; }
    }
  }

  // ---------------------------------------------------------------- all downstreams

  lemma {:induction false} FireAllSilent(db: Db, e: Event, ids: seq<nat>, now: int, c: nat)
    requires e.kind.Ended? && c !in ids
    requires forall k :: 0 <= k < |ids| ==> ids[k] < |db.jobs| && db.jobs[ids[k]].trigger.Some?
    ensures Silent(db, FireAll(db, e, ids, now), c)
    decreases |ids|
  {
    if ids != [] {
      var first, x := ids[..|ids| - 1], ids[|ids| - 1];
      var d := FireAll(db, e, first, now);
      FireAllSilent(db, e, first, now, c);
      FireSilent(d, e, x, now, c);
      SilentTransitive(db, d, Fire(d, e, x, now), c);
    }
  }

  lemma FireSilent(db: Db, e: Event, x: nat, now: int, c: nat)
    requires e.kind.Ended? && x < |db.jobs| && db.jobs[x].trigger.Some? && x != c
    ensures Silent(db, Fire(db, e, x, now), c)
  {
  }

  lemma UnservedKept(a: Db, b: Db, e: Event, c: nat)
    requires Silent(a, b, c) && Unserved(a, e, c)
    ensures Unserved(b, e, c)
  {
    forall r | 0 <= r < |b.runs| && b.runs[r].job == c ensures b.runs[r].cause != Some(e.run) {
      if r < |a.runs| { assert b.runs[r] == a.runs[r]; }
    }
  }

  /** Each downstream is answered by the rows as they were before any of them was served. */
  lemma {:induction false} FireAllAnswers(db: Db, e: Event, ids: seq<nat>, now: int, c: nat)
    requires e.kind.Ended? && !Executing(e.kind.status) && c in ids && Unserved(db, e, c)
    requires forall k :: 0 <= k < |ids| ==> ids[k] < |db.jobs| && db.jobs[ids[k]].trigger.Some?
    requires forall i, k :: 0 <= i < k < |ids| ==> ids[i] != ids[k]
    ensures c < |db.jobs| && db.jobs[c].trigger.Some? && Answered(db, FireAll(db, e, ids, now), e, c)
    decreases |ids|
  {
    var first, x := ids[..|ids| - 1], ids[|ids| - 1];
    var d := FireAll(db, e, first, now);
    var f := Fire(d, e, x, now);
    if x == c {
      FireAllSilent(db, e, first, now, c);
      UnservedKept(db, d, e, c);
      FireAnswers(d, e, c, now);
      FireGrows(d, e, c, now);
      NowSilent(f, c);
      AnswerKept(db, d, f, f, e, c);
    } else {
      FireAllAnswers(db, e, first, now, c);
      FireAllGrows(db, e, first, now);
      FireSilent(d, e, x, now, c);
      NowSilent(db, c);
      AnswerKept(db, db, d, f, e, c);
    }
  }

  lemma NowSilent(a: Db, c: nat)
    ensures Silent(a, a, c)
  {
  }

  lemma FireGrows(db: Db, e: Event, c: nat, now: int)
    requires e.kind.Ended? && c < |db.jobs| && db.jobs[c].trigger.Some?
    ensures db.runs <= Fire(db, e, c, now).runs && db.events <= Fire(db, e, c, now).events
  {
  }

  lemma FireAllGrows(db: Db, e: Event, ids: seq<nat>, now: int)
    requires e.kind.Ended?
    requires forall k :: 0 <= k < |ids| ==> ids[k] < |db.jobs| && db.jobs[ids[k]].trigger.Some?
    ensures db.runs <= FireAll(db, e, ids, now).runs && db.events <= FireAll(db, e, ids, now).events
  {
    FireAllRows(db, e, ids, now);
    FireAllEvolves(db, e, ids, now);
  }

  /** The successor of the event's own job says nothing about another job. */
  lemma RecurSilent(cfg: Config, db: Db, e: Event, now: int, c: nat)
    requires e.run < |db.runs| && e.job < |db.jobs| && c != e.job
    ensures Silent(db, Recur(cfg, db, e, now), c)
  {
  }

  /** The consumer's last writes, the settles and the stamp, add neither runs nor events. */
  lemma StampedAnswers(a: Db, b: Db, d: Db, i: nat, e: Event, c: nat)
    requires e.kind.Ended? && c < |a.jobs| && a.jobs[c].trigger.Some? && Answered(a, b, e, c)
    requires i < |a.events| <= |b.events| && d.runs == b.runs && d.events == b.events[i := b.events[i].(processed := true)]
    ensures Answered(a, d, e, c)
  {
    forall kind ensures Logged(a, d, e, kind) <==> Logged(a, b, e, kind) {
      if Logged(a, d, e, kind) {
        var k :| |a.events| <= k < |d.events| && Logs(d.events[k], e, kind);
        assert Logs(b.events[k], e, kind);
      }
      if Logged(a, b, e, kind) {
        var k :| |a.events| <= k < |b.events| && Logs(b.events[k], e, kind);
        assert Logs(d.events[k], e, kind);
      }
    }
    assert Fired(a, d, e, c) <==> Fired(a, b, e, c);
  }

  lemma ContinueAnswers(cfg: Config, db: Db, i: nat, ids: seq<nat>, now: int, c: nat)
    requires Terminal(db, i) && Offering(db, db.events[i], ids) && !Executing(db.events[i].kind.status)
    requires c in ids && c != db.events[i].job && Unserved(db, db.events[i], c)
    ensures c < |db.jobs| && db.jobs[c].trigger.Some? && Answered(db, Continue(cfg, db, i, ids, now), db.events[i], c)
  {
    var e := db.events[i];
    var d1 := Recur(cfg, db, e, now);
    RecurSilent(cfg, db, e, now, c);
    UnservedKept(db, d1, e, c);
    FireAllAnswers(d1, e, ids, now, c);
    FireAllGrows(d1, e, ids, now);
    var d2 := FireAll(d1, e, ids, now);
    NowSilent(d2, c);
    AnswerKept(db, d1, d2, d2, e, c);
    StampedAnswers(db, d2, Continue(cfg, db, i, ids, now), i, e, c);
  }

  // ---------------------------------------------------------------- theorems

  /** The first delivery of a terminal event decides about every active downstream of a job that is
      not cancelled: a PENDING run caused by the event's run and due when the event occurred is
      there afterwards if and only if the terminal status is one the trigger wants and every run of
      the downstream is over; an unwanted status is logged as a predicate miss and an unfinished run
      as a slow consumer, and otherwise neither is. */
  lemma DownstreamsFireExactly(cfg: Config, s: Sys, i: nat, order: seq<nat>, c: nat)
    requires ValidConfig(cfg) && Reachable(cfg, s) && Enabled(cfg, s, Process(i, order)) && !s.db.events[i].processed
    requires !s.db.jobs[s.db.events[i].job].state.Stopped?
    requires c < |s.db.jobs| && s.db.jobs[c].state.Active? && s.db.jobs[c].trigger.Some?
    requires s.db.jobs[c].trigger.value.parent == s.db.events[i].job
    ensures
      var e := s.db.events[i];
      var t := Apply(cfg, s, Process(i, order));
      var pred := s.db.jobs[c].trigger.value.pred;
      var wanted := pred.OnAny? || (pred.OnSucceeded? && e.kind.status.Succeeded?) || (pred.OnFailed? && e.kind.status.Failed?);
      ((exists r :: 0 <= r < |t.db.runs| && StartedBy(t.db.runs[r], e, c)) <==> wanted && Idle(s.db, c))
      && (Logged(s.db, t.db, e, SkippedPredicateMiss(c)) <==> !wanted)
      && (Logged(s.db, t.db, e, SkippedSlowConsumer(c)) <==> wanted && !Idle(s.db, c))
  {
    ReachableInv(cfg, s);
    EndedIsOver(s.db, i);
    var e := s.db.events[i];
    var t := Apply(cfg, s, Process(i, order));
    assert JobOk(s.db.jobs, c);
    assert IsActiveDownstream(s.db.jobs, e.job, c);
    forall r | 0 <= r < |s.db.runs| ensures s.db.runs[r].cause != Some(e.run) { WaitingCausedNothing(cfg, s, i, r); }
    ContinueAnswers(cfg, s.db, i, order, s.now, c);
    OnlyNewRunsFire(cfg, s, i, order, c);
  }

  /** No row from before the event was started by it. */
  lemma OnlyNewRunsFire(cfg: Config, s: Sys, i: nat, order: seq<nat>, c: nat)
    requires ValidConfig(cfg) && Inv(cfg, s) && Enabled(cfg, s, Process(i, order))
    requires forall r :: 0 <= r < |s.db.runs| ==> s.db.runs[r].cause != Some(s.db.events[i].run)
    ensures
      var t := Apply(cfg, s, Process(i, order));
      Fired(s.db, t.db, s.db.events[i], c)
      <==> exists r :: 0 <= r < |t.db.runs| && StartedBy(t.db.runs[r], s.db.events[i], c)
  {
    var e := s.db.events[i];
    var t := Apply(cfg, s, Process(i, order));
    assert s.db.runs <= t.db.runs by { ContinueRows(cfg, s.db, i, order, s.now); }
    if r :| 0 <= r < |t.db.runs| && StartedBy(t.db.runs[r], e, c) {
      assert forall q :: 0 <= q < |s.db.runs| ==> t.db.runs[q] == s.db.runs[q];
    }
  }

  /** A fresh run of the recurring job, due at its next tick. */
  predicate NextTick(run: Run, j: nat, at: int) {
    run.job == j && run.cause.None? && run.status.Pending? && run.startAt.None? && run.scheduledAt == at
  }

  /** The same for the event's own job, when it is an active recurring root: its first delivery
      inserts one run, due at the earliest fire time that is not before the event and strictly after
      the tick that ended; a redelivery inserts none. */
  lemma RootFiresExactly(cfg: Config, s: Sys, i: nat, order: seq<nat>)
    requires ValidConfig(cfg) && Reachable(cfg, s) && Enabled(cfg, s, Process(i, order))
    requires s.db.jobs[s.db.events[i].job].cron.Some? && s.db.jobs[s.db.events[i].job].state.Active?
    ensures
      var e := s.db.events[i];
      var t := Apply(cfg, s, Process(i, order));
      (exists r :: |s.db.runs| <= r < |t.db.runs| && t.db.runs[r].job == e.job) <==> !e.processed
    ensures
      var e := s.db.events[i];
      var t := Apply(cfg, s, Process(i, order));
      !e.processed ==>
        |s.db.runs| < |t.db.runs|
        && NextTick(t.db.runs[|s.db.runs|], e.job, t.db.runs[|s.db.runs|].scheduledAt)
        && TickBetween(cfg, s.db.jobs[e.job].cron.value, s.db.runs[e.run].scheduledAt, e.at, t.db.runs[|s.db.runs|].scheduledAt)
  {
    ReachableInv(cfg, s);
    var e := s.db.events[i];
    assert JobOk(s.db.jobs, e.job);
    SpawnsOnFirstDelivery(cfg, s, i);
    SuccessorIsEarliest(cfg.next, s.db.jobs[e.job].cron.value, s.db.runs[e.run].scheduledAt, e.at);
    var d1 := Recur(cfg, s.db, e, s.now);
    var t := Apply(cfg, s, Process(i, order));
    OwnJobNotOffered(s.db, e, order);
    FireAllSilent(d1, e, order, s.now, e.job);
    assert d1.runs <= t.db.runs && forall r :: |d1.runs| <= r < |t.db.runs| ==> t.db.runs[r].job != e.job;
    if !e.processed {
      assert |d1.runs| == |s.db.runs| + 1 && t.db.runs[|s.db.runs|] == d1.runs[|s.db.runs|];
    } else {
      assert d1 == s.db;
    }
  }

  lemma OwnJobNotOffered(db: Db, e: Event, order: seq<nat>)
    requires JobsOk(db) && e.job < |db.jobs| && Offering(db, e, order)
    ensures e.job !in order
  {
    forall k | 0 <= k < |order| ensures order[k] != e.job {
      assert IsActiveDownstream(db.jobs, e.job, order[k]) && JobOk(db.jobs, order[k]);
    }
  }
}
