/** The whole system: queue, leases and clock on top of the tables, and the invariant of every
    reachable state. */
module System {
  import opened Tables
  import opened Steps
  import opened Invariant
  import opened Preserve

  /** A live worker's run is RUNNING and its lease is within the staleness bound. */
  ghost predicate HolderOk(cfg: Config, s: Sys, w: nat)
    requires w in s.holders
  {
    var r := s.holders[w];
    r < |s.db.runs| && s.db.runs[r].status.Running? && s.db.runs[r].heartbeatAt.Some?
    && s.now - s.db.runs[r].heartbeatAt.value <= cfg.staleness
  }

  ghost predicate HoldersOk(cfg: Config, s: Sys) {
    (forall w :: w in s.holders ==> HolderOk(cfg, s, w))
    && (forall v, w :: v in s.holders && w in s.holders && v != w ==> s.holders[v] != s.holders[w])
  }

  ghost predicate RunTimes(run: Run, now: int) {
    run.updatedAt <= now
    && (run.startAt.Some? ==> run.scheduledAt - SECOND < run.startAt.value <= now)
    && (run.heartbeatAt.Some? ==> run.heartbeatAt.value <= now)
    && (run.status.Running? ==> run.startAt.Some? && run.heartbeatAt.Some?)
    && (run.status.Retrying? ==> run.startAt.Some?)
  }

  ghost predicate MessageOk(runs: seq<Run>, m: Message) {
    m.run < |runs| && m.visibleAt > runs[m.run].scheduledAt - SECOND && !runs[m.run].status.Pending?
  }

  ghost predicate EntryOk(runs: seq<Run>, now: int, e: Entry) {
    e.run < |runs| && e.delay >= 0 && now + e.delay * SECOND > runs[e.run].scheduledAt - SECOND
    && !runs[e.run].status.Pending?
  }

  ghost predicate TimesOk(s: Sys) {
    (forall r :: 0 <= r < |s.db.runs| ==> RunTimes(s.db.runs[r], s.now))
    && (forall m :: m in s.queue ==> MessageOk(s.db.runs, m))
    && (forall e :: e in s.outgoing ==> EntryOk(s.db.runs, s.now, e))
  }

  ghost predicate Inv(cfg: Config, s: Sys) {
    DbInv(cfg, s.db) && HoldersOk(cfg, s) && TimesOk(s)
  }

  // ---------------------------------------------------------------- what steps do to run rows

  predicate Fresh(run: Run, now: int) {
    run.status.Pending? && run.startAt.None? && run.heartbeatAt.None? && run.updatedAt == now
  }

  /** The row keeps its times, and never enters PENDING, RUNNING or RETRYING. */
  ghost predicate Calm(a: Run, b: Run, now: int) {
    b == a.(status := b.status, updatedAt := b.updatedAt)
    && (b.updatedAt == a.updatedAt || b.updatedAt == now)
    && (b.status == a.status || (!a.status.Running? && !b.status.Pending? && !b.status.Running? && !b.status.Retrying?))
  }

  /** Existing rows move calmly and new rows are fresh. */
  ghost predicate CalmRows(a: seq<Run>, b: seq<Run>, now: int) {
    |a| <= |b|
    && (forall r :: 0 <= r < |a| ==> Calm(a[r], b[r], now))
    && (forall r :: |a| <= r < |b| ==> Fresh(b[r], now))
  }

  /** cancel_job's loop in closed form: exactly the claimable runs of the job become CANCELLED. */
  lemma {:induction false} FlipRunsExactly(db: Db, j: nat, n: nat, now: int)
    requires n <= |db.runs|
    ensures
      var d := FlipRuns(db, j, n, now);
      forall r :: 0 <= r < |db.runs| ==>
        d.runs[r] == if r < n && db.runs[r].job == j && Claimable(db.runs[r].status)
                     then db.runs[r].(status := Cancelled) else db.runs[r]
  {
    if n > 0 { FlipRunsExactly(db, j, n - 1, now); }
  }

  lemma {:induction false} FireAllRows(db: Db, e: Event, ids: seq<nat>, now: int)
    requires e.kind.Ended?
    requires forall k :: 0 <= k < |ids| ==> ids[k] < |db.jobs| && db.jobs[ids[k]].trigger.Some?
    ensures CalmRows(db.runs, FireAll(db, e, ids, now).runs, now) && db.runs <= FireAll(db, e, ids, now).runs
    decreases |ids|
  {
    if ids != [] { FireAllRows(db, e, ids[..|ids| - 1], now); }
  }

  /** The consumer only inserts run rows. */
  lemma ContinueRows(cfg: Config, db: Db, i: nat, ids: seq<nat>, now: int)
    requires Terminal(db, i) && Offering(db, db.events[i], ids)
    ensures
      var d := Continue(cfg, db, i, ids, now);
      CalmRows(db.runs, d.runs, now) && db.runs <= d.runs
  {
    var e := db.events[i];
    FireAllRows(Recur(cfg, db, e, now), e, ids, now);
  }

  // ---------------------------------------------------------------- preservation

  lemma CalmKeeps(cfg: Config, s: Sys, db: Db)
    requires HoldersOk(cfg, s) && TimesOk(s) && CalmRows(s.db.runs, db.runs, s.now)
    ensures HoldersOk(cfg, s.(db := db)) && TimesOk(s.(db := db))
  {
    var t := s.(db := db);
    forall w | w in t.holders ensures HolderOk(cfg, t, w) {
      assert HolderOk(cfg, s, w);
    }
    forall r | 0 <= r < |t.db.runs| ensures RunTimes(t.db.runs[r], t.now) {
      if r < |s.db.runs| { assert RunTimes(s.db.runs[r], s.now); }
    }
    forall m | m in t.queue ensures MessageOk(t.db.runs, m) {
      assert MessageOk(s.db.runs, m);
    }
    forall e | e in t.outgoing ensures EntryOk(t.db.runs, t.now, e) {
      assert EntryOk(s.db.runs, s.now, e);
    }
  }

  /** The truncated watcher delay stays below five minutes, and the message never becomes visible a
      whole second early. */
  lemma DelayBounds(scheduledAt: int, now: int)
    ensures now + Delay(scheduledAt, now) * 1_000_000 > scheduledAt - 1_000_000
    ensures scheduledAt < now + 300_000_000 ==> Delay(scheduledAt, now) < 300
    ensures scheduledAt >= now ==> now + Delay(scheduledAt, now) * 1_000_000 <= scheduledAt
    ensures scheduledAt <= now ==> Delay(scheduledAt, now) == 0
  {
  }

  lemma WatcherCommitKeeps(cfg: Config, s: Sys, r: nat)
    requires Inv(cfg, s) && WatcherDue(s.db, r, s.now)
    ensures Inv(cfg, Apply(cfg, s, WatcherCommit(r)))
  {
    var db := WatcherRow(s.db, r, s.now);
    MoveStep(cfg, s.db, r, s.db.runs[r].(status := Queued, updatedAt := s.now), Enqueued, s.now);
    CalmKeeps(cfg, s, db);
    DelayBounds(s.db.runs[r].scheduledAt, s.now);
    assert EntryOk(db.runs, s.now, Entry(r, Delay(s.db.runs[r].scheduledAt, s.now)));
  }

  lemma DeliverKeeps(cfg: Config, s: Sys, e: Entry)
    requires Inv(cfg, s) && e in s.outgoing
    ensures Inv(cfg, Apply(cfg, s, Deliver(e)))
  {
    assert EntryOk(s.db.runs, s.now, e);
    var t := Apply(cfg, s, Deliver(e));
    forall w | w in t.holders ensures HolderOk(cfg, t, w) { assert HolderOk(cfg, s, w); }
  }

  /** Claim, heartbeat and write-back touch one RUNNING-side row of one worker. */
  lemma ClaimKeeps(cfg: Config, s: Sys, w: nat, m: Message)
    requires ValidConfig(cfg) && Inv(cfg, s) && Enabled(cfg, s, Claim(w, m))
    ensures Inv(cfg, Apply(cfg, s, Claim(w, m)))
  {
    var t := Apply(cfg, s, Claim(w, m));
    var run := t.db.runs[m.run];
    MoveStep(cfg, s.db, m.run, run, Started, s.now);
    assert MessageOk(s.db.runs, m);
    forall v | v in t.holders ensures HolderOk(cfg, t, v) && (v != w ==> t.holders[v] != m.run) {
      if v != w { assert HolderOk(cfg, s, v); }
    }
    RowTimesKeep(s, t, m.run);
  }

  /** The times survive a change of one row that keeps its schedule and leaves PENDING behind. */
  lemma RowTimesKeep(s: Sys, t: Sys, r: nat)
    requires TimesOk(s) && t.now == s.now && t.queue <= s.queue && t.outgoing == s.outgoing && r < |s.db.runs|
    requires |t.db.runs| == |s.db.runs| && t.db.runs == s.db.runs[r := t.db.runs[r]]
    requires RunTimes(t.db.runs[r], t.now) && t.db.runs[r].scheduledAt == s.db.runs[r].scheduledAt
    requires t.db.runs[r].status.Pending? ==> s.db.runs[r].status.Pending?
    ensures TimesOk(t)
  {
    forall q | 0 <= q < |t.db.runs| ensures RunTimes(t.db.runs[q], t.now) {
      assert RunTimes(s.db.runs[q], s.now);
    }
    forall m | m in t.queue ensures MessageOk(t.db.runs, m) {
      assert m in s.queue && MessageOk(s.db.runs, m);
    }
    forall e | e in t.outgoing ensures EntryOk(t.db.runs, t.now, e) {
      assert EntryOk(s.db.runs, s.now, e);
    }
  }

  lemma HeartbeatStepKeeps(cfg: Config, s: Sys, w: nat)
    requires ValidConfig(cfg) && Inv(cfg, s) && Holds(s, w)
    ensures Inv(cfg, Apply(cfg, s, Heartbeat(w)))
  {
    var t := Apply(cfg, s, Heartbeat(w));
    HeartbeatKeeps(cfg, s.db, s.holders[w], s.now);
    assert HolderOk(cfg, s, w) && RunTimes(s.db.runs[s.holders[w]], s.now);
    forall v | v in t.holders ensures HolderOk(cfg, t, v) { assert HolderOk(cfg, s, v); }
    RowTimesKeep(s, t, s.holders[w]);
  }

  /** Any write of row r by its holder, who then lets go. */
  lemma ReleaseKeeps(cfg: Config, s: Sys, t: Sys, w: nat)
    requires HoldersOk(cfg, s) && TimesOk(s) && w in s.holders && t.holders == s.holders - {w}
    requires t.now == s.now && t.queue == s.queue && t.outgoing == s.outgoing
    requires s.holders[w] < |s.db.runs| == |t.db.runs| && !t.db.runs[s.holders[w]].status.Pending?
    requires t.db.runs == s.db.runs[s.holders[w] := s.db.runs[s.holders[w]].(status := t.db.runs[s.holders[w]].status, updatedAt := s.now)]
    ensures HoldersOk(cfg, t) && TimesOk(t)
  {
    var r := s.holders[w];
    assert HolderOk(cfg, s, w) && RunTimes(s.db.runs[r], s.now);
    forall v | v in t.holders ensures HolderOk(cfg, t, v) {
      assert HolderOk(cfg, s, v);
    }
    RowTimesKeep(s, t, r);
  }

  lemma FinishStepKeeps(cfg: Config, s: Sys, w: nat, ok: bool)
    requires ValidConfig(cfg) && Inv(cfg, s) && Holds(s, w)
    ensures Inv(cfg, Apply(cfg, s, Finish(w, ok)))
  {
    assert HolderOk(cfg, s, w);
    FinishKeeps(cfg, s.db, s.holders[w], if ok then Succeeded else Failed, s.now);
    ReleaseKeeps(cfg, s, Apply(cfg, s, Finish(w, ok)), w);
  }

  lemma RetryStepKeeps(cfg: Config, s: Sys, w: nat)
    requires ValidConfig(cfg) && Inv(cfg, s) && Holds(s, w)
    ensures Inv(cfg, Apply(cfg, s, RetryLater(w)))
  {
    assert HolderOk(cfg, s, w);
    MoveStep(cfg, s.db, s.holders[w], s.db.runs[s.holders[w]].(status := Retrying, updatedAt := s.now), Retry, s.now);
    ReleaseKeeps(cfg, s, Apply(cfg, s, RetryLater(w)), w);
  }

  lemma CrashKeeps(cfg: Config, s: Sys, w: nat)
    requires Inv(cfg, s) && w in s.holders
    ensures Inv(cfg, Apply(cfg, s, Crash(w)))
  {
    var t := Apply(cfg, s, Crash(w));
    forall v | v in t.holders ensures HolderOk(cfg, t, v) { assert HolderOk(cfg, s, v); }
  }

  /** Lease exclusivity: a run sweep C picks has no live holder. */
  lemma SweepCUnheld(cfg: Config, s: Sys, r: nat)
    requires ValidConfig(cfg) && HoldersOk(cfg, s) && SweepCDue(cfg, s.db, r, s.now)
    ensures forall w :: w in s.holders ==> s.holders[w] != r
  {
    forall w | w in s.holders ensures s.holders[w] != r { assert HolderOk(cfg, s, w); }
  }

  lemma SweepCStepKeeps(cfg: Config, s: Sys, r: nat)
    requires ValidConfig(cfg) && Inv(cfg, s) && SweepCDue(cfg, s.db, r, s.now)
    ensures Inv(cfg, Apply(cfg, s, SweepC(r)))
  {
    var t := Apply(cfg, s, SweepC(r));
    SweepCUnheld(cfg, s, r);
    SweepCKeeps(cfg, s.db, r, s.now);
    assert RunTimes(s.db.runs[r], s.now);
    forall v | v in t.holders ensures HolderOk(cfg, t, v) { assert HolderOk(cfg, s, v); }
    RowTimesKeep(s, t.(outgoing := s.outgoing), r);
  }

  lemma SweepBStepKeeps(cfg: Config, s: Sys, r: nat, committed: bool)
    requires ValidConfig(cfg) && Inv(cfg, s) && SweepBDue(cfg, s.db, r, s.now)
    ensures Inv(cfg, Apply(cfg, s, SweepB(r, committed)))
  {
    var t := Apply(cfg, s, SweepB(r, committed));
    if committed {
      MoveStep(cfg, s.db, r, s.db.runs[r].(updatedAt := s.now), Reenqueued, s.now);
    }
    CalmKeeps(cfg, s, t.db);
    assert MessageOk(t.db.runs, Message(r, s.now));
  }

  lemma TickKeeps(cfg: Config, s: Sys, d: int)
    requires Inv(cfg, s) && d >= 0 && LeasesFresh(cfg, s, s.now + d)
    ensures Inv(cfg, Apply(cfg, s, Tick(d)))
  {
    var t := Apply(cfg, s, Tick(d));
    forall w | w in t.holders ensures HolderOk(cfg, t, w) { assert HolderOk(cfg, s, w); }
    forall r | 0 <= r < |t.db.runs| ensures RunTimes(t.db.runs[r], t.now) { assert RunTimes(s.db.runs[r], s.now); }
    forall e | e in t.outgoing ensures EntryOk(t.db.runs, t.now, e) { assert EntryOk(s.db.runs, s.now, e); }
  }

  /** A step that only replaces the tables. */
  lemma TableKeeps(cfg: Config, s: Sys, db: Db)
    requires Inv(cfg, s) && DbInv(cfg, db) && CalmRows(s.db.runs, db.runs, s.now)
    ensures Inv(cfg, s.(db := db))
  {
    CalmKeeps(cfg, s, db);
  }

  lemma CreateStepKeeps(cfg: Config, s: Sys, req: Request)
    requires ValidConfig(cfg) && Inv(cfg, s)
    ensures Inv(cfg, s.(db := CreateJob(cfg, s.db, req, s.now)))
  {
    var db := CreateJob(cfg, s.db, req, s.now);
    assert DbInv(cfg, db) by { CreateKeeps(cfg, s.db, req, s.now); }
    TableKeeps(cfg, s, db);
  }

  lemma CancelRows(db: Db, owner: string, j: nat, now: int)
    ensures CalmRows(db.runs, CancelJob(db, owner, j, now).runs, now)
  {
    if CanCancel(db, owner, j) { FlipRunsExactly(StopJob(db, j, now), j, |db.runs|, now); }
  }

  lemma CancelStepKeeps(cfg: Config, s: Sys, owner: string, j: nat)
    requires ValidConfig(cfg) && Inv(cfg, s)
    ensures Inv(cfg, s.(db := CancelJob(s.db, owner, j, s.now)))
  {
    var db := CancelJob(s.db, owner, j, s.now);
    assert DbInv(cfg, db) by { CancelKeeps(cfg, s.db, owner, j, s.now); }
    CancelRows(s.db, owner, j, s.now);
    TableKeeps(cfg, s, db);
  }

  lemma ProcessStepKeeps(cfg: Config, s: Sys, i: nat, ids: seq<nat>)
    requires ValidConfig(cfg) && Inv(cfg, s) && Terminal(s.db, i) && Offering(s.db, s.db.events[i], ids)
    ensures Inv(cfg, s.(db := Continue(cfg, s.db, i, ids, s.now)))
  {
    var db := Continue(cfg, s.db, i, ids, s.now);
    assert DbInv(cfg, db) by { ContinueKeeps(cfg, s.db, i, ids, s.now); }
    assert CalmRows(s.db.runs, db.runs, s.now) by { ContinueRows(cfg, s.db, i, ids, s.now); }
    TableKeeps(cfg, s, db);
  }

  lemma SweepAStepKeeps(cfg: Config, s: Sys, r: nat)
    requires ValidConfig(cfg) && Inv(cfg, s) && SweepADue(cfg, s.db, r, s.now)
    ensures Inv(cfg, s.(db := SweepARow(s.db, r, s.now)))
  {
    var db := SweepARow(s.db, r, s.now);
    assert DbInv(cfg, db) by {
      MoveStep(cfg, s.db, r, s.db.runs[r].(status := Failed, updatedAt := s.now), Ended(Failed), s.now);
    }
    TableKeeps(cfg, s, db);
  }

  lemma QueueStepKeeps(cfg: Config, s: Sys, step: Step)
    requires Inv(cfg, s) && Enabled(cfg, s, step) && (step.DropEntry? || step.LoseMessage?)
    ensures Inv(cfg, Apply(cfg, s, step))
  {
    var t := Apply(cfg, s, step);
    forall w | w in t.holders ensures HolderOk(cfg, t, w) { assert HolderOk(cfg, s, w); }
  }

  lemma StepKeeps(cfg: Config, s: Sys, step: Step)
    requires ValidConfig(cfg) && Inv(cfg, s) && Enabled(cfg, s, step)
    ensures Inv(cfg, Apply(cfg, s, step))
  {
    match step
    case WatcherCommit(r) => WatcherCommitKeeps(cfg, s, r);
    case Deliver(e) => DeliverKeeps(cfg, s, e);
    case Claim(w, m) => ClaimKeeps(cfg, s, w, m);
    case Heartbeat(w) => HeartbeatStepKeeps(cfg, s, w);
    case Finish(w, ok) => FinishStepKeeps(cfg, s, w, ok);
    case RetryLater(w) => RetryStepKeeps(cfg, s, w);
    case Crash(w) => CrashKeeps(cfg, s, w);
    case SweepB(r, committed) => SweepBStepKeeps(cfg, s, r, committed);
    case SweepC(r) => SweepCStepKeeps(cfg, s, r);
    case Tick(d) => TickKeeps(cfg, s, d);
    case DropEntry(_) => QueueStepKeeps(cfg, s, step);
    case LoseMessage(_) => QueueStepKeeps(cfg, s, step);
    case Create(req) => CreateStepKeeps(cfg, s, req);
    case Cancel(owner, j) => CancelStepKeeps(cfg, s, owner, j);
    case Process(i, ids) => ProcessStepKeeps(cfg, s, i, ids);
    case SweepA(r) => SweepAStepKeeps(cfg, s, r);
  }

  lemma InitInv(cfg: Config, now: int)
    ensures Inv(cfg, Init(now))
  {
  }

  lemma {:induction false} ExecKeeps(cfg: Config, s: Sys, trace: seq<Step>)
    requires ValidConfig(cfg) && Inv(cfg, s) && Admits(cfg, s, trace)
    ensures Inv(cfg, Exec(cfg, s, trace))
    decreases |trace|
  {
    if trace != [] {
      StepKeeps(cfg, s, trace[0]);
      ExecKeeps(cfg, Apply(cfg, s, trace[0]), trace[1..]);
    }
  }

  /** The invariant holds in every state any history of creates, cancels, ticks, deliveries,
      crashes, sweeps and redelivered events can reach. */
  lemma ReachableInv(cfg: Config, s: Sys)
    requires ValidConfig(cfg) && Reachable(cfg, s)
    ensures Inv(cfg, s)
  {
    var t0, trace :| Admits(cfg, Init(t0), trace) && Exec(cfg, Init(t0), trace) == s;
    InitInv(cfg, t0);
    ExecKeeps(cfg, Init(t0), trace);
  }
}
