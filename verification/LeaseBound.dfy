/** The settings relation behind lease exclusivity: the orphan grace must not be shorter than the
    time a live worker's heartbeat may lag. The two are independent settings, so the bound is proved
    to be exact: exclusivity holds in every reachable state if and only if it is met. */
module LeaseBound {
  import opened Tables
  import opened Steps
  import opened CronTime
  import opened Theorems

  lemma Extend(cfg: Config, s: Sys, step: Step)
    requires Reachable(cfg, s) && Enabled(cfg, s, step)
    ensures Reachable(cfg, Apply(cfg, s, step))
  {
    var t0, trace :| Admits(cfg, Init(t0), trace) && Exec(cfg, Init(t0), trace) == s;
    Single(cfg, s, step);
    ExecConcat(cfg, Init(t0), trace, [step]);
  }

  /** Somebody may create jobs with this action. */
  predicate Creatable(cfg: Config, action: string) {
    action in cfg.registry && (action in cfg.operatorOnly ==> cfg.operator.Some?)
  }

  function Creator(cfg: Config): string {
    if cfg.operator.Some? then cfg.operator.value else ""
  }

  /** An immediate one-shot job. */
  function Probe(cfg: Config, action: string): Request {
    Request(Creator(cfg), action, "immediate", None, None, "UTC", None, None, None)
  }

  /** The tables hold one job with this action and one run of it. */
  predicate OneJob(db: Db, action: string) {
    |db.jobs| == 1 && db.jobs[0].action == action && |db.runs| == 1 && db.runs[0].job == 0
  }

  lemma OneRun(cfg: Config, action: string) returns (s: Sys)
    requires Creatable(cfg, action)
    ensures Reachable(cfg, s) && s.now == 0 && s.holders == map[] && OneJob(s.db, action)
    ensures s.db.runs[0].status.Pending? && s.db.runs[0].scheduledAt == 0
  {
    s := Init(0);
    assert Reachable(cfg, s) by { assert Admits(cfg, s, []) && Exec(cfg, s, []) == s; }
    Extend(cfg, s, Create(Probe(cfg, action)));
    s := Apply(cfg, s, Create(Probe(cfg, action)));
  }

  /** Created, enqueued and delivered at time zero. */
  lemma OneMessage(cfg: Config, action: string) returns (s: Sys)
    requires Creatable(cfg, action)
    ensures Reachable(cfg, s) && s.now == 0 && s.holders == map[] && OneJob(s.db, action)
    ensures s.db.runs[0].status.Queued? && Message(0, 0) in s.queue
  {
    s := OneRun(cfg, action);
    Extend(cfg, s, WatcherCommit(0));
    s := Apply(cfg, s, WatcherCommit(0));
    assert Delay(0, 0) == 0 && Entry(0, 0) in s.outgoing;
    Extend(cfg, s, Deliver(Entry(0, 0)));
    s := Apply(cfg, s, Deliver(Entry(0, 0)));
  }

  /** With a longer permitted lag than grace, sweep C picks a run whose worker is alive. */
  lemma ShortGraceBreaksLease(cfg: Config, action: string) returns (s: Sys)
    requires Creatable(cfg, action) && 0 <= cfg.runningGrace < cfg.staleness
    ensures Reachable(cfg, s) && s.holders == map[0 := 0] && OneJob(s.db, action)
    ensures SweepCDue(cfg, s.db, 0, s.now)
  {
    s := OneMessage(cfg, action);
    Extend(cfg, s, Claim(0, Message(0, 0)));
    s := Apply(cfg, s, Claim(0, Message(0, 0)));
    assert s.holders == map[0 := 0] && s.db.runs[0].heartbeatAt == Some(0);
    Extend(cfg, s, Tick(cfg.runningGrace + 1));
    s := Apply(cfg, s, Tick(cfg.runningGrace + 1));
  }

  // ---------------------------------------------------------------- the damage

  /** The sweep then takes the run out of RUNNING under its live worker. */
  lemma Evicted(cfg: Config, action: string) returns (s: Sys)
    requires Creatable(cfg, action) && 0 <= cfg.runningGrace < cfg.staleness
    ensures Reachable(cfg, s) && s.holders == map[0 := 0] && OneJob(s.db, action)
    ensures
      if cfg.registry[action] then s.db.runs[0].status.Queued? && Entry(0, 0) in s.outgoing
      else s.db.runs[0].status.Failed? && exists i :: EndsRun(s.db, i, 0)
  {
    s := ShortGraceBreaksLease(cfg, action);
    var n := |s.db.events|;
    Extend(cfg, s, SweepC(0));
    s := Apply(cfg, s, SweepC(0));
    assert !cfg.registry[action] ==> EndsRun(s.db, n, 0);
  }

  /** An idempotent run is sent out again, and two live workers execute it at once. */
  lemma ShortGraceTwoHolders(cfg: Config, action: string) returns (s: Sys)
    requires Creatable(cfg, action) && cfg.registry[action] && 0 <= cfg.runningGrace < cfg.staleness
    ensures Reachable(cfg, s) && 0 in s.holders && 1 in s.holders && s.holders[0] == s.holders[1]
  {
    s := Evicted(cfg, action);
    Extend(cfg, s, Deliver(Entry(0, 0)));
    s := Apply(cfg, s, Deliver(Entry(0, 0)));
    assert Message(0, s.now) in s.queue;
    Extend(cfg, s, Claim(1, Message(0, s.now)));
    s := Apply(cfg, s, Claim(1, Message(0, s.now)));
  }

  /** Any other run is failed; its worker's unguarded write then overwrites the terminal row, and
      the log holds two terminal events for the run. */
  lemma ShortGraceTwoEnds(cfg: Config, action: string) returns (s: Sys, t: Sys, i: nat, k: nat)
    requires Creatable(cfg, action) && !cfg.registry[action] && 0 <= cfg.runningGrace < cfg.staleness
    ensures Reachable(cfg, s) && |s.db.runs| == 1 && s.db.runs[0].status.Failed?
    ensures Enabled(cfg, s, Finish(0, true)) && t == Apply(cfg, s, Finish(0, true)) && Reachable(cfg, t)
    ensures |t.db.runs| == 1 && t.db.runs[0].status.Succeeded? && i < k && EndsRun(t.db, i, 0) && EndsRun(t.db, k, 0)
  {
    s := Evicted(cfg, action);
    i :| EndsRun(s.db, i, 0);
    k := |s.db.events|;
    Extend(cfg, s, Finish(0, true));
    t := Apply(cfg, s, Finish(0, true));
  }

  // ---------------------------------------------------------------- the exact condition

  /** Every live worker's run is RUNNING, nobody else's, and not due for sweep C. */
  ghost predicate LeaseSafe(cfg: Config, s: Sys) {
    (forall w :: w in s.holders ==>
       s.holders[w] < |s.db.runs| && s.db.runs[s.holders[w]].status.Running? && !SweepCDue(cfg, s.db, s.holders[w], s.now))
    && (forall v, w :: v in s.holders && w in s.holders && v != w ==> s.holders[v] != s.holders[w])
  }

  ghost predicate SweepSparesHolders(cfg: Config) {
    forall s, w :: Reachable(cfg, s) && w in s.holders ==> !SweepCDue(cfg, s.db, s.holders[w], s.now)
  }

  ghost predicate HoldersStayRunning(cfg: Config) {
    forall s, w :: Reachable(cfg, s) && w in s.holders && s.holders[w] < |s.db.runs| ==> s.db.runs[s.holders[w]].status.Running?
  }

  ghost predicate AlwaysLeaseSafe(cfg: Config) {
    forall s :: Reachable(cfg, s) ==> LeaseSafe(cfg, s)
  }

  lemma LongGraceIsSafe(cfg: Config)
    requires ValidConfig(cfg)
    ensures AlwaysLeaseSafe(cfg)
  {
    forall s | Reachable(cfg, s) ensures LeaseSafe(cfg, s) { LeaseExclusive(cfg, s); }
  }

  /** The exact condition on the settings, for the whole of lease exclusivity and for its parts. */
  lemma LeaseBoundIsExact(cfg: Config)
    requires ValidCalendar(cfg.next) && exists action :: Creatable(cfg, action)
    requires 0 < cfg.staleness && 0 <= cfg.runningGrace && 0 <= cfg.dlqGrace && 0 <= cfg.queuedGrace
    ensures AlwaysLeaseSafe(cfg) <==> cfg.staleness <= cfg.runningGrace
    ensures SweepSparesHolders(cfg) <==> cfg.staleness <= cfg.runningGrace
    ensures HoldersStayRunning(cfg) <==> cfg.staleness <= cfg.runningGrace
  {
    if cfg.staleness <= cfg.runningGrace {
      LongGraceIsSafe(cfg);
      forall s, w | Reachable(cfg, s) && w in s.holders
        ensures !SweepCDue(cfg, s.db, s.holders[w], s.now)
        ensures s.holders[w] < |s.db.runs| ==> s.db.runs[s.holders[w]].status.Running?
      {
        assert LeaseSafe(cfg, s);
      }
    } else {
      var action :| Creatable(cfg, action);
      var s := ShortGraceBreaksLease(cfg, action);
      assert 0 in s.holders && !LeaseSafe(cfg, s);
      var t := Evicted(cfg, action);
      assert 0 in t.holders && t.holders[0] == 0 && !t.db.runs[0].status.Running?;
    }
  }
}
