/** No run is unrecoverable: whatever was lost, the clock, the watcher, the workers and the sweeps
    can bring every executing run to a terminal status. */
module Recovery {
  import opened Tables
  import opened Steps
  import opened System

  /** Steps the deployed processes take by themselves; no user, no crash, no lost message. */
  predicate Operational(step: Step) {
    step.Tick? || step.Heartbeat? || step.WatcherCommit? || step.Deliver? || step.Claim? || step.Finish?
    || step.SweepA? || step.SweepB? || step.SweepC?
  }

  ghost predicate Works(cfg: Config, s: Sys, trace: seq<Step>) {
    Admits(cfg, s, trace) && forall k :: 0 <= k < |trace| ==> Operational(trace[k])
  }

  ghost predicate Recovers(cfg: Config, s: Sys, r: nat, trace: seq<Step>) {
    Works(cfg, s, trace) && r < |Exec(cfg, s, trace).db.runs| && !Executing(Exec(cfg, s, trace).db.runs[r].status)
  }

  lemma One(cfg: Config, s: Sys, step: Step)
    requires Enabled(cfg, s, step) && Operational(step)
    ensures Works(cfg, s, [step]) && Exec(cfg, s, [step]) == Apply(cfg, s, step)
  {
    Single(cfg, s, step);
  }

  lemma Chain(cfg: Config, s: Sys, a: seq<Step>, b: seq<Step>)
    requires Works(cfg, s, a) && Works(cfg, Exec(cfg, s, a), b)
    ensures Works(cfg, s, a + b) && Exec(cfg, s, a + b) == Exec(cfg, Exec(cfg, s, a), b)
  {
    ExecConcat(cfg, s, a, b);
  }

  // ---------------------------------------------------------------- letting time pass

  /** t is s with newer leases on held runs, and perhaps a later clock. */
  ghost predicate Waited(s: Sys, t: Sys) {
    t == s.(db := s.db.(runs := t.db.runs), now := t.now) && |t.db.runs| == |s.db.runs|
    && forall r :: 0 <= r < |s.db.runs| ==>
      t.db.runs[r] == s.db.runs[r].(heartbeatAt := t.db.runs[r].heartbeatAt)
      && ((forall w :: w in s.holders ==> s.holders[w] != r) ==> t.db.runs[r] == s.db.runs[r])
  }

  /** Every worker of ws has just renewed its lease. */
  ghost predicate Renewed(s: Sys, ws: set<nat>) {
    forall w :: w in ws && Holds(s, w) ==> s.db.runs[s.holders[w]].heartbeatAt == Some(s.now)
  }

  /** One more heartbeat. */
  lemma RenewOne(cfg: Config, s: Sys, t: Sys, w: nat, ws: set<nat>)
    requires Waited(s, t) && Holds(t, w) && Renewed(t, ws - {w})
    ensures var u := Apply(cfg, t, Heartbeat(w)); Waited(s, u) && u.now == t.now && Renewed(u, ws)
  {
  }

  lemma {:induction false} RenewAll(cfg: Config, s: Sys, ws: set<nat>) returns (trace: seq<Step>)
    requires ValidConfig(cfg) && Inv(cfg, s) && ws <= s.holders.Keys
    ensures Works(cfg, s, trace)
    ensures Waited(s, Exec(cfg, s, trace)) && Exec(cfg, s, trace).now == s.now && Renewed(Exec(cfg, s, trace), ws)
    decreases |ws|
  {
    if ws == {} {
      trace := [];
    } else {
      var w :| w in ws;
      var first := RenewAll(cfg, s, ws - {w});
      var t := Exec(cfg, s, first);
      assert HolderOk(cfg, s, w);
      RenewOne(cfg, s, t, w, ws);
      One(cfg, t, Heartbeat(w));
      Chain(cfg, s, first, [Heartbeat(w)]);
      trace := first + [Heartbeat(w)];
    }
  }

  lemma WaitedTransitive(s: Sys, t: Sys, u: Sys)
    requires Waited(s, t) && Waited(t, u)
    ensures Waited(s, u)
  {
  }

  /** With leases renewed along the way the clock can advance by any amount. */
  lemma {:induction false} Wait(cfg: Config, s: Sys, d: int) returns (trace: seq<Step>)
    requires ValidConfig(cfg) && Inv(cfg, s) && d >= 0
    ensures Works(cfg, s, trace)
    ensures Waited(s, Exec(cfg, s, trace)) && Exec(cfg, s, trace).now == s.now + d && Inv(cfg, Exec(cfg, s, trace))
    decreases d
  {
    if d == 0 {
      trace := [];
    } else {
      var renew := RenewAll(cfg, s, s.holders.Keys);
      var t := Exec(cfg, s, renew);
      ExecKeeps(cfg, s, renew);
      assert LeasesFresh(cfg, t, t.now + 1);
      One(cfg, t, Tick(1));
      Chain(cfg, s, renew, [Tick(1)]);
      var u := Apply(cfg, t, Tick(1));
      StepKeeps(cfg, t, Tick(1));
      WaitedTransitive(s, t, u);
      var rest := Wait(cfg, u, d - 1);
      WaitedTransitive(s, u, Exec(cfg, u, rest));
      Chain(cfg, s, renew + [Tick(1)], rest);
      trace := renew + [Tick(1)] + rest;
    }
  }

  // ---------------------------------------------------------------- the ways back

  lemma {:induction false} FreshWorker(holders: map<nat, nat>) returns (w: nat)
    ensures forall v :: v in holders ==> v < w
    decreases |holders|
  {
    if holders == map[] {
      w := 0;
    } else {
      var v :| v in holders;
      var rest := holders - {v};
      assert holders == rest[v := holders[v]];
      var b := FreshWorker(rest);
      w := if v < b then b else v + 1;
    }
  }

  /** A claimable run whose message is visible: claim it and finish it. */
  lemma ClaimAndFinish(cfg: Config, s: Sys, m: Message) returns (trace: seq<Step>)
    requires ValidConfig(cfg) && Inv(cfg, s) && m in s.queue && m.visibleAt <= s.now
    requires m.run < |s.db.runs| && Claimable(s.db.runs[m.run].status)
    ensures Recovers(cfg, s, m.run, trace)
  {
    var w := FreshWorker(s.holders);
    var t := Apply(cfg, s, Claim(w, m));
    One(cfg, s, Claim(w, m));
    One(cfg, t, Finish(w, true));
    Chain(cfg, s, [Claim(w, m)], [Finish(w, true)]);
    trace := [Claim(w, m)] + [Finish(w, true)];
  }

  /** A run that is not RUNNING is nobody's, so waiting does not touch its row. */
  lemma UnheldWaits(cfg: Config, s: Sys, t: Sys, r: nat)
    requires HoldersOk(cfg, s) && Waited(s, t) && r < |s.db.runs| && !s.db.runs[r].status.Running?
    ensures t.db.runs[r] == s.db.runs[r]
  {
    forall w | w in s.holders ensures s.holders[w] != r { assert HolderOk(cfg, s, w); }
  }

  /** A claimable run whose message becomes visible later: wait for it first. */
  lemma WaitAndFinish(cfg: Config, s: Sys, m: Message) returns (trace: seq<Step>)
    requires ValidConfig(cfg) && Inv(cfg, s) && m in s.queue
    requires m.run < |s.db.runs| && Claimable(s.db.runs[m.run].status)
    ensures Recovers(cfg, s, m.run, trace)
  {
    var wait := Wait(cfg, s, if m.visibleAt > s.now then m.visibleAt - s.now else 0);
    var t := Exec(cfg, s, wait);
    UnheldWaits(cfg, s, t, m.run);
    var finish := ClaimAndFinish(cfg, t, m);
    Chain(cfg, s, wait, finish);
    trace := wait + finish;
  }

  /** A queued run whose message is about to be sent: the send succeeds, the delay passes. */
  lemma DeliverAndFinish(cfg: Config, s: Sys, e: Entry) returns (trace: seq<Step>)
    requires ValidConfig(cfg) && Inv(cfg, s) && e in s.outgoing
    requires e.run < |s.db.runs| && s.db.runs[e.run].status.Queued?
    ensures Recovers(cfg, s, e.run, trace)
  {
    StepKeeps(cfg, s, Deliver(e));
    One(cfg, s, Deliver(e));
    var rest := WaitAndFinish(cfg, Apply(cfg, s, Deliver(e)), Message(e.run, s.now + e.delay * SECOND));
    Chain(cfg, s, [Deliver(e)], rest);
    trace := [Deliver(e)] + rest;
  }

  lemma FromPending(cfg: Config, s: Sys, r: nat) returns (trace: seq<Step>)
    requires ValidConfig(cfg) && Inv(cfg, s) && WatcherDue(s.db, r, s.now)
    ensures Recovers(cfg, s, r, trace)
  {
    var t := Apply(cfg, s, WatcherCommit(r));
    StepKeeps(cfg, s, WatcherCommit(r));
    One(cfg, s, WatcherCommit(r));
    var rest := DeliverAndFinish(cfg, t, Entry(r, Delay(s.db.runs[r].scheduledAt, s.now)));
    Chain(cfg, s, [WatcherCommit(r)], rest);
    trace := [WatcherCommit(r)] + rest;
  }

  lemma FromQueued(cfg: Config, s: Sys, r: nat) returns (trace: seq<Step>)
    requires ValidConfig(cfg) && Inv(cfg, s) && SweepBDue(cfg, s.db, r, s.now)
    ensures Recovers(cfg, s, r, trace)
  {
    var t := Apply(cfg, s, SweepB(r, true));
    StepKeeps(cfg, s, SweepB(r, true));
    One(cfg, s, SweepB(r, true));
    var rest := ClaimAndFinish(cfg, t, Message(r, s.now));
    Chain(cfg, s, [SweepB(r, true)], rest);
    trace := [SweepB(r, true)] + rest;
  }

  lemma FromRetrying(cfg: Config, s: Sys, r: nat) returns (trace: seq<Step>)
    requires ValidConfig(cfg) && Inv(cfg, s) && SweepADue(cfg, s.db, r, s.now)
    ensures Recovers(cfg, s, r, trace)
  {
    One(cfg, s, SweepA(r));
    trace := [SweepA(r)];
  }

  lemma FromOrphan(cfg: Config, s: Sys, r: nat) returns (trace: seq<Step>)
    requires ValidConfig(cfg) && Inv(cfg, s) && SweepCDue(cfg, s.db, r, s.now)
    ensures Recovers(cfg, s, r, trace)
  {
    var t := Apply(cfg, s, SweepC(r));
    StepKeeps(cfg, s, SweepC(r));
    One(cfg, s, SweepC(r));
    if Idempotent(cfg, s.db, r) {
      var rest := DeliverAndFinish(cfg, t, Entry(r, 0));
      Chain(cfg, s, [SweepC(r)], rest);
      trace := [SweepC(r)] + rest;
    } else {
      trace := [SweepC(r)];
    }
  }

  lemma FromHeld(cfg: Config, s: Sys, w: nat) returns (trace: seq<Step>)
    requires ValidConfig(cfg) && Inv(cfg, s) && Holds(s, w)
    ensures Recovers(cfg, s, s.holders[w], trace)
  {
    One(cfg, s, Finish(w, true));
    trace := [Finish(w, true)];
  }

  /** How long to wait until a sweep or the watcher is due for run r. */
  function Patience(cfg: Config, s: Sys, r: nat): (d: int)
    requires r < |s.db.runs|
    ensures d >= 0
  {
    var run := s.db.runs[r];
    var due := match run.status
      case Pending => run.scheduledAt - LOOKAHEAD + 1
      case Queued => (if run.updatedAt + cfg.queuedGrace > run.scheduledAt then run.updatedAt + cfg.queuedGrace else run.scheduledAt) + 1
      case Retrying => run.updatedAt + cfg.dlqGrace + 1
      case _ => (if run.heartbeatAt.Some? then run.heartbeatAt.value else s.now) + cfg.runningGrace + 1;
    if due > s.now then due - s.now else 0
  }

  /** From every reachable state and every executing run there is a finite sequence of clock,
      watcher, worker and sweep steps that ends with the run terminal, whichever sends failed after
      their commit and whichever workers crashed after their claim. */
  lemma NoRunUnrecoverable(cfg: Config, s: Sys, r: nat) returns (trace: seq<Step>)
    requires ValidConfig(cfg) && Reachable(cfg, s) && r < |s.db.runs| && Executing(s.db.runs[r].status)
    ensures Recovers(cfg, s, r, trace)
  {
    ReachableInv(cfg, s);
    assert RunTimes(s.db.runs[r], s.now);
    if w: nat :| w in s.holders && s.holders[w] == r {
      assert HolderOk(cfg, s, w);
      trace := FromHeld(cfg, s, w);
    } else {
      var wait := Wait(cfg, s, Patience(cfg, s, r));
      var t := Exec(cfg, s, wait);
      assert t.db.runs[r] == s.db.runs[r];
      var rest;
      match s.db.runs[r].status {
        case Pending => rest := FromPending(cfg, t, r);
        case Queued => rest := FromQueued(cfg, t, r);
        case Retrying => rest := FromRetrying(cfg, t, r);
        case _ => rest := FromOrphan(cfg, t, r);
      }
      Chain(cfg, s, wait, rest);
      trace := wait + rest;
    }
  }
}
