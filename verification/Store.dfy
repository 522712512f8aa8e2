/** The code's own transactions as methods on the mutable tables, each proved to do exactly what
    the transition system's step says. */
module Store {
  import opened Tables
  import opened ChainWalk
  import opened Batches
  import opened CronTime
  import Settle
  import Cascade
  import Steps

  datatype Spawn = Ran(run: nat) | Concurrency | Integrity

  /** How an attempt at a claimed run ends: parameter validation fails, the handler times out,
      raises, or returns its verdict. */
  datatype Attempt = BadParams | TimedOut | Raised | Returned(ok: bool, retryable: bool)

  datatype CancelResult = NotFound | AlreadyCancelled | InvalidState | Cancelled

  class Database {
    var jobs: seq<Job>
    var runs: seq<Run>
    var events: seq<Event>

    function Snapshot(): Db
      reads this
    {
      Db(jobs, runs, events)
    }

    constructor ()
      ensures Snapshot() == Db([], [], [])
    {
      jobs, runs, events := [], [], [];
    }

    // -------------------------------------------------------------- jobs.py

    /** settle_job */
    method SettleJob(j: nat) returns (settled: bool)
      modifies this`jobs
      ensures jobs == Settle.SettleSelf(old(jobs), j)
      ensures settled <==> j < |old(jobs)| && old(jobs[j].state.Active? && jobs[j].cron.None? && jobs[j].trigger.None?)
      ensures |jobs| == |old(jobs)| && forall x :: 0 <= x < |jobs| && x != j ==> jobs[x] == old(jobs)[x]
      ensures j < |jobs| ==> jobs[j] == old(jobs)[j].(state := if settled then Completed else old(jobs)[j].state)
    {
      settled := j < |jobs| && jobs[j].state.Active? && jobs[j].cron.None? && jobs[j].trigger.None?;
      if settled {
        jobs := jobs[j := jobs[j].(state := Completed)];
      }
    }

    /** The ids selected by trigger_on_job_id = p. */
    method DownstreamIds(p: nat) returns (ids: seq<nat>)
      ensures Cascade.AreChildren(jobs, p, ids)
      ensures forall c: nat :: IsChild(jobs, p, c) ==> c in ids
    {
      ids := [];
      for c := 0 to |jobs|
        invariant forall k :: 0 <= k < |ids| ==> ids[k] < c
        invariant Cascade.AreChildren(jobs, p, ids)
        invariant forall x: nat :: x < c && IsChild(jobs, p, x) ==> x in ids
      {
        if jobs[c].trigger.Some? && jobs[c].trigger.value.parent == p {
          ids := ids + [c];
        }
      }
    }

    /** settle_check: the recursion visits downstreams one by one and still settles exactly the
        released descendants. */
    method SettleCheck(j: nat) returns (settled: bool)
      requires Forest(jobs)
      modifies this`jobs
      ensures jobs == Settle.SettleCheck(old(jobs), runs, j)
      ensures settled <==> j < |old(jobs)| && Settle.Exhausted(old(jobs), runs, j)
      decreases |jobs| - j, 1
    {
      if j >= |jobs| || !jobs[j].state.Active? {
        return false;
      }
      if jobs[j].cron.Some? {
        return false;
      }
      if HasExecuting(runs, j) {
        return false;
      }
      if jobs[j].trigger.Some? {
        var parent := jobs[j].trigger.value.parent;
        if parent < |jobs| && jobs[parent].state.Active? {
          return false;
        }
      }
      jobs := jobs[j := jobs[j].(state := Completed)];
      SettleDownstreams(j);
      return true;
    }

    /** _settle_downstreams */
    method SettleDownstreams(p: nat)
      requires Forest(jobs) && p < |jobs| && !jobs[p].state.Active?
      modifies this`jobs
      ensures jobs == Settle.SettleDown(old(jobs), runs, p)
      decreases |jobs| - p, 0
    {
      var ids := DownstreamIds(p);
      ghost var before := jobs;
      assert Cascade.Done(before, runs, ids[..0]) == {};
      for k := 0 to |ids|
        invariant jobs == Settle.Mark(before, Cascade.Done(before, runs, ids[..k]))
      {
        assert IsChild(before, p, ids[k]);
        var _ := SettleCheck(ids[k]);
        Cascade.CascadeStep(before, runs, p, ids, k);
      }
      assert ids[..|ids|] == ids;
      Cascade.CascadeDone(before, runs, p, ids);
    }

    /** cancel_job */
    method CancelJob(owner: string, j: nat, now: int) returns (r: CancelResult)
      requires Forest(jobs)
      modifies this
      ensures Snapshot() == Steps.CancelJob(old(Snapshot()), owner, j, now)
      ensures r.NotFound? <==> j >= |old(jobs)| || old(jobs[j].owner) != owner
      ensures r.Cancelled? <==> j < |old(jobs)| && old(jobs[j].owner) == owner && old(jobs[j].state) == Active
      ensures r.AlreadyCancelled? <==> j < |old(jobs)| && old(jobs[j].owner) == owner && old(jobs[j].state) == Stopped
      ensures r.InvalidState? <==> j < |old(jobs)| && old(jobs[j].owner) == owner && old(jobs[j].state) == Completed
    {
      if j >= |jobs| || jobs[j].owner != owner {
        return NotFound;
      }
      if jobs[j].state.Stopped? {
        return AlreadyCancelled;
      }
      if jobs[j].state.Completed? {
        return InvalidState;
      }
      jobs := jobs[j := jobs[j].(state := Stopped, cancelledAt := Some(now))];
      ghost var stopped := Snapshot();
      for k := 0 to |runs|
        invariant |runs| == |stopped.runs| && jobs == stopped.jobs
        invariant Snapshot() == Steps.FlipRuns(stopped, j, k, now)
      {
        if runs[k].job == j && Claimable(runs[k].status) {
          events := events + [Event(k, runs[k].job, Ended(Status.Cancelled), Some(runs[k].status), Some(Status.Cancelled), now, false)];
          runs := runs[k := runs[k].(status := Status.Cancelled)];
        }
      }
      SettleDownstreams(j);
      return CancelResult.Cancelled;
    }

    /** create_job */
    method CreateJob(cfg: Steps.Config, req: Steps.Request, now: int) returns (r: Steps.CreateResult)
      modifies this
      ensures r == Steps.CreateOutcome(cfg, old(Snapshot()), req, now)
      ensures Snapshot() == Steps.CreateJob(cfg, old(Snapshot()), req, now)
    {
      var bad := Steps.CheckRequest(cfg, req, now);
      if bad.Some? {
        return Steps.Rejected(bad.value);
      }
      if exists k :: 0 <= k < |jobs| && Steps.KeyTaken(jobs, req.owner, req.key, k) {
        return Steps.Existing(Steps.FindKey(jobs, req.owner, req.key));
      }
      if req.triggerJob.Some? {
        var rejected := ValidateChain(jobs, req.owner, req.triggerJob.value);
        if rejected.Some? {
          return Steps.Rejected(Steps.ChainRejected(rejected.value));
        }
      }
      var id := |jobs|;
      var runAt := Steps.FirstRunAt(cfg, req, now);
      jobs := jobs + [Steps.JobRow(req)];
      if req.triggerJob.None? {
        InsertRow(Steps.NewRun(Snapshot(), id, runAt, None, now), now);
      }
      return Steps.NewJob(id);
    }

    // -------------------------------------------------------------- run_materializer.py

    /** Insert the run row and its CREATED event. */
    method InsertRow(run: Run, now: int)
      modifies this`runs, this`events
      ensures Snapshot() == InsertRun(old(Snapshot()), run, now)
    {
      events := events + [Event(|runs|, run.job, Created, None, Some(run.status), now, false)];
      runs := runs + [run];
    }

    /** _spawn_run: on either error the savepoint leaves the tables as they were. */
    method SpawnRun(j: nat, at: int, cause: Option<nat>, now: int) returns (r: Spawn)
      requires j < |jobs|
      modifies this`runs, this`events
      ensures r.Concurrency? <==> HasExecuting(old(runs), j)
      ensures r.Integrity? <==> !HasExecuting(old(runs), j) && Taken(old(runs), j, at, cause)
      ensures r.Ran? ==>
        r.run == |old(runs)| && runs == old(runs) + [Run(j, jobs[j].owner, at, Pending, cause, None, None, now)]
        && events == old(events) + [Event(r.run, j, Created, None, Some(Pending), now, false)]
      ensures
        match Steps.SpawnRun(old(Snapshot()), j, at, cause, now)
        case Spawned(d) => r == Ran(|old(runs)|) && Snapshot() == d
        case ConcurrencyError => r.Concurrency? && Snapshot() == old(Snapshot())
        case IntegrityError => r.Integrity? && Snapshot() == old(Snapshot())
    {
      if HasExecuting(runs, j) {
        return Concurrency;
      }
      TakenIs(runs, j, at, cause);
      if Steps.Duplicate(runs, j, at, cause) {
        return Integrity;
      }
      r := Ran(|runs|);
      InsertRow(Steps.NewRun(Snapshot(), j, at, cause, now), now);
    }

    // -------------------------------------------------------------- recurring_watcher.py

    /** _materialize_recurring_successor */
    method MaterializeRecurringSuccessor(cfg: Steps.Config, e: Event, now: int)
      requires e.run < |runs| && e.job < |jobs|
      modifies this`runs, this`events
      ensures Snapshot() == Steps.Recur(cfg, old(Snapshot()), e, now)
    {
      if jobs[e.job].cron.None? || jobs[e.job].cancelledAt.Some? {
        return;
      }
      var at := SuccessorTime(cfg.next, jobs[e.job].cron.value, runs[e.run].scheduledAt, e.at);
      var _ := SpawnRun(e.job, at, None, now);
    }

    /** The active downstreams of p; the query has no ORDER BY, so callers rely on no order. */
    method SelectDownstreams(p: nat) returns (ids: seq<nat>)
      ensures Steps.ListsDownstreams(jobs, p, ids)
    {
      ids := Steps.Downstreams(jobs, p, |jobs|);
      forall k | 0 <= k < |ids| ensures Steps.IsActiveDownstream(jobs, p, ids[k]) { assert ids[k] in ids; }
    }

    /** _materialize_downstreams */
    method MaterializeDownstreams(e: Event, now: int) returns (ids: seq<nat>)
      requires e.kind.Ended? && e.job < |jobs|
      modifies this`runs, this`events
      ensures Steps.ListsDownstreams(jobs, e.job, ids)
      ensures Snapshot() == Steps.FireAll(old(Snapshot()), e, ids, now)
    {
      ids := SelectDownstreams(e.job);
      ghost var before := Snapshot();
      assert ids[..0] == [];
      for k := 0 to |ids|
        invariant Snapshot() == Steps.FireAll(before, e, ids[..k], now)
      {
        var c := ids[k];
        assert Steps.IsActiveDownstream(jobs, e.job, c);
        assert ids[..k + 1][..k] == ids[..k];
        if !Steps.TriggersOn(jobs[c].trigger.value.pred, e.kind.status) {
          events := events + [Audit(e, SkippedPredicateMiss(c), now)];
        } else {
          var spawn := SpawnRun(c, e.at, Some(e.run), now);
          if spawn.Concurrency? {
            events := events + [Audit(e, SkippedSlowConsumer(c), now)];
          }
        }
      }
      assert ids[..|ids|] == ids;
    }

    /** The settle part of poll_once: the event's own job first, then each offered downstream. */
    method SettleAround(j: nat, ids: seq<nat>)
      requires Forest(jobs)
      modifies this`jobs
      ensures jobs == Steps.SettleEach(Settle.SettleCheck(old(jobs), runs, j), runs, ids)
    {
      Settle.SettleCheckSettles(jobs, runs, j);
      var _ := SettleCheck(j);
      ghost var first := jobs;
      assert ids[..0] == [];
      for k := 0 to |ids|
        invariant jobs == Steps.SettleEach(first, runs, ids[..k])
        invariant Forest(jobs)
      {
        assert ids[..k + 1][..k] == ids[..k];
        Settle.SettleCheckSettles(jobs, runs, ids[k]);
        var _ := SettleCheck(ids[k]);
      }
      assert ids[..|ids|] == ids;
    }

    /** One event of poll_once; order is the order in which the downstreams came. */
    method ProcessEvent(cfg: Steps.Config, i: nat, now: int) returns (order: seq<nat>)
      requires Forest(jobs) && Steps.EventInRange(Snapshot(), i) && events[i].kind.Ended?
      modifies this
      ensures Steps.Offering(old(Snapshot()), old(events)[i], order)
      ensures Snapshot() == Steps.Continue(cfg, old(Snapshot()), i, order, now)
    {
      var e := events[i];
      MaterializeRecurringSuccessor(cfg, e, now);
      order := [];
      if !jobs[e.job].state.Stopped? {
        order := MaterializeDownstreams(e, now);
      }
      SettleAround(e.job, order);
      events := events[i := events[i].(processed := true)];
    }

    // -------------------------------------------------------------- executor.py

    /** _claim: the guarded UPDATE wins or matches no row. */
    method Claim(r: nat, now: int) returns (won: bool)
      modifies this`runs, this`events
      ensures won <==>
        r < |old(runs)| && (old(runs)[r].status == Pending || old(runs)[r].status == Queued || old(runs)[r].status == Retrying)
      ensures Snapshot() == if won then Steps.ClaimRow(old(Snapshot()), r, now) else old(Snapshot())
    {
      if r >= |runs| || !Claimable(runs[r].status) {
        return false;
      }
      var prev := runs[r].status;
      runs := runs[r := runs[r].(status := Running, startAt := Some(now), heartbeatAt := Some(now), updatedAt := now)];
      events := events + [Event(r, runs[r].job, Started, Some(prev), Some(Running), now, false)];
      return true;
    }

    /** _write_terminal and _write_permanent_failure. The UPDATE has no status guard, and the event
        claims status_from RUNNING and the message's job whatever the row says; on a RUNNING row of
        that job this is the transition of the lifecycle. */
    method WriteTerminal(r: nat, job: nat, status: Status, now: int)
      modifies this
      ensures events == old(events) + [Event(r, job, Ended(status), Some(Running), Some(status), now, false)]
      ensures jobs == Settle.SettleSelf(old(jobs), job)
      ensures runs == Overwritten(old(runs), r, status, now)
      ensures r < |old(runs)| && old(runs)[r].status.Running? && old(runs)[r].job == job ==>
        Snapshot() == Steps.FinishRow(old(Snapshot()), r, status, now)
    {
      if r < |runs| {
        runs := runs[r := runs[r].(status := status, updatedAt := now)];
      }
      events := events + [Event(r, job, Ended(status), Some(Running), Some(status), now, false)];
      var _ := SettleJob(job);
    }

    /** _write_retrying, equally unguarded. */
    method WriteRetrying(r: nat, job: nat, now: int)
      modifies this`runs, this`events
      ensures events == old(events) + [Event(r, job, Retry, Some(Running), Some(Retrying), now, false)]
      ensures runs == Overwritten(old(runs), r, Retrying, now)
      ensures r < |old(runs)| && old(runs)[r].status.Running? && old(runs)[r].job == job ==>
        Snapshot() == Steps.RetryRow(old(Snapshot()), r, now)
    {
      if r < |runs| {
        runs := runs[r := runs[r].(status := Retrying, updatedAt := now)];
      }
      events := events + [Event(r, job, Retry, Some(Running), Some(Retrying), now, false)];
    }

    /** _dispatch on one message, claimed at time claimed and written back at time ended: a lost
        claim changes nothing; a run without its job row is left as claimed; an unknown action, bad
        parameters or a permanent failure ends the run FAILED; a timeout, an exception or a
        retryable failure leaves it RETRYING. The message is kept for redelivery exactly in the
        last case. */
    method Dispatch(cfg: Steps.Config, r: nat, attempt: Attempt, claimed: int, ended: int) returns (deleted: bool)
      modifies this
      ensures !(r < |old(runs)| && Startable(old(runs)[r].status)) ==> deleted && Snapshot() == old(Snapshot())
      ensures r < |old(runs)| && Startable(old(runs)[r].status) && old(runs)[r].job >= |old(jobs)| ==>
        deleted && Snapshot() == Steps.ClaimRow(old(Snapshot()), r, claimed)
      ensures r < |old(runs)| && Startable(old(runs)[r].status) && old(runs)[r].job < |old(jobs)| ==>
        var running := Steps.ClaimRow(old(Snapshot()), r, claimed);
        var known := old(jobs)[old(runs)[r].job].action in cfg.registry;
        var succeeds := known && attempt.Returned? && attempt.ok;
        Snapshot() == (if deleted then Steps.FinishRow(running, r, if succeeds then Succeeded else Failed, ended)
                       else Steps.RetryRow(running, r, ended))
        && (deleted <==> succeeds || !known || attempt.BadParams? || (attempt.Returned? && !attempt.retryable))
        && runs[r].status == if !deleted then Retrying else if succeeds then Succeeded else Failed
    {
      var won := Claim(r, claimed);
      if !won {
        return true;
      }
      if runs[r].job >= |jobs| {
        return true;
      }
      if jobs[runs[r].job].action !in cfg.registry || attempt.BadParams? {
        WriteTerminal(r, runs[r].job, Failed, ended);
        return true;
      }
      if attempt.TimedOut? || attempt.Raised? {
        WriteRetrying(r, runs[r].job, ended);
        return false;
      }
      if attempt.ok {
        WriteTerminal(r, runs[r].job, Succeeded, ended);
      } else if !attempt.retryable {
        WriteTerminal(r, runs[r].job, Failed, ended);
      } else {
        WriteRetrying(r, runs[r].job, ended);
        return false;
      }
      return true;
    }

    /** _bump_heartbeat_at: only the one lease column of the one row changes, and sweep C leaves the
        run alone for a whole grace period, under any settings. */
    method BumpHeartbeat(r: nat, now: int)
      modifies this`runs
      ensures |runs| == |old(runs)| && forall q :: 0 <= q < |runs| && q != r ==> runs[q] == old(runs)[q]
      ensures r < |runs| ==> Snapshot() == Steps.HeartbeatRow(old(Snapshot()), r, now)
      ensures forall cfg: Steps.Config, t :: t <= now + cfg.runningGrace ==> !Steps.SweepCDue(cfg, Snapshot(), r, t)
    {
      if r < |runs| {
        runs := runs[r := runs[r].(heartbeatAt := Some(now))];
      }
    }

    // -------------------------------------------------------------- watcher.py, reconciler.py

    /** The bulk UPDATE ... WHERE run_id IN (ids). */
    method BulkUpdate(kind: Batch, ids: seq<nat>, now: int)
      requires InTable(runs, ids)
      modifies this`runs
      ensures runs == BulkRows(old(runs), kind, ids, now)
    {
      ghost var before := runs;
      assert ids[..0] == [];
      for k := 0 to |ids|
        invariant |runs| == |before| && runs == BulkRows(before, kind, ids[..k], now)
      {
        assert ids[..k + 1][..k] == ids[..k];
        runs := runs[ids[k] := BulkRow(runs[ids[k]], kind, now)];
      }
      assert ids[..|ids|] == ids;
    }

    /** One event per row of a bulk UPDATE, from the rows as loaded before it. */
    method LogEach(kind: Batch, loaded: seq<Run>, ids: seq<nat>, now: int)
      requires InTable(loaded, ids)
      modifies this`events
      ensures events == old(events) + BulkEvents(loaded, kind, ids, now)
    {
      ghost var before := events;
      assert ids[..0] == [];
      for k := 0 to |ids|
        invariant events == before + BulkEvents(loaded, kind, ids[..k], now)
      {
        assert ids[..k + 1][..k] == ids[..k];
        events := events + [BulkEvent(loaded, kind, ids[k], now)];
      }
      assert ids[..|ids|] == ids;
    }

    /** claim_and_publish: rows first, events second, queue entries after the commit. */
    method ClaimAndPublish(cfg: Steps.Config, picked: seq<nat>, now: int) returns (entries: seq<Steps.Entry>)
      requires Picked(cfg, Snapshot(), Publish, picked, now) && InTable(runs, picked)
      modifies this`runs, this`events
      ensures Snapshot() == RunBatch(cfg, old(Snapshot()), Publish, picked, now)
      ensures entries == EntriesOf(cfg, old(Snapshot()), Publish, picked, now)
    {
      TwoPasses(cfg, Snapshot(), Publish, picked, now);
      ghost var before := Snapshot();
      var loaded := runs;
      BulkUpdate(Publish, picked, now);
      LogEach(Publish, loaded, picked, now);
      entries := BuildEntries(cfg, before, loaded, picked, now);
    }

    /** The queue entries with their DelaySeconds, from the rows as loaded. */
    static method BuildEntries(cfg: Steps.Config, ghost before: Db, loaded: seq<Run>, picked: seq<nat>, now: int)
      returns (entries: seq<Steps.Entry>)
      requires loaded == before.runs && InTable(loaded, picked)
      ensures entries == EntriesOf(cfg, before, Publish, picked, now)
    {
      entries := [];
      assert picked[..0] == [];
      for k := 0 to |picked|
        invariant entries == EntriesOf(cfg, before, Publish, picked[..k], now)
      {
        assert picked[..k + 1][..k] == picked[..k];
        entries := entries + [Steps.Entry(picked[k], Steps.Delay(loaded[picked[k]].scheduledAt, now))];
      }
      assert picked[..|picked|] == picked;
    }

    /** sweep_dlq_retrying */
    method SweepDlqRetrying(cfg: Steps.Config, picked: seq<nat>, now: int)
      requires Picked(cfg, Snapshot(), DlqRetrying, picked, now) && InTable(runs, picked)
      modifies this`runs, this`events
      ensures Snapshot() == RunBatch(cfg, old(Snapshot()), DlqRetrying, picked, now)
    {
      TwoPasses(cfg, Snapshot(), DlqRetrying, picked, now);
      var snapshots := runs;
      BulkUpdate(DlqRetrying, picked, now);
      LogEach(DlqRetrying, snapshots, picked, now);
    }

    /** sweep_queued_stuck: sent[k] says whether the send of row k succeeded; a row whose send
        failed is left for the next tick. */
    method SweepQueuedStuck(cfg: Steps.Config, picked: seq<nat>, sent: seq<bool>, now: int) returns (requeued: seq<nat>)
      requires Picked(cfg, Snapshot(), QueuedStuck, picked, now) && InTable(runs, picked) && |sent| == |picked|
      modifies this`runs, this`events
      ensures requeued == Sent(picked, sent) && InTable(old(runs), requeued)
      ensures Snapshot() == RunBatch(cfg, old(Snapshot()), QueuedStuck, requeued, now)
    {
      ghost var before := Snapshot();
      requeued := [];
      for k := 0 to |picked|
        invariant requeued == Sent(picked[..k], sent[..k]) && InTable(before.runs, requeued)
        invariant Snapshot() == RunBatch(cfg, before, QueuedStuck, requeued, now)
      {
        SentStep(cfg, before, picked, sent, k, now);
        if sent[k] {
          Requeue(picked[k], now);
          requeued := requeued + [picked[k]];
        }
      }
      assert picked[..|picked|] == picked && sent[..|sent|] == sent;
    }

    /** One row of sweep B after its send. */
    method Requeue(r: nat, now: int)
      requires r < |runs| && runs[r].status.Queued?
      modifies this`runs, this`events
      ensures Snapshot() == Steps.SweepBRow(old(Snapshot()), r, now)
    {
      events := events + [Event(r, runs[r].job, Reenqueued, Some(Queued), Some(Queued), now, false)];
      runs := runs[r := runs[r].(updatedAt := now)];
    }

    /** sweep_running_orphan: the rows to re-enqueue are returned, to be sent after the commit. */
    method SweepRunningOrphan(cfg: Steps.Config, picked: seq<nat>, now: int) returns (toReenqueue: seq<Steps.Entry>)
      requires Picked(cfg, Snapshot(), RunningOrphan, picked, now) && InTable(runs, picked)
      modifies this
      ensures Snapshot() == RunBatch(cfg, old(Snapshot()), RunningOrphan, picked, now)
      ensures toReenqueue == EntriesOf(cfg, old(Snapshot()), RunningOrphan, picked, now)
    {
      ghost var before := Snapshot();
      toReenqueue := [];
      assert picked[..0] == [];
      for k := 0 to |picked|
        invariant |runs| == |before.runs| && Snapshot() == RunBatch(cfg, before, RunningOrphan, picked[..k], now)
        invariant toReenqueue == EntriesOf(cfg, before, RunningOrphan, picked[..k], now)
      {
        assert picked[..k + 1][..k] == picked[..k];
        assert Due(cfg, before, RunningOrphan, picked[k], now) && picked[k] !in picked[..k];
        BatchFrame(cfg, before, RunningOrphan, picked[..k], now);
        var again := RecoverOrphan(cfg, picked[k], now);
        if again {
          toReenqueue := toReenqueue + [Steps.Entry(picked[k], 0)];
        }
      }
      assert picked[..|picked|] == picked;
    }

    /** One orphan: an idempotent action is reset, any other fails and settles its one-shot job. */
    method RecoverOrphan(cfg: Steps.Config, r: nat, now: int) returns (again: bool)
      requires r < |runs| && runs[r].status.Running?
      modifies this
      ensures Snapshot() == RowOf(cfg, old(Snapshot()), RunningOrphan, r, now)
      ensures again <==> Steps.Idempotent(cfg, old(Snapshot()), r)
    {
      again := false;
      if runs[r].job < |jobs| && jobs[runs[r].job].action in cfg.registry {
        again := cfg.registry[jobs[runs[r].job].action];
      }
      if again {
        events := events + [Event(r, runs[r].job, Reenqueued, Some(Running), Some(Queued), now, false)];
        runs := runs[r := runs[r].(status := Queued, updatedAt := now)];
      } else {
        WriteTerminal(r, runs[r].job, Failed, now);
      }
    }
  }

  /** UPDATE ... WHERE run_id = r: no row, no change. */
  function Overwritten(runs: seq<Run>, r: nat, status: Status, now: int): seq<Run> {
    if r < |runs| then runs[r := runs[r].(status := status, updatedAt := now)] else runs
  }

  predicate Startable(s: Status) {
    s == Pending || s == Queued || s == Retrying
  }

  /** Some run already stands for this cause: the same upstream run, or the same tick. */
  ghost predicate Taken(runs: seq<Run>, j: nat, at: int, cause: Option<nat>) {
    exists q :: 0 <= q < |runs| && runs[q].job == j && runs[q].cause == cause && (cause.None? ==> runs[q].scheduledAt == at)
  }

  lemma TakenIs(runs: seq<Run>, j: nat, at: int, cause: Option<nat>)
    ensures Taken(runs, j, at, cause) <==> Steps.Duplicate(runs, j, at, cause)
  {
    forall q | 0 <= q < |runs|
      ensures Steps.SameCause(runs[q], j, at, cause)
        <==> runs[q].job == j && runs[q].cause == cause && (cause.None? ==> runs[q].scheduledAt == at)
    {}
  }

  /** The picked rows whose send succeeded, in order. */
  function Sent(picked: seq<nat>, sent: seq<bool>): (ids: seq<nat>)
    requires |picked| == |sent|
    ensures forall x :: x in ids ==> x in picked
    decreases |picked|
  {
    if picked == [] then []
    else
      var n := |picked| - 1;
      Sent(picked[..n], sent[..n]) + (if sent[n] then [picked[n]] else [])
  }

  /** One more row of sweep B: it is still queued after the earlier ones, and requeuing it extends
      the batch. */
  lemma SentStep(cfg: Steps.Config, db: Db, picked: seq<nat>, sent: seq<bool>, k: nat, now: int)
    requires Picked(cfg, db, QueuedStuck, picked, now) && |sent| == |picked| && k < |picked|
    requires InTable(db.runs, Sent(picked[..k], sent[..k]))
    ensures picked[k] < |db.runs|
    ensures
      var ids := Sent(picked[..k], sent[..k]);
      var d := RunBatch(cfg, db, QueuedStuck, ids, now);
      d.runs[picked[k]].status.Queued?
      && InTable(db.runs, ids + [picked[k]])
      && RunBatch(cfg, db, QueuedStuck, ids + [picked[k]], now) == Steps.SweepBRow(d, picked[k], now)
    ensures Sent(picked[..k + 1], sent[..k + 1]) == Sent(picked[..k], sent[..k]) + (if sent[k] then [picked[k]] else [])
  {
    var ids := Sent(picked[..k], sent[..k]);
    assert picked[..k + 1][..k] == picked[..k] && sent[..k + 1][..k] == sent[..k];
    assert Due(cfg, db, QueuedStuck, picked[k], now);
    assert picked[k] !in picked[..k];
    assert (ids + [picked[k]])[..|ids|] == ids;
  }
}
