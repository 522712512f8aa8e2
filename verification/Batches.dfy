/** One transaction of the watcher or of a sweep handles a batch of rows. A batch over distinct due
    rows is the same as taking the single-row steps one after another, and for the bulk updates the
    rows and the events can be written in two separate passes. */
module Batches {
  import opened Tables
  import opened Steps

  datatype Batch = Publish | DlqRetrying | QueuedStuck | RunningOrphan

  function StepOf(kind: Batch, r: nat): Step {
    match kind
    case Publish => WatcherCommit(r)
    case DlqRetrying => SweepA(r)
    case QueuedStuck => SweepB(r, true)
    case RunningOrphan => SweepC(r)
  }

  predicate Due(cfg: Config, db: Db, kind: Batch, r: nat, now: int) {
    match kind
    case Publish => WatcherDue(db, r, now)
    case DlqRetrying => SweepADue(cfg, db, r, now)
    case QueuedStuck => SweepBDue(cfg, db, r, now)
    case RunningOrphan => SweepCDue(cfg, db, r, now)
  }

  function RowOf(cfg: Config, db: Db, kind: Batch, r: nat, now: int): (d: Db)
    requires r < |db.runs|
    ensures |d.runs| == |db.runs|
    ensures forall q :: 0 <= q < |db.runs| && q != r ==> d.runs[q] == db.runs[q]
  {
    match kind
    case Publish => WatcherRow(db, r, now)
    case DlqRetrying => SweepARow(db, r, now)
    case QueuedStuck => SweepBRow(db, r, now)
    case RunningOrphan => SweepCRow(cfg, db, r, now)
  }

  predicate InTable(runs: seq<Run>, ids: seq<nat>) {
    forall k :: 0 <= k < |ids| ==> ids[k] < |runs|
  }

  predicate Distinct(ids: seq<nat>) {
    forall i, k :: 0 <= i < k < |ids| ==> ids[i] != ids[k]
  }

  /** SELECT ... FOR UPDATE SKIP LOCKED LIMIT n: some distinct due rows. */
  predicate Picked(cfg: Config, db: Db, kind: Batch, ids: seq<nat>, now: int) {
    Distinct(ids) && forall k :: 0 <= k < |ids| ==> Due(cfg, db, kind, ids[k], now)
  }

  function RunBatch(cfg: Config, db: Db, kind: Batch, ids: seq<nat>, now: int): (d: Db)
    requires InTable(db.runs, ids)
    ensures |d.runs| == |db.runs|
    ensures forall q :: 0 <= q < |db.runs| && q !in ids ==> d.runs[q] == db.runs[q]
    decreases |ids|
  {
    if ids == [] then db
    else RowOf(cfg, RunBatch(cfg, db, kind, ids[..|ids| - 1], now), kind, ids[|ids| - 1], now)
  }

  /** The queue entries a batch sends after its commit. */
  function EntryOf(cfg: Config, db: Db, kind: Batch, r: nat, now: int): seq<Entry>
    requires r < |db.runs|
  {
    if kind.Publish? then [Entry(r, Delay(db.runs[r].scheduledAt, now))]
    else if kind.RunningOrphan? && Idempotent(cfg, db, r) then [Entry(r, 0)]
    else []
  }

  function EntriesOf(cfg: Config, db: Db, kind: Batch, ids: seq<nat>, now: int): seq<Entry>
    requires InTable(db.runs, ids)
    decreases |ids|
  {
    if ids == [] then []
    else EntriesOf(cfg, db, kind, ids[..|ids| - 1], now) + EntryOf(cfg, db, kind, ids[|ids| - 1], now)
  }

  function TraceOf(kind: Batch, ids: seq<nat>): (t: seq<Step>)
    ensures |t| == |ids| && forall k :: 0 <= k < |ids| ==> t[k] == StepOf(kind, ids[k])
  {
    seq(|ids|, k requires 0 <= k < |ids| => StepOf(kind, ids[k]))
  }

  /** A batch changes neither the rows it did not pick nor any job's action. */
  lemma {:induction false} BatchFrame(cfg: Config, db: Db, kind: Batch, ids: seq<nat>, now: int)
    requires InTable(db.runs, ids)
    ensures
      var d := RunBatch(cfg, db, kind, ids, now);
      |d.jobs| == |db.jobs| && forall j :: 0 <= j < |db.jobs| ==> d.jobs[j].action == db.jobs[j].action
    decreases |ids|
  {
    if ids != [] { BatchFrame(cfg, db, kind, ids[..|ids| - 1], now); }
  }

  /** t is what a batch makes of s. */
  ghost predicate Batched(cfg: Config, s: Sys, kind: Batch, ids: seq<nat>, t: Sys) {
    InTable(s.db.runs, ids)
    && t.db == RunBatch(cfg, s.db, kind, ids, s.now) && t.now == s.now && t.holders == s.holders
    && t.outgoing == s.outgoing + multiset(EntriesOf(cfg, s.db, kind, ids, s.now))
  }

  ghost predicate Performs(cfg: Config, s: Sys, kind: Batch, ids: seq<nat>) {
    Admits(cfg, s, TraceOf(kind, ids)) && Batched(cfg, s, kind, ids, Exec(cfg, s, TraceOf(kind, ids)))
  }

  /** A batch is a run of single-row steps, and sends what those steps send. */
  lemma {:induction false} BatchIsTrace(cfg: Config, s: Sys, kind: Batch, ids: seq<nat>)
    requires Picked(cfg, s.db, kind, ids, s.now)
    ensures Performs(cfg, s, kind, ids)
    decreases |ids|
  {
    if ids == [] {
      assert TraceOf(kind, ids) == [];
    } else {
      var n := |ids| - 1;
      BatchIsTrace(cfg, s, kind, ids[..n]);
      OneMoreRow(cfg, s, kind, ids);
    }
  }

  lemma OneMoreRow(cfg: Config, s: Sys, kind: Batch, ids: seq<nat>)
    requires Picked(cfg, s.db, kind, ids, s.now) && ids != [] && Performs(cfg, s, kind, ids[..|ids| - 1])
    ensures Performs(cfg, s, kind, ids)
  {
    var t := Exec(cfg, s, TraceOf(kind, ids[..|ids| - 1]));
    var u := NextRow(cfg, s, t, kind, ids);
    TraceGrows(cfg, s, kind, ids, t, u);
  }

  /** The last picked row is still due, so its step can be taken. */
  lemma NextRow(cfg: Config, s: Sys, t: Sys, kind: Batch, ids: seq<nat>) returns (u: Sys)
    requires Picked(cfg, s.db, kind, ids, s.now) && ids != [] && Batched(cfg, s, kind, ids[..|ids| - 1], t)
    ensures Admits(cfg, t, [StepOf(kind, ids[|ids| - 1])]) && u == Exec(cfg, t, [StepOf(kind, ids[|ids| - 1])])
    ensures Batched(cfg, s, kind, ids, u)
  {
    var first, r := ids[..|ids| - 1], ids[|ids| - 1];
    assert Due(cfg, s.db, kind, r, s.now) && r !in first;
    RowUntouched(cfg, s.db, kind, first, r, s.now);
    LastStep(cfg, s, t, kind, r);
    u := Exec(cfg, t, [StepOf(kind, r)]);
    LastRow(cfg, s, kind, ids, t, u);
  }

  lemma TraceGrows(cfg: Config, s: Sys, kind: Batch, ids: seq<nat>, t: Sys, u: Sys)
    requires ids != [] && Admits(cfg, s, TraceOf(kind, ids[..|ids| - 1])) && t == Exec(cfg, s, TraceOf(kind, ids[..|ids| - 1]))
    requires Admits(cfg, t, [StepOf(kind, ids[|ids| - 1])]) && u == Exec(cfg, t, [StepOf(kind, ids[|ids| - 1])])
    ensures Admits(cfg, s, TraceOf(kind, ids)) && Exec(cfg, s, TraceOf(kind, ids)) == u
  {
    TraceSplits(kind, ids);
    ExecConcat(cfg, s, TraceOf(kind, ids[..|ids| - 1]), [StepOf(kind, ids[|ids| - 1])]);
  }

  lemma TraceSplits(kind: Batch, ids: seq<nat>)
    requires ids != []
    ensures TraceOf(kind, ids) == TraceOf(kind, ids[..|ids| - 1]) + [StepOf(kind, ids[|ids| - 1])]
  {
  }

  /** A row that was not picked is as due afterwards as before. */
  lemma RowUntouched(cfg: Config, db: Db, kind: Batch, ids: seq<nat>, r: nat, now: int)
    requires InTable(db.runs, ids) && r !in ids && Due(cfg, db, kind, r, now)
    ensures
      var d := RunBatch(cfg, db, kind, ids, now);
      Due(cfg, d, kind, r, now) && d.runs[r] == db.runs[r]
      && |d.jobs| == |db.jobs| && forall j :: 0 <= j < |db.jobs| ==> d.jobs[j].action == db.jobs[j].action
  {
    BatchFrame(cfg, db, kind, ids, now);
  }

  lemma LastRow(cfg: Config, s: Sys, kind: Batch, ids: seq<nat>, t: Sys, u: Sys)
    requires ids != [] && InTable(s.db.runs, ids) && Batched(cfg, s, kind, ids[..|ids| - 1], t)
    requires u.db == RowOf(cfg, t.db, kind, ids[|ids| - 1], t.now) && u.now == t.now && u.holders == t.holders
    requires u.outgoing == t.outgoing + multiset(EntryOf(cfg, s.db, kind, ids[|ids| - 1], s.now))
    ensures Batched(cfg, s, kind, ids, u)
  {
  }

  /** What the single-row step of the batch does in a state where the row is due. */
  lemma RowStep(cfg: Config, t: Sys, kind: Batch, r: nat)
    requires Due(cfg, t.db, kind, r, t.now)
    ensures Enabled(cfg, t, StepOf(kind, r))
    ensures
      var u := Apply(cfg, t, StepOf(kind, r));
      u.db == RowOf(cfg, t.db, kind, r, t.now) && u.now == t.now && u.holders == t.holders
      && u.outgoing == t.outgoing + multiset(EntryOf(cfg, t.db, kind, r, t.now))
  {
    match kind
    case Publish =>
    case DlqRetrying =>
    case QueuedStuck =>
    case RunningOrphan =>
  }

  lemma SameEntry(cfg: Config, db: Db, d: Db, kind: Batch, r: nat, now: int)
    requires r < |db.runs| && r < |d.runs| && d.runs[r] == db.runs[r] && |d.jobs| == |db.jobs|
    requires forall j :: 0 <= j < |db.jobs| ==> d.jobs[j].action == db.jobs[j].action
    ensures EntryOf(cfg, d, kind, r, now) == EntryOf(cfg, db, kind, r, now)
  {
  }

  lemma LastStep(cfg: Config, s: Sys, t: Sys, kind: Batch, r: nat)
    requires Due(cfg, t.db, kind, r, t.now) && r < |s.db.runs| && t.now == s.now
    requires r < |t.db.runs| && t.db.runs[r] == s.db.runs[r] && |t.db.jobs| == |s.db.jobs|
    requires forall j :: 0 <= j < |s.db.jobs| ==> t.db.jobs[j].action == s.db.jobs[j].action
    ensures Admits(cfg, t, [StepOf(kind, r)])
    ensures
      var u := Exec(cfg, t, [StepOf(kind, r)]);
      u.db == RowOf(cfg, t.db, kind, r, t.now) && u.now == t.now && u.holders == t.holders
      && u.outgoing == t.outgoing + multiset(EntryOf(cfg, s.db, kind, r, s.now))
  {
    RowStep(cfg, t, kind, r);
    SameEntry(cfg, s.db, t.db, kind, r, s.now);
    Single(cfg, t, StepOf(kind, r));
  }

  // ---------------------------------------------------------------- two passes

  /** The bulk UPDATE of the watcher and of sweep A. */
  function BulkRow(run: Run, kind: Batch, now: int): Run {
    run.(status := if kind.Publish? then Queued else Failed, updatedAt := now)
  }

  function BulkRows(runs: seq<Run>, kind: Batch, ids: seq<nat>, now: int): (r: seq<Run>)
    requires InTable(runs, ids)
    ensures |r| == |runs|
    ensures forall q :: 0 <= q < |runs| && q !in ids ==> r[q] == runs[q]
    decreases |ids|
  {
    if ids == [] then runs
    else
      var rest := BulkRows(runs, kind, ids[..|ids| - 1], now);
      rest[ids[|ids| - 1] := BulkRow(rest[ids[|ids| - 1]], kind, now)]
  }

  function BulkEvent(runs: seq<Run>, kind: Batch, r: nat, now: int): Event
    requires r < |runs|
  {
    if kind.Publish? then Event(r, runs[r].job, Enqueued, Some(Pending), Some(Queued), now, false)
    else Event(r, runs[r].job, Ended(Failed), Some(Retrying), Some(Failed), now, false)
  }

  function BulkEvents(runs: seq<Run>, kind: Batch, ids: seq<nat>, now: int): seq<Event>
    requires InTable(runs, ids)
    decreases |ids|
  {
    if ids == [] then []
    else BulkEvents(runs, kind, ids[..|ids| - 1], now) + [BulkEvent(runs, kind, ids[|ids| - 1], now)]
  }

  /** Writing all rows first and all events afterwards is the same transaction. */
  lemma {:induction false} TwoPasses(cfg: Config, db: Db, kind: Batch, ids: seq<nat>, now: int)
    requires kind.Publish? || kind.DlqRetrying?
    requires Picked(cfg, db, kind, ids, now) && InTable(db.runs, ids)
    ensures RunBatch(cfg, db, kind, ids, now)
      == Db(db.jobs, BulkRows(db.runs, kind, ids, now), db.events + BulkEvents(db.runs, kind, ids, now))
    decreases |ids|
  {
    if ids == [] {
    } else {
      var n := |ids| - 1;
      TwoPasses(cfg, db, kind, ids[..n], now);
      assert ids[n] !in ids[..n] && Due(cfg, db, kind, ids[n], now);
      var d := RunBatch(cfg, db, kind, ids[..n], now);
      assert d.runs[ids[n]] == db.runs[ids[n]];
    }
  }
}
