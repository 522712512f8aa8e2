/** What one status transition (an updated run row plus its outbox event) does to the invariant. */
module Moves {
  import opened Tables
  import opened Steps
  import opened Invariant

  /** run may replace row r under an event of the given kind. */
  ghost predicate CanMove(db: Db, r: nat, run: Run, kind: Kind) {
    r < |db.runs| && db.runs[r].job < |db.jobs|
    && run == db.runs[r].(status := run.status, startAt := run.startAt, heartbeatAt := run.heartbeatAt, updatedAt := run.updatedAt)
    && Edge(Some(db.runs[r].status), run.status, kind)
    && (run.status.Cancelled? ==> db.jobs[run.job].state.Stopped?)
  }

  lemma LogAppend(events: seq<Event>, e: Event, r: nat)
    ensures LogStatus(events + [e], r) == if e.run == r && e.to.Some? then e.to else LogStatus(events, r)
  {
    assert (events + [e])[..|events|] == events;
  }

  lemma PendingGrows(events: seq<Event>, e: Event, j: nat)
    ensures HasPending(events, j) ==> HasPending(events + [e], j)
    ensures IsPending(e, j) ==> HasPending(events + [e], j)
  {
    if i :| 0 <= i < |events| && IsPending(events[i], j) {
      assert IsPending((events + [e])[i], j);
    }
    assert (events + [e])[|events|] == e;
  }

  lemma MoveRuns(db: Db, r: nat, run: Run, kind: Kind, now: int)
    requires RunsOk(db) && CanMove(db, r, run, kind)
    ensures RunsOk(Transition(db, r, run, kind, now))
  {
    var d := Transition(db, r, run, kind, now);
    forall q: nat | q < |d.runs| ensures RunOk(d, q) {
      assert RunOk(db, q);
    }
  }

  lemma MoveSerial(db: Db, r: nat, run: Run, kind: Kind, now: int)
    requires RunsOk(db) && Serial(db) && CanMove(db, r, run, kind)
    ensures RunsOk(Transition(db, r, run, kind, now)) && Serial(Transition(db, r, run, kind, now))
  {
    MoveRuns(db, r, run, kind, now);
    var d := Transition(db, r, run, kind, now);
    forall a: nat, b: nat | a < b < |d.runs| ensures RunOk(d, a) && InOrder(d, a, b) {
      assert RunOk(d, a) && RunOk(db, a) && InOrder(db, a, b);
    }
  }

  lemma MoveEvents(db: Db, r: nat, run: Run, kind: Kind, now: int)
    requires EventsOk(db) && LogOk(db) && CanMove(db, r, run, kind)
    ensures EventsOk(Transition(db, r, run, kind, now))
  {
    var d := Transition(db, r, run, kind, now);
    forall i: nat | i < |d.events| ensures EventOk(d, i) {
      if i < |db.events| {
        assert EventOk(db, i) && d.events[..i] == db.events[..i];
      } else {
        assert d.events[..i] == db.events;
      }
    }
  }

  lemma MoveLog(db: Db, r: nat, run: Run, kind: Kind, now: int)
    requires LogOk(db) && CanMove(db, r, run, kind)
    ensures LogOk(Transition(db, r, run, kind, now))
  {
    var d := Transition(db, r, run, kind, now);
    forall q: nat | q < |d.runs| ensures LogStatus(d.events, q) == Some(d.runs[q].status) {
      LogAppend(db.events, d.events[|db.events|], q);
    }
  }

  lemma MoveOneEnd(db: Db, r: nat, run: Run, kind: Kind, now: int)
    requires EventsOk(db) && OneEnd(db) && CanMove(db, r, run, kind)
    ensures OneEnd(Transition(db, r, run, kind, now))
  {
    forall i: nat | i < |db.events| && db.events[i].kind.Ended? ensures db.events[i].run != r {
      assert EventOk(db, i);
    }
  }

  /** A move can only take away the executing run of its own job, and then it logs a terminal event. */
  lemma MoveLifecycle(db: Db, r: nat, run: Run, kind: Kind, now: int, exempt: set<nat>)
    requires Lifecycle(db, exempt) && CanMove(db, r, run, kind)
    ensures Lifecycle(Transition(db, r, run, kind, now), exempt)
  {
    var d := Transition(db, r, run, kind, now);
    var e := d.events[|db.events|];
    forall j: nat | j < |d.jobs| && j !in exempt ensures NotStranded(d, j) && NotDry(d, j) {
      assert NotStranded(db, j) && NotDry(db, j);
      PendingGrows(db.events, e, j);
      if d.jobs[j].trigger.Some? {
        PendingGrows(db.events, e, d.jobs[j].trigger.value.parent);
      }
      if q: nat :| q < |db.runs| && db.runs[q].job == j && Executing(db.runs[q].status) {
        assert d.runs[q].job == j;
        assert Executing(d.runs[q].status) || IsPending(e, j);
      }
    }
  }

  /** Successor facts depend only on columns no later step changes. */
  lemma SuccessorKept(cfg: Config, db: Db, d: Db, i: nat, q: nat)
    requires i < |db.events| <= |d.events| && q < |db.runs| <= |d.runs| && |db.jobs| <= |d.jobs|
    requires IsSuccessor(cfg, db, i, q)
    requires d.events[i] == db.events[i].(processed := d.events[i].processed)
    requires d.jobs[db.events[i].job].cron == db.jobs[db.events[i].job].cron
    requires forall r :: 0 <= r < |db.runs| ==>
      d.runs[r].job == db.runs[r].job && d.runs[r].cause == db.runs[r].cause && d.runs[r].scheduledAt == db.runs[r].scheduledAt
    ensures IsSuccessor(cfg, d, i, q)
  {
  }

  lemma MoveTicks(cfg: Config, db: Db, r: nat, run: Run, kind: Kind, now: int, open: int)
    requires RunsOk(db) && Serial(db) && Ticks(cfg, db, open) && CanMove(db, r, run, kind)
    ensures Ticks(cfg, Transition(db, r, run, kind, now), open)
  {
    var d := Transition(db, r, run, kind, now);
    forall i: nat | i < |d.events| && i != open ensures EndOk(cfg, d, i) {
      if i < |db.events| {
        assert EndOk(cfg, db, i);
        if q: nat :| q < |db.runs| && IsSuccessor(cfg, db, i, q) {
          assert IsSuccessor(cfg, d, i, q);
        }
      } else {
        forall q: nat | r < q < |d.runs| ensures d.runs[q].job != run.job {
          assert RunOk(db, r) && InOrder(db, r, q);
        }
      }
    }
    forall q: nat | q < |d.runs| ensures TickOk(cfg, d, q) {
      assert TickOk(cfg, db, q);
      if i: nat :| i < |db.events| && IsSuccessor(cfg, db, i, q)
                   && (forall x :: db.events[i].run < x < q ==> db.runs[x].job != db.runs[q].job) {
        SuccessorKept(cfg, db, d, i, q);
      }
    }
  }

  lemma MoveKeeps(cfg: Config, db: Db, r: nat, run: Run, kind: Kind, now: int, exempt: set<nat>, open: int)
    requires Mid(cfg, db, exempt, open) && CanMove(db, r, run, kind)
    ensures Mid(cfg, Transition(db, r, run, kind, now), exempt, open)
  {
    MoveSerial(db, r, run, kind, now);
    MoveEvents(db, r, run, kind, now);
    MoveLog(db, r, run, kind, now);
    MoveOneEnd(db, r, run, kind, now);
    MoveLifecycle(db, r, run, kind, now, exempt);
    MoveTicks(cfg, db, r, run, kind, now, open);
  }
}
