/** poll_once of app/workers/recurring_watcher.py: one consumer tick over the oldest unprocessed
    terminal events, in event order. */
module Polling {
  import opened Tables
  import opened Steps
  import opened Invariant
  import opened Changes
  import opened Preserve
  import opened History
  import opened Theorems
  import opened Store

  /** ids are the first rows a select of the unprocessed terminal events, in id order, returns. */
  ghost predicate Oldest(events: seq<Event>, ids: seq<nat>) {
    (forall k :: 0 <= k < |ids| ==> ids[k] < |events| && Waiting(events[ids[k]]))
    && (forall i, k :: 0 <= i < k < |ids| ==> ids[i] < ids[k])
    && (forall x, k :: 0 <= k < |ids| && 0 <= x < ids[k] && Waiting(events[x]) ==> x in ids)
  }

  /** ids are all the waiting events before n. */
  ghost predicate AllBelow(events: seq<Event>, ids: seq<nat>, n: nat) {
    n <= |events|
    && (forall k :: 0 <= k < |ids| ==> ids[k] < n)
    && (forall x :: 0 <= x < n && Waiting(events[x]) ==> x in ids)
  }

  lemma OldestGrows(events: seq<Event>, ids: seq<nat>, i: nat)
    requires Oldest(events, ids) && AllBelow(events, ids, i) && i < |events| && Waiting(events[i])
    ensures Oldest(events, ids + [i]) && AllBelow(events, ids + [i], i + 1)
  {
  }

  function Min(a: nat, b: nat): nat {
    if a < b then a else b
  }

  /** SELECT ... ORDER BY event_id LIMIT batch. */
  method SelectWaiting(events: seq<Event>, batch: nat) returns (ids: seq<nat>)
    ensures Oldest(events, ids) && |ids| == Min(batch, PendingCount(events))
  {
    ids := [];
    assert events[..0] == [];
    for i := 0 to |events|
      invariant Oldest(events, ids) && |ids| == Min(batch, PendingCount(events[..i]))
      invariant |ids| < batch ==> AllBelow(events, ids, i)
    {
      assert events[..i + 1][..i] == events[..i];
      if Waiting(events[i]) && |ids| < batch {
        OldestGrows(events, ids, i);
        ids := ids + [i];
      }
    }
    assert events[..|events|] == events;
  }

  /** The tables alone, at a fixed time. */
  ghost function Lift(db: Db, now: int): Sys {
    Sys(db, multiset{}, multiset{}, map[], now)
  }

  /** trace takes the events ids through the consumer, one after another, from db to d. */
  ghost predicate Handles(cfg: Config, db: Db, ids: seq<nat>, trace: seq<Step>, now: int, d: Db) {
    Takes(ids, trace) && Admits(cfg, Lift(db, now), trace) && Exec(cfg, Lift(db, now), trace) == Lift(d, now)
  }

  ghost predicate Takes(ids: seq<nat>, trace: seq<Step>) {
    |trace| == |ids| && forall k :: 0 <= k < |ids| ==> trace[k].Process? && trace[k].event == ids[k]
  }

  lemma TakesGrows(ids: seq<nat>, trace: seq<Step>, k: nat, order: seq<nat>)
    requires k < |ids| && Takes(ids[..k], trace)
    ensures Takes(ids[..k + 1], trace + [Process(ids[k], order)])
  {
    var more := trace + [Process(ids[k], order)];
    forall i | 0 <= i < k + 1 ensures more[i].Process? && more[i].event == ids[..k + 1][i] {
      if i < k { assert more[i] == trace[i] && trace[i].event == ids[..k][i]; }
    }
  }

  /** Processing event i stamps it and leaves every other earlier event alone. */
  lemma ContinueStampsOne(cfg: Config, db: Db, i: nat, order: seq<nat>, now: int)
    requires Terminal(db, i) && Offering(db, db.events[i], order)
    ensures
      var d := Continue(cfg, db, i, order, now);
      |db.events| <= |d.events| && forall q :: 0 <= q < |db.events| && q != i ==> d.events[q] == db.events[q]
  {
    FiredEvolves(cfg, db, db.events[i], order, now);
  }

  lemma HandleOne(cfg: Config, db: Db, ids: seq<nat>, trace: seq<Step>, k: nat, order: seq<nat>, now: int, d: Db)
    requires k < |ids| && Handles(cfg, db, ids[..k], trace, now, d) && Terminal(d, ids[k]) && Offering(d, d.events[ids[k]], order)
    ensures Handles(cfg, db, ids[..k + 1], trace + [Process(ids[k], order)], now, Continue(cfg, d, ids[k], order, now))
  {
    TakesGrows(ids, trace, k, order);
    OneProcess(cfg, d, ids[k], order, now);
    TraceGrows(cfg, Lift(db, now), trace, Process(ids[k], order), Lift(d, now), Lift(Continue(cfg, d, ids[k], order, now), now));
  }

  lemma OneProcess(cfg: Config, d: Db, i: nat, order: seq<nat>, now: int)
    requires Terminal(d, i) && Offering(d, d.events[i], order)
    ensures Enabled(cfg, Lift(d, now), Process(i, order))
    ensures Apply(cfg, Lift(d, now), Process(i, order)) == Lift(Continue(cfg, d, i, order, now), now)
  {
  }

  lemma TraceGrows(cfg: Config, s: Sys, trace: seq<Step>, step: Step, t: Sys, u: Sys)
    requires Admits(cfg, s, trace) && Exec(cfg, s, trace) == t && Enabled(cfg, t, step) && Apply(cfg, t, step) == u
    ensures Admits(cfg, s, trace + [step]) && Exec(cfg, s, trace + [step]) == u
  {
    Single(cfg, t, step);
    ExecConcat(cfg, s, trace, [step]);
  }

  /** A waiting event of a sound table can be processed. */
  lemma WaitingIsTerminal(cfg: Config, db: Db, i: nat)
    requires DbInv(cfg, db) && i < |db.events| && Waiting(db.events[i])
    ensures Terminal(db, i)
  {
    assert EventOk(db, i) && RunOk(db, db.events[i].run);
  }

  /** One tick takes the oldest waiting events, at most a batch of them, through the consumer one
      after another. It handles exactly min(batch, backlog) of them and the backlog shrinks by that
      number, so a tick that is not full leaves nothing pending. */
  method PollOnce(store: Database, cfg: Config, batch: nat, now: int) returns (n: nat, ghost ids: seq<nat>, ghost trace: seq<Step>)
    requires ValidConfig(cfg) && DbInv(cfg, store.Snapshot())
    modifies store
    ensures DbInv(cfg, store.Snapshot())
    ensures Oldest(old(store.events), ids) && Handles(cfg, old(store.Snapshot()), ids, trace, now, store.Snapshot())
    ensures n == |ids| == Min(batch, PendingCount(old(store.events)))
    ensures PendingCount(store.events) == PendingCount(old(store.events)) - n
    ensures n < batch ==> Quiescent(store.Snapshot())
  {
    ghost var before := store.Snapshot();
    var picked := SelectWaiting(store.events, batch);
    trace := [];
    for k := 0 to |picked|
      invariant DbInv(cfg, store.Snapshot()) && Handles(cfg, before, picked[..k], trace, now, store.Snapshot())
      invariant |before.events| <= |store.events| && PendingCount(store.events) == PendingCount(before.events) - k
      invariant forall i :: k <= i < |picked| ==> store.events[picked[i]] == before.events[picked[i]]
    {
      ghost var d := store.Snapshot();
      WaitingIsTerminal(cfg, d, picked[k]);
      ForestOf(d);
      var order := store.ProcessEvent(cfg, picked[k], now);
      ContinueStampsOne(cfg, d, picked[k], order, now);
      ContinueCount(cfg, d, picked[k], order, now);
      ContinueKeeps(cfg, d, picked[k], order, now);
      HandleOne(cfg, before, picked, trace, k, order, now, d);
      trace := trace + [Process(picked[k], order)];
    }
    n, ids := |picked|, picked;
    assert picked[..|picked|] == picked;
    if n < batch {
      forall j: nat | j < |store.jobs| ensures !HasPending(store.events, j) { CountZero(store.events, j); }
    }
  }
}
