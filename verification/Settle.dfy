/** Closed form of the settle cascade of app/domain/jobs.py: which jobs one settle_check call
    moves from active to completed, stated without recursion over the visit order. */
module Settle {
  import opened Tables

  predicate ParentActive(jobs: seq<Job>, j: nat)
    requires j < |jobs|
  {
    jobs[j].trigger.Some? && jobs[j].trigger.value.parent < |jobs|
    && jobs[jobs[j].trigger.value.parent].state.Active?
  }

  /** Active, not recurring, and no executing run. */
  predicate Free(jobs: seq<Job>, runs: seq<Run>, j: nat)
    requires j < |jobs|
  {
    jobs[j].state.Active? && jobs[j].cron.None? && !HasExecuting(runs, j)
  }

  /** Nothing can give job j another run: settle_check's condition. */
  predicate Exhausted(jobs: seq<Job>, runs: seq<Run>, j: nat)
    requires j < |jobs|
  {
    Free(jobs, runs, j) && !ParentActive(jobs, j)
  }

  /** x lies below p and every job strictly below p on the way down to x, x included, is free. */
  ghost predicate Released(jobs: seq<Job>, runs: seq<Run>, p: nat, x: nat)
    requires x < |jobs|
    decreases x
  {
    jobs[x].trigger.Some? && Free(jobs, runs, x)
    && (jobs[x].trigger.value.parent == p
        || (jobs[x].trigger.value.parent < x && Released(jobs, runs, p, jobs[x].trigger.value.parent)))
  }

  ghost function ReleasedSet(jobs: seq<Job>, runs: seq<Run>, p: nat): set<nat> {
    set x: nat | x < |jobs| && Released(jobs, runs, p, x)
  }

  ghost function Mark(jobs: seq<Job>, done: set<nat>): (r: seq<Job>)
    ensures |r| == |jobs|
    ensures forall x :: 0 <= x < |jobs| ==> r[x] == if x in done then jobs[x].(state := Completed) else jobs[x]
  {
    seq(|jobs|, x requires 0 <= x < |jobs| => if x in done then jobs[x].(state := Completed) else jobs[x])
  }

  /** What _settle_downstreams(p) leaves behind once p is no longer active. */
  ghost function SettleDown(jobs: seq<Job>, runs: seq<Run>, p: nat): (r: seq<Job>)
    ensures |r| == |jobs|
  {
    Mark(jobs, ReleasedSet(jobs, runs, p))
  }

  /** What settle_check(j) leaves behind. */
  ghost function SettleCheck(jobs: seq<Job>, runs: seq<Run>, j: nat): (r: seq<Job>)
    ensures |r| == |jobs|
  {
    if j < |jobs| && Exhausted(jobs, runs, j)
    then SettleDown(jobs[j := jobs[j].(state := Completed)], runs, j)
    else jobs
  }

  /** settle_job: the executor's self-settle of a one-shot root, without a cascade. */
  function SettleSelf(jobs: seq<Job>, j: nat): (r: seq<Job>)
    ensures |r| == |jobs|
  {
    if j < |jobs| && jobs[j].state.Active? && jobs[j].cron.None? && jobs[j].trigger.None?
    then jobs[j := jobs[j].(state := Completed)]
    else jobs
  }

  /** jobs2 differs from jobs only in lifecycle columns. */
  ghost predicate SameShape(jobs: seq<Job>, jobs2: seq<Job>) {
    |jobs| == |jobs2|
    && forall j :: 0 <= j < |jobs| ==>
      jobs2[j] == jobs[j].(state := jobs2[j].state, cancelledAt := jobs2[j].cancelledAt)
  }

  /** jobs2 moves some free jobs of jobs to completed and changes nothing else. */
  ghost predicate Settles(jobs: seq<Job>, runs: seq<Run>, jobs2: seq<Job>) {
    |jobs| == |jobs2|
    && forall j :: 0 <= j < |jobs| ==>
      jobs2[j] == jobs[j] || (Free(jobs, runs, j) && !ParentActive(jobs2, j) && jobs2[j] == jobs[j].(state := Completed))
  }

  lemma SettleDownSettles(jobs: seq<Job>, runs: seq<Run>, p: nat)
    requires Forest(jobs) && p < |jobs| && !jobs[p].state.Active?
    ensures Settles(jobs, runs, SettleDown(jobs, runs, p))
    ensures forall x :: 0 <= x < |jobs| && Exhausted(SettleDown(jobs, runs, p), runs, x) ==>
      Exhausted(jobs, runs, x) && (jobs[x].trigger.Some? ==> jobs[x].trigger.value.parent != p)
  {
  }

  lemma SettleCheckSettles(jobs: seq<Job>, runs: seq<Run>, j: nat)
    requires Forest(jobs)
    ensures Settles(jobs, runs, SettleCheck(jobs, runs, j))
    ensures forall x :: 0 <= x < |jobs| && Exhausted(SettleCheck(jobs, runs, j), runs, x) ==>
      Exhausted(jobs, runs, x) && x != j
  {
    if j < |jobs| && Exhausted(jobs, runs, j) {
      SettleDownSettles(jobs[j := jobs[j].(state := Completed)], runs, j);
    }
  }
}
