/** Why visiting the downstreams one after another, in any order, computes the closed form of the
    settle cascade. */
module Cascade {
  import opened Tables
  import opened Settle

  /** x is c itself or released through c, and c is free. */
  ghost predicate Under(jobs: seq<Job>, runs: seq<Run>, c: nat, x: nat)
    requires c < |jobs| && x < |jobs|
  {
    Free(jobs, runs, c) && (x == c || Released(jobs, runs, c, x))
  }

  ghost predicate AreChildren(jobs: seq<Job>, p: nat, ids: seq<nat>) {
    (forall k :: 0 <= k < |ids| ==> IsChild(jobs, p, ids[k]))
    && (forall i, k :: 0 <= i < k < |ids| ==> ids[i] != ids[k])
  }

  ghost function Done(jobs: seq<Job>, runs: seq<Run>, ids: seq<nat>): set<nat>
    requires forall k :: 0 <= k < |ids| ==> ids[k] < |jobs|
  {
    set x: nat | x < |jobs| && UnderAny(jobs, runs, ids, x)
  }

  ghost predicate UnderAny(jobs: seq<Job>, runs: seq<Run>, ids: seq<nat>, x: nat)
    requires x < |jobs| && forall k :: 0 <= k < |ids| ==> ids[k] < |jobs|
  {
    exists k :: 0 <= k < |ids| && Under(jobs, runs, ids[k], x)
  }

  lemma {:induction false} ReleasedIsBelow(jobs: seq<Job>, runs: seq<Run>, c: nat, x: nat)
    requires Forest(jobs) && x < |jobs| && Released(jobs, runs, c, x)
    ensures c < x
    decreases x
  {
    if jobs[x].trigger.value.parent != c { ReleasedIsBelow(jobs, runs, c, jobs[x].trigger.value.parent); }
  }

  /** Two siblings have disjoint subtrees. */
  lemma {:induction false} SiblingsDisjoint(jobs: seq<Job>, runs: seq<Run>, p: nat, c: nat, d: nat, x: nat)
    requires Forest(jobs) && IsChild(jobs, p, c) && IsChild(jobs, p, d) && c != d && x < |jobs|
    ensures !(Under(jobs, runs, c, x) && Under(jobs, runs, d, x))
    decreases x
  {
    if Under(jobs, runs, c, x) && Under(jobs, runs, d, x) {
      var q := jobs[x].trigger.value.parent;
      if x == c {
        BelowParent(jobs, runs, d, c);
      } else if x == d {
        BelowParent(jobs, runs, c, d);
      } else if q == c {
        SiblingsDisjoint(jobs, runs, p, c, d, c);
      } else if q == d {
        SiblingsDisjoint(jobs, runs, p, c, d, d);
      } else {
        SiblingsDisjoint(jobs, runs, p, c, d, q);
      }
    }
  }

  /** A job released through d has its parent at d or below it. */
  lemma BelowParent(jobs: seq<Job>, runs: seq<Run>, d: nat, x: nat)
    requires Forest(jobs) && x < |jobs| && Released(jobs, runs, d, x)
    ensures jobs[x].trigger.value.parent >= d
  {
    if jobs[x].trigger.value.parent != d { ReleasedIsBelow(jobs, runs, d, jobs[x].trigger.value.parent); }
  }

  /** Settling jobs outside c's released subtree does not change that subtree. */
  lemma {:induction false} ReleasedFrame(jobs: seq<Job>, jobs2: seq<Job>, runs: seq<Run>, c: nat, x: nat)
    requires |jobs| == |jobs2| && x < |jobs|
    requires forall y :: 0 <= y < |jobs| ==> jobs2[y].trigger == jobs[y].trigger && (Free(jobs2, runs, y) ==> Free(jobs, runs, y))
    requires forall y :: 0 <= y < |jobs| && Released(jobs, runs, c, y) ==> Free(jobs2, runs, y)
    ensures Released(jobs2, runs, c, x) == Released(jobs, runs, c, x)
    decreases x
  {
    if jobs[x].trigger.Some? && jobs[x].trigger.value.parent < x {
      ReleasedFrame(jobs, jobs2, runs, c, jobs[x].trigger.value.parent);
    }
  }

  /** One more downstream: settle_check on it adds exactly its own released subtree. */
  lemma CascadeStep(jobs: seq<Job>, runs: seq<Run>, p: nat, ids: seq<nat>, k: nat)
    requires Forest(jobs) && p < |jobs| && !jobs[p].state.Active? && AreChildren(jobs, p, ids) && k < |ids|
    ensures SettleCheck(Mark(jobs, Done(jobs, runs, ids[..k])), runs, ids[k]) == Mark(jobs, Done(jobs, runs, ids[..k + 1]))
  {
    assert IsChild(jobs, p, ids[k]);
    UntouchedSoFar(jobs, runs, p, ids, k);
    DoneGrows(jobs, runs, ids, k);
    NotYet(jobs, runs, p, ids, k);
    SettleOneChild(jobs, runs, p, ids[k], Done(jobs, runs, ids[..k]));
  }

  lemma UntouchedSoFar(jobs: seq<Job>, runs: seq<Run>, p: nat, ids: seq<nat>, k: nat)
    requires Forest(jobs) && AreChildren(jobs, p, ids) && k < |ids| && IsChild(jobs, p, ids[k])
    ensures forall x: nat :: x < |jobs| && Under(jobs, runs, ids[k], x) ==> x !in Done(jobs, runs, ids[..k])
  {
    forall x: nat | x < |jobs| && Under(jobs, runs, ids[k], x) ensures x !in Done(jobs, runs, ids[..k]) {
      if x in Done(jobs, runs, ids[..k]) {
        var i: nat :| i < k && Under(jobs, runs, ids[..k][i], x);
        SiblingsDisjoint(jobs, runs, p, ids[i], ids[k], x);
      }
    }
  }

  lemma SettleOneChild(jobs: seq<Job>, runs: seq<Run>, p: nat, c: nat, done: set<nat>)
    requires Forest(jobs) && p < |jobs| && !jobs[p].state.Active? && IsChild(jobs, p, c) && c !in done
    requires forall x: nat :: x < |jobs| && Under(jobs, runs, c, x) ==> x !in done
    ensures SettleCheck(Mark(jobs, done), runs, c) == Mark(jobs, done + set x: nat | x < |jobs| && Under(jobs, runs, c, x))
  {
    if Free(jobs, runs, c) {
      var settled := Mark(jobs, done)[c := jobs[c].(state := Completed)];
      forall x: nat | x < |jobs| ensures Released(settled, runs, c, x) == Released(jobs, runs, c, x) {
        CascadeFrame(jobs, settled, runs, c, done, x);
      }
      assert SettleCheck(Mark(jobs, done), runs, c) == SettleDown(settled, runs, c);
    }
  }

  lemma CascadeFrame(jobs: seq<Job>, settled: seq<Job>, runs: seq<Run>, c: nat, done: set<nat>, x: nat)
    requires Forest(jobs) && c < |jobs| && x < |jobs| && Free(jobs, runs, c)
    requires settled == Mark(jobs, done)[c := jobs[c].(state := Completed)]
    requires forall y: nat :: y < |jobs| && Under(jobs, runs, c, y) ==> y !in done
    ensures Released(settled, runs, c, x) == Released(jobs, runs, c, x)
  {
    forall y: nat | y < |jobs| && Released(jobs, runs, c, y) ensures Free(settled, runs, y) {
      ReleasedIsBelow(jobs, runs, c, y);
      assert Under(jobs, runs, c, y);
    }
    ReleasedFrame(jobs, settled, runs, c, x);
  }

  lemma DoneGrows(jobs: seq<Job>, runs: seq<Run>, ids: seq<nat>, k: nat)
    requires k < |ids| && forall i :: 0 <= i < |ids| ==> ids[i] < |jobs|
    ensures Done(jobs, runs, ids[..k + 1]) == Done(jobs, runs, ids[..k]) + set x: nat | x < |jobs| && Under(jobs, runs, ids[k], x)
  {
    var a, b := ids[..k], ids[..k + 1];
    forall x: nat | x < |jobs|
      ensures UnderAny(jobs, runs, b, x) <==> UnderAny(jobs, runs, a, x) || Under(jobs, runs, ids[k], x)
    {
      if i: nat :| i < |a| && Under(jobs, runs, a[i], x) { assert Under(jobs, runs, b[i], x); }
      if i: nat :| i < |b| && Under(jobs, runs, b[i], x) { if i < k { assert Under(jobs, runs, a[i], x); } }
      if Under(jobs, runs, ids[k], x) { assert Under(jobs, runs, b[k], x); }
    }
  }

  /** The next downstream itself has not been settled through an earlier sibling. */
  lemma NotYet(jobs: seq<Job>, runs: seq<Run>, p: nat, ids: seq<nat>, k: nat)
    requires Forest(jobs) && AreChildren(jobs, p, ids) && k < |ids|
    ensures ids[k] !in Done(jobs, runs, ids[..k])
  {
    if ids[k] in Done(jobs, runs, ids[..k]) {
      var i: nat :| i < k && Under(jobs, runs, ids[..k][i], ids[k]);
      BelowParent(jobs, runs, ids[i], ids[k]);
    }
  }

  lemma {:induction false} ReleasedThroughChild(jobs: seq<Job>, runs: seq<Run>, p: nat, ids: seq<nat>, x: nat)
    requires Forest(jobs) && AreChildren(jobs, p, ids) && x < |jobs|
    requires forall c: nat :: IsChild(jobs, p, c) ==> c in ids
    ensures Released(jobs, runs, p, x) <==> UnderAny(jobs, runs, ids, x)
    decreases x
  {
    assert IsChild(jobs, p, x) ==> x in ids;
    forall k | 0 <= k < |ids| ensures ids[k] == x ==> IsChild(jobs, p, x) { assert IsChild(jobs, p, ids[k]); }
    if k: nat :| k < |ids| && ids[k] == x {
      if Released(jobs, runs, p, x) { assert Under(jobs, runs, ids[k], x); }
    }
    if jobs[x].trigger.Some? {
      var q := jobs[x].trigger.value.parent;
      ReleasedThroughChild(jobs, runs, p, ids, q);
      if Released(jobs, runs, p, x) && q != p {
        var k: nat :| k < |ids| && Under(jobs, runs, ids[k], q);
        assert Under(jobs, runs, ids[k], x);
      }
      if k: nat :| k < |ids| && Under(jobs, runs, ids[k], x) && ids[k] != x {
        assert q != ids[k] ==> Released(jobs, runs, ids[k], q);
        assert IsChild(jobs, p, ids[k]) && Free(jobs, runs, ids[k]) && Under(jobs, runs, ids[k], q);
      }
    }
  }

  /** After all downstreams the cascade has settled exactly the released set. */
  lemma CascadeDone(jobs: seq<Job>, runs: seq<Run>, p: nat, ids: seq<nat>)
    requires Forest(jobs) && AreChildren(jobs, p, ids)
    requires forall c: nat :: IsChild(jobs, p, c) ==> c in ids
    ensures Mark(jobs, Done(jobs, runs, ids)) == SettleDown(jobs, runs, p)
  {
    forall x: nat | x < |jobs| ensures x in Done(jobs, runs, ids) <==> Released(jobs, runs, p, x) {
      ReleasedThroughChild(jobs, runs, p, ids, x);
    }
  }
}
