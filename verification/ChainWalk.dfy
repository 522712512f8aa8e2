/** app/domain/chain_validation.py: the depth-capped recursive ancestor walk and rules V1-V5. */
module ChainWalk {
  import opened Tables

  const MAX_CHAIN_DEPTH := 10

  datatype ChainError = JobNotFound | JobTerminated | Cycle | Depth

  datatype WalkResult = WalkResult(maxDepth: nat, hasCycle: bool)

  /** The trigger parent row, when there is one. */
  function Parent(jobs: seq<Job>, j: nat): (p: Option<nat>)
    requires j < |jobs|
    ensures p.Some? ==> p.value < |jobs|
  {
    if jobs[j].trigger.Some? && jobs[j].trigger.value.parent < |jobs|
    then Some(jobs[j].trigger.value.parent) else None
  }

  /** The rows of the recursive query from the row (cur, depth, path) on: their maximal depth and
      whether one of them repeats the path. */
  function Walk(jobs: seq<Job>, cur: nat, depth: nat, path: seq<nat>): WalkResult
    requires cur < |jobs|
    decreases MAX_CHAIN_DEPTH + 2 - depth
  {
    if Parent(jobs, cur).None? || depth >= MAX_CHAIN_DEPTH + 2 then WalkResult(depth, false)
    else if Parent(jobs, cur).value in path then WalkResult(depth + 1, true)
    else Walk(jobs, Parent(jobs, cur).value, depth + 1, path + [Parent(jobs, cur).value])
  }

  /** validate_chain: the first rule of V1-V5 that fails, if any. */
  function ValidateChain(jobs: seq<Job>, owner: string, trigger: nat): Option<ChainError> {
    if trigger >= |jobs| || jobs[trigger].owner != owner then Some(JobNotFound)
    else if !jobs[trigger].state.Active? then Some(JobTerminated)
    else
      var row := Walk(jobs, trigger, 1, [trigger]);
      if row.hasCycle then Some(Cycle)
      else if row.maxDepth >= MAX_CHAIN_DEPTH then Some(Depth)
      else None
  }

  /** chain is the full ancestry of its first job: each next one is the trigger parent, and the
      last has none. */
  ghost predicate Ancestry(jobs: seq<Job>, chain: seq<nat>) {
    Climb(jobs, chain) && Parent(jobs, chain[|chain| - 1]).None?
  }

  ghost predicate Climb(jobs: seq<Job>, chain: seq<nat>) {
    |chain| > 0
    && (forall i :: 0 <= i < |chain| ==> chain[i] < |jobs|)
    && (forall i :: 0 <= i < |chain| - 1 ==> Parent(jobs, chain[i]) == Some(chain[i + 1]))
  }

  /** An ancestry that ends never visits a job twice. */
  lemma {:induction false} AncestryDistinct(jobs: seq<Job>, chain: seq<nat>, i: nat, k: nat)
    requires Ancestry(jobs, chain) && i < k < |chain|
    ensures chain[i] != chain[k]
    decreases |chain| - k
  {
    assert Parent(jobs, chain[i]) == Some(chain[i + 1]);
    if chain[i] == chain[k] && k + 1 < |chain| {
      assert Parent(jobs, chain[k]) == Some(chain[k + 1]);
      AncestryDistinct(jobs, chain, i + 1, k + 1);
    }
  }

  /** The walk started on a partial climb is clean and below the cap exactly when the climb
      completes to an ancestry of fewer than ten jobs. */
  lemma {:induction false} WalkDecides(jobs: seq<Job>, path: seq<nat>)
    requires Climb(jobs, path)
    ensures
      var row := Walk(jobs, path[|path| - 1], |path|, path);
      (!row.hasCycle && row.maxDepth < MAX_CHAIN_DEPTH)
      <==> (exists chain :: path <= chain && Ancestry(jobs, chain) && |chain| < MAX_CHAIN_DEPTH)
    decreases MAX_CHAIN_DEPTH + 2 - |path|
  {
    var cur := path[|path| - 1];
    var row := Walk(jobs, cur, |path|, path);
    forall chain | path <= chain && Ancestry(jobs, chain)
      ensures |path| < |chain| <==> Parent(jobs, cur).Some?
      ensures |path| < |chain| ==> Parent(jobs, cur).value == chain[|path|]
    {
      assert chain[|path| - 1] == cur;
      if |path| < |chain| { assert Parent(jobs, chain[|path| - 1]) == Some(chain[|path| - 1 + 1]); }
    }
    if Parent(jobs, cur).None? {
      assert Ancestry(jobs, path);
    } else if |path| >= MAX_CHAIN_DEPTH + 2 {
    } else if Parent(jobs, cur).value in path {
      forall chain | path <= chain && Ancestry(jobs, chain) ensures false {
        var i: nat :| i < |path| && path[i] == Parent(jobs, cur).value;
        AncestryDistinct(jobs, chain, i, |path|);
      }
    } else {
      var path' := path + [Parent(jobs, cur).value];
      WalkDecides(jobs, path');
      forall chain | path <= chain && Ancestry(jobs, chain) ensures path' <= chain {
        assert chain[..|path|] == path;
      }
    }
  }

  /** On every table, cyclic ones included: a trigger passes V4 and V5 exactly when its true
      ancestry ends and holds at most nine jobs. */
  lemma WalkAcceptsExactly(jobs: seq<Job>, trigger: nat)
    requires trigger < |jobs|
    ensures
      var row := Walk(jobs, trigger, 1, [trigger]);
      (!row.hasCycle && row.maxDepth < MAX_CHAIN_DEPTH)
      <==> (exists chain :: Ancestry(jobs, chain) && chain[0] == trigger && |chain| < MAX_CHAIN_DEPTH)
  {
    WalkDecides(jobs, [trigger]);
    forall chain | Ancestry(jobs, chain) ensures [trigger] <= chain <==> chain[0] == trigger {
      if chain[0] == trigger { assert chain[..1] == [trigger]; }
    }
  }

  /** A climb of at most eleven jobs whose next step would visit one of them again. */
  ghost predicate Looped(jobs: seq<Job>, path: seq<nat>) {
    Climb(jobs, path) && |path| <= 11
    && Parent(jobs, path[|path| - 1]).Some? && Parent(jobs, path[|path| - 1]).value in path
  }

  /** A longer climb goes through the parent. */
  lemma ClimbNext(jobs: seq<Job>, path: seq<nat>, longer: seq<nat>)
    requires Climb(jobs, path) && Climb(jobs, longer) && path <= longer && |path| < |longer|
    ensures Parent(jobs, path[|path| - 1]) == Some(longer[|path|])
    ensures path + [longer[|path|]] <= longer
  {
    assert longer[|path| - 1] == path[|path| - 1];
    assert Parent(jobs, longer[|path| - 1]) == Some(longer[|path| - 1 + 1]);
    assert longer[..|path|] == path;
  }

  lemma {:induction false} WalkFindsLoop(jobs: seq<Job>, path: seq<nat>)
    requires Climb(jobs, path)
    ensures Walk(jobs, path[|path| - 1], |path|, path).hasCycle <==> exists longer :: path <= longer && Looped(jobs, longer)
    decreases MAX_CHAIN_DEPTH + 2 - |path|
  {
    var cur := path[|path| - 1];
    forall longer | path <= longer && Looped(jobs, longer) && |path| < |longer|
      ensures Parent(jobs, cur) == Some(longer[|path|]) && path + [longer[|path|]] <= longer
    {
      ClimbNext(jobs, path, longer);
    }
    if Parent(jobs, cur).None? {
    } else if |path| >= MAX_CHAIN_DEPTH + 2 {
    } else if Parent(jobs, cur).value in path {
      assert Looped(jobs, path);
    } else {
      WalkFindsLoop(jobs, path + [Parent(jobs, cur).value]);
    }
  }

  /** A climb of ten jobs. */
  ghost predicate Tall(jobs: seq<Job>, path: seq<nat>) {
    Climb(jobs, path) && |path| == 10
  }

  lemma {:induction false} WalkFindsTall(jobs: seq<Job>, path: seq<nat>)
    requires Climb(jobs, path) && |path| <= 10 && !Walk(jobs, path[|path| - 1], |path|, path).hasCycle
    ensures Walk(jobs, path[|path| - 1], |path|, path).maxDepth >= MAX_CHAIN_DEPTH
      <==> exists longer :: path <= longer && Tall(jobs, longer)
    decreases 10 - |path|
  {
    var cur := path[|path| - 1];
    forall longer | path <= longer && Tall(jobs, longer) && |path| < |longer|
      ensures Parent(jobs, cur) == Some(longer[|path|]) && path + [longer[|path|]] <= longer
    {
      ClimbNext(jobs, path, longer);
    }
    if |path| == 10 {
      assert Tall(jobs, path);
      WalkGrows(jobs, cur, |path|, path);
    } else if Parent(jobs, cur).Some? {
      WalkFindsTall(jobs, path + [Parent(jobs, cur).value]);
    }
  }

  lemma {:induction false} WalkGrows(jobs: seq<Job>, cur: nat, depth: nat, path: seq<nat>)
    requires cur < |jobs|
    ensures Walk(jobs, cur, depth, path).maxDepth >= depth
    decreases MAX_CHAIN_DEPTH + 2 - depth
  {
    if Parent(jobs, cur).Some? && depth < MAX_CHAIN_DEPTH + 2 && Parent(jobs, cur).value !in path {
      WalkGrows(jobs, Parent(jobs, cur).value, depth + 1, path + [Parent(jobs, cur).value]);
    }
  }

  /** The trigger job is there, is the caller's, and can still produce runs. */
  predicate Chainable(jobs: seq<Job>, owner: string, trigger: nat) {
    trigger < |jobs| && jobs[trigger].owner == owner && jobs[trigger].state == Active
  }

  /** trigger's true ancestry ends, and holds at most nine jobs with the trigger itself. */
  ghost predicate ShortAncestry(jobs: seq<Job>, trigger: nat) {
    exists chain :: Ancestry(jobs, chain) && chain[0] == trigger && |chain| <= 9
  }

  ghost predicate LoopAbove(jobs: seq<Job>, trigger: nat) {
    exists path :: Looped(jobs, path) && path[0] == trigger
  }

  ghost predicate TallAbove(jobs: seq<Job>, trigger: nat) {
    exists path :: Tall(jobs, path) && path[0] == trigger
  }

  lemma WalkFromTrigger(jobs: seq<Job>, trigger: nat)
    requires trigger < |jobs|
    ensures
      var row := Walk(jobs, trigger, 1, [trigger]);
      (row.hasCycle <==> LoopAbove(jobs, trigger))
      && (!row.hasCycle ==> (row.maxDepth >= MAX_CHAIN_DEPTH <==> TallAbove(jobs, trigger)))
  {
    WalkFindsLoop(jobs, [trigger]);
    if !Walk(jobs, trigger, 1, [trigger]).hasCycle { WalkFindsTall(jobs, [trigger]); }
    forall path | |path| > 0 ensures [trigger] <= path <==> path[0] == trigger {
      if path[0] == trigger { assert path[..1] == [trigger]; }
    }
    assert forall path :: Climb(jobs, path) ==> |path| > 0;
  }

  /** When a trigger is accepted, and the exact condition of every rejection, on any table. */
  lemma ValidateChainExactly(jobs: seq<Job>, owner: string, trigger: nat)
    ensures
      var r := ValidateChain(jobs, owner, trigger);
      (r.None? <==> Chainable(jobs, owner, trigger) && ShortAncestry(jobs, trigger))
      && (r == Some(JobNotFound) <==> trigger >= |jobs| || jobs[trigger].owner != owner)
      && (r == Some(JobTerminated) <==> trigger < |jobs| && jobs[trigger].owner == owner && jobs[trigger].state != Active)
      && (r == Some(Cycle) <==> Chainable(jobs, owner, trigger) && LoopAbove(jobs, trigger))
      && (r == Some(Depth) <==> Chainable(jobs, owner, trigger) && !LoopAbove(jobs, trigger) && TallAbove(jobs, trigger))
  {
    if trigger < |jobs| {
      WalkFromTrigger(jobs, trigger);
      WalkAcceptsExactly(jobs, trigger);
    }
  }

  /** Number of jobs from j up to its root. */
  ghost function DepthOf(jobs: seq<Job>, j: nat): (d: nat)
    requires Forest(jobs) && j < |jobs|
    ensures d >= 1
    decreases j
  {
    if jobs[j].trigger.None? then 1 else 1 + DepthOf(jobs, jobs[j].trigger.value.parent)
  }

  /** When parents are older than their children the walk finds no cycle, and reports the depth
      up to its cap. */
  lemma {:induction false} WalkOnForest(jobs: seq<Job>, cur: nat, depth: nat, path: seq<nat>)
    requires Forest(jobs) && cur < |jobs| && 1 <= depth <= MAX_CHAIN_DEPTH + 2
    requires forall x :: x in path ==> x >= cur
    ensures !Walk(jobs, cur, depth, path).hasCycle
    ensures Walk(jobs, cur, depth, path).maxDepth < MAX_CHAIN_DEPTH + 2 ==>
      Walk(jobs, cur, depth, path).maxDepth == depth - 1 + DepthOf(jobs, cur)
    decreases MAX_CHAIN_DEPTH + 2 - depth
  {
    if Parent(jobs, cur).Some? && depth < MAX_CHAIN_DEPTH + 2 {
      WalkOnForest(jobs, Parent(jobs, cur).value, depth + 1, path + [Parent(jobs, cur).value]);
    }
  }

  /** DepthOf only looks at jobs up to j, so later rows and lifecycle changes do not matter. */
  lemma {:induction false} DepthFrame(jobs: seq<Job>, jobs2: seq<Job>, j: nat)
    requires Forest(jobs) && Forest(jobs2) && j < |jobs| <= |jobs2|
    requires forall x :: 0 <= x < |jobs| ==> jobs[x].trigger == jobs2[x].trigger
    ensures DepthOf(jobs, j) == DepthOf(jobs2, j)
    decreases j
  {
    if jobs[j].trigger.Some? {
      DepthFrame(jobs, jobs2, jobs[j].trigger.value.parent);
    }
  }
}
