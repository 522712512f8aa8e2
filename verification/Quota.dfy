/** app/quotas/containment.py: the caps checked before a create, and why a check against Job.state
    bounds true resident load over whole histories. */
module Quota {
  import opened Tables
  import opened Steps
  import opened System
  import opened History
  import opened Theorems

  datatype Limits = Limits(recurringPerUser: int, totalPerUser: int, globalRecurring: int)

  datatype Cap = RecurringPerUser | TotalPerUser | GlobalRecurring

  datatype Verdict = Allow | Reject(cap: Cap)

  /** The rows one of the three counting queries sees. */
  ghost function Counted(db: Db, cap: Cap, owner: string): set<nat> {
    set j: nat | j < |db.jobs| && db.jobs[j].state.Active? && CountsFor(db.jobs[j], cap, owner)
  }

  predicate CountsFor(job: Job, cap: Cap, owner: string) {
    (cap.GlobalRecurring? || job.owner == owner) && (cap.TotalPerUser? || job.cron.Some?)
  }

  function LimitOf(limits: Limits, cap: Cap): int {
    match cap
    case RecurringPerUser => limits.recurringPerUser
    case TotalPerUser => limits.totalPerUser
    case GlobalRecurring => limits.globalRecurring
  }

  ghost predicate Reached(db: Db, limits: Limits, cap: Cap, owner: string) {
    |Counted(db, cap, owner)| >= LimitOf(limits, cap)
  }

  /** check_containment */
  ghost function CheckContainment(db: Db, owner: string, limits: Limits, isOperator: bool): Verdict {
    if isOperator then Allow
    else if Reached(db, limits, RecurringPerUser, owner) then Reject(RecurringPerUser)
    else if Reached(db, limits, TotalPerUser, owner) then Reject(TotalPerUser)
    else if Reached(db, limits, GlobalRecurring, owner) then Reject(GlobalRecurring)
    else Allow
  }

  /** Active jobs of owner. */
  ghost function ActiveOf(db: Db, owner: string): set<nat> {
    set j: nat | j < |db.jobs| && db.jobs[j].state.Active? && db.jobs[j].owner == owner
  }

  ghost function ActiveRecurringOf(db: Db, owner: string): set<nat> {
    set j: nat | j < |db.jobs| && db.jobs[j].state.Active? && db.jobs[j].owner == owner && db.jobs[j].cron.Some?
  }

  ghost function ActiveRecurring(db: Db): set<nat> {
    set j: nat | j < |db.jobs| && db.jobs[j].state.Active? && db.jobs[j].cron.Some?
  }

  lemma CountedAre(db: Db, owner: string)
    ensures Counted(db, RecurringPerUser, owner) == ActiveRecurringOf(db, owner)
    ensures Counted(db, TotalPerUser, owner) == ActiveOf(db, owner)
    ensures Counted(db, GlobalRecurring, owner) == ActiveRecurring(db)
  {
  }

  /** The exact verdicts: anybody but the operator is allowed if and only if all three counts are
      below their caps, and is otherwise told the first that is not. */
  lemma ContainmentExactly(db: Db, owner: string, limits: Limits, isOperator: bool)
    ensures
      var v := CheckContainment(db, owner, limits, isOperator);
      var mine := |ActiveRecurringOf(db, owner)| < limits.recurringPerUser;
      var total := |ActiveOf(db, owner)| < limits.totalPerUser;
      var everyone := |ActiveRecurring(db)| < limits.globalRecurring;
      (v.Allow? <==> isOperator || (mine && total && everyone))
      && (v == Reject(RecurringPerUser) <==> !isOperator && !mine)
      && (v == Reject(TotalPerUser) <==> !isOperator && mine && !total)
      && (v == Reject(GlobalRecurring) <==> !isOperator && mine && total && !everyone)
  {
    CountedAre(db, owner);
  }

  /** Every create of the trace passed the check just before. */
  ghost predicate Gated(cfg: Config, s: Sys, trace: seq<Step>, limits: Limits, operator: Option<string>)
    decreases |trace|
  {
    trace == []
    || (Enabled(cfg, s, trace[0])
        && (trace[0].Create? ==> CheckContainment(s.db, trace[0].req.owner, limits, operator == Some(trace[0].req.owner)).Allow?)
        && Gated(cfg, Apply(cfg, s, trace[0]), trace[1..], limits, operator))
  }

  lemma {:induction false} GatedAdmits(cfg: Config, s: Sys, trace: seq<Step>, limits: Limits, operator: Option<string>)
    requires Gated(cfg, s, trace, limits, operator)
    ensures Admits(cfg, s, trace)
    decreases |trace|
  {
    if trace != [] { GatedAdmits(cfg, Apply(cfg, s, trace[0]), trace[1..], limits, operator); }
  }

  lemma SubsetSize(a: set<nat>, b: set<nat>)
    requires a <= b
    ensures |a| <= |b|
  {
    InjectionBounds(a, b, (x: nat) => x);
  }

  /** The counted rows a cap bounds: the check does not stop the operator, so of the global count
      those are the rows of everybody else. */
  ghost function Bounded(db: Db, cap: Cap, owner: string, operator: Option<string>): set<nat> {
    set j | j in Counted(db, cap, owner) && (cap.GlobalRecurring? ==> Some(db.jobs[j].owner) != operator)
  }

  /** A job that counts afterwards counted before, unless this very create inserted it. */
  lemma BoundedGrows(a: Db, b: Db, cap: Cap, owner: string, operator: Option<string>)
    requires Evolves(a, b)
    ensures forall j :: j in Bounded(b, cap, owner, operator) && j < |a.jobs| ==> j in Bounded(a, cap, owner, operator)
  {
    forall j | j in Bounded(b, cap, owner, operator) && j < |a.jobs| ensures j in Bounded(a, cap, owner, operator) {
      assert JobEvolves(a.jobs[j], b.jobs[j]);
    }
  }

  /** The caps the check enforces on owner. */
  predicate Enforced(cap: Cap, owner: string, operator: Option<string>) {
    cap.GlobalRecurring? || operator != Some(owner)
  }

  lemma StepCaps(cfg: Config, s: Sys, step: Step, limits: Limits, operator: Option<string>, cap: Cap, owner: string)
    requires ValidConfig(cfg) && Inv(cfg, s) && Enabled(cfg, s, step) && Enforced(cap, owner, operator)
    requires step.Create? ==> CheckContainment(s.db, step.req.owner, limits, operator == Some(step.req.owner)).Allow?
    requires |Bounded(s.db, cap, owner, operator)| <= LimitOf(limits, cap)
    ensures |Bounded(Apply(cfg, s, step).db, cap, owner, operator)| <= LimitOf(limits, cap)
  {
    var a, b := s.db, Apply(cfg, s, step).db;
    assert Evolves(a, b) by { StepEvolves(cfg, s, step); }
    BoundedGrows(a, b, cap, owner, operator);
    if step.Create? {
      CreateAdds(cfg, a, step.req, s.now);
      AddCaps(a, b, step.req.owner, limits, operator, cap, owner);
    } else {
      OnlyCreateAdds(cfg, s, step);
      SubsetSize(Bounded(b, cap, owner, operator), Bounded(a, cap, owner, operator));
    }
  }

  /** A create adds at most one row, its caller's. */
  lemma CreateAdds(cfg: Config, db: Db, req: Request, now: int)
    ensures
      var d := CreateJob(cfg, db, req, now);
      |db.jobs| <= |d.jobs| <= |db.jobs| + 1 && (|d.jobs| == |db.jobs| + 1 ==> d.jobs[|db.jobs|].owner == req.owner)
  {
  }

  /** One more row of creator, after a check that allowed it. */
  lemma AddCaps(a: Db, b: Db, creator: string, limits: Limits, operator: Option<string>, cap: Cap, owner: string)
    requires Enforced(cap, owner, operator) && CheckContainment(a, creator, limits, operator == Some(creator)).Allow?
    requires |Bounded(a, cap, owner, operator)| <= LimitOf(limits, cap)
    requires |b.jobs| <= |a.jobs| + 1 && (|b.jobs| == |a.jobs| + 1 ==> b.jobs[|a.jobs|].owner == creator)
    requires forall j :: j in Bounded(b, cap, owner, operator) && j < |a.jobs| ==> j in Bounded(a, cap, owner, operator)
    ensures |Bounded(b, cap, owner, operator)| <= LimitOf(limits, cap)
  {
    var x, y := Bounded(a, cap, owner, operator), Bounded(b, cap, owner, operator);
    if operator != Some(creator) && (cap.GlobalRecurring? || creator == owner) {
      SameCount(a, cap, owner, creator);
      assert !Reached(a, limits, cap, creator);
      SubsetSize(x, Counted(a, cap, owner));
      assert y <= x + {|a.jobs|};
      SubsetSize(y, x + {|a.jobs|});
    } else {
      assert y <= x;
      SubsetSize(y, x);
    }
  }

  lemma SameCount(db: Db, cap: Cap, owner: string, creator: string)
    requires cap.GlobalRecurring? || creator == owner
    ensures Counted(db, cap, owner) == Counted(db, cap, creator)
  {
  }

  lemma {:induction false} CapsHold(cfg: Config, s: Sys, trace: seq<Step>, limits: Limits, operator: Option<string>, cap: Cap, owner: string)
    requires ValidConfig(cfg) && Inv(cfg, s) && Gated(cfg, s, trace, limits, operator) && Enforced(cap, owner, operator)
    requires |Bounded(s.db, cap, owner, operator)| <= LimitOf(limits, cap)
    ensures Admits(cfg, s, trace) && |Bounded(Exec(cfg, s, trace).db, cap, owner, operator)| <= LimitOf(limits, cap)
    decreases |trace|
  {
    GatedAdmits(cfg, s, trace, limits, operator);
    if trace != [] {
      StepCaps(cfg, s, trace[0], limits, operator, cap, owner);
      StepKeeps(cfg, s, trace[0]);
      CapsHold(cfg, Apply(cfg, s, trace[0]), trace[1..], limits, operator, cap, owner);
    }
  }

  /** Active recurring jobs of everybody but the operator. */
  ghost function OthersRecurring(db: Db, operator: Option<string>): set<nat> {
    set j: nat | j < |db.jobs| && db.jobs[j].state.Active? && db.jobs[j].cron.Some? && Some(db.jobs[j].owner) != operator
  }

  /** If every create passes the check serially, then in every later state of every history each
      user's caps hold, the recurring jobs of everybody but the operator stay within the global
      ceiling, whatever the operator adds, and the user's true resident load, which no check ever
      computes, stays within the total cap as well. */
  lemma CapsBoundResidentLoad(cfg: Config, now: int, trace: seq<Step>, limits: Limits, operator: Option<string>, owner: string)
    requires ValidConfig(cfg) && Gated(cfg, Init(now), trace, limits, operator) && operator != Some(owner)
    requires 0 <= limits.recurringPerUser && 0 <= limits.totalPerUser && 0 <= limits.globalRecurring
    ensures Admits(cfg, Init(now), trace)
    ensures
      var db := Exec(cfg, Init(now), trace).db;
      |ActiveRecurringOf(db, owner)| <= limits.recurringPerUser
      && |ActiveOf(db, owner)| <= limits.totalPerUser
      && |OthersRecurring(db, operator)| <= limits.globalRecurring
      && |ResidentOf(db, owner)| <= limits.totalPerUser
  {
    InitInv(cfg, now);
    CapsHold(cfg, Init(now), trace, limits, operator, RecurringPerUser, owner);
    CapsHold(cfg, Init(now), trace, limits, operator, TotalPerUser, owner);
    CapsHold(cfg, Init(now), trace, limits, operator, GlobalRecurring, owner);
    var s := Exec(cfg, Init(now), trace);
    BoundedSets(s.db, owner, operator);
    CountedAre(s.db, owner);
    assert Reachable(cfg, s);
    QuotaCountsResidentLoad(cfg, s, owner);
    SubsetSize(ResidentOf(s.db, owner), CountedActive(s.db, owner));
  }

  lemma BoundedSets(db: Db, owner: string, operator: Option<string>)
    ensures Bounded(db, RecurringPerUser, owner, operator) == Counted(db, RecurringPerUser, owner)
    ensures Bounded(db, TotalPerUser, owner, operator) == Counted(db, TotalPerUser, owner) == CountedActive(db, owner)
    ensures Bounded(db, GlobalRecurring, owner, operator) == OthersRecurring(db, operator)
  {
  }
}
