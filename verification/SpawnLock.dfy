/** Statement-level concurrency of _spawn_run and settle_check: any number of sessions interleave
    select, lock, check, insert, settle and commit under READ COMMITTED visibility. The per-job
    transaction lock keeps two executing runs of one job apart, uncommitted inserts included. It
    does not keep a run away from a job that was settled after the spawning session selected it;
    reading Job.state again under the lock would. */
module SpawnLock {

  datatype Owner = Committed | Uncommitted(session: nat) | Aborted

  /** A job_runs row as far as the executing-run check sees it. */
  datatype Row = Row(job: nat, executing: bool, owner: Owner)

  /** Where a session is between lock and write. taken: the advisory lock was not held before, so
      rolling back the savepoint it was taken in releases it. */
  datatype Pc = Ready | HasLock(job: nat, taken: bool) | SawNone(job: nat, taken: bool) | Blocked(job: nat, taken: bool)

  /** settled says which jobs some session moved out of active; seen holds the jobs each open
      transaction has selected as active. */
  datatype State = State(
    rows: seq<Row>, locks: map<nat, nat>, pcs: map<nat, Pc>, settled: map<nat, Owner>, seen: map<nat, set<nat>>)

  /** locking = false is the code without the lock call; reread = true adds a second look at
      Job.state under the lock. The code is Mode(true, false). */
  datatype Mode = Mode(locking: bool, reread: bool)

  datatype Step =
    | Select(session: nat, job: nat)    // the job is read as active
    | Lock(session: nat, job: nat)      // pg_advisory_xact_lock, granted
    | Check(session: nat)               // has_executing_run on a fresh snapshot
    | Insert(session: nat)              // _spawn_run: JobRun inserted, still uncommitted
    | Settle(session: nat)              // settle_check: the compare-and-set to completed
    | Leave(session: nat, release: bool) // nothing written; a rolled-back savepoint releases
    | Commit(session: nat)
    | Rollback(session: nat)
    | Finish(row: nat)                  // a committed run reaches a terminal status, no lock involved

  function PcOf(s: State, x: nat): Pc {
    if x in s.pcs then s.pcs[x] else Ready
  }

  function SeenBy(s: State, x: nat): set<nat> {
    if x in s.seen then s.seen[x] else {}
  }

  predicate Live(row: Row) {
    row.executing && !row.owner.Aborted?
  }

  /** READ COMMITTED: what is committed and the session's own. */
  predicate Visible(owner: Owner, x: nat) {
    owner.Committed? || owner == Uncommitted(x)
  }

  predicate SeesExecuting(s: State, x: nat, j: nat) {
    exists r :: 0 <= r < |s.rows| && s.rows[r].job == j && s.rows[r].executing && Visible(s.rows[r].owner, x)
  }

  predicate SeesSettled(s: State, x: nat, j: nat) {
    j in s.settled && Visible(s.settled[j], x)
  }

  predicate Enabled(mode: Mode, s: State, step: Step) {
    match step
    case Select(x, j) => PcOf(s, x).Ready? && !SeesSettled(s, x, j)
    case Lock(x, j) => PcOf(s, x).Ready? && j in SeenBy(s, x) && (mode.locking && j in s.locks ==> s.locks[j] == x)
    case Check(x) => PcOf(s, x).HasLock?
    case Insert(x) => PcOf(s, x).SawNone?
    case Settle(x) => PcOf(s, x).SawNone? && (PcOf(s, x).job in s.settled ==> Visible(s.settled[PcOf(s, x).job], x))
    case Leave(x, _) => PcOf(s, x).SawNone? || PcOf(s, x).Blocked?
    case Commit(x) => PcOf(s, x).Ready?
    case Rollback(x) => true
    case Finish(r) => r < |s.rows| && s.rows[r].owner.Committed?
  }

  function Unlocked(s: State, x: nat): map<nat, nat> {
    map j | j in s.locks && s.locks[j] != x :: s.locks[j]
  }

  function EndRows(rows: seq<Row>, x: nat, owner: Owner): (r: seq<Row>)
    ensures |r| == |rows|
    ensures forall k :: 0 <= k < |rows| ==> r[k] == if rows[k].owner == Uncommitted(x) then rows[k].(owner := owner) else rows[k]
  {
    seq(|rows|, k requires 0 <= k < |rows| => if rows[k].owner == Uncommitted(x) then rows[k].(owner := owner) else rows[k])
  }

  function CommitSettled(s: State, x: nat): map<nat, Owner> {
    map j | j in s.settled :: if s.settled[j] == Uncommitted(x) then Committed else s.settled[j]
  }

  function UndoSettled(s: State, x: nat): map<nat, Owner> {
    map j | j in s.settled && s.settled[j] != Uncommitted(x) :: s.settled[j]
  }

  function Apply(mode: Mode, s: State, step: Step): State
    requires Enabled(mode, s, step)
  {
    match step
    case Select(x, j) => s.(seen := s.seen[x := SeenBy(s, x) + {j}])
    case Lock(x, j) => s.(locks := s.locks[j := x], pcs := s.pcs[x := HasLock(j, !(j in s.locks && s.locks[j] == x))])
    case Check(x) =>
      var pc := PcOf(s, x);
      if SeesExecuting(s, x, pc.job) || (mode.reread && SeesSettled(s, x, pc.job))
      then s.(pcs := s.pcs[x := Blocked(pc.job, pc.taken)])
      else s.(pcs := s.pcs[x := SawNone(pc.job, pc.taken)])
    case Insert(x) => s.(rows := s.rows + [Row(PcOf(s, x).job, true, Uncommitted(x))], pcs := s.pcs[x := Ready])
    case Settle(x) =>
      var j := PcOf(s, x).job;
      s.(settled := if j in s.settled then s.settled else s.settled[j := Uncommitted(x)], pcs := s.pcs[x := Ready])
    case Leave(x, release) =>
      var pc := PcOf(s, x);
      s.(pcs := s.pcs[x := Ready], locks := if release && pc.taken then s.locks - {pc.job} else s.locks)
    case Commit(x) => State(EndRows(s.rows, x, Committed), Unlocked(s, x), s.pcs, CommitSettled(s, x), s.seen[x := {}])
    case Rollback(x) => State(EndRows(s.rows, x, Aborted), Unlocked(s, x), s.pcs[x := Ready], UndoSettled(s, x), s.seen[x := {}])
    case Finish(r) => s.(rows := s.rows[r := s.rows[r].(executing := false)])
  }

  predicate Admits(mode: Mode, s: State, trace: seq<Step>)
    decreases |trace|
  {
    trace == [] || (Enabled(mode, s, trace[0]) && Admits(mode, Apply(mode, s, trace[0]), trace[1..]))
  }

  function Exec(mode: Mode, s: State, trace: seq<Step>): State
    requires Admits(mode, s, trace)
    decreases |trace|
  {
    if trace == [] then s else Exec(mode, Apply(mode, s, trace[0]), trace[1..])
  }

  // ---------------------------------------------------------------- the invariant

  /** Two different rows of one job are never both live. */
  ghost predicate AtMostOne(s: State) {
    forall a, b :: 0 <= a < b < |s.rows| && s.rows[a].job == s.rows[b].job ==> !(Live(s.rows[a]) && Live(s.rows[b]))
  }

  /** No live row belongs to a job that was settled, committed or not. */
  ghost predicate NoRunSettled(s: State) {
    forall r :: 0 <= r < |s.rows| && Live(s.rows[r]) ==> s.rows[r].job !in s.settled
  }

  /** An uncommitted write on job j is covered by its session's lock, and not by one that leaving a
      savepoint would give back. */
  ghost predicate Covered(s: State, owner: Owner, j: nat) {
    owner.Uncommitted? ==>
      j in s.locks && s.locks[j] == owner.session
      && (PcOf(s, owner.session).Ready? || PcOf(s, owner.session).job != j || !PcOf(s, owner.session).taken)
  }

  /** A session between lock and write holds the lock, and what it saw is still true. */
  ghost predicate SessionOk(reread: bool, s: State, x: nat) {
    (!PcOf(s, x).Ready? ==> PcOf(s, x).job in s.locks && s.locks[PcOf(s, x).job] == x)
    && (PcOf(s, x).SawNone? ==>
          (forall r :: 0 <= r < |s.rows| && s.rows[r].job == PcOf(s, x).job ==> !Live(s.rows[r]))
          && (reread ==> PcOf(s, x).job !in s.settled))
  }

  ghost predicate RowsCovered(s: State) {
    forall r :: 0 <= r < |s.rows| ==> Covered(s, s.rows[r].owner, s.rows[r].job)
  }

  ghost predicate SettlesCovered(s: State) {
    forall j :: j in s.settled ==> !s.settled[j].Aborted? && Covered(s, s.settled[j], j)
  }

  ghost predicate SessionsOk(reread: bool, s: State) {
    forall x :: SessionOk(reread, s, x)
  }

  ghost predicate Inv(reread: bool, s: State) {
    AtMostOne(s) && RowsCovered(s) && SettlesCovered(s) && SessionsOk(reread, s) && (reread ==> NoRunSettled(s))
  }

  /** A step that leaves the writes alone keeps the invariant if it keeps every cover and session. */
  lemma PlaceKeeps(reread: bool, s: State, t: State)
    requires Inv(reread, s) && t.rows == s.rows && t.settled == s.settled && SessionsOk(reread, t)
    requires forall r :: 0 <= r < |s.rows| ==> Covered(t, s.rows[r].owner, s.rows[r].job)
    requires forall j :: j in s.settled ==> Covered(t, s.settled[j], j)
    ensures Inv(reread, t)
  {
  }

  /** Both kinds of write keep their cover when a session only moves on or changes its own lock. */
  lemma CoverKept(reread: bool, s: State, t: State, x: nat)
    requires Inv(reread, s) && forall y :: y != x ==> PcOf(t, y) == PcOf(s, y)
    requires forall j :: j in s.locks && s.locks[j] != x ==> j in t.locks && t.locks[j] == s.locks[j]
    requires forall j :: Covered(s, Uncommitted(x), j) ==> Covered(t, Uncommitted(x), j)
    ensures forall r :: 0 <= r < |s.rows| ==> Covered(t, s.rows[r].owner, s.rows[r].job)
    ensures forall j :: j in s.settled ==> Covered(t, s.settled[j], j)
  {
    forall r | 0 <= r < |s.rows| ensures Covered(t, s.rows[r].owner, s.rows[r].job) {
      assert Covered(s, s.rows[r].owner, s.rows[r].job);
    }
    forall j | j in s.settled ensures Covered(t, s.settled[j], j) { assert Covered(s, s.settled[j], j); }
  }

  lemma SelectKeeps(mode: Mode, s: State, x: nat, j: nat)
    requires Inv(mode.reread, s) && Enabled(mode, s, Select(x, j))
    ensures Inv(mode.reread, Apply(mode, s, Select(x, j)))
  {
    var t := Apply(mode, s, Select(x, j));
    CoverKept(mode.reread, s, t, x);
    forall y: nat ensures SessionOk(mode.reread, t, y) { assert SessionOk(mode.reread, s, y); }
    PlaceKeeps(mode.reread, s, t);
  }

  lemma LockKeeps(mode: Mode, s: State, x: nat, j: nat)
    requires mode.locking && Inv(mode.reread, s) && Enabled(mode, s, Lock(x, j))
    ensures Inv(mode.reread, Apply(mode, s, Lock(x, j)))
  {
    var t := Apply(mode, s, Lock(x, j));
    CoverKept(mode.reread, s, t, x);
    forall y: nat ensures SessionOk(mode.reread, t, y) { assert SessionOk(mode.reread, s, y); }
    PlaceKeeps(mode.reread, s, t);
  }

  /** Under the lock, what the session cannot see is not there. */
  lemma NothingHidden(reread: bool, s: State, x: nat)
    requires Inv(reread, s) && PcOf(s, x).HasLock?
    ensures !SeesExecuting(s, x, PcOf(s, x).job) ==>
      forall r :: 0 <= r < |s.rows| && s.rows[r].job == PcOf(s, x).job ==> !Live(s.rows[r])
    ensures !SeesSettled(s, x, PcOf(s, x).job) ==> PcOf(s, x).job !in s.settled
  {
    var j := PcOf(s, x).job;
    assert SessionOk(reread, s, x);
    forall r | 0 <= r < |s.rows| && s.rows[r].job == j && Live(s.rows[r]) ensures SeesExecuting(s, x, j) {
      assert Covered(s, s.rows[r].owner, j);
      assert Visible(s.rows[r].owner, x);
    }
    if j in s.settled { assert Covered(s, s.settled[j], j); }
  }

  lemma CheckKeeps(mode: Mode, s: State, x: nat)
    requires Inv(mode.reread, s) && Enabled(mode, s, Check(x))
    ensures Inv(mode.reread, Apply(mode, s, Check(x)))
  {
    var t := Apply(mode, s, Check(x));
    NothingHidden(mode.reread, s, x);
    CoverKept(mode.reread, s, t, x);
    forall y: nat ensures SessionOk(mode.reread, t, y) { assert SessionOk(mode.reread, s, y); }
    PlaceKeeps(mode.reread, s, t);
  }

  lemma LeaveKeeps(mode: Mode, s: State, x: nat, release: bool)
    requires Inv(mode.reread, s) && Enabled(mode, s, Leave(x, release))
    ensures Inv(mode.reread, Apply(mode, s, Leave(x, release)))
  {
    var t := Apply(mode, s, Leave(x, release));
    assert SessionOk(mode.reread, s, x);
    CoverKept(mode.reread, s, t, x);
    forall y: nat ensures SessionOk(mode.reread, t, y) { assert SessionOk(mode.reread, s, y); }
    PlaceKeeps(mode.reread, s, t);
  }

  lemma InsertKeeps(mode: Mode, s: State, x: nat)
    requires Inv(mode.reread, s) && Enabled(mode, s, Insert(x))
    ensures Inv(mode.reread, Apply(mode, s, Insert(x)))
  {
    var t := Apply(mode, s, Insert(x));
    assert SessionOk(mode.reread, s, x);
    CoverKept(mode.reread, s, t, x);
    forall r | 0 <= r < |t.rows| ensures Covered(t, t.rows[r].owner, t.rows[r].job) {
      if r < |s.rows| { assert Covered(t, s.rows[r].owner, s.rows[r].job); }
    }
    forall y: nat ensures SessionOk(mode.reread, t, y) { assert SessionOk(mode.reread, s, y); }
  }

  lemma SettleKeeps(mode: Mode, s: State, x: nat)
    requires Inv(mode.reread, s) && Enabled(mode, s, Settle(x))
    ensures Inv(mode.reread, Apply(mode, s, Settle(x)))
  {
    var t := Apply(mode, s, Settle(x));
    assert SessionOk(mode.reread, s, x);
    CoverKept(mode.reread, s, t, x);
    forall j | j in t.settled ensures !t.settled[j].Aborted? && Covered(t, t.settled[j], j) {
      if j in s.settled { assert Covered(t, s.settled[j], j); }
    }
    forall y: nat ensures SessionOk(mode.reread, t, y) { assert SessionOk(mode.reread, s, y); }
  }

  lemma EndKeeps(mode: Mode, s: State, step: Step)
    requires Inv(mode.reread, s) && Enabled(mode, s, step) && (step.Commit? || step.Rollback?)
    ensures Inv(mode.reread, Apply(mode, s, step))
  {
    var t := Apply(mode, s, step);
    forall r | 0 <= r < |t.rows| ensures Covered(t, t.rows[r].owner, t.rows[r].job) {
      assert Covered(s, s.rows[r].owner, s.rows[r].job);
    }
    forall j | j in t.settled ensures !t.settled[j].Aborted? && Covered(t, t.settled[j], j) {
      assert Covered(s, s.settled[j], j);
    }
    forall y: nat ensures SessionOk(mode.reread, t, y) { assert SessionOk(mode.reread, s, y); }
  }

  lemma FinishKeeps(mode: Mode, s: State, r: nat)
    requires Inv(mode.reread, s) && Enabled(mode, s, Finish(r))
    ensures Inv(mode.reread, Apply(mode, s, Finish(r)))
  {
    var t := Apply(mode, s, Finish(r));
    forall q | 0 <= q < |t.rows| ensures Covered(t, t.rows[q].owner, t.rows[q].job) {
      assert Covered(s, s.rows[q].owner, s.rows[q].job);
    }
    forall j | j in t.settled ensures Covered(t, t.settled[j], j) { assert Covered(s, s.settled[j], j); }
    forall y: nat ensures SessionOk(mode.reread, t, y) { assert SessionOk(mode.reread, s, y); }
  }

  lemma StepKeeps(mode: Mode, s: State, step: Step)
    requires mode.locking && Inv(mode.reread, s) && Enabled(mode, s, step)
    ensures Inv(mode.reread, Apply(mode, s, step))
  {
    match step
    case Select(x, j) => SelectKeeps(mode, s, x, j);
    case Lock(x, j) => LockKeeps(mode, s, x, j);
    case Check(x) => CheckKeeps(mode, s, x);
    case Insert(x) => InsertKeeps(mode, s, x);
    case Settle(x) => SettleKeeps(mode, s, x);
    case Leave(x, release) => LeaveKeeps(mode, s, x, release);
    case Commit(_) => EndKeeps(mode, s, step);
    case Rollback(_) => EndKeeps(mode, s, step);
    case Finish(r) => FinishKeeps(mode, s, r);
  }

  lemma {:induction false} ExecKeeps(mode: Mode, s: State, trace: seq<Step>)
    requires mode.locking && Inv(mode.reread, s) && Admits(mode, s, trace)
    ensures Inv(mode.reread, Exec(mode, s, trace))
    decreases |trace|
  {
    if trace != [] {
      StepKeeps(mode, s, trace[0]);
      ExecKeeps(mode, Apply(mode, s, trace[0]), trace[1..]);
    }
  }

  const START: State := State([], map[], map[], map[], map[])

  // ---------------------------------------------------------------- theorems

  /** No interleaving leaves two live runs of one job. */
  ghost predicate AlwaysAtMostOne(mode: Mode) {
    forall trace :: Admits(mode, START, trace) ==> AtMostOne(Exec(mode, START, trace))
  }

  /** No interleaving leaves a live run of a settled job. */
  ghost predicate NeverRunsSettled(mode: Mode) {
    forall trace :: Admits(mode, START, trace) ==> NoRunSettled(Exec(mode, START, trace))
  }

  /** However many sessions interleave, at most one executing run per job exists at any time,
      counting inserts that have not been committed yet, exactly because of the lock. */
  lemma LockSerializesSpawns(mode: Mode)
    ensures AlwaysAtMostOne(mode) <==> mode.locking
  {
    if mode.locking {
      forall trace | Admits(mode, START, trace) ensures AtMostOne(Exec(mode, START, trace)) {
        ExecKeeps(mode, START, trace);
      }
    } else {
      var trace := WithoutLockTwoRuns(mode, 0);
    }
  }

  /** With the lock, a run is kept away from settled jobs exactly when Job.state is read again under
      the lock; the code does not do that. */
  lemma RereadKeepsSettledIdle(mode: Mode)
    requires mode.locking
    ensures NeverRunsSettled(mode) <==> mode.reread
  {
    if mode.reread {
      forall trace | Admits(mode, START, trace) ensures NoRunSettled(Exec(mode, START, trace)) {
        ExecKeeps(mode, START, trace);
      }
    } else {
      var trace := StaleSelectRunsSettled(0);
    }
  }

  lemma Prefix(mode: Mode, s: State, step: Step, rest: seq<Step>) returns (trace: seq<Step>)
    requires Enabled(mode, s, step) && Admits(mode, Apply(mode, s, step), rest)
    ensures Admits(mode, s, trace) && Exec(mode, s, trace) == Exec(mode, Apply(mode, s, step), rest)
  {
    trace := [step] + rest;
    assert trace[1..] == rest;
  }

  /** Both sessions have selected job j. */
  function BothSelected(j: nat): State {
    State([], map[], map[], map[], map[0 := {j}, 1 := {j}])
  }

  lemma FromBothSelected(mode: Mode, j: nat, rest: seq<Step>) returns (trace: seq<Step>)
    requires Admits(mode, BothSelected(j), rest)
    ensures Admits(mode, START, trace) && Exec(mode, START, trace) == Exec(mode, BothSelected(j), rest)
  {
    var s1 := Apply(mode, START, Select(0, j));
    var none: set<nat> := {};
    assert none + {j} == {j};
    assert Apply(mode, s1, Select(1, j)).seen == BothSelected(j).seen;
    assert Apply(mode, s1, Select(1, j)) == BothSelected(j);
    trace := Prefix(mode, s1, Select(1, j), rest);
    trace := Prefix(mode, START, Select(0, j), trace);
  }

  /** Without the lock the same statements let two sessions both pass the check and both insert. */
  lemma WithoutLockTwoRuns(mode: Mode, j: nat) returns (trace: seq<Step>)
    requires !mode.locking
    ensures Admits(mode, START, trace) && !AtMostOne(Exec(mode, START, trace))
  {
    var s0 := BothSelected(j);
    var s1 := Apply(mode, s0, Lock(0, j));
    var s2 := Apply(mode, s1, Lock(1, j));
    var s3 := Apply(mode, s2, Check(0));
    var s4 := Apply(mode, s3, Check(1));
    var s5 := Apply(mode, s4, Insert(0));
    var s6 := Apply(mode, s5, Insert(1));
    assert s6.rows == [Row(j, true, Uncommitted(0)), Row(j, true, Uncommitted(1))];
    assert Live(s6.rows[0]) && Live(s6.rows[1]);
    trace := Prefix(mode, s5, Insert(1), []);
    trace := Prefix(mode, s4, Insert(0), trace);
    trace := Prefix(mode, s3, Check(1), trace);
    trace := Prefix(mode, s2, Check(0), trace);
    trace := Prefix(mode, s1, Lock(1, j), trace);
    trace := Prefix(mode, s0, Lock(0, j), trace);
    trace := FromBothSelected(mode, j, trace);
  }

  /** The code as it is: the consumer selects an active downstream, another session settles it and
      commits, and the consumer then inserts a run into the completed job. */
  lemma StaleSelectRunsSettled(j: nat) returns (trace: seq<Step>)
    ensures Admits(Mode(true, false), START, trace) && !NoRunSettled(Exec(Mode(true, false), START, trace))
  {
    var mode := Mode(true, false);
    var s0 := BothSelected(j);
    var s1 := Apply(mode, s0, Lock(1, j));
    var s2 := Apply(mode, s1, Check(1));
    var s3 := Apply(mode, s2, Settle(1));
    var s4 := Apply(mode, s3, Commit(1));
    assert s4.rows == [] && j !in s4.locks && s4.settled == map[j := Committed];
    var s5 := Apply(mode, s4, Lock(0, j));
    var s6 := Apply(mode, s5, Check(0));
    var s7 := Apply(mode, s6, Insert(0));
    assert s7.rows == [Row(j, true, Uncommitted(0))] && Live(s7.rows[0]) && j in s7.settled;
    trace := Prefix(mode, s6, Insert(0), []);
    trace := Prefix(mode, s5, Check(0), trace);
    trace := Prefix(mode, s4, Lock(0, j), trace);
    trace := Prefix(mode, s3, Commit(1), trace);
    trace := Prefix(mode, s2, Settle(1), trace);
    trace := Prefix(mode, s1, Check(1), trace);
    trace := Prefix(mode, s0, Lock(1, j), trace);
    trace := FromBothSelected(mode, j, trace);
  }
}
