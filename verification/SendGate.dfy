/** Effectively-once sends: the write-ahead intent of app/actions/send_dedup.py and the call order
    of _send_via_gmail, composed with the claim protocol. A worker goes through the gate only while
    it holds its run; crashes, retries, sweeps and redeliveries are the core system's own steps. A
    request once issued is in the provider's hands: it may be accepted at any later time, whether or
    not its caller still waits or lives. */
module SendGate {
  import opened Tables
  import opened Steps
  import opened Invariant
  import opened System
  import opened History
  import opened SendKey

  datatype IntentStatus = Attempting | Sent

  datatype Intent = Intent(run: nat, status: IntentStatus, providerId: Option<string>)

  datatype Decision = Send | Resend | Skip

  /** decide_send */
  function DecideSend(existing: Option<IntentStatus>): Decision {
    match existing
    case None => Send
    case Some(Sent) => Skip
    case Some(Attempting) => Resend
  }

  /** Where a worker is in _send_via_gmail. Calling is past the gate and before the request,
      Confirmed is after the 2xx answer and before mark_sent. */
  datatype Phase =
    | Start
    | Calling
    | Awaiting(call: nat)
    | Confirmed(call: nat, providerId: Option<string>)
    | Deduped(providerId: Option<string>)
    | Returned

  datatype Fate = InFlight | Accepted(providerId: Option<string>) | Refused

  /** A request issued to the provider; marked once mark_sent recorded its acceptance. */
  datatype Call = Call(run: nat, fate: Fate, marked: bool)

  datatype GSys = GSys(core: Sys, intents: map<string, Intent>, phases: map<nat, Phase>, calls: seq<Call>)

  datatype GStep =
    | Core(step: Step)
    | Begin(worker: nat)                                        // PostgresDedupStore.begin
    | Issue(worker: nat)                                        // the POST leaves the worker
    | ProviderAccepts(call: nat, providerId: Option<string>)    // at any time while in flight
    | ProviderRefuses(call: nat)                                // error status, or lost on the way
    | Hear(worker: nat)                                         // the 2xx answer arrives
    | GiveUp(worker: nat)                                       // client timeout, lost or error answer
    | MarkSent(worker: nat)                                     // PostgresDedupStore.mark_sent

  function ActionOf(db: Db, r: nat): string {
    if r < |db.runs| && db.runs[r].job < |db.jobs| then db.jobs[db.runs[r].job].action else ""
  }

  function KeyOf(db: Db, r: nat): string {
    Key(ActionOf(db, r), r)
  }

  predicate InPhase(g: GSys, w: nat) {
    w in g.phases && w in g.core.holders
  }

  predicate Flying(g: GSys, k: nat) {
    k < |g.calls| && g.calls[k].fate.InFlight?
  }

  ghost predicate GEnabled(cfg: Config, g: GSys, step: GStep) {
    match step
    case Core(c) => Enabled(cfg, g.core, c)
    case Begin(w) => InPhase(g, w) && g.phases[w].Start?
    case Issue(w) => InPhase(g, w) && g.phases[w].Calling?
    case ProviderAccepts(k, _) => Flying(g, k)
    case ProviderRefuses(k) => Flying(g, k)
    case Hear(w) => InPhase(g, w) && g.phases[w].Awaiting? && Heard(g, g.phases[w].call)
    case GiveUp(w) => InPhase(g, w) && g.phases[w].Awaiting?
    case MarkSent(w) => InPhase(g, w) && g.phases[w].Confirmed?
  }

  predicate Heard(g: GSys, k: nat) {
    k < |g.calls| && g.calls[k].fate.Accepted?
  }

  function StatusOf(intents: map<string, Intent>, key: string): Option<IntentStatus> {
    if key in intents then Some(intents[key].status) else None
  }

  /** begin: INSERT ... ON CONFLICT DO NOTHING, then the decision on a conflict. */
  function BeginPhase(intents: map<string, Intent>, key: string): Phase {
    if DecideSend(StatusOf(intents, key)).Skip? then
      (if key in intents then Deduped(intents[key].providerId) else Calling)
    else Calling
  }

  function BeginIntents(intents: map<string, Intent>, key: string, r: nat): map<string, Intent> {
    if key in intents then intents else intents[key := Intent(r, Attempting, None)]
  }

  /** mark_sent: an unguarded UPDATE. */
  function MarkIntents(intents: map<string, Intent>, key: string, providerId: Option<string>): map<string, Intent> {
    if key in intents then intents[key := intents[key].(status := Sent, providerId := providerId)] else intents
  }

  /** A worker that still holds the same run keeps its place; a new claim starts over. */
  function PhasesAfter(g: GSys, holders: map<nat, nat>): map<nat, Phase> {
    map w | w in holders ::
      if w in g.core.holders && g.core.holders[w] == holders[w] && w in g.phases then g.phases[w] else Start
  }

  function WithFate(calls: seq<Call>, k: nat, fate: Fate): seq<Call>
    requires k < |calls|
  {
    calls[k := calls[k].(fate := fate)]
  }

  function WithMark(calls: seq<Call>, k: nat): seq<Call> {
    if k < |calls| then calls[k := calls[k].(marked := true)] else calls
  }

  ghost function GApply(cfg: Config, g: GSys, step: GStep): GSys
    requires GEnabled(cfg, g, step)
  {
    match step
    case Core(c) =>
      var core := Apply(cfg, g.core, c);
      g.(core := core, phases := PhasesAfter(g, core.holders))
    case Begin(w) =>
      var r := g.core.holders[w];
      var key := KeyOf(g.core.db, r);
      g.(intents := BeginIntents(g.intents, key, r), phases := g.phases[w := BeginPhase(g.intents, key)])
    case Issue(w) =>
      g.(calls := g.calls + [Call(g.core.holders[w], InFlight, false)], phases := g.phases[w := Awaiting(|g.calls|)])
    case ProviderAccepts(k, id) => g.(calls := WithFate(g.calls, k, Accepted(id)))
    case ProviderRefuses(k) => g.(calls := WithFate(g.calls, k, Refused))
    case Hear(w) =>
      var k := g.phases[w].call;
      g.(phases := g.phases[w := Confirmed(k, g.calls[k].fate.providerId)])
    case GiveUp(w) => g.(phases := g.phases[w := Returned])
    case MarkSent(w) =>
      g.(intents := MarkIntents(g.intents, KeyOf(g.core.db, g.core.holders[w]), g.phases[w].providerId),
         calls := WithMark(g.calls, g.phases[w].call),
         phases := g.phases[w := Returned])
  }

  ghost function GInit(now: int): GSys {
    GSys(Init(now), map[], map[], [])
  }

  ghost predicate GAdmits(cfg: Config, g: GSys, trace: seq<GStep>)
    decreases |trace|
  {
    trace == [] || (GEnabled(cfg, g, trace[0]) && GAdmits(cfg, GApply(cfg, g, trace[0]), trace[1..]))
  }

  ghost function GExec(cfg: Config, g: GSys, trace: seq<GStep>): GSys
    requires GAdmits(cfg, g, trace)
    decreases |trace|
  {
    if trace == [] then g else GExec(cfg, GApply(cfg, g, trace[0]), trace[1..])
  }

  // ---------------------------------------------------------------- counting calls

  /** What to count among the calls of one run. */
  datatype Tally = Issued | Taken | Marked | Unmarked | InAir

  predicate Counts(c: Call, r: nat, t: Tally) {
    c.run == r
    && match t
       case Issued => true
       case Taken => c.fate.Accepted?
       case Marked => c.marked
       case Unmarked => c.fate.Accepted? && !c.marked
       case InAir => c.fate.InFlight?
  }

  function One(c: Call, r: nat, t: Tally): nat {
    if Counts(c, r, t) then 1 else 0
  }

  function Count(calls: seq<Call>, r: nat, t: Tally): nat
    decreases |calls|
  {
    if calls == [] then 0 else Count(calls[..|calls| - 1], r, t) + One(calls[|calls| - 1], r, t)
  }

  lemma CountAppend(calls: seq<Call>, c: Call, r: nat, t: Tally)
    ensures Count(calls + [c], r, t) == Count(calls, r, t) + One(c, r, t)
  {
    assert (calls + [c])[..|calls|] == calls;
  }

  lemma {:induction false} CountUpdate(calls: seq<Call>, k: nat, c: Call, r: nat, t: Tally)
    requires k < |calls|
    ensures Count(calls[k := c], r, t) == Count(calls, r, t) - One(calls[k], r, t) + One(c, r, t)
    decreases |calls|
  {
    var n := |calls| - 1;
    if k < n {
      assert calls[k := c][..n] == calls[..n][k := c];
      CountUpdate(calls[..n], k, c, r, t);
    } else {
      assert calls[k := c][..n] == calls[..n];
    }
  }

  lemma {:induction false} CountNone(calls: seq<Call>, r: nat, t: Tally)
    requires forall k :: 0 <= k < |calls| ==> !Counts(calls[k], r, t)
    ensures Count(calls, r, t) == 0
    decreases |calls|
  {
    if calls != [] { CountNone(calls[..|calls| - 1], r, t); }
  }

  lemma {:induction false} CountSome(calls: seq<Call>, r: nat, t: Tally, k: nat)
    requires k < |calls| && Counts(calls[k], r, t)
    ensures Count(calls, r, t) > 0
    decreases |calls|
  {
    if k < |calls| - 1 { CountSome(calls[..|calls| - 1], r, t, k); }
  }

  lemma {:induction false} CountWitness(calls: seq<Call>, r: nat, t: Tally) returns (k: nat)
    requires Count(calls, r, t) > 0
    ensures k < |calls| && Counts(calls[k], r, t)
    decreases |calls|
  {
    if Counts(calls[|calls| - 1], r, t) { k := |calls| - 1; }
    else { k := CountWitness(calls[..|calls| - 1], r, t); }
  }

  /** Accepted calls are those marked and those never marked, and all of them were issued. */
  lemma {:induction false} CountSplits(calls: seq<Call>, r: nat)
    requires forall k :: 0 <= k < |calls| && calls[k].marked ==> calls[k].fate.Accepted?
    ensures Count(calls, r, Taken) == Count(calls, r, Marked) + Count(calls, r, Unmarked)
    ensures Count(calls, r, Taken) + Count(calls, r, InAir) <= Count(calls, r, Issued)
    decreases |calls|
  {
    if calls != [] { CountSplits(calls[..|calls| - 1], r); }
  }

  // ---------------------------------------------------------------- invariant

  predicate IsSent(g: GSys, r: nat) {
    StatusOf(g.intents, KeyOf(g.core.db, r)) == Some(Sent)
  }

  ghost predicate PhaseOk(g: GSys, w: nat)
    requires InPhase(g, w)
  {
    var r := g.core.holders[w];
    var key := KeyOf(g.core.db, r);
    match g.phases[w]
    case Calling => StatusOf(g.intents, key) == Some(Attempting)
    case Awaiting(k) =>
      StatusOf(g.intents, key) == Some(Attempting) && k < |g.calls| && g.calls[k].run == r && !g.calls[k].marked
    case Confirmed(k, id) =>
      StatusOf(g.intents, key) == Some(Attempting) && k < |g.calls| && g.calls[k] == Call(r, Accepted(id), false)
    case Deduped(id) => IsSent(g, r) && g.intents[key].providerId == id
    case _ => true
  }

  /** A run's intent is 'sent' exactly when one of its calls is marked. */
  ghost predicate SendOk(g: GSys, r: nat) {
    Count(g.calls, r, Marked) == if IsSent(g, r) then 1 else 0
  }

  /** A marked call was accepted, and its provider id is the one the intent stores. */
  ghost predicate CallOk(g: GSys, k: nat)
    requires k < |g.calls|
  {
    var c := g.calls[k];
    c.run < |g.core.db.runs|
    && (c.marked ==> c.fate.Accepted? && IsSent(g, c.run) && g.intents[KeyOf(g.core.db, c.run)].providerId == c.fate.providerId)
  }

  /** Every intent row belongs to the run it is keyed on, and that run exists. */
  ghost predicate IntentOk(g: GSys, key: string)
    requires key in g.intents
  {
    g.intents[key].run < |g.core.db.runs| && key == KeyOf(g.core.db, g.intents[key].run)
  }

  ghost predicate GInv(cfg: Config, g: GSys) {
    Inv(cfg, g.core) && GateInv(g)
  }

  ghost predicate PhasesOk(g: GSys) {
    g.phases.Keys == g.core.holders.Keys && forall w :: w in g.phases ==> w in g.core.holders && PhaseOk(g, w)
  }

  ghost predicate SendsOk(g: GSys) {
    forall r :: 0 <= r < |g.core.db.runs| ==> SendOk(g, r)
  }

  ghost predicate CallsOk(g: GSys) {
    forall k :: 0 <= k < |g.calls| ==> CallOk(g, k)
  }

  ghost predicate IntentsOk(g: GSys) {
    forall key :: key in g.intents ==> IntentOk(g, key)
  }

  ghost predicate GateInv(g: GSys) {
    PhasesOk(g) && SendsOk(g) && CallsOk(g) && IntentsOk(g)
  }

  /** Different runs never share a key. */
  lemma KeysApart(db: Db, r: nat, q: nat)
    requires KeyOf(db, r) == KeyOf(db, q)
    ensures r == q
  {
    KeyInjective(ActionOf(db, r), r, ActionOf(db, q), q);
  }

  /** The key of an existing run never changes. */
  lemma KeyKept(a: Db, b: Db, r: nat)
    requires RunsOk(a) && Evolves(a, b) && r < |a.runs|
    ensures KeyOf(a, r) == KeyOf(b, r)
  {
    assert RunOk(a, r) && RunEvolves(a.runs[r], b.runs[r]) && JobEvolves(a.jobs[a.runs[r].job], b.jobs[a.runs[r].job]);
  }

  // ---------------------------------------------------------------- core steps

  lemma CorePhases(g: GSys, h: GSys)
    requires GateInv(g) && RunsOk(g.core.db) && Evolves(g.core.db, h.core.db)
    requires forall w :: w in g.core.holders ==> g.core.holders[w] < |g.core.db.runs|
    requires h.phases == PhasesAfter(g, h.core.holders) && h.intents == g.intents && h.calls == g.calls
    ensures PhasesOk(h)
  {
    forall w | w in h.phases ensures w in h.core.holders && PhaseOk(h, w) {
      if w in g.core.holders && g.core.holders[w] == h.core.holders[w] {
        assert PhaseOk(g, w);
        KeyKept(g.core.db, h.core.db, g.core.holders[w]);
      }
    }
  }

  lemma CoreSends(g: GSys, h: GSys)
    requires GateInv(g) && RunsOk(g.core.db) && Evolves(g.core.db, h.core.db) && h.intents == g.intents && h.calls == g.calls
    ensures SendsOk(h)
  {
    forall r: nat | r < |h.core.db.runs| ensures SendOk(h, r) {
      if r < |g.core.db.runs| {
        assert SendOk(g, r);
        KeyKept(g.core.db, h.core.db, r);
      } else {
        forall k | 0 <= k < |g.calls| ensures !Counts(g.calls[k], r, Marked) { assert CallOk(g, k); }
        CountNone(g.calls, r, Marked);
        NoIntentYet(g, h, r);
      }
    }
  }

  lemma CoreCalls(g: GSys, h: GSys)
    requires GateInv(g) && RunsOk(g.core.db) && Evolves(g.core.db, h.core.db) && h.intents == g.intents && h.calls == g.calls
    ensures CallsOk(h) && IntentsOk(h)
  {
    forall k: nat | k < |h.calls| ensures CallOk(h, k) {
      assert CallOk(g, k);
      KeyKept(g.core.db, h.core.db, g.calls[k].run);
    }
    forall key | key in h.intents ensures IntentOk(h, key) {
      assert IntentOk(g, key);
      KeyKept(g.core.db, h.core.db, g.intents[key].run);
    }
  }

  /** A brand-new run has no intent. */
  lemma NoIntentYet(g: GSys, h: GSys, r: nat)
    requires h.intents == g.intents && r >= |g.core.db.runs| && IntentsOk(g)
    ensures KeyOf(h.core.db, r) !in h.intents
  {
    var key := KeyOf(h.core.db, r);
    if key in g.intents {
      assert IntentOk(g, key);
      KeyInjective(ActionOf(h.core.db, r), r, ActionOf(g.core.db, g.intents[key].run), g.intents[key].run);
    }
  }

  /** A step of the core system moves the gate's workers with it and nothing else of the gate. */
  lemma CoreKeeps(cfg: Config, g: GSys, c: Step)
    requires ValidConfig(cfg) && GInv(cfg, g) && Enabled(cfg, g.core, c)
    ensures GInv(cfg, GApply(cfg, g, Core(c)))
  {
    var h := GApply(cfg, g, Core(c));
    assert Inv(cfg, h.core) by { StepKeeps(cfg, g.core, c); }
    assert Evolves(g.core.db, h.core.db) by { StepEvolves(cfg, g.core, c); }
    forall w | w in g.core.holders ensures g.core.holders[w] < |g.core.db.runs| { assert HolderOk(cfg, g.core, w); }
    CorePhases(g, h);
    CoreSends(g, h);
    CoreCalls(g, h);
  }

  // ---------------------------------------------------------------- gate steps

  /** Opening the gate adds at most an 'attempting' row, for a key that had none. */
  lemma BeginOne(intents: map<string, Intent>, key: string, r: nat)
    ensures
      var after := BeginIntents(intents, key, r);
      (forall k :: k in intents ==> k in after && after[k] == intents[k])
      && (forall k :: StatusOf(after, k) == Some(Sent) <==> StatusOf(intents, k) == Some(Sent))
      && StatusOf(after, key).Some?
  {
  }

  lemma BeginPhases(g: GSys, h: GSys, w: nat, key: string, r: nat)
    requires PhasesOk(g) && InPhase(g, w) && r == g.core.holders[w] && key == KeyOf(g.core.db, r)
    requires h == g.(intents := BeginIntents(g.intents, key, r), phases := g.phases[w := BeginPhase(g.intents, key)])
    ensures PhasesOk(h)
  {
    BeginOne(g.intents, key, r);
    forall v | v in h.phases ensures v in h.core.holders && PhaseOk(h, v) {
      if v != w { assert PhaseOk(g, v); }
    }
  }

  lemma BeginKeeps(g: GSys, h: GSys, w: nat, key: string, r: nat)
    requires GateInv(g) && InPhase(g, w) && r == g.core.holders[w] < |g.core.db.runs| && key == KeyOf(g.core.db, r)
    requires h == g.(intents := BeginIntents(g.intents, key, r), phases := g.phases[w := BeginPhase(g.intents, key)])
    ensures GateInv(h)
  {
    BeginPhases(g, h, w, key, r);
    BeginOne(g.intents, key, r);
    forall q: nat | q < |h.core.db.runs| ensures SendOk(h, q) { assert SendOk(g, q); }
    forall k: nat | k < |h.calls| ensures CallOk(h, k) { assert CallOk(g, k); }
    forall k | k in h.intents ensures IntentOk(h, k) {
      if k in g.intents { assert IntentOk(g, k); }
    }
  }

  /** A step that moves one worker on, with the intents and the calls as they were. */
  lemma PhaseKeeps(g: GSys, h: GSys, w: nat)
    requires GateInv(g) && InPhase(g, w) && InPhase(h, w) && h == g.(phases := g.phases[w := h.phases[w]]) && PhaseOk(h, w)
    ensures GateInv(h)
  {
    forall v | v in h.phases ensures v in h.core.holders && PhaseOk(h, v) {
      if v != w { assert PhaseOk(g, v); }
    }
    forall q: nat | q < |h.core.db.runs| ensures SendOk(h, q) { assert SendOk(g, q); }
    forall k: nat | k < |h.calls| ensures CallOk(h, k) { assert CallOk(g, k); }
    forall k | k in h.intents ensures IntentOk(h, k) { assert IntentOk(g, k); }
  }

  /** Issuing a request adds one call in flight. */
  lemma IssueKeeps(g: GSys, h: GSys, w: nat)
    requires GateInv(g) && InPhase(g, w) && g.phases[w].Calling? && g.core.holders[w] < |g.core.db.runs|
    requires h == g.(calls := g.calls + [Call(g.core.holders[w], InFlight, false)], phases := g.phases[w := Awaiting(|g.calls|)])
    ensures GateInv(h)
  {
    var c := Call(g.core.holders[w], InFlight, false);
    assert PhaseOk(g, w);
    forall v | v in h.phases ensures v in h.core.holders && PhaseOk(h, v) {
      if v != w { assert PhaseOk(g, v); }
    }
    forall q: nat | q < |h.core.db.runs| ensures SendOk(h, q) {
      assert SendOk(g, q);
      CountAppend(g.calls, c, q, Marked);
    }
    forall k: nat | k < |h.calls| ensures CallOk(h, k) {
      if k < |g.calls| { assert CallOk(g, k); }
    }
    forall k | k in h.intents ensures IntentOk(h, k) { assert IntentOk(g, k); }
  }

  /** The provider decides about a call in flight, whoever issued it. */
  lemma ProviderKeeps(g: GSys, h: GSys, k: nat, fate: Fate)
    requires GateInv(g) && Flying(g, k) && !fate.InFlight? && h == g.(calls := WithFate(g.calls, k, fate))
    ensures GateInv(h)
  {
    assert CallOk(g, k);
    forall v | v in h.phases ensures v in h.core.holders && PhaseOk(h, v) { assert PhaseOk(g, v); }
    forall q: nat | q < |h.core.db.runs| ensures SendOk(h, q) {
      assert SendOk(g, q);
      CountUpdate(g.calls, k, g.calls[k].(fate := fate), q, Marked);
    }
    forall i: nat | i < |h.calls| ensures CallOk(h, i) { assert CallOk(g, i); }
    forall key | key in h.intents ensures IntentOk(h, key) { assert IntentOk(g, key); }
  }

  /** Lease exclusivity at work: another live worker sends for another run, under another key. */
  lemma OtherWorker(g: GSys, v: nat, w: nat)
    requires v in g.core.holders && w in g.core.holders && g.core.holders[v] != g.core.holders[w]
    ensures KeyOf(g.core.db, g.core.holders[v]) != KeyOf(g.core.db, g.core.holders[w])
  {
    if KeyOf(g.core.db, g.core.holders[v]) == KeyOf(g.core.db, g.core.holders[w]) {
      KeysApart(g.core.db, g.core.holders[v], g.core.holders[w]);
    }
  }

  ghost predicate Marks(g: GSys, h: GSys, w: nat, e: nat) {
    GateInv(g) && InPhase(g, w) && g.phases[w].Confirmed? && g.phases[w].call == e < |g.calls|
    && h == g.(intents := MarkIntents(g.intents, KeyOf(g.core.db, g.core.holders[w]), g.phases[w].providerId),
               calls := WithMark(g.calls, e),
               phases := g.phases[w := Returned])
  }

  lemma MarkPhases(g: GSys, h: GSys, w: nat, e: nat)
    requires Marks(g, h, w, e)
    requires forall v :: v in g.core.holders && v != w ==> g.core.holders[v] != g.core.holders[w]
    ensures PhasesOk(h)
  {
    assert PhaseOk(g, w);
    forall v | v in h.phases ensures v in h.core.holders && PhaseOk(h, v) {
      if v != w {
        assert PhaseOk(g, v);
        OtherWorker(g, v, w);
      }
    }
  }

  /** The run's only marked call is the one just confirmed. */
  lemma MarkSends(g: GSys, h: GSys, w: nat, e: nat, q: nat)
    requires Marks(g, h, w, e) && q < |g.core.db.runs|
    ensures SendOk(h, q)
  {
    var r := g.core.holders[w];
    assert PhaseOk(g, w) && SendOk(g, q);
    CountUpdate(g.calls, e, g.calls[e].(marked := true), q, Marked);
    if q != r && KeyOf(g.core.db, q) == KeyOf(g.core.db, r) { KeysApart(g.core.db, q, r); }
  }

  lemma MarkCalls(g: GSys, h: GSys, w: nat, e: nat, k: nat)
    requires Marks(g, h, w, e) && k < |g.calls| && g.core.holders[w] < |g.core.db.runs|
    ensures CallOk(h, k)
  {
    var r := g.core.holders[w];
    assert PhaseOk(g, w) && CallOk(g, k) && SendOk(g, r);
    if g.calls[k].run == r && g.calls[k].marked {
      CountSome(g.calls, r, Marked, k);
    } else if g.calls[k].run != r && KeyOf(g.core.db, g.calls[k].run) == KeyOf(g.core.db, r) {
      KeysApart(g.core.db, g.calls[k].run, r);
    }
  }

  lemma MarkKeeps(g: GSys, h: GSys, w: nat, e: nat)
    requires Marks(g, h, w, e) && g.core.holders[w] < |g.core.db.runs|
    requires forall v :: v in g.core.holders && v != w ==> g.core.holders[v] != g.core.holders[w]
    ensures GateInv(h)
  {
    MarkPhases(g, h, w, e);
    forall q: nat | q < |h.core.db.runs| ensures SendOk(h, q) { MarkSends(g, h, w, e, q); }
    forall k: nat | k < |h.calls| ensures CallOk(h, k) { MarkCalls(g, h, w, e, k); }
    forall k | k in h.intents ensures IntentOk(h, k) { assert IntentOk(g, k); }
  }

  predicate ByProvider(step: GStep) {
    step.ProviderAccepts? || step.ProviderRefuses?
  }

  lemma WorkerStepKeeps(cfg: Config, g: GSys, step: GStep)
    requires GateInv(g) && HoldersOk(cfg, g.core) && GEnabled(cfg, g, step) && !step.Core? && !ByProvider(step)
    ensures GateInv(GApply(cfg, g, step))
  {
    var h := GApply(cfg, g, step);
    var w := step.worker;
    assert HolderOk(cfg, g.core, w) && PhaseOk(g, w);
    var r := g.core.holders[w];
    match step
    case Begin(_) => BeginKeeps(g, h, w, KeyOf(g.core.db, r), r);
    case Issue(_) => IssueKeeps(g, h, w);
    case Hear(_) => PhaseKeeps(g, h, w);
    case GiveUp(_) => PhaseKeeps(g, h, w);
    case MarkSent(_) => MarkKeeps(g, h, w, g.phases[w].call);
  }

  lemma GStepKeeps(cfg: Config, g: GSys, step: GStep)
    requires ValidConfig(cfg) && GInv(cfg, g) && GEnabled(cfg, g, step)
    ensures GInv(cfg, GApply(cfg, g, step))
  {
    if step.Core? {
      CoreKeeps(cfg, g, step.step);
    } else {
      if step.ProviderAccepts? {
        ProviderKeeps(g, GApply(cfg, g, step), step.call, Accepted(step.providerId));
      } else if step.ProviderRefuses? {
        ProviderKeeps(g, GApply(cfg, g, step), step.call, Refused);
      } else {
        WorkerStepKeeps(cfg, g, step);
      }
      assert GApply(cfg, g, step).core == g.core;
    }
  }

  lemma {:induction false} GExecKeeps(cfg: Config, g: GSys, trace: seq<GStep>)
    requires ValidConfig(cfg) && GInv(cfg, g) && GAdmits(cfg, g, trace)
    ensures GInv(cfg, GExec(cfg, g, trace))
    decreases |trace|
  {
    if trace != [] {
      GStepKeeps(cfg, g, trace[0]);
      GExecKeeps(cfg, GApply(cfg, g, trace[0]), trace[1..]);
    }
  }

  // ---------------------------------------------------------------- theorems

  /** states is a history of the composed system from the empty tables. */
  ghost predicate Path(cfg: Config, states: seq<GSys>) {
    |states| > 0 && (exists now :: states[0] == GInit(now))
    && forall i :: 0 < i < |states| ==> Follows(cfg, states[i - 1], states[i])
  }

  ghost predicate Follows(cfg: Config, f: GSys, g: GSys) {
    exists step :: Leads(cfg, f, step, g)
  }

  ghost predicate Leads(cfg: Config, f: GSys, step: GStep, g: GSys) {
    GEnabled(cfg, f, step) && g == GApply(cfg, f, step)
  }

  /** Some history of the composed system ends in g. */
  ghost predicate GReachable(cfg: Config, g: GSys) {
    exists states :: Path(cfg, states) && states[|states| - 1] == g
  }

  lemma GInitInv(cfg: Config, now: int)
    ensures GInv(cfg, GInit(now))
  {
    InitInv(cfg, now);
  }

  lemma LeadsKeeps(cfg: Config, f: GSys, step: GStep, g: GSys)
    requires ValidConfig(cfg) && GInv(cfg, f) && Leads(cfg, f, step, g)
    ensures GInv(cfg, g)
  {
    GStepKeeps(cfg, f, step);
  }

  lemma {:induction false} PathInv(cfg: Config, states: seq<GSys>, i: nat)
    requires ValidConfig(cfg) && Path(cfg, states) && i < |states|
    ensures GInv(cfg, states[i])
  {
    if i == 0 {
      var now :| states[0] == GInit(now);
      GInitInv(cfg, now);
    } else {
      PathInv(cfg, states, i - 1);
      assert Follows(cfg, states[i - 1], states[i]);
      var step :| Leads(cfg, states[i - 1], step, states[i]);
      LeadsKeeps(cfg, states[i - 1], step, states[i]);
    }
  }

  lemma GReachableInv(cfg: Config, g: GSys)
    requires ValidConfig(cfg) && GReachable(cfg, g)
    ensures GInv(cfg, g)
  {
    var states :| Path(cfg, states) && states[|states| - 1] == g;
    PathInv(cfg, states, |states| - 1);
  }

  /** Effectively once: in every reachable state, with late and unheard acceptances included, the
      provider has accepted one send of a run beyond those never marked if the intent is sent, and
      none beyond those if it is not; and it has accepted no more than were issued. */
  lemma EffectivelyOnce(cfg: Config, g: GSys, r: nat)
    requires ValidConfig(cfg) && GReachable(cfg, g) && r < |g.core.db.runs|
    ensures Count(g.calls, r, Taken) == Count(g.calls, r, Unmarked) + (if IsSent(g, r) then 1 else 0)
    ensures Count(g.calls, r, Taken) + Count(g.calls, r, InAir) <= Count(g.calls, r, Issued)
  {
    GReachableInv(cfg, g);
    assert SendOk(g, r);
    forall k | 0 <= k < |g.calls| && g.calls[k].marked ensures g.calls[k].fate.Accepted? { assert CallOk(g, k); }
    CountSplits(g.calls, r);
  }

  /** The calls of r in b are those of a, with those in flight perhaps decided. */
  ghost predicate NoNewCalls(a: seq<Call>, b: seq<Call>, r: nat) {
    |a| <= |b|
    && (forall k :: 0 <= k < |a| ==> b[k].run == a[k].run && (a[k].fate.InFlight? || b[k].fate == a[k].fate))
    && (forall k :: |a| <= k < |b| ==> b[k].run != r)
  }

  lemma {:induction false} NoNewCounts(a: seq<Call>, b: seq<Call>, r: nat)
    requires NoNewCalls(a, b, r)
    ensures Count(b, r, Issued) == Count(a, r, Issued)
    ensures Count(a, r, Taken) <= Count(b, r, Taken) <= Count(a, r, Taken) + Count(a, r, InAir)
    decreases |b|
  {
    if |b| > |a| {
      NoNewCounts(a, b[..|b| - 1], r);
    } else if b != [] {
      NoNewCounts(a[..|a| - 1], b[..|b| - 1], r);
    }
  }

  /** h has the same sent row for r as g, and no call for r that g did not have. */
  ghost predicate SameSend(g: GSys, h: GSys, r: nat) {
    r < |h.core.db.runs| && KeyOf(h.core.db, r) == KeyOf(g.core.db, r) && IsSent(h, r)
    && KeyOf(g.core.db, r) in g.intents && h.intents[KeyOf(g.core.db, r)] == g.intents[KeyOf(g.core.db, r)]
    && NoNewCalls(g.calls, h.calls, r)
  }

  lemma SentCore(cfg: Config, g: GSys, c: Step, r: nat)
    requires ValidConfig(cfg) && GInv(cfg, g) && GEnabled(cfg, g, Core(c)) && r < |g.core.db.runs| && IsSent(g, r)
    ensures SameSend(g, GApply(cfg, g, Core(c)), r)
  {
    assert Evolves(g.core.db, Apply(cfg, g.core, c).db) by { StepEvolves(cfg, g.core, c); }
    KeyKept(g.core.db, Apply(cfg, g.core, c).db, r);
  }

  lemma SentBegin(cfg: Config, g: GSys, w: nat, r: nat)
    requires GateInv(g) && GEnabled(cfg, g, Begin(w)) && r < |g.core.db.runs| && IsSent(g, r)
    ensures SameSend(g, GApply(cfg, g, Begin(w)), r)
    ensures g.core.holders[w] == r ==>
      GApply(cfg, g, Begin(w)).phases[w] == Deduped(g.intents[KeyOf(g.core.db, r)].providerId)
  {
    BeginOne(g.intents, KeyOf(g.core.db, g.core.holders[w]), g.core.holders[w]);
  }

  /** A worker at or past the provider call works for a run that is not sent. */
  lemma CallerIsUnsent(g: GSys, w: nat, r: nat)
    requires GateInv(g) && InPhase(g, w) && IsSent(g, r)
    requires g.phases[w].Calling? || g.phases[w].Awaiting? || g.phases[w].Confirmed?
    ensures g.core.holders[w] != r && KeyOf(g.core.db, g.core.holders[w]) != KeyOf(g.core.db, r)
  {
    assert PhaseOk(g, w);
  }

  /** The provider decides only about calls that are there. */
  lemma SentProvider(g: GSys, k: nat, fate: Fate, r: nat)
    requires Flying(g, k) && r < |g.core.db.runs| && IsSent(g, r)
    ensures SameSend(g, g.(calls := WithFate(g.calls, k, fate)), r)
  {
  }

  /** A worker of another run issues its own request or marks its own row. */
  lemma SentOther(g: GSys, h: GSys, w: nat, q: nat, r: nat)
    requires h.core == g.core && r < |g.core.db.runs| && IsSent(g, r) && q != r && KeyOf(g.core.db, q) != KeyOf(g.core.db, r)
    requires h.calls == g.calls || h.calls == g.calls + [Call(q, InFlight, false)] || exists k :: h.calls == WithMark(g.calls, k)
    requires h.intents == g.intents || exists id :: h.intents == MarkIntents(g.intents, KeyOf(g.core.db, q), id)
    ensures SameSend(g, h, r)
  {
  }

  lemma SentWorker(cfg: Config, g: GSys, step: GStep, r: nat)
    requires GateInv(g) && GEnabled(cfg, g, step) && !step.Core? && !step.Begin? && !ByProvider(step)
    requires r < |g.core.db.runs| && IsSent(g, r)
    ensures SameSend(g, GApply(cfg, g, step), r)
  {
    var w := step.worker;
    CallerIsUnsent(g, w, r);
    SentOther(g, GApply(cfg, g, step), w, g.core.holders[w], r);
  }

  lemma SentStep(cfg: Config, g: GSys, step: GStep, r: nat)
    requires ValidConfig(cfg) && GInv(cfg, g) && GEnabled(cfg, g, step)
    requires r < |g.core.db.runs| && IsSent(g, r)
    ensures SameSend(g, GApply(cfg, g, step), r)
  {
    match step
    case Core(c) => SentCore(cfg, g, c, r);
    case Begin(w) => SentBegin(cfg, g, w, r);
    case ProviderAccepts(k, id) => SentProvider(g, k, Accepted(id), r);
    case ProviderRefuses(k) => SentProvider(g, k, Refused, r);
    case _ => SentWorker(cfg, g, step, r);
  }

  lemma SameSendTransitive(f: GSys, g: GSys, h: GSys, r: nat)
    requires SameSend(f, g, r) && SameSend(g, h, r)
    ensures SameSend(f, h, r)
  {
  }

  lemma {:induction false} SentStays(cfg: Config, g: GSys, trace: seq<GStep>, r: nat)
    requires ValidConfig(cfg) && GInv(cfg, g) && GAdmits(cfg, g, trace) && r < |g.core.db.runs| && IsSent(g, r)
    ensures SameSend(g, GExec(cfg, g, trace), r)
    decreases |trace|
  {
    if trace != [] {
      var f := GApply(cfg, g, trace[0]);
      SentStep(cfg, g, trace[0], r);
      GStepKeeps(cfg, g, trace[0]);
      SentStays(cfg, f, trace[1..], r);
      SameSendTransitive(g, f, GExec(cfg, g, trace), r);
    }
  }

  /** 'sent' is absorbing: from then on no history changes the intent row or issues another request
      for the run, so whatever the provider still accepts was issued before. */
  lemma SentIsFinal(cfg: Config, g: GSys, trace: seq<GStep>, r: nat)
    requires ValidConfig(cfg) && GReachable(cfg, g) && GAdmits(cfg, g, trace) && r < |g.core.db.runs| && IsSent(g, r)
    ensures
      var h := GExec(cfg, g, trace);
      SameSend(g, h, r)
      && Count(h.calls, r, Issued) == Count(g.calls, r, Issued)
      && Count(g.calls, r, Taken) <= Count(h.calls, r, Taken) <= Count(g.calls, r, Taken) + Count(g.calls, r, InAir)
  {
    GReachableInv(cfg, g);
    SentStays(cfg, g, trace, r);
    NoNewCounts(g.calls, GExec(cfg, g, trace).calls, r);
  }

  /** No history from g makes the provider accept another send of r. */
  ghost predicate NeverAgain(cfg: Config, g: GSys, r: nat) {
    forall trace :: GAdmits(cfg, g, trace) ==> Count(GExec(cfg, g, trace).calls, r, Taken) == Count(g.calls, r, Taken)
  }

  /** When 'sent' is also final for the provider: exactly when no earlier request of the run is
      still in flight. */
  lemma LateAcceptanceExactly(cfg: Config, g: GSys, r: nat)
    requires ValidConfig(cfg) && GReachable(cfg, g) && r < |g.core.db.runs| && IsSent(g, r)
    ensures NeverAgain(cfg, g, r) <==> Count(g.calls, r, InAir) == 0
  {
    if Count(g.calls, r, InAir) == 0 {
      forall trace | GAdmits(cfg, g, trace)
        ensures Count(GExec(cfg, g, trace).calls, r, Taken) == Count(g.calls, r, Taken)
      {
        SentIsFinal(cfg, g, trace, r);
      }
    } else {
      var k := CountWitness(g.calls, r, InAir);
      var step := ProviderAccepts(k, None);
      CountUpdate(g.calls, k, g.calls[k].(fate := Accepted(None)), r, Taken);
      GSingle(cfg, g, step);
      assert Count(GExec(cfg, g, [step]).calls, r, Taken) > Count(g.calls, r, Taken);
    }
  }

  lemma GSingle(cfg: Config, g: GSys, step: GStep)
    requires GEnabled(cfg, g, step)
    ensures GAdmits(cfg, g, [step]) && GExec(cfg, g, [step]) == GApply(cfg, g, step)
  {
    assert [step][1..] == [];
  }

  lemma BeginDecides(intents: map<string, Intent>, key: string, r: nat)
    ensures BeginPhase(intents, key).Calling? <==> StatusOf(intents, key) != Some(Sent)
    ensures
      var after := BeginIntents(intents, key, r);
      key in after && (after[key].status == Sent <==> StatusOf(intents, key) == Some(Sent))
  {
  }

  /** The gate decides exactly on 'sent': the request of a run that is not sent goes out, with its
      intent written ahead, and that of a sent run does not. */
  lemma GateOpensExactly(cfg: Config, g: GSys, w: nat)
    requires GEnabled(cfg, g, Begin(w))
    ensures
      var h := GApply(cfg, g, Begin(w));
      var key := KeyOf(g.core.db, g.core.holders[w]);
      (GEnabled(cfg, h, Issue(w)) <==> !IsSent(g, g.core.holders[w]))
      && key in h.intents && (h.intents[key].status == Sent <==> IsSent(g, g.core.holders[w]))
      && h.calls == g.calls
  {
    BeginDecides(g.intents, KeyOf(g.core.db, g.core.holders[w]), g.core.holders[w]);
  }

  /** A confirmed send is recorded with the id of its answer. */
  lemma MarkRecords(cfg: Config, g: GSys, w: nat)
    requires ValidConfig(cfg) && GReachable(cfg, g) && GEnabled(cfg, g, MarkSent(w))
    ensures
      var h := GApply(cfg, g, MarkSent(w));
      var key := KeyOf(g.core.db, g.core.holders[w]);
      IsSent(h, g.core.holders[w]) && h.intents[key].providerId == g.phases[w].providerId
  {
    GReachableInv(cfg, g);
    assert PhaseOk(g, w);
  }

  /** While the rest of the system moves, a worker keeps its place in the send exactly as long as it
      keeps its run; a new claim starts over, and nothing else of the gate moves. */
  lemma PlacesKept(cfg: Config, g: GSys, c: Step, w: nat)
    requires ValidConfig(cfg) && GReachable(cfg, g) && Enabled(cfg, g.core, c)
    ensures
      var h := GApply(cfg, g, Core(c));
      h.intents == g.intents && h.calls == g.calls
      && (w in h.phases <==> w in h.core.holders)
      && (w in h.core.holders && w in g.core.holders && h.core.holders[w] == g.core.holders[w] ==>
            w in g.phases && h.phases[w] == g.phases[w])
      && (w in h.core.holders && (w in g.core.holders ==> h.core.holders[w] != g.core.holders[w]) ==> h.phases[w] == Start)
  {
    GReachableInv(cfg, g);
    assert PhasesOk(g);
  }

  /** Every replay after 'sent', in whatever later claim, gets the stored provider id back and does
      not call the provider. */
  lemma ReplayIsDeduped(cfg: Config, g: GSys, after: seq<GStep>, w: nat, r: nat)
    requires ValidConfig(cfg) && GReachable(cfg, g) && GAdmits(cfg, g, after) && r < |g.core.db.runs| && IsSent(g, r)
    requires
      var h := GExec(cfg, g, after);
      GEnabled(cfg, h, Begin(w)) && h.core.holders[w] == r
    ensures
      var h := GExec(cfg, g, after);
      GApply(cfg, h, Begin(w)).phases[w] == Deduped(g.intents[KeyOf(g.core.db, r)].providerId)
  {
    GReachableInv(cfg, g);
    GExecKeeps(cfg, g, after);
    SentStays(cfg, g, after, r);
    SentBegin(cfg, GExec(cfg, g, after), w, r);
  }
}
