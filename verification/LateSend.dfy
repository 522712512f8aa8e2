/** The duplicate the send gate tolerates: a request whose caller timed out is still in flight when
    a retry is confirmed and marked, and the provider accepts it afterwards. */
module LateSend {
  import opened Tables
  import opened Steps
  import opened SendGate
  import LeaseBound

  lemma GStart(cfg: Config, now: int)
    ensures GReachable(cfg, GInit(now))
  {
    var states := [GInit(now)];
    assert Path(cfg, states) && states[|states| - 1] == GInit(now);
  }

  lemma GExtend(cfg: Config, g: GSys, step: GStep)
    requires GReachable(cfg, g) && GEnabled(cfg, g, step)
    ensures GReachable(cfg, GApply(cfg, g, step))
  {
    var states :| Path(cfg, states) && states[|states| - 1] == g;
    var h := GApply(cfg, g, step);
    assert Leads(cfg, g, step, h);
    PathGrows(cfg, states, h);
  }

  lemma PathGrows(cfg: Config, states: seq<GSys>, h: GSys)
    requires Path(cfg, states) && Follows(cfg, states[|states| - 1], h)
    ensures GReachable(cfg, h)
  {
    var more := states + [h];
    forall i | 0 < i < |more| ensures Follows(cfg, more[i - 1], more[i]) {
      if i < |states| { assert Follows(cfg, states[i - 1], states[i]); }
    }
    assert Path(cfg, more) && more[|more| - 1] == h;
  }

  /** A history of the core system alone does not touch the gate. */
  lemma {:induction false} LiftCore(cfg: Config, g: GSys, trace: seq<Step>) returns (h: GSys)
    requires GReachable(cfg, g) && Admits(cfg, g.core, trace)
    ensures GReachable(cfg, h) && h.core == Exec(cfg, g.core, trace) && h.intents == g.intents && h.calls == g.calls
    decreases |trace|
  {
    if trace == [] {
      h := g;
    } else {
      GExtend(cfg, g, Core(trace[0]));
      h := LiftCore(cfg, GApply(cfg, g, Core(trace[0])), trace[1..]);
    }
  }

  /** Worker 0 holds run 0 and is about to open the gate; no intent is sent. */
  ghost predicate Ready(cfg: Config, g: GSys) {
    GReachable(cfg, g) && 0 in g.core.holders && g.core.holders[0] == 0 && 0 in g.phases && g.phases[0].Start?
    && (forall key :: key in g.intents ==> g.intents[key].status.Attempting?)
    && |g.core.db.runs| == 1 && Message(0, 0) in g.core.queue && g.core.now == 0
  }

  lemma FirstClaim(cfg: Config, action: string) returns (g: GSys)
    requires ValidConfig(cfg) && LeaseBound.Creatable(cfg, action)
    ensures Ready(cfg, g) && g.calls == []
  {
    var s := LeaseBound.OneMessage(cfg, action);
    var t0, trace :| Admits(cfg, Init(t0), trace) && Exec(cfg, Init(t0), trace) == s;
    GStart(cfg, t0);
    g := LiftCore(cfg, GInit(t0), trace);
    GExtend(cfg, g, Core(Claim(0, Message(0, 0))));
    g := GApply(cfg, g, Core(Claim(0, Message(0, 0))));
  }

  /** Through the gate and out with a request. */
  lemma IssueOne(cfg: Config, g: GSys) returns (h: GSys)
    requires ValidConfig(cfg) && Ready(cfg, g)
    ensures GReachable(cfg, h) && h.core == g.core && h.calls == g.calls + [Call(0, InFlight, false)]
    ensures 0 in h.phases && h.phases[0] == Awaiting(|g.calls|)
    ensures forall key :: key in h.intents ==> h.intents[key].status.Attempting?
  {
    GExtend(cfg, g, Begin(0));
    h := GApply(cfg, g, Begin(0));
    assert h.phases[0].Calling?;
    GExtend(cfg, h, Issue(0));
    h := GApply(cfg, h, Issue(0));
  }

  /** The client times out, the run goes RETRYING and is claimed again. */
  lemma RetryOne(cfg: Config, g: GSys) returns (h: GSys)
    requires ValidConfig(cfg) && Ready(cfg, g)
    ensures Ready(cfg, h) && h.calls == g.calls + [Call(0, InFlight, false)]
  {
    h := IssueOne(cfg, g);
    GExtend(cfg, h, Core(RetryLater(0)));
    h := GApply(cfg, h, Core(RetryLater(0)));
    assert 0 !in h.core.holders && h.core.db.runs[0].status.Retrying?;
    GExtend(cfg, h, Core(Claim(0, Message(0, 0))));
    h := GApply(cfg, h, Core(Claim(0, Message(0, 0))));
  }

  /** The provider's answer to the latest request arrives. */
  lemma HearOne(cfg: Config, g: GSys, id: Option<string>) returns (h: GSys)
    requires ValidConfig(cfg) && Ready(cfg, g)
    ensures GReachable(cfg, h) && h.core == g.core && h.calls == g.calls + [Call(0, Accepted(id), false)]
    ensures 0 in h.phases && h.phases[0] == Confirmed(|g.calls|, id)
  {
    h := IssueOne(cfg, g);
    var k := |g.calls|;
    GExtend(cfg, h, ProviderAccepts(k, id));
    h := GApply(cfg, h, ProviderAccepts(k, id));
    assert h.calls == g.calls + [Call(0, Accepted(id), false)];
    GExtend(cfg, h, Hear(0));
    h := GApply(cfg, h, Hear(0));
  }

  lemma ConfirmedIsAttempting(cfg: Config, g: GSys)
    requires ValidConfig(cfg) && GReachable(cfg, g) && InPhase(g, 0) && g.phases[0].Confirmed?
    ensures KeyOf(g.core.db, g.core.holders[0]) in g.intents
  {
    GReachableInv(cfg, g);
    assert PhaseOk(g, 0);
  }

  /** Once recorded, the run is sent. */
  lemma ConfirmOne(cfg: Config, g: GSys, id: Option<string>) returns (h: GSys)
    requires ValidConfig(cfg) && Ready(cfg, g)
    ensures GReachable(cfg, h) && h.calls == g.calls + [Call(0, Accepted(id), true)] && |h.core.db.runs| == 1 && IsSent(h, 0)
  {
    h := HearOne(cfg, g, id);
    ConfirmedIsAttempting(cfg, h);
    GExtend(cfg, h, MarkSent(0));
    var marked := WithMark(h.calls, |g.calls|);
    assert marked == g.calls + [Call(0, Accepted(id), true)];
    h := GApply(cfg, h, MarkSent(0));
  }

  lemma TwoCalls(calls: seq<Call>, id: Option<string>)
    requires calls == [Call(0, InFlight, false), Call(0, Accepted(id), true)]
    ensures Count(calls, 0, Taken) == 1 && Count(WithFate(calls, 0, Accepted(id)), 0, Taken) == 2
  {
    var a, b := calls[0], calls[1];
    assert [] + [a] == [a] && [a] + [b] == calls;
    CountAppend([], a, 0, Taken);
    CountAppend([a], b, 0, Taken);
    CountUpdate(calls, 0, a.(fate := Accepted(id)), 0, Taken);
  }

  /** So an acceptance after 'sent' does happen: g is reachable, its run is sent, and one provider
      step later the provider has accepted it twice. */
  lemma LateDuplicate(cfg: Config, action: string, id: Option<string>) returns (g: GSys)
    requires ValidConfig(cfg) && LeaseBound.Creatable(cfg, action)
    ensures GReachable(cfg, g) && |g.core.db.runs| == 1 && IsSent(g, 0)
    ensures Count(g.calls, 0, Taken) == 1 && GEnabled(cfg, g, ProviderAccepts(0, id))
    ensures Count(GApply(cfg, g, ProviderAccepts(0, id)).calls, 0, Taken) == 2
  {
    var first := FirstClaim(cfg, action);
    var second := RetryOne(cfg, first);
    g := ConfirmOne(cfg, second, id);
    TwoCalls(g.calls, id);
  }
}
