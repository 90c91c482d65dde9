/**
 * Whole-tick consequences of particular configurations and action choices:
 * an all-idle tick collects nothing and moves nobody, a lone agent is always
 * isolated, and without an adversary no agent is ever compromised and no
 * cyber penalty accrues.
 */
module ScenarioProperties {
  import opened Common
  import opened Draws
  import opened Config
  import opened Reward
  import opened Transition
  import opened GraphProperties
  import opened ActionProperties
  import opened Invariants

  lemma {:induction false} AllAliveCount(e: seq<real>)
    requires forall k :: 0 <= k < |e| ==> e[k] > 0.0
    ensures CountAlive(e) == |e|
  {
    if |e| > 0 {
      AllAliveCount(e[..|e| - 1]);
    }
  }

  /** Phases 3 to 6 move nobody, deliver nothing, touch energy only by the passive recharge, and decay the timers. */
  lemma SettleFrame(c: OrbitalConfig, w: World, rng: Stream)
    requires Shaped(w) && Ready(c)
    ensures var s := Settle(c, w, rng);
      var aged := AgeTasks(c, PassiveRecharge(c, w), rng);
      s.positions == w.positions && s.deliveredTotal == w.deliveredTotal &&
      s.energy == PassiveRecharge(c, w).energy && s.compromisedFor == Decayed(w.compromisedFor) &&
      s.adj == RebuildGraph(c, aged, rng).adj
  {
  }

  /** No agent's action writes the graph. */
  lemma ResolveAgentKeepsGraph(c: OrbitalConfig, w: World, tl: Tally, i: nat, requested: int, rng: Stream)
    requires Shaped(w) && i < |w.energy| && TallyShaped(tl, |w.energy|) && Ready(c)
    ensures ResolveAgent(c, w, tl, i, requested, rng).0.adj == w.adj
  {
    if w.energy[i] > 0.0 {
      var p := Perturb(c, w, tl, i, requested, rng);
      var e := p.1.energy[i] - Cost(c, ActionName(p.0));
      if e > 0.0 && ActionName(p.0) == "relay" {
        var paid := p.2.(spent := p.2.spent[i := p.2.spent[i] + Cost(c, "relay")]);
        RelayUsesCurrentGraph(c, p.1.(energy := p.1.energy[i := e]), paid, i, rng, w.adj);
      }
    }
  }

  /** Phase 2 as a whole leaves the graph exactly as phase 1 found it. */
  lemma {:induction false} ResolveAllKeepsGraph(c: OrbitalConfig, w: World, tl: Tally, actions: map<string, int>,
                                                names: seq<string>, rng: Stream, k: nat)
    requires Shaped(w) && TallyShaped(tl, |w.energy|) && Ready(c) && k <= |names| <= |w.energy|
    ensures ResolveAll(c, w, tl, actions, names, rng, k).0.adj == w.adj
  {
    if k > 0 {
      var prev := ResolveAll(c, w, tl, actions, names, rng, k - 1);
      ResolveAllKeepsGraph(c, w, tl, actions, names, rng, k - 1);
      ResolveAgentKeepsGraph(c, prev.0, prev.1, k - 1, ActionFor(actions, names[k - 1]), rng);
    }
  }

  /**
   * Every relay of a tick runs on the graph the previous tick (or reset)
   * stored: phases 1 and 2 hand the graph to phase 3 untouched, and only the
   * rebuild in Settle replaces it.
   */
  lemma ActReadsPreviousGraph(c: OrbitalConfig, w: World, actions: map<string, int>, names: seq<string>, rng: Stream)
    requires Shaped(w) && Ready(c) && |names| <= |w.energy|
    ensures Compromise(c, w, rng).adj == w.adj
    ensures Act(c, w, actions, names, rng).0.adj == w.adj
  {
    ResolveAllKeepsGraph(c, Compromise(c, w, rng), ZeroTally(|w.energy|), actions, names, rng, |names|);
  }

  /** The passive recharge never kills an alive agent when the budget is positive. */
  lemma RechargeKeepsAlive(c: OrbitalConfig, w: World)
    requires Shaped(w) && (c.enableRecharge ==> c.sunlightPeriod != 0)
    requires c.energyBudget > 0.0 && c.rechargeRate >= 0.0
    requires forall j :: 0 <= j < |w.energy| ==> w.energy[j] > 0.0
    ensures forall j :: 0 <= j < |w.energy| ==> PassiveRecharge(c, w).energy[j] > 0.0
  {
  }

  /** The stored component dictionary holds v under key. */
  predicate Recorded(comps: map<string, real>, key: string, v: real)
  {
    key in comps && comps[key] == v
  }

  /** A tick is phases 1 and 2, then 3 to 6, then the record of the components and the reward. */
  lemma StepRecords(c: OrbitalConfig, w: World, actions: map<string, int>, names: seq<string>, rng: Stream)
    requires Shaped(w) && Ready(c) && |names| <= |w.energy|
    ensures var acted := Act(c, w, actions, names, rng);
      var settled := Settle(c, acted.0, rng);
      var comps := SharedComponents(settled, acted.1);
      Step(c, w, actions, names, rng).0
        == settled.(lastComponents := comps, lastReward := ComputeSharedReward(comps, c.rewardWeights))
  {
    var acted := Act(c, w, actions, names, rng);
    AssembleRecordsOnly(c, Settle(c, acted.0, rng), acted.1, names);
  }

  /** Where each of the six components of a tick is recorded. */
  lemma ComponentsRecorded(w: World, tl: Tally)
    requires Shaped(w)
    ensures var comps := SharedComponents(w, tl);
      Recorded(comps, "task", Sum(tl.serviced)) && Recorded(comps, "delivery", Sum(tl.delivered)) &&
      Recorded(comps, "energy", Sum(tl.spent)) && Recorded(comps, "isolation", IsolatedUpTo(w, |w.energy|) as real) &&
      Recorded(comps, "failure", (|w.energy| - CountAlive(w.energy)) as real) && Recorded(comps, "cyber", Sum(tl.cyber))
  {
  }

  // ------------------------------------------------------------ all-idle ticks

  /** Every named agent asks for idle (or for nothing, or for an unknown code). */
  predicate AllIdle(actions: map<string, int>, names: seq<string>)
  {
    forall k :: 0 <= k < |names| ==> ActionName(ActionFor(actions, names[k])) == "idle"
  }

  /** Idling costs something non-negative and every agent has more energy than that. */
  predicate Affordable(c: OrbitalConfig, e: seq<real>)
  {
    "idle" in c.energyCosts && 0.0 <= c.energyCosts["idle"] && forall j :: 0 <= j < |e| ==> c.energyCosts["idle"] < e[j]
  }

  /** The energies after the first k agents have paid cost. */
  function IdleCharged(e: seq<real>, k: nat, cost: real): (e': seq<real>)
    ensures |e'| == |e|
  {
    seq(|e|, j requires 0 <= j < |e| => if j < k then e[j] - cost else e[j])
  }

  lemma ChargeOneMore(e: seq<real>, k: nat, cost: real)
    requires k < |e|
    ensures IdleCharged(e, k, cost)[k := e[k] - cost] == IdleCharged(e, k + 1, cost)
  {
  }

  /** An alive agent that idles, with no action noise, pays the idle cost and nothing else happens. */
  lemma ResolveIdleAgent(c: OrbitalConfig, w: World, tl: Tally, i: nat, requested: int, rng: Stream)
    requires Shaped(w) && i < |w.energy| && TallyShaped(tl, |w.energy|) && Ready(c)
    requires c.spoofMode != "action_noise" && ActionName(requested) == "idle"
    requires 0.0 <= c.energyCosts["idle"] < w.energy[i]
    ensures var r := ResolveAgent(c, w, tl, i, requested, rng);
      r.0.positions == w.positions && r.0.deliveredTotal == w.deliveredTotal &&
      r.0.energy == w.energy[i := w.energy[i] - c.energyCosts["idle"]] &&
      r.1.serviced == tl.serviced && r.1.delivered == tl.delivered
  {
  }

  /**
   * Resolving the first k agents of an all-idle tick with no action noise charges
   * each of them the idle cost and changes nothing else in the state.
   */
  lemma {:induction false} ResolveAllIdle(c: OrbitalConfig, w: World, tl: Tally, actions: map<string, int>,
                                          names: seq<string>, rng: Stream, k: nat)
    requires Shaped(w) && TallyShaped(tl, |w.energy|) && Ready(c) && k <= |names| <= |w.energy|
    requires c.spoofMode != "action_noise" && AllIdle(actions, names) && Affordable(c, w.energy)
    ensures var r := ResolveAll(c, w, tl, actions, names, rng, k);
      r.0.positions == w.positions && r.0.deliveredTotal == w.deliveredTotal &&
      r.0.energy == IdleCharged(w.energy, k, c.energyCosts["idle"]) &&
      r.1.serviced == tl.serviced && r.1.delivered == tl.delivered
  {
    if k > 0 {
      var cost := c.energyCosts["idle"];
      var prev := ResolveAll(c, w, tl, actions, names, rng, k - 1);
      ResolveAllIdle(c, w, tl, actions, names, rng, k - 1);
      assert prev.0.energy[k - 1] == w.energy[k - 1];
      ResolveIdleAgent(c, prev.0, prev.1, k - 1, ActionFor(actions, names[k - 1]), rng);
      ChargeOneMore(w.energy, k - 1, cost);
    }
  }

  /** Phases 1 and 2 of an all-idle tick: nobody moves, collects, delivers or dies. */
  lemma ActIdle(c: OrbitalConfig, w: World, actions: map<string, int>, names: seq<string>, rng: Stream)
    requires Shaped(w) && Ready(c) && |names| <= |w.energy|
    requires c.spoofMode != "action_noise" && AllIdle(actions, names) && Affordable(c, w.energy)
    ensures var acted := Act(c, w, actions, names, rng);
      acted.0.positions == w.positions && acted.0.deliveredTotal == w.deliveredTotal &&
      acted.1.serviced == ZeroTally(|w.energy|).serviced && acted.1.delivered == ZeroTally(|w.energy|).delivered &&
      forall j :: 0 <= j < |w.energy| ==> acted.0.energy[j] > 0.0
  {
    var w1 := Compromise(c, w, rng);
    CompromiseAtMostOne(c, w, rng);
    assert w1.energy == w.energy;
    ResolveAllIdle(c, w1, ZeroTally(|w.energy|), actions, names, rng, |names|);
  }

  /**
   * An all-idle tick without action noise: no task is serviced, nothing is
   * delivered and nobody moves; if every agent can afford the idle cost (and
   * the budget is positive) nobody fails either.
   */
  lemma AllIdleTick(c: OrbitalConfig, w: World, actions: map<string, int>, names: seq<string>, rng: Stream)
    requires Shaped(w) && Ready(c) && |names| <= |w.energy|
    requires c.spoofMode != "action_noise" && AllIdle(actions, names) && Affordable(c, w.energy)
    requires c.energyBudget > 0.0 && c.rechargeRate >= 0.0
    ensures var w' := Step(c, w, actions, names, rng).0;
      w'.positions == w.positions && w'.deliveredTotal == w.deliveredTotal &&
      Recorded(w'.lastComponents, "task", 0.0) && Recorded(w'.lastComponents, "delivery", 0.0) &&
      Recorded(w'.lastComponents, "failure", 0.0)
  {
    var n := |w.energy|;
    var acted := Act(c, w, actions, names, rng);
    ActIdle(c, w, actions, names, rng);
    RechargeKeepsAlive(c, acted.0);
    var settled := Settle(c, acted.0, rng);
    SettleFrame(c, acted.0, rng);
    AllAliveCount(settled.energy);
    StepRecords(c, w, actions, names, rng);
    ComponentsRecorded(settled, acted.1);
    SumZeros(n);
  }

  // ------------------------------------------------------------ a lone agent

  /** With a single agent the graph has no edge, so the agent counts as isolated whenever it is alive. */
  lemma LoneAgentIsolated(c: OrbitalConfig, w: World, actions: map<string, int>, names: seq<string>, rng: Stream)
    requires Shaped(w) && Ready(c) && |w.energy| == 1 && |names| <= 1
    ensures var w' := Step(c, w, actions, names, rng).0;
      !w'.adj[0][0] &&
      Recorded(w'.lastComponents, "isolation", if w'.energy[0] > 0.0 then 1.0 else 0.0)
  {
    var acted := Act(c, w, actions, names, rng);
    var aged := AgeTasks(c, PassiveRecharge(c, acted.0), rng);
    RebuildGraphExact(c, aged, rng);
    var settled := Settle(c, acted.0, rng);
    SettleFrame(c, acted.0, rng);
    CountTrueBound(settled.adj[0]);
    StepRecords(c, w, actions, names, rng);
    ComponentsRecorded(settled, acted.1);
  }

  // ------------------------------------------------------------ no adversary

  predicate NoneCompromised(w: World)
  {
    forall k :: 0 <= k < |w.compromisedFor| ==> w.compromisedFor[k] <= 0
  }

  /** An agent that is not compromised never changes any timer of compromise and incurs no penalty. */
  lemma ResolveCleanAgent(c: OrbitalConfig, w: World, tl: Tally, i: nat, requested: int, rng: Stream)
    requires Shaped(w) && i < |w.energy| && TallyShaped(tl, |w.energy|) && Ready(c)
    requires w.compromisedFor[i] <= 0
    ensures var r := ResolveAgent(c, w, tl, i, requested, rng);
      r.0.compromisedFor == w.compromisedFor && r.1.cyber == tl.cyber
  {
  }

  lemma {:induction false} ResolveAllClean(c: OrbitalConfig, w: World, tl: Tally, actions: map<string, int>,
                                           names: seq<string>, rng: Stream, k: nat)
    requires Shaped(w) && TallyShaped(tl, |w.energy|) && Ready(c) && k <= |names| <= |w.energy|
    requires NoneCompromised(w)
    ensures var r := ResolveAll(c, w, tl, actions, names, rng, k);
      r.0.compromisedFor == w.compromisedFor && r.1.cyber == tl.cyber
  {
    if k > 0 {
      var prev := ResolveAll(c, w, tl, actions, names, rng, k - 1);
      ResolveAllClean(c, w, tl, actions, names, rng, k - 1);
      ResolveCleanAgent(c, prev.0, prev.1, k - 1, ActionFor(actions, names[k - 1]), rng);
    }
  }

  /** Phases 1 and 2 without an adversary, starting with nobody compromised. */
  lemma ActClean(c: OrbitalConfig, w: World, actions: map<string, int>, names: seq<string>, rng: Stream)
    requires Shaped(w) && Ready(c) && |names| <= |w.energy|
    requires c.adversarialRate <= 0.0 && NoneCompromised(w)
    ensures var acted := Act(c, w, actions, names, rng);
      acted.0.compromisedFor == w.compromisedFor && acted.1.cyber == ZeroTally(|w.energy|).cyber
  {
    NoAdversaryNoCompromise(c, w, rng);
    ResolveAllClean(c, Compromise(c, w, rng), ZeroTally(|w.energy|), actions, names, rng, |names|);
  }

  /**
   * With adversarial_rate 0, a tick that starts with nobody compromised ends with
   * every compromise timer at 0 and a cyber component of 0; so from reset on,
   * no agent is ever compromised.
   */
  lemma NoAdversaryTick(c: OrbitalConfig, w: World, actions: map<string, int>, names: seq<string>, rng: Stream)
    requires Shaped(w) && Ready(c) && |names| <= |w.energy|
    requires c.adversarialRate <= 0.0 && NoneCompromised(w)
    ensures var w' := Step(c, w, actions, names, rng).0;
      (forall k :: 0 <= k < |w'.compromisedFor| ==> w'.compromisedFor[k] == 0) &&
      Recorded(w'.lastComponents, "cyber", 0.0)
  {
    var acted := Act(c, w, actions, names, rng);
    ActClean(c, w, actions, names, rng);
    var settled := Settle(c, acted.0, rng);
    SettleFrame(c, acted.0, rng);
    StepRecords(c, w, actions, names, rng);
    ComponentsRecorded(settled, acted.1);
    SumZeros(|w.energy|);
  }
}
