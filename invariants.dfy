/**
 * The state invariant a tick preserves: every agent's energy stays within
 * [0, energy_budget], positions stay on the grid, timers and buffers stay
 * non-negative, every pool slot keeps a priority in [0.1, 1] and a cell on the
 * grid, and the comm graph is symmetric, loop-free and only links agents within
 * comm_radius. It holds after reset and after every step, given non-negative
 * action costs, recharge rate and budget.
 */
module Invariants {
  import opened Common
  import opened Draws
  import opened Config
  import opened Reward
  import opened Transition
  import opened GraphProperties

  /** Configuration assumptions beyond validation under which the invariant holds. */
  predicate Sound(c: OrbitalConfig)
  {
    Ready(c) && c.energyBudget >= 0.0 && c.rechargeRate >= 0.0 &&
    forall name :: name in c.energyCosts ==> c.energyCosts[name] >= 0.0
  }

  predicate InGrid(c: OrbitalConfig, p: Cell)
  {
    0 <= p.x < c.gridSize && 0 <= p.y < c.gridSize
  }

  predicate AgentOk(c: OrbitalConfig, w: World, i: nat)
    requires Shaped(w) && i < |w.energy|
  {
    0.0 <= w.energy[i] <= c.energyBudget && InGrid(c, w.positions[i]) &&
    w.compromisedFor[i] >= 0 && w.scanBoost[i] >= 0 && w.buffered[i] >= 0.0
  }

  predicate AgentsOk(c: OrbitalConfig, w: World)
    requires Shaped(w)
  {
    forall i :: 0 <= i < |w.energy| ==> AgentOk(c, w, i)
  }

  predicate TaskOk(c: OrbitalConfig, task: Task)
  {
    0.1 <= task.priority <= 1.0 && InGrid(c, Cell(task.x, task.y)) && task.age >= 0
  }

  predicate PoolOk(c: OrbitalConfig, tasks: seq<Task>)
  {
    |tasks| == c.numTasks && forall k :: 0 <= k < |tasks| ==> TaskOk(c, tasks[k])
  }

  /** The invariant without the graph; it holds between the phases of a tick too. */
  predicate Mid(c: OrbitalConfig, w: World)
  {
    Shaped(w) && |w.energy| == c.numSatellites && AgentsOk(c, w) && PoolOk(c, w.tasks) && w.deliveredTotal >= 0.0
  }

  /** The graph agrees with the current positions. */
  predicate GraphOk(c: OrbitalConfig, w: World)
    requires Shaped(w)
  {
    forall a, b :: 0 <= a < |w.energy| && 0 <= b < |w.energy| ==>
      w.adj[a][b] == w.adj[b][a] &&
      (w.adj[a][b] ==> a != b && Dist(w.positions[a], w.positions[b]) <= c.commRadius)
  }

  predicate Inv(c: OrbitalConfig, w: World)
  {
    Mid(c, w) && GraphOk(c, w)
  }

  /** Only agent i's energy may differ. */
  predicate OthersEnergyKept(w: World, w': World, i: nat)
  {
    |w'.energy| == |w.energy| &&
    forall k :: 0 <= k < |w.energy| && k != i ==> w'.energy[k] == w.energy[k]
  }

  // ------------------------------------------------------------ phase 1

  lemma CompromiseKeepsInv(c: OrbitalConfig, w: World, rng: Stream)
    requires Accepted(c) && Mid(c, w)
    ensures var w' := Compromise(c, w, rng);
      Mid(c, w') && w'.energy == w.energy && w'.positions == w.positions && w'.adj == w.adj && w'.t == w.t
  {
    var w' := Compromise(c, w, rng);
    forall i | 0 <= i < |w'.energy|
      ensures AgentOk(c, w', i)
    {
      assert AgentOk(c, w, i);
    }
  }

  // ------------------------------------------------------------ phase 2

  lemma MoveKeepsMid(c: OrbitalConfig, w: World, i: nat, rng: Stream)
    requires Accepted(c) && Mid(c, w) && i < |w.energy|
    ensures Mid(c, Move(c, w, i, rng)) && Move(c, w, i, rng).energy == w.energy
  {
    var w' := Move(c, w, i, rng);
    forall k | 0 <= k < |w'.energy|
      ensures AgentOk(c, w', k)
    {
      assert AgentOk(c, w, k);
    }
  }

  lemma ObserveKeepsMid(c: OrbitalConfig, w: World, tl: Tally, i: nat)
    requires Mid(c, w) && i < |w.energy| && TallyShaped(tl, |w.energy|)
    ensures var r := ObserveAction(w, tl, i);
      Mid(c, r.0) && r.0.energy == w.energy
  {
    var r := ObserveAction(w, tl, i);
    match FirstServiceable(w.tasks, w.positions[i])
    case None =>
    case Some(k) =>
      assert TaskOk(c, w.tasks[k]);
      forall j | 0 <= j < |r.0.energy|
        ensures AgentOk(c, r.0, j)
      {
        assert AgentOk(c, w, j);
      }
      forall j | 0 <= j < |r.0.tasks|
        ensures TaskOk(c, r.0.tasks[j])
      {
        assert TaskOk(c, w.tasks[j]);
      }
  }

  lemma DeliverKeepsMid(c: OrbitalConfig, w: World, tl: Tally, i: nat)
    requires Mid(c, w) && i < |w.energy| && TallyShaped(tl, |w.energy|)
    ensures var r := Deliver(w, tl, i);
      Mid(c, r.0) && r.0.energy == w.energy
  {
    var r := Deliver(w, tl, i);
    assert AgentOk(c, w, i);
    forall j | 0 <= j < |r.0.energy|
      ensures AgentOk(c, r.0, j)
    {
      assert AgentOk(c, w, j);
    }
  }

  lemma RelayKeepsMid(c: OrbitalConfig, w: World, tl: Tally, i: nat, rng: Stream)
    requires Mid(c, w) && i < |w.energy| && TallyShaped(tl, |w.energy|)
    ensures var r := RelayAction(c, w, tl, i, rng);
      Mid(c, r.0) && r.0.energy == w.energy
  {
    if w.buffered[i] > 0.0 {
      var w' := w.(drawn := w.drawn + 1);
      assert AgentsOk(c, w') by {
        forall j | 0 <= j < |w'.energy|
          ensures AgentOk(c, w', j)
        {
          assert AgentOk(c, w, j);
        }
      }
      DeliverKeepsMid(c, w, tl, i);
      DeliverKeepsMid(c, w', tl, i);
    }
  }

  lemma CyberscanKeepsMid(c: OrbitalConfig, w: World, i: nat, rng: Stream)
    requires Mid(c, w) && i < |w.energy|
    ensures Mid(c, CyberscanAction(w, i, rng)) && CyberscanAction(w, i, rng).energy == w.energy
  {
    var w' := CyberscanAction(w, i, rng);
    forall j | 0 <= j < |w'.energy|
      ensures AgentOk(c, w', j)
    {
      assert AgentOk(c, w, j);
    }
  }

  lemma LowpowerKeepsMid(c: OrbitalConfig, w: World, i: nat)
    requires Sound(c) && Mid(c, w) && i < |w.energy|
    ensures Mid(c, LowpowerAction(c, w, i)) && OthersEnergyKept(w, LowpowerAction(c, w, i), i)
  {
    var w' := LowpowerAction(c, w, i);
    forall j | 0 <= j < |w'.energy|
      ensures AgentOk(c, w', j)
    {
      assert AgentOk(c, w, j);
    }
  }

  lemma ApplyEffectKeepsMid(c: OrbitalConfig, w: World, tl: Tally, i: nat, name: string, rng: Stream)
    requires Sound(c) && Mid(c, w) && i < |w.energy| && TallyShaped(tl, |w.energy|)
    ensures var r := ApplyEffect(c, w, tl, i, name, rng);
      Mid(c, r.0) && OthersEnergyKept(w, r.0, i) && r.0.t == w.t
  {
    if name == "move" {
      MoveKeepsMid(c, w, i, rng);
    } else if name == "observe" {
      ObserveKeepsMid(c, w, tl, i);
    } else if name == "relay" {
      RelayKeepsMid(c, w, tl, i, rng);
    } else if name == "cyberscan" {
      CyberscanKeepsMid(c, w, i, rng);
    } else if name == "lowpower" {
      LowpowerKeepsMid(c, w, i);
    }
  }

  /** Setting one agent's energy to a value within [0, energy_budget] keeps everything else. */
  lemma SetEnergyKeepsMid(c: OrbitalConfig, w: World, i: nat, v: real)
    requires Mid(c, w) && i < |w.energy| && 0.0 <= v <= c.energyBudget
    ensures var w' := w.(energy := w.energy[i := v]);
      Mid(c, w') && OthersEnergyKept(w, w', i)
  {
    var w' := w.(energy := w.energy[i := v]);
    forall j | 0 <= j < |w'.energy|
      ensures AgentOk(c, w', j)
    {
      assert AgentOk(c, w, j);
    }
  }

  /** The cost is paid in full; energy that would go to 0 or below is clamped to 0 and no effect happens. */
  lemma PayAndApplyKeepsMid(c: OrbitalConfig, w: World, tl: Tally, i: nat, act: int, rng: Stream)
    requires Sound(c) && Mid(c, w) && i < |w.energy| && TallyShaped(tl, |w.energy|)
    ensures var r := PayAndApply(c, w, tl, i, act, rng);
      Mid(c, r.0) && OthersEnergyKept(w, r.0, i) && r.0.t == w.t
  {
    var name := ActionName(act);
    var cost := Cost(c, name);
    var paid := tl.(spent := tl.spent[i := tl.spent[i] + cost]);
    var e := w.energy[i] - cost;
    assert cost >= 0.0;
    assert AgentOk(c, w, i);
    if e <= 0.0 {
      SetEnergyKeepsMid(c, w, i, 0.0);
    } else {
      SetEnergyKeepsMid(c, w, i, e);
      ApplyEffectKeepsMid(c, w.(energy := w.energy[i := e]), paid, i, name, rng);
    }
  }

  lemma ResolveAgentKeepsMid(c: OrbitalConfig, w: World, tl: Tally, i: nat, requested: int, rng: Stream)
    requires Sound(c) && Mid(c, w) && i < |w.energy| && TallyShaped(tl, |w.energy|)
    ensures var r := ResolveAgent(c, w, tl, i, requested, rng);
      Mid(c, r.0) && OthersEnergyKept(w, r.0, i) && r.0.t == w.t && (w.energy[i] <= 0.0 ==> r.0.energy == w.energy)
  {
    if w.energy[i] > 0.0 {
      var p := Perturb(c, w, tl, i, requested, rng);
      assert Mid(c, p.1) by {
        forall j | 0 <= j < |p.1.energy|
          ensures AgentOk(c, p.1, j)
        {
          assert AgentOk(c, w, j);
        }
      }
      PayAndApplyKeepsMid(c, p.1, p.2, i, p.0, rng);
    }
  }

  /** Resolving the first k agents keeps the invariant and leaves the energy of a dead agent, and of every later agent, alone. */
  lemma {:induction false} ResolveAllKeepsMid(c: OrbitalConfig, w: World, tl: Tally, actions: map<string, int>,
                                             names: seq<string>, rng: Stream, k: nat)
    requires Sound(c) && Mid(c, w) && TallyShaped(tl, |w.energy|) && k <= |names| <= |w.energy|
    ensures var r := ResolveAll(c, w, tl, actions, names, rng, k);
      Mid(c, r.0) && r.0.t == w.t &&
      (forall j :: 0 <= j < |w.energy| && (j >= k || w.energy[j] <= 0.0) ==> r.0.energy[j] == w.energy[j])
  {
    if k > 0 {
      var prev := ResolveAll(c, w, tl, actions, names, rng, k - 1);
      ResolveAllKeepsMid(c, w, tl, actions, names, rng, k - 1);
      var r := ResolveAgent(c, prev.0, prev.1, k - 1, ActionFor(actions, names[k - 1]), rng);
      ResolveAgentKeepsMid(c, prev.0, prev.1, k - 1, ActionFor(actions, names[k - 1]), rng);
      var res := ResolveAll(c, w, tl, actions, names, rng, k);
      assert res == r;
      EnergyFrameStep(w, prev.0, r.0, k);
      MidTransfer(c, r.0, res.0);
    }
  }

  lemma MidTransfer(c: OrbitalConfig, x: World, y: World)
    requires Mid(c, x) && x == y
    ensures Mid(c, y)
  {
  }

  /** Agent k - 1 was resolved after the first k - 1: the energy frame extends by one agent. */
  lemma EnergyFrameStep(w: World, prev: World, r: World, k: nat)
    requires 0 < k <= |w.energy| == |prev.energy|
    requires forall j :: 0 <= j < |w.energy| && (j >= k - 1 || w.energy[j] <= 0.0) ==> prev.energy[j] == w.energy[j]
    requires OthersEnergyKept(prev, r, k - 1) && (prev.energy[k - 1] <= 0.0 ==> r.energy == prev.energy)
    ensures forall j :: 0 <= j < |w.energy| && (j >= k || w.energy[j] <= 0.0) ==> r.energy[j] == w.energy[j]
  {
  }

  // ------------------------------------------------------------ phases 3 to 6

  lemma PassiveRechargeKeepsMid(c: OrbitalConfig, w: World)
    requires Sound(c) && Mid(c, w)
    ensures var w' := PassiveRecharge(c, w);
      Mid(c, w') && w'.positions == w.positions && w'.adj == w.adj &&
      (forall j :: 0 <= j < |w.energy| && w.energy[j] <= 0.0 ==> w'.energy[j] == w.energy[j])
  {
    var w' := PassiveRecharge(c, w);
    forall j | 0 <= j < |w'.energy|
      ensures AgentOk(c, w', j)
    {
      assert AgentOk(c, w, j);
    }
  }

  /** One pool slot keeps its bounds whatever happens to it. */
  lemma AgeSlotKeepsPool(c: OrbitalConfig, p: Pool, idx: nat, rng: Stream)
    requires Accepted(c) && PoolOk(c, p.tasks) && idx < |p.tasks|
    ensures PoolOk(c, AgeSlot(c, p, idx, rng).tasks)
  {
    var p' := AgeSlot(c, p, idx, rng);
    assert TaskOk(c, p.tasks[idx]);
    forall k | 0 <= k < |p'.tasks|
      ensures TaskOk(c, p'.tasks[k])
    {
      assert TaskOk(c, p.tasks[k]);
    }
  }

  /**
   * After the first k slots are processed the pool keeps its bounds, and none
   * of those k slots holds an active task older than 25 ticks.
   */
  lemma {:induction false} AgeUpToKeepsPool(c: OrbitalConfig, p: Pool, rng: Stream, k: nat)
    requires Accepted(c) && PoolOk(c, p.tasks) && k <= |p.tasks|
    ensures var p' := AgeUpTo(c, p, rng, k);
      PoolOk(c, p'.tasks) && forall j :: 0 <= j < k && p'.tasks[j].active ==> p'.tasks[j].age <= 25
  {
    if k > 0 {
      var q := AgeUpTo(c, p, rng, k - 1);
      AgeUpToKeepsPool(c, p, rng, k - 1);
      AgeSlotKeepsPool(c, q, k - 1, rng);
    }
  }

  lemma AgeTasksKeepsMid(c: OrbitalConfig, w: World, rng: Stream)
    requires Accepted(c) && Mid(c, w)
    ensures var w' := AgeTasks(c, w, rng);
      Mid(c, w') && w'.energy == w.energy && w'.positions == w.positions && w'.adj == w.adj &&
      forall j :: 0 <= j < |w'.tasks| && w'.tasks[j].active ==> w'.tasks[j].age <= 25
  {
    var w' := AgeTasks(c, w, rng);
    AgeUpToKeepsPool(c, Pool(w.tasks, w.drawn), rng, |w.tasks|);
    forall j | 0 <= j < |w'.energy|
      ensures AgentOk(c, w', j)
    {
      assert AgentOk(c, w, j);
    }
  }

  lemma RebuildGraphGivesInv(c: OrbitalConfig, w: World, rng: Stream)
    requires Mid(c, w)
    ensures var w' := RebuildGraph(c, w, rng);
      Inv(c, w') && w'.energy == w.energy && w'.tasks == w.tasks
  {
    var w' := RebuildGraph(c, w, rng);
    RebuildGraphExact(c, w, rng);
    RebuildGraphLinksInRange(c, w, rng);
    forall j | 0 <= j < |w'.energy|
      ensures AgentOk(c, w', j)
    {
      assert AgentOk(c, w, j);
    }
  }

  lemma DecayKeepsInv(c: OrbitalConfig, w: World)
    requires Inv(c, w)
    ensures var w' := DecayAndTick(w);
      Inv(c, w') && w'.energy == w.energy && w'.tasks == w.tasks && w'.t == w.t + 1
  {
    var w' := DecayAndTick(w);
    forall j | 0 <= j < |w'.energy|
      ensures AgentOk(c, w', j)
    {
      assert AgentOk(c, w, j);
    }
  }

  // ------------------------------------------------------------ whole tick and reset

  /** Phases 3 to 6 restore the graph part of the invariant and never revive a dead agent. */
  lemma SettleGivesInv(c: OrbitalConfig, w: World, rng: Stream)
    requires Sound(c) && Mid(c, w)
    ensures var w' := Settle(c, w, rng);
      Inv(c, w') && w'.t == w.t + 1 &&
      forall j :: 0 <= j < |w.energy| && w.energy[j] <= 0.0 ==> w'.energy[j] == w.energy[j]
  {
    var w3 := PassiveRecharge(c, w);
    PassiveRechargeKeepsMid(c, w);
    var w4 := AgeTasks(c, w3, rng);
    AgeTasksKeepsMid(c, w3, rng);
    var w5 := RebuildGraph(c, w4, rng);
    RebuildGraphGivesInv(c, w4, rng);
    DecayKeepsInv(c, w5);
  }

  /** Phase 7 only records the components and the reward. */
  lemma AssembleRecordsOnly(c: OrbitalConfig, w: World, tl: Tally, names: seq<string>)
    requires Shaped(w) && TallyShaped(tl, |w.energy|) && |names| <= |w.energy|
    ensures Assemble(c, w, tl, names).0 == w.(lastComponents := SharedComponents(w, tl),
                                              lastReward := ComputeSharedReward(SharedComponents(w, tl), c.rewardWeights))
  {
  }

  /** Phases 1 and 2 keep everything but the graph and never revive a dead agent. */
  lemma ActKeepsMid(c: OrbitalConfig, w: World, actions: map<string, int>, names: seq<string>, rng: Stream)
    requires Sound(c) && Mid(c, w) && |names| <= |w.energy|
    ensures var acted := Act(c, w, actions, names, rng);
      Mid(c, acted.0) && acted.0.t == w.t &&
      forall j :: 0 <= j < |w.energy| && w.energy[j] <= 0.0 ==> acted.0.energy[j] == w.energy[j]
  {
    var w1 := Compromise(c, w, rng);
    CompromiseKeepsInv(c, w, rng);
    ResolveAllKeepsMid(c, w1, ZeroTally(|w.energy|), actions, names, rng, |names|);
  }

  /**
   * A step keeps the invariant, advances the clock by one, and never revives
   * an agent whose energy had reached 0.
   */
  lemma StepKeepsInv(c: OrbitalConfig, w: World, actions: map<string, int>, names: seq<string>, rng: Stream)
    requires Sound(c) && Inv(c, w) && |names| <= |w.energy|
    ensures var w' := Step(c, w, actions, names, rng).0;
      Inv(c, w') && w'.t == w.t + 1 &&
      forall j :: 0 <= j < |w.energy| && w.energy[j] <= 0.0 ==> w'.energy[j] == 0.0
  {
    var acted := Act(c, w, actions, names, rng);
    ActKeepsMid(c, w, actions, names, rng);
    var w6 := Settle(c, acted.0, rng);
    SettleGivesInv(c, acted.0, rng);
    AssembleRecordsOnly(c, w6, acted.1, names);
    InvIgnoresRecords(c, w6, SharedComponents(w6, acted.1), ComputeSharedReward(SharedComponents(w6, acted.1), c.rewardWeights));
    forall j | 0 <= j < |w.energy| && w.energy[j] <= 0.0
      ensures w6.energy[j] == 0.0
    {
      assert AgentOk(c, w, j);
    }
  }

  lemma InvIgnoresRecords(c: OrbitalConfig, w: World, comps: map<string, real>, reward: real)
    requires Inv(c, w)
    ensures Inv(c, w.(lastComponents := comps, lastReward := reward))
  {
    var w' := w.(lastComponents := comps, lastReward := reward);
    forall j | 0 <= j < |w'.energy|
      ensures AgentOk(c, w', j)
    {
      assert AgentOk(c, w, j);
    }
  }

  /** Reset establishes the invariant with every agent at full energy. */
  lemma ResetGivesInv(c: OrbitalConfig, rng: Stream)
    requires Accepted(c) && c.energyBudget >= 0.0
    ensures var w := Reset(c, rng);
      Inv(c, w) && w.t == 0 && (forall j :: 0 <= j < |w.energy| ==> w.energy[j] == c.energyBudget)
  {
    var w0 := Initial(c, rng);
    forall j | 0 <= j < |w0.energy|
      ensures AgentOk(c, w0, j)
    {
    }
    forall k | 0 <= k < |w0.tasks|
      ensures TaskOk(c, w0.tasks[k])
    {
    }
    RebuildGraphGivesInv(c, w0, rng);
  }
}
