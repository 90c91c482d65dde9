/**
 * What a step reports: the per-agent dictionaries, the termination and
 * truncation flags, the episode summary, the stored reward components, and
 * the fact that in local mode the agents' rewards add up to the shared one.
 */
module OutcomeProperties {
  import opened Common
  import opened Config
  import opened Reward
  import opened Transition

  // ------------------------------------------------------------ counts as set sizes

  function AliveSet(e: seq<real>): set<nat>
  {
    set i: nat | i < |e| && e[i] > 0.0
  }

  /** CountAlive is the number of agents with positive energy. */
  lemma {:induction false} CountAliveIsCardinality(e: seq<real>)
    ensures CountAlive(e) == |AliveSet(e)|
  {
    if |e| > 0 {
      var init := e[..|e| - 1];
      CountAliveIsCardinality(init);
      assert forall i :: 0 <= i < |init| ==> init[i] == e[i];
      if e[|e| - 1] > 0.0 {
        assert AliveSet(e) == AliveSet(init) + {|e| - 1};
      } else {
        assert AliveSet(e) == AliveSet(init);
      }
    }
  }

  function IsolatedSet(w: World, k: nat): set<nat>
    requires Shaped(w) && k <= |w.energy|
  {
    set i: nat | i < k && Isolated(w, i)
  }

  /** The isolation count is the number of alive agents with no neighbour. */
  lemma {:induction false} IsolatedUpToIsCardinality(w: World, k: nat)
    requires Shaped(w) && k <= |w.energy|
    ensures IsolatedUpTo(w, k) == |IsolatedSet(w, k)|
  {
    if k > 0 {
      IsolatedUpToIsCardinality(w, k - 1);
      if Isolated(w, k - 1) {
        assert IsolatedSet(w, k) == IsolatedSet(w, k - 1) + {k - 1};
      } else {
        assert IsolatedSet(w, k) == IsolatedSet(w, k - 1);
      }
    }
  }

  // ------------------------------------------------------------ termination

  /** The mission fails exactly when at most max(1, n / 4) agents are alive. */
  lemma MissionFailedThreshold(e: seq<real>)
    ensures MissionFailed(e) <==> CountAlive(e) <= MaxInt(1, |e| / 4)
  {
  }

  /** With fewer than eight agents (the default is six) the mission fails once at most one is alive. */
  lemma SmallTeamFailsAtOneAlive(e: seq<real>)
    requires |e| < 8
    ensures MissionFailed(e) <==> CountAlive(e) <= 1
  {
  }

  // ------------------------------------------------------------ dictionaries by name

  /** Every entry of a dictionary built from a constant column holds that constant. */
  lemma {:induction false} ByNameConstant<V>(names: seq<string>, vals: seq<V>, v: V)
    requires |names| == |vals| && forall k :: 0 <= k < |vals| ==> vals[k] == v
    ensures forall key :: key in ByName(names, vals) ==> ByName(names, vals)[key] == v
  {
    if |names| > 0 {
      ByNameConstant(names[..|names| - 1], vals[..|vals| - 1], v);
    }
  }

  /** With distinct names, name k maps to value k. */
  lemma {:induction false} ByNameDistinct<V>(names: seq<string>, vals: seq<V>, k: nat)
    requires |names| == |vals| && k < |names|
    requires forall a, b :: 0 <= a < b < |names| ==> names[a] != names[b]
    ensures names[k] in ByName(names, vals) && ByName(names, vals)[names[k]] == vals[k]
  {
    if k < |names| - 1 {
      ByNameDistinct(names[..|names| - 1], vals[..|vals| - 1], k);
    }
  }

  // ------------------------------------------------------------ the step's report

  /**
   * Every agent gets the same terminated and truncated flags: terminated iff
   * the mission failed on the final energies, truncated iff the new clock
   * reached max_steps. When either holds every info carries the same episode
   * summary; otherwise none does.
   */
  lemma FlagsAndSummaryShared(c: OrbitalConfig, w: World, tl: Tally, names: seq<string>)
    requires Shaped(w) && TallyShaped(tl, |w.energy|) && |names| <= |w.energy|
    ensures var r := Assemble(c, w, tl, names);
      var term := MissionFailed(w.energy);
      var trunc := w.t >= c.maxSteps;
      var keys := set k | 0 <= k < |names| :: names[k];
      r.1.terminated.Keys == keys && r.1.truncated.Keys == keys &&
      r.1.rewards.Keys == keys && r.1.infos.Keys == keys &&
      (forall name :: name in keys ==> r.1.terminated[name] == term && r.1.truncated[name] == trunc) &&
      (forall name :: name in keys ==>
         r.1.infos[name].episode ==
           (if term || trunc then Some(Episode(w.t, w.deliveredTotal, r.0.lastReward, CountAlive(w.energy))) else None) &&
         r.1.infos[name].time == w.t && r.1.infos[name].rewardComponents == r.0.lastComponents)
  {
    var r := Assemble(c, w, tl, names);
    var m := |names|;
    var term := MissionFailed(w.energy);
    var trunc := w.t >= c.maxSteps;
    var comps := SharedComponents(w, tl);
    var shared := ComputeSharedReward(comps, c.rewardWeights);
    var w' := w.(lastComponents := comps, lastReward := shared);
    var summary := if term || trunc then Some(Episode(w'.t, w'.deliveredTotal, shared, CountAlive(w'.energy))) else None;
    var infos := seq(m, k requires 0 <= k < m => BuildInfo(w', k).(episode := summary));
    ByNameConstant(names, seq(m, _ => term), term);
    ByNameConstant(names, seq(m, _ => trunc), trunc);
    ByNameInfos(names, infos, summary, w'.t, comps);
  }

  lemma {:induction false} ByNameInfos(names: seq<string>, infos: seq<Info>, summary: Option<Episode>, t: int,
                                       comps: map<string, real>)
    requires |names| == |infos|
    requires forall k :: 0 <= k < |infos| ==>
      infos[k].episode == summary && infos[k].time == t && infos[k].rewardComponents == comps
    ensures forall key :: key in ByName(names, infos) ==>
      ByName(names, infos)[key].episode == summary && ByName(names, infos)[key].time == t &&
      ByName(names, infos)[key].rewardComponents == comps
  {
    if |names| > 0 {
      ByNameInfos(names[..|names| - 1], infos[..|infos| - 1], summary, t, comps);
    }
  }

  /**
   * The stored components: failure is n minus the alive count, isolation the
   * number of alive agents with no neighbour, the other four the tick's
   * totals; the stored reward is their weighted sum.
   */
  lemma StoredComponents(c: OrbitalConfig, w: World, tl: Tally, names: seq<string>)
    requires Shaped(w) && TallyShaped(tl, |w.energy|) && |names| <= |w.energy|
    ensures var w' := Assemble(c, w, tl, names).0;
      w'.lastComponents.Keys == (set k | 0 <= k < |ComponentNames| :: ComponentNames[k]) &&
      w'.lastComponents["failure"] == (|w.energy| - |AliveSet(w.energy)|) as real &&
      w'.lastComponents["isolation"] == |IsolatedSet(w, |w.energy|)| as real &&
      w'.lastComponents["task"] == Sum(tl.serviced) && w'.lastComponents["delivery"] == Sum(tl.delivered) &&
      w'.lastComponents["energy"] == Sum(tl.spent) && w'.lastComponents["cyber"] == Sum(tl.cyber) &&
      w'.lastReward == ComputeSharedReward(w'.lastComponents, c.rewardWeights)
  {
    CountAliveIsCardinality(w.energy);
    IsolatedUpToIsCardinality(w, |w.energy|);
    var keys := set k | 0 <= k < |ComponentNames| :: ComponentNames[k];
    assert keys == {"task", "delivery", "energy", "isolation", "failure", "cyber"} by {
      assert ComponentNames[0] == "task" && ComponentNames[1] == "delivery" && ComponentNames[2] == "energy";
      assert ComponentNames[3] == "isolation" && ComponentNames[4] == "failure" && ComponentNames[5] == "cyber";
    }
  }

  /** In shared mode every agent receives the shared reward. */
  lemma SharedModeSameReward(c: OrbitalConfig, w: World, tl: Tally, names: seq<string>)
    requires Shaped(w) && TallyShaped(tl, |w.energy|) && |names| <= |w.energy| && c.rewardMode != "local"
    ensures var r := Assemble(c, w, tl, names);
      forall name :: name in r.1.rewards ==> r.1.rewards[name] == r.0.lastReward
  {
    var r := Assemble(c, w, tl, names);
    var m := |names|;
    var rewards := seq(m, k requires 0 <= k < m => AgentReward(c, r.0, tl, k, r.0.lastReward));
    ByNameConstant(names, rewards, r.0.lastReward);
  }

  // ------------------------------------------------------------ local rewards add up

  /** The six components summed over the first k agents. */
  function PrefixComponents(w: World, tl: Tally, k: nat): map<string, real>
    requires Shaped(w) && TallyShaped(tl, |w.energy|) && k <= |w.energy|
  {
    map[
      "task" := Sum(tl.serviced[..k]),
      "delivery" := Sum(tl.delivered[..k]),
      "energy" := Sum(tl.spent[..k]),
      "isolation" := IsolatedUpTo(w, k) as real,
      "failure" := (k - CountAlive(w.energy[..k])) as real,
      "cyber" := Sum(tl.cyber[..k])]
  }

  /** The local rewards of the first k agents, added up. */
  function LocalTotal(w: World, tl: Tally, weights: map<string, real>, k: nat): real
    requires Shaped(w) && TallyShaped(tl, |w.energy|) && k <= |w.energy|
  {
    if k == 0 then 0.0 else LocalTotal(w, tl, weights, k - 1) + ComputeSharedReward(LocalComponents(w, tl, k - 1), weights)
  }

  lemma RewardReadsOnlyComponents(c1: map<string, real>, c2: map<string, real>, weights: map<string, real>)
    requires forall k :: 0 <= k < |ComponentNames| ==> Get(c1, ComponentNames[k]) == Get(c2, ComponentNames[k])
    ensures ComputeSharedReward(c1, weights) == ComputeSharedReward(c2, weights)
  {
    assert Get(c1, ComponentNames[0]) == Get(c2, ComponentNames[0]);
    assert Get(c1, ComponentNames[1]) == Get(c2, ComponentNames[1]);
    assert Get(c1, ComponentNames[2]) == Get(c2, ComponentNames[2]);
    assert Get(c1, ComponentNames[3]) == Get(c2, ComponentNames[3]);
    assert Get(c1, ComponentNames[4]) == Get(c2, ComponentNames[4]);
    assert Get(c1, ComponentNames[5]) == Get(c2, ComponentNames[5]);
  }

  lemma SumPrefixStep(s: seq<real>, k: nat)
    requires k < |s|
    ensures Sum(s[..k + 1]) == Sum(s[..k]) + s[k]
  {
    assert s[..k + 1][..k] == s[..k];
  }

  lemma AlivePrefixStep(e: seq<real>, k: nat)
    requires k < |e|
    ensures CountAlive(e[..k + 1]) == CountAlive(e[..k]) + (if e[k] > 0.0 then 1 else 0)
  {
    assert e[..k + 1][..k] == e[..k];
  }

  /** Adding agent k's local components to the first k agents' totals gives the first k + 1 agents' totals. */
  lemma PrefixStep(w: World, tl: Tally, k: nat)
    requires Shaped(w) && TallyShaped(tl, |w.energy|) && k < |w.energy|
    ensures forall j :: 0 <= j < |ComponentNames| ==>
      Get(PrefixComponents(w, tl, k + 1), ComponentNames[j])
        == Get(AddComponents(PrefixComponents(w, tl, k), LocalComponents(w, tl, k)), ComponentNames[j])
  {
    SumPrefixStep(tl.serviced, k);
    SumPrefixStep(tl.delivered, k);
    SumPrefixStep(tl.spent, k);
    SumPrefixStep(tl.cyber, k);
    AlivePrefixStep(w.energy, k);
  }

  lemma {:induction false} LocalTotalIsPrefixReward(w: World, tl: Tally, weights: map<string, real>, k: nat)
    requires Shaped(w) && TallyShaped(tl, |w.energy|) && k <= |w.energy|
    ensures LocalTotal(w, tl, weights, k) == ComputeSharedReward(PrefixComponents(w, tl, k), weights)
  {
    if k == 0 {
      ZeroComponentsZeroReward(PrefixComponents(w, tl, 0), weights);
    } else {
      LocalTotalIsPrefixReward(w, tl, weights, k - 1);
      PrefixStep(w, tl, k - 1);
      var sum := AddComponents(PrefixComponents(w, tl, k - 1), LocalComponents(w, tl, k - 1));
      RewardIsAdditive(PrefixComponents(w, tl, k - 1), LocalComponents(w, tl, k - 1), weights);
      RewardReadsOnlyComponents(PrefixComponents(w, tl, k), sum, weights);
    }
  }

  /**
   * Local mode splits the shared reward: the sum over all agents of their
   * local rewards equals the shared reward of the same tick.
   */
  lemma LocalRewardsSumToShared(w: World, tl: Tally, weights: map<string, real>)
    requires Shaped(w) && TallyShaped(tl, |w.energy|)
    ensures LocalTotal(w, tl, weights, |w.energy|) == ComputeSharedReward(SharedComponents(w, tl), weights)
  {
    var n := |w.energy|;
    LocalTotalIsPrefixReward(w, tl, weights, n);
    assert tl.serviced[..n] == tl.serviced && tl.delivered[..n] == tl.delivered;
    assert tl.spent[..n] == tl.spent && tl.cyber[..n] == tl.cyber && w.energy[..n] == w.energy;
    RewardReadsOnlyComponents(PrefixComponents(w, tl, n), SharedComponents(w, tl), weights);
  }

  /** Sum of the dictionary's rewards over the first k names. */
  function RewardsOver(rewards: map<string, real>, names: seq<string>, k: nat): real
    requires k <= |names| && forall j :: 0 <= j < |names| ==> names[j] in rewards
  {
    if k == 0 then 0.0 else RewardsOver(rewards, names, k - 1) + rewards[names[k - 1]]
  }

  /** In local mode each distinct name's reward is that agent's own weighted components. */
  lemma LocalRewardLookup(c: OrbitalConfig, w: World, tl: Tally, names: seq<string>)
    requires Shaped(w) && TallyShaped(tl, |w.energy|) && |names| == |w.energy| && c.rewardMode == "local"
    requires forall a, b :: 0 <= a < b < |names| ==> names[a] != names[b]
    ensures var r := Assemble(c, w, tl, names);
      forall j :: 0 <= j < |names| ==>
        names[j] in r.1.rewards && r.1.rewards[names[j]] == ComputeSharedReward(LocalComponents(r.0, tl, j), c.rewardWeights)
  {
    var r := Assemble(c, w, tl, names);
    var m := |names|;
    var w' := r.0;
    var rewards := seq(m, k requires 0 <= k < m => AgentReward(c, w', tl, k, w'.lastReward));
    assert r.1.rewards == ByName(names, rewards);
    forall j | 0 <= j < m
      ensures names[j] in r.1.rewards && r.1.rewards[names[j]] == ComputeSharedReward(LocalComponents(w', tl, j), c.rewardWeights)
    {
      ByNameDistinct(names, rewards, j);
    }
  }

  /**
   * In local mode, with one distinct name per agent, the rewards handed out by
   * a step add up to the shared reward it stores.
   */
  lemma LocalModeRewardsAddUp(c: OrbitalConfig, w: World, tl: Tally, names: seq<string>)
    requires Shaped(w) && TallyShaped(tl, |w.energy|) && |names| == |w.energy| && c.rewardMode == "local"
    requires forall a, b :: 0 <= a < b < |names| ==> names[a] != names[b]
    ensures var r := Assemble(c, w, tl, names);
      (forall j :: 0 <= j < |names| ==> names[j] in r.1.rewards) &&
      RewardsOver(r.1.rewards, names, |names|) == r.0.lastReward
  {
    var r := Assemble(c, w, tl, names);
    var w' := r.0;
    LocalRewardLookup(c, w, tl, names);
    MatchLocalTotal(w', tl, c.rewardWeights, r.1.rewards, names, |names|);
    LocalRewardsSumToShared(w', tl, c.rewardWeights);
    SharedComponentsSameGraph(w, w', tl);
  }

  lemma SharedComponentsSameGraph(w: World, w': World, tl: Tally)
    requires Shaped(w) && Shaped(w') && w'.energy == w.energy && w'.adj == w.adj
    ensures SharedComponents(w', tl) == SharedComponents(w, tl)
  {
    IsolatedUpToSameGraph(w, w', |w.energy|);
  }

  lemma {:induction false} MatchLocalTotal(w: World, tl: Tally, weights: map<string, real>, rewards: map<string, real>,
                                           names: seq<string>, k: nat)
    requires Shaped(w) && TallyShaped(tl, |w.energy|) && k <= |names| == |w.energy|
    requires forall j :: 0 <= j < |names| ==>
      names[j] in rewards && rewards[names[j]] == ComputeSharedReward(LocalComponents(w, tl, j), weights)
    ensures RewardsOver(rewards, names, k) == LocalTotal(w, tl, weights, k)
  {
    if k > 0 {
      MatchLocalTotal(w, tl, weights, rewards, names, k - 1);
    }
  }

  /** The isolation count reads only energies and the graph. */
  lemma {:induction false} IsolatedUpToSameGraph(w: World, w': World, k: nat)
    requires Shaped(w) && Shaped(w') && k <= |w.energy| && w'.energy == w.energy && w'.adj == w.adj
    ensures IsolatedUpTo(w', k) == IsolatedUpTo(w, k)
  {
    if k > 0 {
      IsolatedUpToSameGraph(w, w', k - 1);
    }
  }
}
