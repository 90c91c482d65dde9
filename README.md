# ORBITAL simulation core in Dafny

This project models the simulation engine of ORBITAL. ORBITAL is a multi-agent
environment: a team of satellites on a square grid observe ground tasks,
relay the data they collect to a ground station at cell (0, 0), manage an
energy budget that recharges in sunlight, and defend against an adversary
that compromises satellites.

The engine `OrbitalCore` is modelled twice:

- `Transition` describes one tick as pure functions over a `World` snapshot. The phases are:
  - adversarial compromise;
  - per-agent action resolution (move, observe, relay, cyberscan, lowpower, idle);
  - passive recharge;
  - task ageing and respawn;
  - comm-graph rebuild;
  - timer decay;
  - reward and outcome assembly.
- `Dynamics.OrbitalCore` is a class over arrays, updated in place as the engine
  updates its numpy arrays. Each of its methods is proved to take the object's
  `State()` to the matching `Transition` function of the old state.

The random generator is an opaque stream of unit draws (`Draws.Stream`) plus a
cursor, `drawn`, that counts the draws consumed. Every generator call of the
engine consumes the next draws, in program order. Because of this, `Step` is a
function of the state, the actions, the agent order and the stream, and the
engine is deterministic by construction.

The supporting pieces are also modelled:

- `Reward.ComputeSharedReward`, the six-term weighted sum.
- `Config`: the configuration's defaults and its construction-time checks, as `Violation`/`Accepted`.
- `Spaces`: the action table and the sizes and bounds of the two spaces.

The property modules state what the engine promises:

- `ActionProperties`: the effect of each phase.
- `GraphProperties`: the comm graph.
- `Invariants`: the state invariant that reset establishes and every step keeps.
- `OutcomeProperties`: flags, infos and rewards.
- `ObservationProperties`: the 14-value observation.
- `ScenarioProperties`: three whole-tick scenarios.

Reals stand for floats throughout.

## Model

| member | source | states |
|---|---|---|
| Dynamics.OrbitalCore.constructor | orbital/envs/core/dynamics.py:23-28 | a new engine for an accepted config is in the reset state of the given stream |
| Dynamics.OrbitalCore.Reset | orbital/envs/core/dynamics.py:30-44 | after reset the object's state is `Transition.Reset` of the config and the new stream |
| Dynamics.OrbitalCore.Initialise | orbital/envs/core/dynamics.py:31-43 | reset consumes 2n position draws and then 3 draws per task; it sets full energy, zero timers and buffers, an empty graph and zero records |
| Dynamics.OrbitalCore.Allocate | orbital/envs/core/dynamics.py:35-40 | fresh per-agent arrays, filled with the budget, 0 and 0.0, and an all-false n×n graph |
| Dynamics.OrbitalCore.Restart | orbital/envs/core/dynamics.py:31-43 | the new stream starts at draw 0; clock, delivered total and last reward records are zero |
| Dynamics.OrbitalCore.DrawPositions | orbital/envs/core/dynamics.py:34 | positions are the next 2n draws read row-major, each scaled to [0, grid_size) |
| Dynamics.OrbitalCore.DrawTasks | orbital/envs/core/dynamics.py:39 | the pool is num_tasks spawned tasks, consuming 3 draws each |
| Dynamics.OrbitalCore.SpawnTask | orbital/envs/core/dynamics.py:46-49 | a spawn uses 3 draws (priority, x, y) and equals `Transition.SpawnTask` |
| Transition.SpawnTask | orbital/envs/core/dynamics.py:46-49 | a spawned task is active, has age 0, a priority in [0.2, 1] and a cell on the grid |
| Draws.IntBelow | orbital/envs/core/dynamics.py:71 | an integer draw below k lies in [0, k) |
| Draws.Uniform | orbital/envs/core/dynamics.py:48 | a uniform(lo, hi) draw lies in [lo, hi], and below hi when lo < hi |
| Dynamics.OrbitalCore.UpdateCommGraph | orbital/envs/core/dynamics.py:54-63 | the nested pair loop leaves the graph and the cursor equal to `RebuildGraph` of the old state |
| Dynamics.OrbitalCore.LinkRow | orbital/envs/core/dynamics.py:58-62 | the inner loop over j > i consumes one draw per in-range pair, and the matrix afterwards holds exactly the links found so far, both ways |
| GraphProperties.LinksBeforeExact | orbital/envs/core/dynamics.py:57-62 | after the pairs before (i, j), an edge (a, b) is recorded iff a < b, the pair came earlier, and it is in range with its draw above p_link_drop |
| GraphProperties.LinksAfterRowsExact | orbital/envs/core/dynamics.py:54-63 | after all rows, the edges are exactly the surviving in-range pairs a < b |
| GraphProperties.PairConsumesDrawIffInRange | orbital/envs/core/dynamics.py:60 | a pair consumes one link-drop draw iff it is within comm_radius, because `and` short-circuits |
| GraphProperties.NoRangeNoDraws | orbital/envs/core/dynamics.py:57-62 | with a negative radius no pair is linked and no draw is consumed |
| GraphProperties.RebuildGraphExact | orbital/envs/core/dynamics.py:54-63 | the rebuilt graph keeps positions, links a < b iff the pair survives, is symmetric and has a false diagonal |
| GraphProperties.RebuildGraphLinksInRange | orbital/envs/core/dynamics.py:59-62 | every edge joins two distinct agents within Manhattan distance comm_radius |
| GraphProperties.CertainDropEmptiesGraph | orbital/envs/core/dynamics.py:60 | with p_link_drop ≥ 1 the graph has no edge |
| GraphProperties.CoLocatedLinkedUnlessDropped | orbital/envs/core/dynamics.py:59-62 | two agents on one cell are linked iff their pair's draw exceeds p_link_drop |
| GraphProperties.NegativeRadiusEmptyGraph | orbital/envs/core/dynamics.py:57-63 | with a negative radius the rebuild draws nothing and yields the empty graph |
| Dynamics.OrbitalCore.ApplyMove | orbital/envs/core/dynamics.py:69-72 | the move method equals `Transition.Move` of the old state |
| ActionProperties.MoveIsOneClippedStep | orbital/envs/core/dynamics.py:69-72 | a move uses one draw, lands on the grid, is at most one cell from an on-grid start, and changes no other position, energy or task |
| Dynamics.OrbitalCore.ServiceTask | orbital/envs/core/dynamics.py:111-120 | the observe loop equals `ObserveAction` of the old state and tally |
| Transition.FirstServiceable | orbital/envs/core/dynamics.py:112-120 | it finds the first active task within distance 1, or reports that none exists |
| ActionProperties.ObserveServicesFirstServiceable | orbital/envs/core/dynamics.py:111-120 | observe deactivates at most one task, the first serviceable one. Buffer and serviced grow by exactly its priority. It does so iff a serviceable task exists; nothing else changes |
| Dynamics.OrbitalCore.HasPathToGround | orbital/envs/core/dynamics.py:208-212 | the scan finds a ground-adjacent direct neighbour iff `Transition.HasPathToGround` holds |
| Dynamics.OrbitalCore.Relay | orbital/envs/core/dynamics.py:121-130 | the relay method equals `RelayAction` of the old state and tally |
| Dynamics.OrbitalCore.Deliver | orbital/envs/core/dynamics.py:126-130 | a delivery equals `Transition.Deliver` of the old state and tally |
| ActionProperties.RelayDeliversOrJams | orbital/envs/core/dynamics.py:121-130 | relay moves min(1, buffer) into delivered and the lifetime total exactly when the buffer is positive, it is not jammed and ground is reachable. A jam adds 1.0 cyber penalty. The jam roll is drawn only for a compromised agent under comm_jam with a positive buffer. The buffer never goes negative |
| ActionProperties.PathReadsOneRow | orbital/envs/core/dynamics.py:208-212 | single-hop reachability of agent i is the same under any graph that agrees on row i |
| ActionProperties.RelayUsesCurrentGraph | orbital/envs/core/dynamics.py:121-130 | relay reads the graph only through the agent's own row and never writes it. Run on any graph that agrees on that row, it yields the same state (apart from the graph) and the same tally |
| ScenarioProperties.ResolveAgentKeepsGraph | orbital/envs/core/dynamics.py:92-137 | no action of one agent changes the stored graph |
| ScenarioProperties.ResolveAllKeepsGraph | orbital/envs/core/dynamics.py:91-137 | the whole action loop leaves the stored graph as the adversarial phase left it |
| ScenarioProperties.ActReadsPreviousGraph | orbital/envs/core/dynamics.py:84-148 | phases 1 and 2 hand the graph to phase 3 untouched, so every relay of a tick reads the graph stored by the previous tick (or reset); only the rebuild in phase 5 replaces it |
| Dynamics.OrbitalCore.Cyberscan | orbital/envs/core/dynamics.py:131-134 | the cyberscan method equals `CyberscanAction` of the old state |
| ActionProperties.CyberscanEffect | orbital/envs/core/dynamics.py:131-134 | scan_boost becomes 4. A compromised agent rolls once and on success loses 2 timer ticks (floored at 0). No other agent or field changes |
| ActionProperties.LowpowerGains | orbital/envs/core/dynamics.py:135-137 | lowpower never lowers energy, stays within the budget, gains only when recharge is on and in sunlight, and touches nobody else |
| Dynamics.OrbitalCore.AdversarialEvent | orbital/envs/core/dynamics.py:84-89 | the adversarial phase equals `Transition.Compromise` of the old state |
| Dynamics.OrbitalCore.CompromiseHealthy | orbital/envs/core/dynamics.py:86-89 | picking a healthy target equals `Transition.CompromiseHealthy` |
| Transition.Healthy | orbital/envs/core/dynamics.py:86 | the healthy list is exactly the indices with compromised_for ≤ 0, in increasing order |
| ActionProperties.CompromiseAtMostOne | orbital/envs/core/dynamics.py:85-89 | at most one timer changes. It was ≤ 0 and becomes compromise_duration. One or two draws are used and nothing else changes |
| ActionProperties.NoAdversaryNoCompromise | orbital/envs/core/dynamics.py:85 | with adversarial_rate ≤ 0 the phase only consumes its roll |
| ActionProperties.SuccessfulRollCompromises | orbital/envs/core/dynamics.py:85-89 | a roll below the rate, with some healthy agent, compromises some healthy agent for compromise_duration |
| Dynamics.OrbitalCore.ResolveAgent | orbital/envs/core/dynamics.py:92-137 | resolving one agent equals `Transition.ResolveAgent` of the old state and tally |
| Dynamics.OrbitalCore.Perturb | orbital/envs/core/dynamics.py:96-98 | the action-noise branch equals `Transition.Perturb` |
| ActionProperties.NoiseOnlyWhenCompromised | orbital/envs/core/dynamics.py:96-98 | without a compromised agent under action_noise, nothing is drawn and nothing changes. A hit replaces the action by a code in [0, 6), adds 0.5 cyber and uses 2 draws; a miss uses 1 |
| Dynamics.OrbitalCore.PayAndApply | orbital/envs/core/dynamics.py:100-137 | paying the cost and applying the effect equals `Transition.PayAndApply` |
| ActionProperties.PaymentAlwaysCounted | orbital/envs/core/dynamics.py:101-107 | the looked-up cost is always added to energy_spent. A cost that exhausts the agent sets its energy to 0 and skips the effect. Otherwise energy drops by exactly the cost (before a lowpower gain) |
| ActionProperties.UnknownActionIsIdle | orbital/envs/core/dynamics.py:92-100 | a missing action, or a code outside the table, resolves to "idle" |
| Dynamics.OrbitalCore.ApplyEffect | orbital/envs/core/dynamics.py:109-137 | the effect dispatch equals `Transition.ApplyEffect` |
| Dynamics.OrbitalCore.PassiveRecharge | orbital/envs/core/dynamics.py:139-142 | the recharge loop equals `Transition.PassiveRecharge` of the old state |
| Dynamics.OrbitalCore.UpdateTasks | orbital/envs/core/dynamics.py:197-206 | the task loop equals `AgeTasks` of the old state |
| Dynamics.OrbitalCore.UpdateSlot | orbital/envs/core/dynamics.py:199-206 | updating one slot equals `AgeSlot` on the pool and cursor |
| ActionProperties.AgeSlotEffect | orbital/envs/core/dynamics.py:198-206 | an active task ages by 1 and is retired past age 25. Otherwise it drifts (dynamic mode: one draw, priority in [0.1, 1]) or keeps its priority. An inactive slot rolls once and respawns active with age 0 using 3 more draws, so a slot never has both a drift and a spawn roll. Other slots are unchanged |
| Dynamics.OrbitalCore.DecayTimers | orbital/envs/core/dynamics.py:146-148 | the decay equals `DecayAndTick` of the old state |
| ActionProperties.DecayEffect | orbital/envs/core/dynamics.py:146-148 | the clock advances by exactly 1, both timers become max(0, v − 1), and energy, positions, tasks and cursor are unchanged |
| ActionProperties.SunlightIsPeriodic | orbital/envs/core/dynamics.py:65-67 | the sunlight test, with Python's floor % and //, repeats every sunlight_period ticks |
| ActionProperties.SunlightFirstHalf | orbital/envs/core/dynamics.py:65-67 | for a positive period, the lit ticks are those whose phase is below period // 2 |
| ActionProperties.PeriodOneIsDark | orbital/envs/core/dynamics.py:65-67 | with period 1 it is never sunlit and passive recharge changes nothing |
| Dynamics.OrbitalCore.IsolatedCount | orbital/envs/core/dynamics.py:214-219 | the count equals `IsolatedUpTo` over all agents |
| OutcomeProperties.IsolatedUpToIsCardinality | orbital/envs/core/dynamics.py:214-219 | the isolated count is the number of alive agents with degree 0 |
| OutcomeProperties.CountAliveIsCardinality | orbital/envs/core/dynamics.py:150 | the alive count is the number of agents with energy > 0 |
| OutcomeProperties.MissionFailedThreshold | orbital/envs/core/dynamics.py:221-227 | the mission fails iff alive ≤ max(1, n // 4) |
| OutcomeProperties.SmallTeamFailsAtOneAlive | orbital/envs/core/dynamics.py:221-227 | with fewer than 8 agents, failure means at most one alive |
| Dynamics.OrbitalCore.NearbyTasks | orbital/envs/core/dynamics.py:240-245 | the loop counts active tasks within distance 2 and sums their priorities |
| Dynamics.OrbitalCore.TruthfulObservation | orbital/envs/core/dynamics.py:230-274 | the unspoofed vector equals `Transition.Truthful` |
| Dynamics.OrbitalCore.Observe | orbital/envs/core/dynamics.py:229-280 | observe returns `Transition.Observation` and advances the cursor by the spoof draws |
| ObservationProperties.CyberOneHot | orbital/envs/core/dynamics.py:233-237 | entries 3–5 are a one-hot: compromised iff the timer is positive, scanning iff not compromised and boosted, clean otherwise |
| ObservationProperties.CappedFields | orbital/envs/core/dynamics.py:246-248 | the task-count, task-priority and buffer entries never exceed 1, spoofed or not |
| ObservationProperties.SpoofRewritesOnlyThree | orbital/envs/core/dynamics.py:276-279 | spoofing rewrites only entries 0, 7 and 8, with 3 draws in [0, 1). Otherwise the result is the truthful vector and no draw is used |
| ObservationProperties.DegreeEntryInUnit | orbital/envs/core/dynamics.py:239 | under the invariant the degree fraction lies in [0, 1] |
| ObservationProperties.NeighbourShareInUnit | orbital/envs/core/dynamics.py:253-256 | the compromised-neighbour share lies in [0, 1] |
| ObservationProperties.TruthfulScaledEntries | orbital/envs/core/dynamics.py:230-257 | under the invariant, the energy, position, degree, neighbour and alive entries lie in [0, 1] |
| ObservationProperties.TruthfulCappedEntries | orbital/envs/core/dynamics.py:240-248 | under the invariant, entries 7–9 lie in [0, 1] |
| ObservationProperties.ObservationWithinSpace | orbital/envs/core/dynamics.py:229-280 | in any state satisfying the invariant, every one of the 14 entries lies within the observation space bounds [-1, 1] |
| Dynamics.OrbitalCore.Step | orbital/envs/core/dynamics.py:77-195 | a step leaves the object in, and returns, `Transition.Step` of the old state, the actions, the agent order and the stream; the stream itself is unchanged |
| Transition.Step | orbital/envs/core/dynamics.py:77-195 | a tick keeps the number of agents, the task pool size and the graph's shape, and never rewinds the stream cursor |
| Transition.Act | orbital/envs/core/dynamics.py:78-137 | phases 1–2 keep the state's shape, never rewind the stream cursor, and return per-agent accumulators of length n |
| Transition.Settle | orbital/envs/core/dynamics.py:139-148 | phases 3–6 keep the state's shape and never rewind the stream cursor |
| Transition.Observation | orbital/envs/core/dynamics.py:229-280 | the observation has 14 entries and the stream cursor never moves back |
| Transition.BuildInfo | orbital/envs/core/dynamics.py:282-290 | the local degree counts at most n neighbours, and a per-agent info carries no episode summary of its own |
| Transition.ActionName | orbital/envs/core/dynamics.py:74-75 | the name is always an entry of the action table, and it is "idle" exactly for code 5 and for codes outside the table |
| Dynamics.OrbitalCore.Act | orbital/envs/core/dynamics.py:78-137 | phases 1–2 equal `Transition.Act` |
| Dynamics.OrbitalCore.Settle | orbital/envs/core/dynamics.py:139-148 | phases 3–6 equal `Transition.Settle` |
| Dynamics.OrbitalCore.Finish | orbital/envs/core/dynamics.py:139-195 | phases 3–7 equal `Assemble` after `Settle` |
| Dynamics.OrbitalCore.Report | orbital/envs/core/dynamics.py:150-195 | phase 7 equals `Assemble` of the old state |
| Dynamics.OrbitalCore.Components | orbital/envs/core/dynamics.py:150-161 | the components map equals `SharedComponents` |
| Dynamics.OrbitalCore.Rewards | orbital/envs/core/dynamics.py:166-179 | the reward loop builds the map name ↦ `AgentReward`, last writer winning |
| Transition.ByName | orbital/envs/core/dynamics.py:183-185 | a map built from agent_names has exactly those names as keys |
| OutcomeProperties.FlagsAndSummaryShared | orbital/envs/core/dynamics.py:181-194 | every map is keyed by the agent names. terminated is MissionFailed and truncated is t ≥ max_steps, for every agent. Every info has the same time, components and episode summary, present iff either flag holds |
| OutcomeProperties.ByNameConstant | orbital/envs/core/dynamics.py:183-184 | a map built from one constant value holds that value at every key |
| OutcomeProperties.ByNameDistinct | orbital/envs/core/dynamics.py:185 | with distinct names, each name maps to its own entry |
| OutcomeProperties.StoredComponents | orbital/envs/core/dynamics.py:150-164 | the stored components have exactly the six keys. failure = n − alive, isolation = isolated count, and the rest are the tally sums. last_reward is their weighted sum |
| OutcomeProperties.SharedModeSameReward | orbital/envs/core/dynamics.py:178-179 | outside local mode every agent gets the shared reward |
| OutcomeProperties.LocalRewardLookup | orbital/envs/core/dynamics.py:167-177 | in local mode, with distinct names, each agent's reward is the weighted sum of its own components |
| OutcomeProperties.LocalTotalIsPrefixReward | orbital/envs/core/dynamics.py:168-177 | the sum of the first k local rewards is the reward of the first k agents' summed components |
| OutcomeProperties.LocalRewardsSumToShared | orbital/envs/core/dynamics.py:166-177 | the local rewards of all agents add up to the shared reward |
| OutcomeProperties.LocalModeRewardsAddUp | orbital/envs/core/dynamics.py:166-177 | in local mode, with distinct names covering all agents, the returned rewards add up to last_reward |
| OutcomeProperties.RewardReadsOnlyComponents | orbital/envs/core/reward.py:5-12 | the reward depends only on the six named components |
| Invariants.CompromiseKeepsInv | orbital/envs/core/dynamics.py:85-89 | compromise keeps the invariant and changes no energy, position, graph or clock |
| Invariants.MoveKeepsMid | orbital/envs/core/dynamics.py:69-72 | a move keeps positions on the grid and the rest of the invariant |
| Invariants.ObserveKeepsMid | orbital/envs/core/dynamics.py:111-120 | observe keeps the invariant, including non-negative buffers, and not energy |
| Invariants.DeliverKeepsMid | orbital/envs/core/dynamics.py:126-130 | a delivery keeps buffers and the lifetime total non-negative |
| Invariants.RelayKeepsMid | orbital/envs/core/dynamics.py:121-130 | relay keeps the invariant |
| Invariants.CyberscanKeepsMid | orbital/envs/core/dynamics.py:131-134 | cyberscan keeps timers non-negative |
| Invariants.LowpowerKeepsMid | orbital/envs/core/dynamics.py:135-137 | lowpower keeps energy within [0, budget] and touches no other agent |
| Invariants.ApplyEffectKeepsMid | orbital/envs/core/dynamics.py:109-137 | every effect keeps the invariant and only the acting agent's energy may change |
| Invariants.PayAndApplyKeepsMid | orbital/envs/core/dynamics.py:100-137 | with non-negative costs, paying clamps at 0 and keeps the invariant |
| Invariants.ResolveAgentKeepsMid | orbital/envs/core/dynamics.py:91-137 | resolving one agent keeps the invariant. A dead agent's energy is untouched |
| Invariants.ResolveAllKeepsMid | orbital/envs/core/dynamics.py:91-137 | resolving the first k agents keeps the invariant. A dead agent, or an agent not yet reached, keeps its energy |
| Invariants.PassiveRechargeKeepsMid | orbital/envs/core/dynamics.py:139-142 | passive recharge keeps energy within the budget and never revives a dead agent |
| Invariants.AgeSlotKeepsPool | orbital/envs/core/dynamics.py:197-206 | ageing a slot keeps the pool's length and every priority in [0.1, 1] and cell on the grid |
| Invariants.AgeUpToKeepsPool | orbital/envs/core/dynamics.py:197-206 | after ageing k slots, the pool is sound and no active slot among them is older than 25 |
| Invariants.AgeTasksKeepsMid | orbital/envs/core/dynamics.py:197-206 | task ageing keeps the invariant and leaves no active task older than 25 |
| Invariants.RebuildGraphGivesInv | orbital/envs/core/dynamics.py:54-63 | the rebuilt graph satisfies the graph part of the invariant |
| Invariants.DecayKeepsInv | orbital/envs/core/dynamics.py:146-148 | decay keeps the invariant and advances the clock by 1 |
| Invariants.SettleGivesInv | orbital/envs/core/dynamics.py:139-148 | phases 3–6 restore the full invariant and leave dead agents dead |
| Invariants.AssembleRecordsOnly | orbital/envs/core/dynamics.py:162-164 | assembly changes only the stored components and last reward |
| Invariants.ActKeepsMid | orbital/envs/core/dynamics.py:84-137 | phases 1–2 keep the invariant and never raise a dead agent's energy |
| Invariants.StepKeepsInv | orbital/envs/core/dynamics.py:77-195 | a step keeps the invariant (energy in [0, budget], grid bounds, non-negative timers and buffers, pool of num_tasks with priorities in [0.1, 1], symmetric loop-free graph within comm_radius). The clock advances by 1, and an agent at energy 0 stays at 0 |
| Invariants.ResetGivesInv | orbital/envs/core/dynamics.py:30-44 | reset establishes the invariant with t = 0 and full energy |
| ScenarioProperties.SettleFrame | orbital/envs/core/dynamics.py:139-148 | phases 3–6 keep positions and the lifetime total. Energy is the recharged energy, timers are decayed, and the graph is rebuilt from the aged state |
| ScenarioProperties.RechargeKeepsAlive | orbital/envs/core/dynamics.py:139-142 | passive recharge keeps alive agents alive when the budget is positive |
| ScenarioProperties.StepRecords | orbital/envs/core/dynamics.py:162-164 | the stepped state is the settled state with the new components and reward recorded |
| ScenarioProperties.ResolveIdleAgent | orbital/envs/core/dynamics.py:100-107 | an idling agent that can afford it pays the idle cost and nothing else happens |
| ScenarioProperties.ResolveAllIdle | orbital/envs/core/dynamics.py:91-107 | an all-idle resolution charges each of the first k agents the idle cost and changes nothing else |
| ScenarioProperties.ActIdle | orbital/envs/core/dynamics.py:84-137 | phases 1–2 of an all-idle tick service and deliver nothing and leave everyone alive |
| ScenarioProperties.AllIdleTick | orbital/envs/core/dynamics.py:77-164 | in an all-idle tick nobody moves; the task, delivery and failure components are 0 |
| ScenarioProperties.LoneAgentIsolated | orbital/envs/core/dynamics.py:214-219 | a single agent has no edge and counts as isolated exactly when alive |
| ScenarioProperties.ResolveAllClean | orbital/envs/core/dynamics.py:91-137 | with nobody compromised, action resolution changes no timer and adds no cyber penalty |
| ScenarioProperties.ActClean | orbital/envs/core/dynamics.py:84-137 | with adversarial_rate ≤ 0 and nobody compromised, phases 1–2 leave every timer and the cyber tally as they were |
| ScenarioProperties.NoAdversaryTick | orbital/envs/core/dynamics.py:84-164 | with adversarial_rate ≤ 0 and nobody compromised, every timer is 0 after the step and the cyber component is 0 |
| Reward.RewardIsSignedWeightedSum | orbital/envs/core/reward.py:4-12 | the reward equals w_task·task + w_delivery·delivery − the other four weighted terms, each lookup defaulting to 0 |
| Reward.MissingComponentIsZero | orbital/envs/core/reward.py:6-11 | a missing component contributes as a 0.0 entry would |
| Reward.MissingWeightIsZero | orbital/envs/core/reward.py:6-11 | a missing weight contributes as a 0.0 weight would |
| Reward.OtherKeysIgnored | orbital/envs/core/reward.py:5-12 | keys outside the six names change nothing |
| Reward.ZeroComponentsZeroReward | orbital/envs/core/reward.py:5-12 | all-zero components give reward 0 |
| Reward.RewardIsAdditive | orbital/envs/core/reward.py:5-12 | the reward of summed components is the sum of the rewards |
| Reward.RewardIsMonotone | orbital/envs/core/reward.py:5-12 | with non-negative weights the reward is non-decreasing in task and delivery, and non-increasing in the other four |
| Config.Violation | orbital/envs/core/config.py:48-64 | construction fails iff one of the eight checks fails. The message is the one of the first failing check, in source order, each of the eight messages stated verbatim |
| Config.DefaultAccepted | orbital/envs/core/config.py:27-46 | the default configuration passes every check |
| Config.Default | orbital/envs/core/config.py:15-46 | the defaults price idle, have non-negative costs, weights, budget and recharge rate, and a non-zero sunlight period |
| Config.ValidationInspectsOnlyCheckedFields | orbital/envs/core/config.py:48-64 | configurations agreeing on the checked fields are judged alike |
| Config.UncheckedFieldsAreFree | orbital/envs/core/config.py:48-64 | spoof_mode, task_priority_mode, energy_costs and sunlight_period are accepted as given |
| Spaces.ActionMapIsSixDistinctNames | orbital/envs/core/spaces.py:7-14 | codes 0–5 map to six distinct names, with 5 = "idle" |
| Spaces.ActionNamesHaveDefaultCosts | orbital/envs/core/spaces.py:7-14 | every action name has a default energy cost, so valid codes never fall back to idle's cost |
| Spaces.DefaultCostsPriceActions | orbital/envs/core/config.py:15-22 | "idle" has a default cost, and every default cost key is an action name |
| Spaces.ActionSpaceSize | orbital/envs/core/spaces.py:17-18 | the action space has 6 actions, one per table entry |
| Spaces.ObservationSpace | orbital/envs/core/spaces.py:21-26 | the observation space has 14 dimensions, each bounded by [-1, 1] |

## Left out

- The adapters orbital/envs/orbital_aec.py and orbital/envs/orbital_parallel.py, the pygame renderer, the example drivers and the repository's test files: they are front ends over library code that is not part of this model.
- The PCG64 generator and the distributions of its draws: each draw is an opaque unit value. Integer and interval draws keep only their exact ranges.
- `reset(seed=None)` seeds from OS entropy. Both the constructor and `Reset` take the stream of the chosen seed as a parameter.
- Determinism across runs is not a lemma. It holds by construction, because `Transition.Step` is a function of state, actions, agent order and stream.
- Floating point: floats are reals. float32 rounding, NaN and infinities are not modelled.
- Dynamics.OrbitalCore.Observe: the sine and cosine fields are parameters, not computed from the clock (trigonometry is floating-point numerics).
- ObservationProperties.ObservationWithinSpace: it assumes sine and cosine values in [-1, 1] and a non-negative energy_budget.
- The KeyError for a config whose energy_costs lacks "idle" is a precondition (`Ready`), not an error result. The default argument `energy_costs["idle"]` is evaluated on every lookup.
- The ZeroDivisionError for sunlight_period 0 with recharge enabled is also part of `Ready`. `Observe` likewise requires a non-zero period.
- The IndexError when agent_names outnumbers the agents is a precondition (|names| ≤ n).
- Task objects are values in a sequence field. The list holds the only reference to each task, so no aliasing is lost.
- The comm graph of the object is a field holding its rows. It is built each tick in a fresh two-dimensional array, as the source builds a fresh numpy matrix.
- OutcomeProperties.LocalRewardLookup, OutcomeProperties.LocalModeRewardsAddUp: both assume distinct agent names. The per-agent reward and info maps use last-writer-wins when names repeat, and then an agent's entry is another agent's value.
- The gymnasium `Discrete` and `Box` objects: only their sizes and bounds are modelled.
- Invariants.StepKeepsInv: it assumes non-negative energy costs, recharge rate and budget (`Sound`). Validation does not check these three.
- ScenarioProperties.AllIdleTick: the lemma also requires spoof_mode other than "action_noise", because under action noise a compromised idler can be given a random action, a move among them (orbital/envs/core/dynamics.py:96-98). The zero failure component needs every agent to afford the idle cost and a positive budget. The zero task/delivery and the unchanged positions hold without these.
- ScenarioProperties.NoAdversaryTick: it is proved for one tick from a state with nobody compromised. Reset starts there, so the claim extends to the whole episode by induction over ticks, but that episode-level lemma is not stated.
- render_mode and show_links are fields of the configuration record, but nothing in the engine reads them.
