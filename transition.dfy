/**
 * The engine's tick as pure functions over a snapshot of its state.
 *
 * World holds everything the engine object mutates (per-agent arrays as
 * sequences, the task pool, the comm adjacency matrix, the clock, the lifetime
 * delivered total, the last reward and components) together with `drawn`, the
 * number of generator draws consumed so far. Each phase of a tick is one
 * function; the draws it consumes are read from the stream at `drawn` onward,
 * in the order the engine makes its generator calls.
 */
module Transition {
  import opened Common
  import opened Draws
  import opened Config
  import opened Spaces
  import opened Reward

  datatype Cell = Cell(x: int, y: int)

  /** One slot of the fixed-length task pool. */
  datatype Task = Task(x: int, y: int, priority: real, active: bool, age: int)

  datatype World = World(
    positions: seq<Cell>,
    energy: seq<real>,
    compromisedFor: seq<int>,
    scanBoost: seq<int>,
    buffered: seq<real>,
    tasks: seq<Task>,
    adj: seq<seq<bool>>,
    t: int,
    deliveredTotal: real,
    lastComponents: map<string, real>,
    lastReward: real,
    drawn: nat)

  /** Per-agent accumulators of one tick: serviced priority, delivered data, energy paid, cyber penalty. */
  datatype Tally = Tally(serviced: seq<real>, delivered: seq<real>, spent: seq<real>, cyber: seq<real>)

  /** The fixed sink that relays deliver to. */
  const Ground: Cell := Cell(0, 0)

  /** The five moves: +x, -x, +y, -y, stay. */
  const Deltas: seq<Cell> := [Cell(1, 0), Cell(-1, 0), Cell(0, 1), Cell(0, -1), Cell(0, 0)]

  function Abs(v: int): nat { if v < 0 then -v else v }

  /** Manhattan distance. */
  function Dist(a: Cell, b: Cell): nat { Abs(a.x - b.x) + Abs(a.y - b.y) }

  function MinInt(a: int, b: int): int { if a <= b then a else b }

  /** np.clip on one coordinate: min(max(v, lo), hi). */
  function Clip(v: int, lo: int, hi: int): int { MinInt(MaxInt(v, lo), hi) }

  /** np.clip on a real. */
  function ClipReal(v: real, lo: real, hi: real): real { Min(Max(v, lo), hi) }

  predicate Square(adj: seq<seq<bool>>, n: nat)
  {
    |adj| == n && forall i :: 0 <= i < n ==> |adj[i]| == n
  }

  /** Every per-agent sequence has one entry per agent and the adjacency is n by n. */
  predicate Shaped(w: World)
  {
    var n := |w.energy|;
    |w.positions| == n && |w.compromisedFor| == n && |w.scanBoost| == n &&
    |w.buffered| == n && Square(w.adj, n)
  }

  /** w' has the same agents, the same pool size and has not given back draws. */
  predicate SameShape(w: World, w': World)
  {
    Shaped(w') && |w'.energy| == |w.energy| && |w'.tasks| == |w.tasks| && w'.drawn >= w.drawn
  }

  predicate TallyShaped(tl: Tally, n: nat)
  {
    |tl.serviced| == n && |tl.delivered| == n && |tl.spent| == n && |tl.cyber| == n
  }

  function ZeroTally(n: nat): (tl: Tally)
    ensures TallyShaped(tl, n)
  {
    var z := seq(n, _ => 0.0);
    Tally(z, z, z, z)
  }

  /** What a tick needs of the configuration beyond construction-time validation. */
  predicate Ready(c: OrbitalConfig)
  {
    Accepted(c) && "idle" in c.energyCosts && (c.enableRecharge ==> c.sunlightPeriod != 0)
  }

  // ---------------------------------------------------------------- clock

  /** Python's // (rounds toward negative infinity). */
  function FloorDiv(a: int, b: int): int
    requires b != 0
  {
    if b > 0 then a / b else (-a) / (-b)
  }

  /** Python's % (takes the sign of the divisor). */
  function FloorMod(a: int, b: int): int
    requires b != 0
  {
    a - b * FloorDiv(a, b)
  }

  /** The first half (rounded down) of every sunlight period is lit. */
  predicate InSunlight(c: OrbitalConfig, t: int)
    requires c.sunlightPeriod != 0
  {
    FloorMod(t, c.sunlightPeriod) < FloorDiv(c.sunlightPeriod, 2)
  }

  // ---------------------------------------------------------------- actions

  /** ACTION_MAP.get(code, "idle") */
  function ActionName(code: int): (name: string)
    ensures name in ActionMap.Values
    ensures name == "idle" <==> code !in ActionMap || code == 5
  {
    if code in ActionMap then ActionMap[code] else assert ActionMap[5] == "idle"; "idle"
  }

  /** actions.get(name, 5): a missing action is idle. */
  function ActionFor(actions: map<string, int>, name: string): int
  {
    if name in actions then actions[name] else 5
  }

  /** energy_costs.get(name, energy_costs["idle"]) */
  function Cost(c: OrbitalConfig, name: string): real
    requires "idle" in c.energyCosts
  {
    if name in c.energyCosts then c.energyCosts[name] else c.energyCosts["idle"]
  }

  // ---------------------------------------------------------------- adversary

  /** np.where(compromised_for <= 0)[0]: the healthy agents, in increasing order. */
  function Healthy(cf: seq<int>): (h: seq<nat>)
    ensures forall k :: 0 <= k < |h| ==> h[k] < |cf| && cf[h[k]] <= 0
    ensures forall x :: 0 <= x < |cf| && cf[x] <= 0 ==> x in h
    ensures forall a, b :: 0 <= a < b < |h| ==> h[a] < h[b]
  {
    if |cf| == 0 then []
    else
      var h := Healthy(cf[..|cf| - 1]);
      if cf[|cf| - 1] <= 0 then h + [|cf| - 1] else h
  }

  /** Phase 1: with probability adversarial_rate one healthy agent is compromised. */
  function Compromise(c: OrbitalConfig, w: World, rng: Stream): (w': World)
    requires Shaped(w)
    ensures SameShape(w, w')
  {
    var rolled := w.(drawn := w.drawn + 1);
    if rng(w.drawn) < c.adversarialRate then CompromiseHealthy(c, rolled, rng) else rolled
  }

  /** rng.choice(healthy): a uniformly chosen healthy agent gets compromise_duration ticks. */
  function CompromiseHealthy(c: OrbitalConfig, w: World, rng: Stream): (w': World)
    requires Shaped(w)
    ensures SameShape(w, w')
  {
    var healthy := Healthy(w.compromisedFor);
    if |healthy| > 0 then
      var idx := healthy[IntBelow(rng(w.drawn), |healthy|)];
      w.(compromisedFor := w.compromisedFor[idx := c.compromiseDuration], drawn := w.drawn + 1)
    else w
  }

  // ---------------------------------------------------------------- effects

  /** move: one random step among the five deltas, clipped to the grid. */
  function Move(c: OrbitalConfig, w: World, i: nat, rng: Stream): (w': World)
    requires Shaped(w) && i < |w.energy|
    ensures SameShape(w, w')
  {
    var d := Deltas[IntBelow(rng(w.drawn), |Deltas|)];
    var p := w.positions[i];
    var moved := Cell(Clip(p.x + d.x, 0, c.gridSize - 1), Clip(p.y + d.y, 0, c.gridSize - 1));
    w.(positions := w.positions[i := moved], drawn := w.drawn + 1)
  }

  predicate Serviceable(task: Task, at: Cell)
  {
    task.active && Dist(at, Cell(task.x, task.y)) <= 1
  }

  /** The first active task, in pool order, within distance 1 of `at`. */
  function FirstServiceable(tasks: seq<Task>, at: Cell): (k: Option<nat>)
    ensures k.Some? ==> k.value < |tasks| && Serviceable(tasks[k.value], at)
    ensures k.Some? ==> forall j :: 0 <= j < k.value ==> !Serviceable(tasks[j], at)
    ensures k.None? ==> forall j :: 0 <= j < |tasks| ==> !Serviceable(tasks[j], at)
  {
    if |tasks| == 0 then None
    else if Serviceable(tasks[0], at) then Some(0)
    else
      match FirstServiceable(tasks[1..], at)
      case None => None
      case Some(k) => Some(k + 1)
  }

  /** observe: the first serviceable task is deactivated and its priority collected. */
  function ObserveAction(w: World, tl: Tally, i: nat): (r: (World, Tally))
    requires Shaped(w) && i < |w.energy| && TallyShaped(tl, |w.energy|)
    ensures SameShape(w, r.0) && TallyShaped(r.1, |w.energy|)
  {
    match FirstServiceable(w.tasks, w.positions[i])
    case None => (w, tl)
    case Some(k) =>
      var p := w.tasks[k].priority;
      (w.(tasks := w.tasks[k := w.tasks[k].(active := false)], buffered := w.buffered[i := w.buffered[i] + p]),
       tl.(serviced := tl.serviced[i := tl.serviced[i] + p]))
  }

  /** Single-hop reachability: some direct neighbour of src is within distance 1 of the ground. */
  predicate HasPathToGround(w: World, src: nat)
    requires Shaped(w) && src < |w.energy|
  {
    exists j :: 0 <= j < |w.positions| && w.adj[src][j] && Dist(w.positions[j], Ground) <= 1
  }

  /** The delivering half of relay: up to one unit leaves the buffer when ground is reachable. */
  function Deliver(w: World, tl: Tally, i: nat): (r: (World, Tally))
    requires Shaped(w) && i < |w.energy| && TallyShaped(tl, |w.energy|)
    ensures SameShape(w, r.0) && TallyShaped(r.1, |w.energy|)
  {
    if Dist(w.positions[i], Ground) <= 1 || HasPathToGround(w, i) then
      var out := Min(1.0, w.buffered[i]);
      (w.(buffered := w.buffered[i := w.buffered[i] - out], deliveredTotal := w.deliveredTotal + out),
       tl.(delivered := tl.delivered[i := tl.delivered[i] + out]))
    else (w, tl)
  }

  /** relay: only with data buffered; a jammed relay (35% while compromised under comm_jam) costs 1.0 cyber. */
  function RelayAction(c: OrbitalConfig, w: World, tl: Tally, i: nat, rng: Stream): (r: (World, Tally))
    requires Shaped(w) && i < |w.energy| && TallyShaped(tl, |w.energy|)
    ensures SameShape(w, r.0) && TallyShaped(r.1, |w.energy|)
  {
    if w.buffered[i] > 0.0 then
      if w.compromisedFor[i] > 0 && c.spoofMode == "comm_jam" then
        var w' := w.(drawn := w.drawn + 1);
        if rng(w.drawn) < 0.35 then (w', tl.(cyber := tl.cyber[i := tl.cyber[i] + 1.0]))
        else Deliver(w', tl, i)
      else Deliver(w, tl, i)
    else (w, tl)
  }

  /** cyberscan: scan boost for 4 ticks; while compromised, 35% chance to cut the timer by 2. */
  function CyberscanAction(w: World, i: nat, rng: Stream): (w': World)
    requires Shaped(w) && i < |w.energy|
    ensures SameShape(w, w')
  {
    var boosted := w.(scanBoost := w.scanBoost[i := 4]);
    if w.compromisedFor[i] > 0 then
      if rng(w.drawn) < 0.35 then
        boosted.(compromisedFor := w.compromisedFor[i := MaxInt(0, w.compromisedFor[i] - 2)], drawn := w.drawn + 1)
      else boosted.(drawn := w.drawn + 1)
    else boosted
  }

  /** lowpower: in sunlight with recharge enabled, gain recharge_rate, capped at the budget. */
  function LowpowerAction(c: OrbitalConfig, w: World, i: nat): (w': World)
    requires Shaped(w) && i < |w.energy| && (c.enableRecharge ==> c.sunlightPeriod != 0)
    ensures SameShape(w, w')
  {
    if c.enableRecharge && InSunlight(c, w.t) then
      w.(energy := w.energy[i := Min(c.energyBudget, w.energy[i] + c.rechargeRate)])
    else w
  }

  function ApplyEffect(c: OrbitalConfig, w: World, tl: Tally, i: nat, name: string, rng: Stream): (r: (World, Tally))
    requires Shaped(w) && i < |w.energy| && TallyShaped(tl, |w.energy|)
    requires c.enableRecharge ==> c.sunlightPeriod != 0
    ensures SameShape(w, r.0) && TallyShaped(r.1, |w.energy|)
  {
    if name == "move" then (Move(c, w, i, rng), tl)
    else if name == "observe" then ObserveAction(w, tl, i)
    else if name == "relay" then RelayAction(c, w, tl, i, rng)
    else if name == "cyberscan" then (CyberscanAction(w, i, rng), tl)
    else if name == "lowpower" then (LowpowerAction(c, w, i), tl)
    else (w, tl)
  }

  // ---------------------------------------------------------------- resolution

  /** Was agent i's action replaced by a random one this tick (25% while compromised under action_noise)? */
  predicate NoiseApplies(c: OrbitalConfig, w: World, i: nat)
    requires Shaped(w) && i < |w.energy|
  {
    w.compromisedFor[i] > 0 && c.spoofMode == "action_noise"
  }

  /**
   * The action agent i actually takes: under action_noise a compromised agent
   * rolls once, and on a roll below 0.25 draws a random code in [0, 6) and
   * incurs 0.5 cyber penalty. Only the generator position and the tally change.
   */
  function Perturb(c: OrbitalConfig, w: World, tl: Tally, i: nat, requested: int, rng: Stream): (r: (int, World, Tally))
    requires Shaped(w) && i < |w.energy| && TallyShaped(tl, |w.energy|)
    ensures r.1 == w.(drawn := r.1.drawn) && r.1.drawn >= w.drawn && TallyShaped(r.2, |w.energy|)
  {
    if NoiseApplies(c, w, i) then
      if rng(w.drawn) < 0.25 then
        (IntBelow(rng(w.drawn + 1), 6), w.(drawn := w.drawn + 2), tl.(cyber := tl.cyber[i := tl.cyber[i] + 0.5]))
      else (requested, w.(drawn := w.drawn + 1), tl)
    else (requested, w, tl)
  }

  /** The action's cost is paid; an agent that runs out is clamped to 0 and does nothing. */
  function PayAndApply(c: OrbitalConfig, w: World, tl: Tally, i: nat, act: int, rng: Stream): (r: (World, Tally))
    requires Shaped(w) && i < |w.energy| && TallyShaped(tl, |w.energy|) && Ready(c)
    ensures SameShape(w, r.0) && TallyShaped(r.1, |w.energy|)
  {
    var name := ActionName(act);
    var cost := Cost(c, name);
    var paid := tl.(spent := tl.spent[i := tl.spent[i] + cost]);
    var e := w.energy[i] - cost;
    if e <= 0.0 then (w.(energy := w.energy[i := 0.0]), paid)
    else ApplyEffect(c, w.(energy := w.energy[i := e]), paid, i, name, rng)
  }

  /** Phase 2, one agent: dead agents are skipped. */
  function ResolveAgent(c: OrbitalConfig, w: World, tl: Tally, i: nat, requested: int, rng: Stream): (r: (World, Tally))
    requires Shaped(w) && i < |w.energy| && TallyShaped(tl, |w.energy|) && Ready(c)
    ensures SameShape(w, r.0) && TallyShaped(r.1, |w.energy|)
  {
    if !(w.energy[i] > 0.0) then (w, tl)
    else
      var p := Perturb(c, w, tl, i, requested, rng);
      PayAndApply(c, p.1, p.2, i, p.0, rng)
  }

  /** Phase 2: the first k names, in order; the k-th name is agent k's. */
  function ResolveAll(c: OrbitalConfig, w: World, tl: Tally, actions: map<string, int>, names: seq<string>,
                      rng: Stream, k: nat): (r: (World, Tally))
    requires Shaped(w) && TallyShaped(tl, |w.energy|) && Ready(c) && k <= |names| <= |w.energy|
    ensures SameShape(w, r.0) && TallyShaped(r.1, |w.energy|)
  {
    if k == 0 then (w, tl)
    else
      var prev := ResolveAll(c, w, tl, actions, names, rng, k - 1);
      ResolveAgent(c, prev.0, prev.1, k - 1, ActionFor(actions, names[k - 1]), rng)
  }

  // ---------------------------------------------------------------- recharge

  function Recharged(c: OrbitalConfig, e: seq<real>): (e': seq<real>)
    ensures |e'| == |e|
  {
    seq(|e|, i requires 0 <= i < |e| =>
      if e[i] > 0.0 then Min(c.energyBudget, e[i] + 0.15 * c.rechargeRate) else e[i])
  }

  /** Phase 3: in sunlight with recharge enabled every alive agent gains 0.15 * recharge_rate, capped. */
  function PassiveRecharge(c: OrbitalConfig, w: World): (w': World)
    requires Shaped(w) && (c.enableRecharge ==> c.sunlightPeriod != 0)
    ensures SameShape(w, w')
  {
    if c.enableRecharge && InSunlight(c, w.t) then w.(energy := Recharged(c, w.energy)) else w
  }

  // ---------------------------------------------------------------- task pool

  /** Generator state while walking the pool slot by slot. */
  datatype Pool = Pool(tasks: seq<Task>, drawn: nat)

  /** _spawn_task: priority first, then x, then y: three draws from d. */
  function SpawnTask(c: OrbitalConfig, rng: Stream, d: nat): (task: Task)
    requires c.gridSize > 0
    ensures task.active && task.age == 0
    ensures 0.2 <= task.priority <= 1.0
    ensures 0 <= task.x < c.gridSize && 0 <= task.y < c.gridSize
  {
    var prio := Uniform(rng(d), 0.2, 1.0);
    Task(IntBelow(rng(d + 1), c.gridSize), IntBelow(rng(d + 2), c.gridSize), prio, true, 0)
  }

  /**
   * One slot: an active task ages, expires past age 25 or else drifts (one
   * draw) in dynamic mode; an inactive slot rolls once and respawns with
   * probability task_spawn_rate (three more draws).
   */
  function AgeSlot(c: OrbitalConfig, p: Pool, idx: nat, rng: Stream): (p': Pool)
    requires idx < |p.tasks| && c.gridSize > 0
    ensures |p'.tasks| == |p.tasks| && p'.drawn >= p.drawn
  {
    var task := p.tasks[idx];
    if task.active then
      var aged := task.(age := task.age + 1);
      if aged.age > 25 then Pool(p.tasks[idx := aged.(active := false)], p.drawn)
      else if c.taskPriorityMode == "dynamic" then
        var drift := Uniform(rng(p.drawn), -0.05, 0.08);
        Pool(p.tasks[idx := aged.(priority := ClipReal(aged.priority + drift, 0.1, 1.0))], p.drawn + 1)
      else Pool(p.tasks[idx := aged], p.drawn)
    else if rng(p.drawn) < c.taskSpawnRate then
      Pool(p.tasks[idx := SpawnTask(c, rng, p.drawn + 1)], p.drawn + 4)
    else Pool(p.tasks, p.drawn + 1)
  }

  /** The pool after the first k slots have been processed. */
  function AgeUpTo(c: OrbitalConfig, p: Pool, rng: Stream, k: nat): (p': Pool)
    requires k <= |p.tasks| && c.gridSize > 0
    ensures |p'.tasks| == |p.tasks| && p'.drawn >= p.drawn
  {
    if k == 0 then p else AgeSlot(c, AgeUpTo(c, p, rng, k - 1), k - 1, rng)
  }

  /** Phase 4. */
  function AgeTasks(c: OrbitalConfig, w: World, rng: Stream): (w': World)
    requires Shaped(w) && c.gridSize > 0
    ensures SameShape(w, w')
  {
    var p := AgeUpTo(c, Pool(w.tasks, w.drawn), rng, |w.tasks|);
    w.(tasks := p.tasks, drawn := p.drawn)
  }

  // ---------------------------------------------------------------- comm graph

  /** Edges found so far (as pairs i < j) and the generator position. */
  datatype Links = Links(edges: set<(int, int)>, drawn: nat)

  /** Pair (i, j): in range, then one draw; the link survives if the draw exceeds p_link_drop. */
  function Link(c: OrbitalConfig, pos: seq<Cell>, rng: Stream, s: Links, i: nat, j: nat): (r: Links)
    requires i < |pos| && j < |pos|
    ensures r.drawn >= s.drawn
  {
    if Dist(pos[i], pos[j]) <= c.commRadius then
      if rng(s.drawn) > c.pLinkDrop then Links(s.edges + {(i, j)}, s.drawn + 1)
      else Links(s.edges, s.drawn + 1)
    else s
  }

  /** The links after every pair before (i, j) in loop order (rows, then columns j > i). */
  function LinksBefore(c: OrbitalConfig, pos: seq<Cell>, rng: Stream, d0: nat, i: nat, j: nat): (r: Links)
    requires i < j <= |pos|
    ensures r.drawn >= d0
    decreases i, j
  {
    if j == i + 1 then
      if i == 0 then Links({}, d0) else LinksBefore(c, pos, rng, d0, i - 1, |pos|)
    else Link(c, pos, rng, LinksBefore(c, pos, rng, d0, i, j - 1), i, j - 1)
  }

  /** The links after the first i rows. */
  function LinksAfterRows(c: OrbitalConfig, pos: seq<Cell>, rng: Stream, d0: nat, i: nat): (r: Links)
    requires i <= |pos|
    ensures r.drawn >= d0
  {
    if i == 0 then Links({}, d0) else LinksBefore(c, pos, rng, d0, i - 1, |pos|)
  }

  /** The boolean matrix with true at (a, b) and (b, a) for each edge. */
  function Adjacency(n: nat, edges: set<(int, int)>): (adj: seq<seq<bool>>)
    ensures Square(adj, n)
  {
    seq(n, a => seq(n, b => (a, b) in edges || (b, a) in edges))
  }

  /** Phase 5: the graph is recomputed from scratch from the current positions. */
  function RebuildGraph(c: OrbitalConfig, w: World, rng: Stream): (w': World)
    requires Shaped(w)
    ensures SameShape(w, w')
  {
    var n := |w.positions|;
    var links := LinksAfterRows(c, w.positions, rng, w.drawn, n);
    w.(adj := Adjacency(n, links.edges), drawn := links.drawn)
  }

  // ---------------------------------------------------------------- timers

  /** np.maximum(0, s - 1) */
  function Decayed(s: seq<int>): (s': seq<int>)
    ensures |s'| == |s|
  {
    seq(|s|, i requires 0 <= i < |s| => MaxInt(0, s[i] - 1))
  }

  /** Phase 6 and the clock. */
  function DecayAndTick(w: World): (w': World)
    requires Shaped(w)
    ensures SameShape(w, w')
  {
    w.(compromisedFor := Decayed(w.compromisedFor), scanBoost := Decayed(w.scanBoost), t := w.t + 1)
  }

  // ---------------------------------------------------------------- queries

  /** (energy > 0).sum() */
  function CountAlive(e: seq<real>): (k: nat)
    ensures k <= |e|
  {
    if |e| == 0 then 0 else CountAlive(e[..|e| - 1]) + (if e[|e| - 1] > 0.0 then 1 else 0)
  }

  /** comm_adj[i].sum() */
  function Degree(adj: seq<seq<bool>>, i: nat): nat
    requires i < |adj|
  {
    CountTrue(adj[i])
  }

  predicate Isolated(w: World, i: nat)
    requires Shaped(w) && i < |w.energy|
  {
    w.energy[i] > 0.0 && Degree(w.adj, i) == 0
  }

  /** Number of alive agents among the first k with no neighbour. */
  function IsolatedUpTo(w: World, k: nat): (r: nat)
    requires Shaped(w) && k <= |w.energy|
    ensures r <= k
  {
    if k == 0 then 0 else IsolatedUpTo(w, k - 1) + (if Isolated(w, k - 1) then 1 else 0)
  }

  /** _mission_failed */
  predicate MissionFailed(e: seq<real>)
  {
    var alive := CountAlive(e);
    if alive == 0 then true
    else if alive <= MaxInt(1, |e| / 4) then true
    else false
  }

  // ---------------------------------------------------------------- outputs

  datatype Episode = Episode(steps: int, delivered: real, lastReward: real, alive: nat)

  datatype Info = Info(
    energy: real, compromised: bool, localDegree: nat, buffered: real, time: int,
    rewardComponents: map<string, real>, episode: Option<Episode>)

  datatype Outcome = Outcome(
    rewards: map<string, real>, terminated: map<string, bool>,
    truncated: map<string, bool>, infos: map<string, Info>)

  /** {name: vals[i] for i, name in enumerate(names)}: a later duplicate name overwrites. */
  function ByName<V>(names: seq<string>, vals: seq<V>): (m: map<string, V>)
    requires |names| == |vals|
    ensures m.Keys == set k | 0 <= k < |names| :: names[k]
  {
    if |names| == 0 then map[]
    else ByName(names[..|names| - 1], vals[..|vals| - 1])[names[|names| - 1] := vals[|vals| - 1]]
  }

  /** The six components before any tick. */
  const ZeroComponents: map<string, real> := map[
    "task" := 0.0, "delivery" := 0.0, "energy" := 0.0, "isolation" := 0.0, "failure" := 0.0, "cyber" := 0.0]

  function SharedComponents(w: World, tl: Tally): map<string, real>
    requires Shaped(w)
  {
    var n := |w.energy|;
    map[
      "task" := Sum(tl.serviced),
      "delivery" := Sum(tl.delivered),
      "energy" := Sum(tl.spent),
      "isolation" := IsolatedUpTo(w, n) as real,
      "failure" := (n - CountAlive(w.energy)) as real,
      "cyber" := Sum(tl.cyber)]
  }

  /** Local mode: agent i's own contributions; isolation and failure as 0/1 indicators. */
  function LocalComponents(w: World, tl: Tally, i: nat): map<string, real>
    requires Shaped(w) && i < |w.energy| && TallyShaped(tl, |w.energy|)
  {
    map[
      "task" := tl.serviced[i],
      "delivery" := tl.delivered[i],
      "energy" := tl.spent[i],
      "isolation" := if Isolated(w, i) then 1.0 else 0.0,
      "failure" := if w.energy[i] > 0.0 then 0.0 else 1.0,
      "cyber" := tl.cyber[i]]
  }

  /** _build_info, before any episode summary is attached. */
  function BuildInfo(w: World, i: nat): (info: Info)
    requires Shaped(w) && i < |w.energy|
    ensures info.localDegree <= |w.energy| && info.episode.None?
  {
    CountTrueBound(w.adj[i]);
    Info(w.energy[i], w.compromisedFor[i] > 0, Degree(w.adj, i), w.buffered[i], w.t, w.lastComponents, None)
  }

  function AgentReward(c: OrbitalConfig, w: World, tl: Tally, i: nat, shared: real): real
    requires Shaped(w) && i < |w.energy| && TallyShaped(tl, |w.energy|)
  {
    if c.rewardMode == "local" then ComputeSharedReward(LocalComponents(w, tl, i), c.rewardWeights) else shared
  }

  /** Phase 7: the stored components and reward, and the per-agent dictionaries. */
  function Assemble(c: OrbitalConfig, w: World, tl: Tally, names: seq<string>): (r: (World, Outcome))
    requires Shaped(w) && TallyShaped(tl, |w.energy|) && |names| <= |w.energy|
    ensures SameShape(w, r.0)
  {
    var comps := SharedComponents(w, tl);
    var shared := ComputeSharedReward(comps, c.rewardWeights);
    var w' := w.(lastComponents := comps, lastReward := shared);
    var m := |names|;
    var rewards := seq(m, k requires 0 <= k < m => AgentReward(c, w', tl, k, shared));
    var term := MissionFailed(w'.energy);
    var trunc := w'.t >= c.maxSteps;
    var summary := if term || trunc then Some(Episode(w'.t, w'.deliveredTotal, shared, CountAlive(w'.energy))) else None;
    var infos := seq(m, k requires 0 <= k < m => BuildInfo(w', k).(episode := summary));
    (w', Outcome(ByName(names, rewards), ByName(names, seq(m, _ => term)), ByName(names, seq(m, _ => trunc)),
                 ByName(names, infos)))
  }

  /** Phase 1 and 2 together, with fresh accumulators. */
  function Act(c: OrbitalConfig, w: World, actions: map<string, int>, names: seq<string>, rng: Stream): (r: (World, Tally))
    requires Shaped(w) && Ready(c) && |names| <= |w.energy|
    ensures SameShape(w, r.0) && TallyShaped(r.1, |w.energy|)
  {
    var w1 := Compromise(c, w, rng);
    ResolveAll(c, w1, ZeroTally(|w.energy|), actions, names, rng, |names|)
  }

  /** Phases 3 to 6 and the clock. */
  function Settle(c: OrbitalConfig, w: World, rng: Stream): (w': World)
    requires Shaped(w) && Ready(c)
    ensures SameShape(w, w')
  {
    DecayAndTick(RebuildGraph(c, AgeTasks(c, PassiveRecharge(c, w), rng), rng))
  }

  /** One whole tick. */
  function Step(c: OrbitalConfig, w: World, actions: map<string, int>, names: seq<string>, rng: Stream): (r: (World, Outcome))
    requires Shaped(w) && Ready(c) && |names| <= |w.energy|
    ensures SameShape(w, r.0)
  {
    var acted := Act(c, w, actions, names, rng);
    Assemble(c, Settle(c, acted.0, rng), acted.1, names)
  }

  // ---------------------------------------------------------------- reset

  /** rng.integers(0, gs, size=(n, 2)): 2n draws from d0, row by row. */
  function InitialPositions(c: OrbitalConfig, rng: Stream, d0: nat, n: nat): (pos: seq<Cell>)
    requires c.gridSize > 0
    ensures |pos| == n
  {
    seq(n, k requires 0 <= k < n => Cell(IntBelow(rng(d0 + 2 * k), c.gridSize), IntBelow(rng(d0 + 2 * k + 1), c.gridSize)))
  }

  /** [_spawn_task() for _ in range(m)]: three draws per task from d0. */
  function InitialTasks(c: OrbitalConfig, rng: Stream, d0: nat, m: nat): (ts: seq<Task>)
    requires c.gridSize > 0
    ensures |ts| == m
  {
    seq(m, k requires 0 <= k < m => SpawnTask(c, rng, d0 + 3 * k))
  }

  /** The state reset(seed) builds before its first graph update. */
  function Initial(c: OrbitalConfig, rng: Stream): (w: World)
    requires Accepted(c)
    ensures Shaped(w) && |w.energy| == c.numSatellites && |w.tasks| == c.numTasks
  {
    var n := c.numSatellites;
    World(InitialPositions(c, rng, 0, n), seq(n, _ => c.energyBudget), seq(n, _ => 0), seq(n, _ => 0),
          seq(n, _ => 0.0), InitialTasks(c, rng, 2 * n, c.numTasks), Adjacency(n, {}), 0, 0.0,
          ZeroComponents, 0.0, 2 * n + 3 * c.numTasks)
  }

  /** reset(seed): a fresh stream, positions, full energy, clean timers and buffers, a new pool and graph. */
  function Reset(c: OrbitalConfig, rng: Stream): (w: World)
    requires Accepted(c)
    ensures Shaped(w) && |w.energy| == c.numSatellites && |w.tasks| == c.numTasks
  {
    RebuildGraph(c, Initial(c, rng), rng)
  }

  // ---------------------------------------------------------------- observation

  predicate Nearby(task: Task, at: Cell)
  {
    task.active && Dist(at, Cell(task.x, task.y)) <= 2
  }

  /** Number of active tasks within distance 2. */
  function NearCount(ts: seq<Task>, at: Cell): (k: nat)
    ensures k <= |ts|
  {
    if |ts| == 0 then 0 else NearCount(ts[..|ts| - 1], at) + (if Nearby(ts[|ts| - 1], at) then 1 else 0)
  }

  /** Sum of their priorities. */
  function NearPriority(ts: seq<Task>, at: Cell): real
  {
    if |ts| == 0 then 0.0
    else NearPriority(ts[..|ts| - 1], at) + (if Nearby(ts[|ts| - 1], at) then ts[|ts| - 1].priority else 0.0)
  }

  /** Number of neighbours of i among the first k agents that are compromised. */
  function CompromisedNeighbors(w: World, i: nat, k: nat): (r: nat)
    requires Shaped(w) && i < |w.energy| && k <= |w.energy|
    ensures r <= CountTrue(w.adj[i][..k])
  {
    if k == 0 then 0
    else
      assert w.adj[i][..k][..k - 1] == w.adj[i][..k - 1];
      CompromisedNeighbors(w, i, k - 1) + (if w.adj[i][k - 1] && w.compromisedFor[k - 1] > 0 then 1 else 0)
  }

  /** The {clean, scanning, compromised} one-hot. */
  function CyberFlags(w: World, i: nat): seq<real>
    requires Shaped(w) && i < |w.energy|
  {
    if w.compromisedFor[i] > 0 then [0.0, 0.0, 1.0]
    else if w.scanBoost[i] > 0 then [0.0, 1.0, 0.0]
    else [1.0, 0.0, 0.0]
  }

  /**
   * The 14 observation values before spoofing. The sine and cosine of the
   * orbital phase (entries 10 and 11) are floating-point library results and
   * are supplied by the caller.
   */
  function Truthful(c: OrbitalConfig, w: World, i: nat, phaseSin: real, phaseCos: real): (o: seq<real>)
    requires Shaped(w) && i < |w.energy|
    ensures |o| == ObservationLength
  {
    var n := |w.energy|;
    var scale := Max((c.gridSize - 1) as real, 1.0);
    var cyber := CyberFlags(w, i);
    var deg := Degree(w.adj, i);
    var norm := Max(1.0, c.numTasks as real);
    var at := w.positions[i];
    [ w.energy[i] / Max(c.energyBudget, 0.000001),
      at.x as real / scale,
      at.y as real / scale,
      cyber[0], cyber[1], cyber[2],
      deg as real / MaxInt(1, n - 1) as real,
      Min(NearCount(w.tasks, at) as real / norm, 1.0),
      Min(NearPriority(w.tasks, at) / norm, 1.0),
      Min(w.buffered[i] / 5.0, 1.0),
      phaseSin,
      phaseCos,
      if deg > 0 then CompromisedNeighbors(w, i, n) as real / deg as real else 0.0,
      CountAlive(w.energy) as real / n as real ]
  }

  /** Under obs_spoof a compromised agent's entries 0, 7 and 8 are replaced by three fresh draws. */
  function Observation(c: OrbitalConfig, w: World, i: nat, rng: Stream, phaseSin: real, phaseCos: real): (r: (seq<real>, nat))
    requires Shaped(w) && i < |w.energy|
    ensures |r.0| == ObservationLength && r.1 >= w.drawn
  {
    var o := Truthful(c, w, i, phaseSin, phaseCos);
    if w.compromisedFor[i] > 0 && c.spoofMode == "obs_spoof" then
      var e := Uniform(rng(w.drawn), 0.0, 1.0);
      var count := Uniform(rng(w.drawn + 1), 0.0, 1.0);
      var prio := Uniform(rng(w.drawn + 2), 0.0, 1.0);
      (o[0 := e][7 := count][8 := prio], w.drawn + 3)
    else (o, w.drawn)
  }
}
