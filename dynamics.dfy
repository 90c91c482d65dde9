/**
 * The simulation engine as a mutable object. Per-agent state lives in arrays
 * updated in place; the communication graph is built each tick in a fresh
 * two-dimensional array and stored as its rows; the task pool is a sequence field. Every method is
 * proved to take the engine from State() to the corresponding Transition
 * function of the old State().
 */
module Dynamics {
  import opened Common
  import opened Draws
  import opened Config
  import opened Spaces
  import opened Reward
  import opened Transition

  /** The rows of a boolean matrix as sequences. */
  function AdjRows(a: array2<bool>): (m: seq<seq<bool>>)
    reads a
    ensures |m| == a.Length0
    ensures forall i :: 0 <= i < a.Length0 ==> |m[i]| == a.Length1
    ensures forall i, j :: 0 <= i < a.Length0 && 0 <= j < a.Length1 ==> m[i][j] == a[i, j]
  {
    seq(a.Length0, i requires 0 <= i < a.Length0 reads a =>
      seq(a.Length1, j requires 0 <= j < a.Length1 reads a => a[i, j]))
  }

  /** Two n-by-n matrices with equal entries are equal. */
  lemma SquareExtensional(m1: seq<seq<bool>>, m2: seq<seq<bool>>, n: nat)
    requires Square(m1, n) && Square(m2, n)
    requires forall i, j :: 0 <= i < n && 0 <= j < n ==> m1[i][j] == m2[i][j]
    ensures m1 == m2
  {
    forall i | 0 <= i < n
      ensures m1[i] == m2[i]
    {
      assert forall j :: 0 <= j < n ==> m1[i][j] == m2[i][j];
    }
  }

  /** Worlds are equal when their fields are. */
  lemma SameWorld(w1: World, w2: World)
    requires w1.positions == w2.positions && w1.energy == w2.energy
    requires w1.compromisedFor == w2.compromisedFor && w1.scanBoost == w2.scanBoost
    requires w1.buffered == w2.buffered && w1.tasks == w2.tasks && w1.adj == w2.adj
    requires w1.t == w2.t && w1.deliveredTotal == w2.deliveredTotal
    requires w1.lastComponents == w2.lastComponents && w1.lastReward == w2.lastReward
    requires w1.drawn == w2.drawn
    ensures w1 == w2
  {
  }

  /** np.full((n,), v) */
  method FilledReals(n: nat, v: real) returns (a: array<real>)
    ensures fresh(a) && a[..] == seq(n, _ => v)
  {
    a := new real[n](_ => v);
  }

  /** np.zeros((n,), dtype=np.int32) and the like */
  method FilledInts(n: nat, v: int) returns (a: array<int>)
    ensures fresh(a) && a[..] == seq(n, _ => v)
  {
    a := new int[n](_ => v);
  }

  class OrbitalCore {
    const config: OrbitalConfig
    const numAgents: nat
    var rng: Stream
    var drawn: nat
    var t: int
    var positions: array<Cell>
    var energy: array<real>
    var compromisedFor: array<int>
    var scanBoost: array<int>
    var bufferedData: array<real>
    var tasks: seq<Task>
    var commAdj: seq<seq<bool>>
    var lastRewardComponents: map<string, real>
    var lastReward: real
    var deliveredTotal: real

    /** One entry per agent in every array, and arrays of the same type are distinct. */
    ghost predicate Valid()
      reads this
    {
      Accepted(config) && numAgents == config.numSatellites &&
      positions.Length == numAgents && energy.Length == numAgents &&
      compromisedFor.Length == numAgents && scanBoost.Length == numAgents &&
      bufferedData.Length == numAgents &&
      Square(commAdj, numAgents) &&
      energy != bufferedData && compromisedFor != scanBoost
    }

    /** The engine's state as a value. */
    function State(): (w: World)
      requires Valid()
      reads this, positions, energy, compromisedFor, scanBoost, bufferedData
      ensures Shaped(w) && |w.energy| == numAgents
    {
      World(positions[..], energy[..], compromisedFor[..], scanBoost[..], bufferedData[..], tasks,
            commAdj, t, deliveredTotal, lastRewardComponents, lastReward, drawn)
    }

    /** __init__: the given stream stands for the one reset(seed=None) draws from. */
    constructor (config: OrbitalConfig, stream: Stream)
      requires Accepted(config)
      ensures Valid() && this.config == config && rng == stream
      ensures State() == Transition.Reset(config, stream)
    {
      this.config := config;
      numAgents := config.numSatellites;
      rng := stream;
      drawn := 0;
      t := 0;
      positions := new Cell[0];
      energy := new real[0];
      compromisedFor := new int[0];
      scanBoost := new int[0];
      bufferedData := new real[0];
      tasks := [];
      commAdj := [];
      lastRewardComponents := ZeroComponents;
      lastReward := 0.0;
      deliveredTotal := 0.0;
      new;
      Reset(stream);
    }

    /** reset(seed): everything is rebuilt from the stream of the new seed. */
    method Reset(stream: Stream)
      requires Accepted(config) && numAgents == config.numSatellites
      modifies this
      ensures Valid() && rng == stream
      ensures State() == Transition.Reset(config, stream)
    {
      Initialise(stream);
      SameWorld(State(), Initial(config, stream));
      UpdateCommGraph();
    }

    /** reset(seed) up to its final graph update, field by field. */
    method Initialise(stream: Stream)
      requires Accepted(config) && numAgents == config.numSatellites
      modifies this
      ensures Valid() && rng == stream && drawn == 2 * numAgents + 3 * config.numTasks
      ensures positions[..] == InitialPositions(config, stream, 0, numAgents)
      ensures energy[..] == seq(numAgents, _ => config.energyBudget)
      ensures compromisedFor[..] == seq(numAgents, _ => 0) && scanBoost[..] == seq(numAgents, _ => 0)
      ensures bufferedData[..] == seq(numAgents, _ => 0.0) && commAdj == Adjacency(numAgents, {})
      ensures tasks == InitialTasks(config, stream, 2 * numAgents, config.numTasks)
      ensures t == 0 && deliveredTotal == 0.0 && lastRewardComponents == ZeroComponents && lastReward == 0.0
    {
      Allocate();
      Restart(stream);
      DrawPositions();
      tasks := DrawTasks(config.numTasks);
    }

    /** The arrays reset(seed) creates: full energy, zero timers and buffers, no links. */
    method Allocate()
      requires Accepted(config) && numAgents == config.numSatellites
      modifies this`positions, this`energy, this`compromisedFor, this`scanBoost, this`bufferedData, this`commAdj
      ensures Valid()
      ensures fresh(positions) && fresh(energy) && fresh(compromisedFor) && fresh(scanBoost) && fresh(bufferedData)
      ensures energy[..] == seq(numAgents, _ => config.energyBudget)
      ensures compromisedFor[..] == seq(numAgents, _ => 0) && scanBoost[..] == seq(numAgents, _ => 0)
      ensures bufferedData[..] == seq(numAgents, _ => 0.0) && commAdj == Adjacency(numAgents, {})
    {
      var n := numAgents;
      positions := new Cell[n];
      energy := FilledReals(n, config.energyBudget);
      compromisedFor := FilledInts(n, 0);
      scanBoost := FilledInts(n, 0);
      bufferedData := FilledReals(n, 0.0);
      commAdj := Adjacency(n, {});
    }

    /** The scalars reset(seed) sets: the new stream, the clock and the reward bookkeeping. */
    method Restart(stream: Stream)
      requires Valid()
      modifies this`rng, this`drawn, this`t, this`lastRewardComponents, this`lastReward, this`deliveredTotal
      ensures Valid() && rng == stream && drawn == 0
      ensures t == 0 && deliveredTotal == 0.0 && lastRewardComponents == ZeroComponents && lastReward == 0.0
    {
      rng, drawn, t := stream, 0, 0;
      lastRewardComponents, lastReward, deliveredTotal := ZeroComponents, 0.0, 0.0;
    }

    /** rng.integers(0, grid_size, size=(n, 2)), filling the position array row by row. */
    method DrawPositions()
      requires Valid()
      modifies positions, this`drawn
      ensures Valid() && drawn == old(drawn) + 2 * numAgents
      ensures positions[..] == InitialPositions(config, rng, old(drawn), numAgents)
    {
      var n := numAgents;
      for k := 0 to n
        invariant drawn == old(drawn) + 2 * k
        invariant forall m :: 0 <= m < k ==> positions[m] == InitialPositions(config, rng, old(drawn), n)[m]
      {
        var x := IntBelow(rng(drawn), config.gridSize);
        var y := IntBelow(rng(drawn + 1), config.gridSize);
        positions[k] := Cell(x, y);
        drawn := drawn + 2;
      }
    }

    /** [_spawn_task() for _ in range(m)] */
    method DrawTasks(m: nat) returns (ts: seq<Task>)
      requires Accepted(config)
      modifies this`drawn
      ensures drawn == old(drawn) + 3 * m
      ensures ts == InitialTasks(config, rng, old(drawn), m)
    {
      ts := [];
      for k := 0 to m
        invariant drawn == old(drawn) + 3 * k
        invariant ts == InitialTasks(config, rng, old(drawn), k)
      {
        var task := SpawnTask();
        ts := ts + [task];
      }
    }

    /** _spawn_task: three draws. */
    method SpawnTask() returns (task: Task)
      requires Accepted(config)
      modifies this`drawn
      ensures task == Transition.SpawnTask(config, rng, old(drawn)) && drawn == old(drawn) + 3
    {
      var prio := Uniform(rng(drawn), 0.2, 1.0);
      var x := IntBelow(rng(drawn + 1), config.gridSize);
      var y := IntBelow(rng(drawn + 2), config.gridSize);
      drawn := drawn + 3;
      task := Task(x, y, prio, true, 0);
    }

    /** update_comm_graph: the pairs i < j in order, one draw per pair in range. */
    method UpdateCommGraph()
      requires Valid()
      modifies this`commAdj, this`drawn
      ensures Valid()
      ensures State() == RebuildGraph(config, old(State()), rng)
    {
      var n := numAgents;
      ghost var pos := positions[..];
      ghost var d0 := drawn;
      var adj := new bool[n, n]((_, _) => false);
      ghost var links := Links({}, d0);
      for i := 0 to n
        invariant links == LinksAfterRows(config, pos, rng, d0, i) && drawn == links.drawn
        invariant forall a, b :: 0 <= a < n && 0 <= b < n ==> adj[a, b] == ((a, b) in links.edges || (b, a) in links.edges)
      {
        links := LinkRow(adj, i, pos, d0, links);
      }
      commAdj := AdjRows(adj);
      SquareExtensional(commAdj, Adjacency(n, links.edges), n);
    }

    /** Row i of update_comm_graph: the pairs (i, j) for j > i, in order. */
    method LinkRow(adj: array2<bool>, i: nat, ghost pos: seq<Cell>, ghost d0: nat, ghost links: Links)
      returns (ghost links': Links)
      requires positions.Length == numAgents && adj.Length0 == numAgents && adj.Length1 == numAgents
      requires i < numAgents && pos == positions[..]
      requires links == LinksAfterRows(config, pos, rng, d0, i) && drawn == links.drawn
      requires forall a, b :: 0 <= a < numAgents && 0 <= b < numAgents ==>
        adj[a, b] == ((a, b) in links.edges || (b, a) in links.edges)
      modifies adj, this`drawn
      ensures links' == LinksAfterRows(config, pos, rng, d0, i + 1) && drawn == links'.drawn
      ensures forall a, b :: 0 <= a < numAgents && 0 <= b < numAgents ==>
        adj[a, b] == ((a, b) in links'.edges || (b, a) in links'.edges)
    {
      var n := numAgents;
      links' := links;
      for j := i + 1 to n
        invariant links' == LinksBefore(config, pos, rng, d0, i, j) && drawn == links'.drawn
        invariant forall a, b :: 0 <= a < n && 0 <= b < n ==> adj[a, b] == ((a, b) in links'.edges || (b, a) in links'.edges)
      {
        var dist := Dist(positions[i], positions[j]);
        if dist <= config.commRadius {
          var u := rng(drawn);
          drawn := drawn + 1;
          if u > config.pLinkDrop {
            adj[i, j] := true;
            adj[j, i] := true;
          }
        }
        links' := Link(config, pos, rng, links', i, j);
      }
    }

    /** _apply_move */
    method ApplyMove(i: nat)
      requires Valid() && i < numAgents
      modifies positions, this`drawn
      ensures Valid()
      ensures State() == Move(config, old(State()), i, rng)
    {
      var d := Deltas[IntBelow(rng(drawn), |Deltas|)];
      drawn := drawn + 1;
      var p := positions[i];
      positions[i] := Cell(Clip(p.x + d.x, 0, config.gridSize - 1), Clip(p.y + d.y, 0, config.gridSize - 1));
    }

    /** The observe branch: scan the pool in order and service the first active task within distance 1. */
    method ServiceTask(i: nat, tl: Tally) returns (tl': Tally)
      requires Valid() && i < numAgents && TallyShaped(tl, numAgents)
      modifies bufferedData, this`tasks
      ensures Valid()
      ensures (State(), tl') == ObserveAction(old(State()), tl, i)
    {
      tl' := tl;
      var k := 0;
      while k < |tasks|
        invariant 0 <= k <= |tasks|
        invariant tasks == old(tasks) && bufferedData[..] == old(bufferedData[..])
        invariant forall j :: 0 <= j < k ==> !Serviceable(tasks[j], positions[i])
      {
        var task := tasks[k];
        if task.active && Dist(positions[i], Cell(task.x, task.y)) <= 1 {
          tasks := tasks[k := task.(active := false)];
          tl' := tl'.(serviced := tl'.serviced[i := tl'.serviced[i] + task.priority]);
          bufferedData[i] := bufferedData[i] + task.priority;
          return;
        }
        k := k + 1;
      }
    }

    /** _has_path_to_ground: a direct neighbour within distance 1 of the ground. */
    method HasPathToGround(src: nat) returns (found: bool)
      requires Valid() && src < numAgents
      ensures found == Transition.HasPathToGround(State(), src)
    {
      for j := 0 to numAgents
        invariant forall k :: 0 <= k < j ==> !(commAdj[src][k] && Dist(positions[k], Ground) <= 1)
      {
        if commAdj[src][j] && Dist(positions[j], Ground) <= 1 {
          return true;
        }
      }
      return false;
    }

    /** The relay branch. */
    method Relay(i: nat, tl: Tally) returns (tl': Tally)
      requires Valid() && i < numAgents && TallyShaped(tl, numAgents)
      modifies bufferedData, this`deliveredTotal, this`drawn
      ensures Valid()
      ensures (State(), tl') == RelayAction(config, old(State()), tl, i, rng)
    {
      tl' := tl;
      if bufferedData[i] > 0.0 {
        if compromisedFor[i] > 0 && config.spoofMode == "comm_jam" {
          var u := rng(drawn);
          drawn := drawn + 1;
          if u < 0.35 {
            tl' := tl'.(cyber := tl'.cyber[i := tl'.cyber[i] + 1.0]);
          } else {
            tl' := Deliver(i, tl);
          }
        } else {
          tl' := Deliver(i, tl);
        }
      }
    }

    /** Relay delivery: at the ground, or one hop from it, up to one unit leaves the buffer. */
    method Deliver(i: nat, tl: Tally) returns (tl': Tally)
      requires Valid() && i < numAgents && TallyShaped(tl, numAgents)
      modifies bufferedData, this`deliveredTotal
      ensures Valid()
      ensures (State(), tl') == Transition.Deliver(old(State()), tl, i)
    {
      tl' := tl;
      var reach := Dist(positions[i], Ground) <= 1;
      if !reach {
        reach := HasPathToGround(i);
      }
      if reach {
        var out := Min(1.0, bufferedData[i]);
        bufferedData[i] := bufferedData[i] - out;
        tl' := tl'.(delivered := tl'.delivered[i := tl'.delivered[i] + out]);
        deliveredTotal := deliveredTotal + out;
      }
    }

    /** The cyberscan branch. */
    method Cyberscan(i: nat)
      requires Valid() && i < numAgents
      modifies scanBoost, compromisedFor, this`drawn
      ensures Valid()
      ensures State() == CyberscanAction(old(State()), i, rng)
    {
      scanBoost[i] := 4;
      if compromisedFor[i] > 0 {
        var u := rng(drawn);
        drawn := drawn + 1;
        if u < 0.35 {
          compromisedFor[i] := MaxInt(0, compromisedFor[i] - 2);
        }
      }
    }

    /** The adversarial event at the start of a tick. */
    method AdversarialEvent()
      requires Valid()
      modifies compromisedFor, this`drawn
      ensures Valid()
      ensures State() == Compromise(config, old(State()), rng)
    {
      var u := rng(drawn);
      drawn := drawn + 1;
      if u < config.adversarialRate {
        CompromiseHealthy();
      }
    }

    /** The choice among the healthy agents. */
    method CompromiseHealthy()
      requires Valid()
      modifies compromisedFor, this`drawn
      ensures Valid()
      ensures State() == Transition.CompromiseHealthy(config, old(State()), rng)
    {
      var healthy := Healthy(compromisedFor[..]);
      if |healthy| > 0 {
        var idx := healthy[IntBelow(rng(drawn), |healthy|)];
        drawn := drawn + 1;
        compromisedFor[idx] := config.compromiseDuration;
      }
    }

    /** One iteration of the action loop: agent i with the requested action code. */
    method ResolveAgent(i: nat, requested: int, tl: Tally) returns (tl': Tally)
      requires Valid() && Ready(config) && i < numAgents && TallyShaped(tl, numAgents)
      modifies positions, energy, compromisedFor, scanBoost, bufferedData
      modifies this`tasks, this`deliveredTotal, this`drawn
      ensures Valid()
      ensures (State(), tl') == Transition.ResolveAgent(config, old(State()), tl, i, requested, rng)
    {
      tl' := tl;
      if !(energy[i] > 0.0) {
        return;
      }
      var act;
      act, tl' := Perturb(i, requested, tl');
      tl' := PayAndApply(i, act, tl');
    }

    /** The action_noise roll. */
    method Perturb(i: nat, requested: int, tl: Tally) returns (act: int, tl': Tally)
      requires Valid() && i < numAgents && TallyShaped(tl, numAgents)
      modifies this`drawn
      ensures Valid()
      ensures (act, State(), tl') == Transition.Perturb(config, old(State()), tl, i, requested, rng)
    {
      act, tl' := requested, tl;
      if compromisedFor[i] > 0 && config.spoofMode == "action_noise" {
        var u := rng(drawn);
        drawn := drawn + 1;
        if u < 0.25 {
          act := IntBelow(rng(drawn), 6);
          drawn := drawn + 1;
          tl' := tl'.(cyber := tl'.cyber[i := tl'.cyber[i] + 0.5]);
        }
      }
    }

    /** Pay for the action, then apply it if still alive. */
    method PayAndApply(i: nat, act: int, tl: Tally) returns (tl': Tally)
      requires Valid() && Ready(config) && i < numAgents && TallyShaped(tl, numAgents)
      modifies positions, energy, compromisedFor, scanBoost, bufferedData
      modifies this`tasks, this`deliveredTotal, this`drawn
      ensures Valid()
      ensures (State(), tl') == Transition.PayAndApply(config, old(State()), tl, i, act, rng)
    {
      var name := ActionName(act);
      var cost := Cost(config, name);
      energy[i] := energy[i] - cost;
      tl' := tl.(spent := tl.spent[i := tl.spent[i] + cost]);
      if energy[i] <= 0.0 {
        energy[i] := 0.0;
        assert energy[..] == old(energy[..])[i := 0.0];
        return;
      }
      assert energy[..] == old(energy[..])[i := old(energy[i]) - cost];
      tl' := ApplyEffect(i, name, tl');
    }

    /** The branch on the action name. */
    method ApplyEffect(i: nat, name: string, tl: Tally) returns (tl': Tally)
      requires Valid() && Ready(config) && i < numAgents && TallyShaped(tl, numAgents)
      modifies positions, energy, compromisedFor, scanBoost, bufferedData
      modifies this`tasks, this`deliveredTotal, this`drawn
      ensures Valid()
      ensures (State(), tl') == Transition.ApplyEffect(config, old(State()), tl, i, name, rng)
    {
      tl' := tl;
      if name == "move" {
        ApplyMove(i);
      } else if name == "observe" {
        tl' := ServiceTask(i, tl);
      } else if name == "relay" {
        tl' := Relay(i, tl);
      } else if name == "cyberscan" {
        Cyberscan(i);
      } else if name == "lowpower" {
        if config.enableRecharge && InSunlight(config, t) {
          energy[i] := Min(config.energyBudget, energy[i] + config.rechargeRate);
        }
      }
    }

    /** Passive recharge of every alive agent while in sunlight. */
    method PassiveRecharge()
      requires Valid() && (config.enableRecharge ==> config.sunlightPeriod != 0)
      modifies energy
      ensures Valid()
      ensures State() == Transition.PassiveRecharge(config, old(State()))
    {
      if config.enableRecharge && InSunlight(config, t) {
        for i := 0 to numAgents
          invariant forall k :: 0 <= k < i ==> energy[k] == Recharged(config, old(energy[..]))[k]
          invariant forall k :: i <= k < numAgents ==> energy[k] == old(energy[k])
        {
          if energy[i] > 0.0 {
            energy[i] := Min(config.energyBudget, energy[i] + 0.15 * config.rechargeRate);
          }
        }
        assert energy[..] == Recharged(config, old(energy[..]));
      }
    }

    /** _update_tasks: every slot in order. */
    method UpdateTasks()
      requires Valid()
      modifies this`tasks, this`drawn
      ensures Valid()
      ensures State() == AgeTasks(config, old(State()), rng)
    {
      ghost var p0 := Pool(tasks, drawn);
      for idx := 0 to |tasks|
        invariant Valid() && |tasks| == |p0.tasks|
        invariant Pool(tasks, drawn) == AgeUpTo(config, p0, rng, idx)
      {
        UpdateSlot(idx);
      }
    }

    /** One slot of _update_tasks. */
    method UpdateSlot(idx: nat)
      requires Valid() && idx < |tasks|
      modifies this`tasks, this`drawn
      ensures Valid()
      ensures Pool(tasks, drawn) == AgeSlot(config, old(Pool(tasks, drawn)), idx, rng)
    {
      var task := tasks[idx];
      if task.active {
        task := task.(age := task.age + 1);
        if task.age > 25 {
          task := task.(active := false);
        } else if config.taskPriorityMode == "dynamic" {
          var drift := Uniform(rng(drawn), -0.05, 0.08);
          drawn := drawn + 1;
          task := task.(priority := ClipReal(task.priority + drift, 0.1, 1.0));
        }
        tasks := tasks[idx := task];
      } else {
        var u := rng(drawn);
        drawn := drawn + 1;
        if u < config.taskSpawnRate {
          var spawned := SpawnTask();
          tasks := tasks[idx := spawned];
        }
      }
    }

    /** Timer decay and the clock. */
    method DecayTimers()
      requires Valid()
      modifies compromisedFor, scanBoost, this`t
      ensures Valid()
      ensures State() == DecayAndTick(old(State()))
    {
      forall k | 0 <= k < compromisedFor.Length {
        compromisedFor[k] := MaxInt(0, compromisedFor[k] - 1);
      }
      forall k | 0 <= k < scanBoost.Length {
        scanBoost[k] := MaxInt(0, scanBoost[k] - 1);
      }
      t := t + 1;
      assert compromisedFor[..] == Decayed(old(compromisedFor[..]));
      assert scanBoost[..] == Decayed(old(scanBoost[..]));
    }

    /** _isolated_count */
    method IsolatedCount() returns (cnt: nat)
      requires Valid()
      ensures cnt == IsolatedUpTo(State(), numAgents)
    {
      cnt := 0;
      for i := 0 to numAgents
        invariant cnt == IsolatedUpTo(State(), i)
      {
        if energy[i] > 0.0 && CountTrue(commAdj[i]) == 0 {
          cnt := cnt + 1;
        }
      }
    }

    /** Tally of nearby active tasks for one observation. */
    method NearbyTasks(i: nat) returns (count: nat, prio: real)
      requires Valid() && i < numAgents
      ensures count == NearCount(tasks, positions[i]) && prio == NearPriority(tasks, positions[i])
    {
      count, prio := 0, 0.0;
      for k := 0 to |tasks|
        invariant count == NearCount(tasks[..k], positions[i])
        invariant prio == NearPriority(tasks[..k], positions[i])
      {
        var task := tasks[k];
        if task.active && Dist(positions[i], Cell(task.x, task.y)) <= 2 {
          count := count + 1;
          prio := prio + task.priority;
        }
        assert tasks[..k + 1][..k] == tasks[..k];
      }
      assert tasks[..|tasks|] == tasks;
    }

    /** observe(i); the sine and cosine of the orbital phase are supplied by the caller. */
    method Observe(i: nat, phaseSin: real, phaseCos: real) returns (obs: seq<real>)
      requires Valid() && i < numAgents && config.sunlightPeriod != 0
      modifies this`drawn
      ensures Valid()
      ensures (obs, drawn) == Observation(config, old(State()), i, rng, phaseSin, phaseCos)
    {
      obs := TruthfulObservation(i, phaseSin, phaseCos);
      if compromisedFor[i] > 0 && config.spoofMode == "obs_spoof" {
        var e := Uniform(rng(drawn), 0.0, 1.0);
        var first := Uniform(rng(drawn + 1), 0.0, 1.0);
        var second := Uniform(rng(drawn + 2), 0.0, 1.0);
        drawn := drawn + 3;
        obs := obs[0 := e][7 := first][8 := second];
      }
    }

    /** The 14 observation values before spoofing. */
    method TruthfulObservation(i: nat, phaseSin: real, phaseCos: real) returns (obs: seq<real>)
      requires Valid() && i < numAgents
      ensures obs == Truthful(config, State(), i, phaseSin, phaseCos)
    {
      var n := numAgents;
      var scale := Max((config.gridSize - 1) as real, 1.0);
      var energyNorm := energy[i] / Max(config.energyBudget, 0.000001);
      var cyber := [1.0, 0.0, 0.0];
      if compromisedFor[i] > 0 {
        cyber := [0.0, 0.0, 1.0];
      } else if scanBoost[i] > 0 {
        cyber := [0.0, 1.0, 0.0];
      }
      var deg := CountTrue(commAdj[i]);
      var degNorm := deg as real / MaxInt(1, n - 1) as real;
      var count, prio := NearbyTasks(i);
      var norm := Max(1.0, config.numTasks as real);
      var bufferNorm := Min(bufferedData[i] / 5.0, 1.0);
      var compromisedShare := 0.0;
      if deg > 0 {
        compromisedShare := CompromisedNeighbors(State(), i, n) as real / deg as real;
      }
      var aliveFrac := CountAlive(energy[..]) as real / n as real;
      obs := [energyNorm, positions[i].x as real / scale, positions[i].y as real / scale,
              cyber[0], cyber[1], cyber[2], degNorm, Min(count as real / norm, 1.0), Min(prio / norm, 1.0),
              bufferNorm, phaseSin, phaseCos, compromisedShare, aliveFrac];
    }

    /** step(actions, agent_names) */
    method Step(actions: map<string, int>, names: seq<string>) returns (out: Outcome)
      requires Valid() && Ready(config) && |names| <= numAgents
      modifies positions, energy, compromisedFor, scanBoost, bufferedData
      modifies this`tasks, this`deliveredTotal, this`drawn, this`commAdj, this`t
      modifies this`lastRewardComponents, this`lastReward
      ensures Valid() && rng == old(rng)
      ensures (State(), out) == Transition.Step(config, old(State()), actions, names, old(rng))
    {
      var tl := Act(actions, names);
      out := Finish(tl, names);
    }

    /** Everything after the action loop. */
    method Finish(tl: Tally, names: seq<string>) returns (out: Outcome)
      requires Valid() && Ready(config) && TallyShaped(tl, numAgents) && |names| <= numAgents
      modifies energy, compromisedFor, scanBoost, this`tasks, this`drawn, this`commAdj, this`t
      modifies this`lastRewardComponents, this`lastReward
      ensures Valid()
      ensures (State(), out) == Assemble(config, Transition.Settle(config, old(State()), rng), tl, names)
    {
      Settle();
      out := Report(tl, names);
    }

    /** The adversarial event and the action loop, from fresh accumulators. */
    method Act(actions: map<string, int>, names: seq<string>) returns (tl: Tally)
      requires Valid() && Ready(config) && |names| <= numAgents
      modifies positions, energy, compromisedFor, scanBoost, bufferedData
      modifies this`tasks, this`deliveredTotal, this`drawn
      ensures Valid()
      ensures (State(), tl) == Transition.Act(config, old(State()), actions, names, rng)
    {
      AdversarialEvent();
      ghost var w1 := State();
      tl := ZeroTally(numAgents);
      for k := 0 to |names|
        invariant Valid() && TallyShaped(tl, numAgents)
        invariant (State(), tl) == ResolveAll(config, w1, ZeroTally(numAgents), actions, names, rng, k)
      {
        tl := ResolveAgent(k, ActionFor(actions, names[k]), tl);
      }
    }

    /** Recharge, the task pool, the graph, the timers and the clock. */
    method Settle()
      requires Valid() && Ready(config)
      modifies energy, compromisedFor, scanBoost, this`tasks, this`drawn, this`commAdj, this`t
      ensures Valid()
      ensures State() == Transition.Settle(config, old(State()), rng)
    {
      PassiveRecharge();
      UpdateTasks();
      UpdateCommGraph();
      DecayTimers();
    }

    /** The reward components, the shared reward and the per-agent dictionaries. */
    method Report(tl: Tally, names: seq<string>) returns (out: Outcome)
      requires Valid() && TallyShaped(tl, numAgents) && |names| <= numAgents
      modifies this`lastRewardComponents, this`lastReward
      ensures Valid()
      ensures (State(), out) == Assemble(config, old(State()), tl, names)
    {
      var comps := Components(tl);
      lastRewardComponents := comps;
      var shared := ComputeSharedReward(comps, config.rewardWeights);
      lastReward := shared;
      var w := State();
      var rewards := Rewards(w, tl, names, shared);
      var m := |names|;
      var terminated := MissionFailed(energy[..]);
      var truncated := t >= config.maxSteps;
      var summary := if terminated || truncated then Some(Episode(t, deliveredTotal, shared, CountAlive(energy[..]))) else None;
      var infos := seq(m, k requires 0 <= k < m => BuildInfo(w, k).(episode := summary));
      out := Outcome(rewards, ByName(names, seq(m, _ => terminated)), ByName(names, seq(m, _ => truncated)),
                     ByName(names, infos));
    }

    /** The shared components dictionary of this tick. */
    method Components(tl: Tally) returns (comps: map<string, real>)
      requires Valid() && TallyShaped(tl, numAgents)
      ensures comps == SharedComponents(State(), tl)
    {
      var alive := CountAlive(energy[..]);
      var isolated := IsolatedCount();
      comps := map[
        "task" := Sum(tl.serviced),
        "delivery" := Sum(tl.delivered),
        "energy" := Sum(tl.spent),
        "isolation" := isolated as real,
        "failure" := (numAgents - alive) as real,
        "cyber" := Sum(tl.cyber)];
    }

    /** The rewards dictionary, one name at a time. */
    method Rewards(w: World, tl: Tally, names: seq<string>, shared: real) returns (rewards: map<string, real>)
      requires Shaped(w) && TallyShaped(tl, |w.energy|) && |names| <= |w.energy|
      ensures rewards == ByName(names, seq(|names|, k requires 0 <= k < |names| => AgentReward(config, w, tl, k, shared)))
    {
      ghost var perAgent := seq(|names|, k requires 0 <= k < |names| => AgentReward(config, w, tl, k, shared));
      rewards := map[];
      for k := 0 to |names|
        invariant rewards == ByName(names[..k], perAgent[..k])
      {
        rewards := rewards[names[k] := AgentReward(config, w, tl, k, shared)];
        assert names[..k + 1][..k] == names[..k] && perAgent[..k + 1][..k] == perAgent[..k];
      }
      assert names[..|names|] == names && perAgent[..|names|] == perAgent;
    }
  }
}
