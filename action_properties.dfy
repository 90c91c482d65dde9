/**
 * What each phase of a tick does to the one agent, task or timer it touches:
 * the move, observe, relay, cyberscan and lowpower effects, cost payment,
 * action noise, the adversary, task aging and the sunlight clock. Each lemma
 * also says what stays unchanged and how many draws are consumed.
 */
module ActionProperties {
  import opened Common
  import opened Draws
  import opened Config
  import opened Transition
  import opened Spaces
  import opened Invariants

  // ------------------------------------------------------------ move

  /** A move lands on the grid, at most one cell from where it started, and moves nobody else. */
  lemma MoveIsOneClippedStep(c: OrbitalConfig, w: World, i: nat, rng: Stream)
    requires Shaped(w) && i < |w.energy| && c.gridSize >= 1
    ensures var w' := Move(c, w, i, rng);
      InGrid(c, w'.positions[i]) &&
      (InGrid(c, w.positions[i]) ==> Dist(w'.positions[i], w.positions[i]) <= 1) &&
      (forall k :: 0 <= k < |w.energy| && k != i ==> w'.positions[k] == w.positions[k]) &&
      w'.drawn == w.drawn + 1 && w'.energy == w.energy && w'.tasks == w.tasks
  {
    var d := Deltas[IntBelow(rng(w.drawn), |Deltas|)];
    assert Abs(d.x) + Abs(d.y) <= 1;
  }

  // ------------------------------------------------------------ observe

  /**
   * observe deactivates at most one task, and only the first serviceable one in
   * pool order; the agent's buffer and serviced tally grow by exactly that
   * task's priority. With no serviceable task nothing changes.
   */
  lemma ObserveServicesFirstServiceable(w: World, tl: Tally, i: nat)
    requires Shaped(w) && i < |w.energy| && TallyShaped(tl, |w.energy|)
    ensures var r := ObserveAction(w, tl, i);
      var at := w.positions[i];
      |r.0.tasks| == |w.tasks| &&
      (forall a, b :: 0 <= a < b < |w.tasks| && r.0.tasks[a] != w.tasks[a] ==> r.0.tasks[b] == w.tasks[b]) &&
      (forall k :: 0 <= k < |w.tasks| && r.0.tasks[k] != w.tasks[k] ==>
         Serviceable(w.tasks[k], at) && (forall j :: 0 <= j < k ==> !Serviceable(w.tasks[j], at)) &&
         r.0.tasks[k] == w.tasks[k].(active := false) &&
         r.0.buffered[i] == w.buffered[i] + w.tasks[k].priority &&
         r.1.serviced[i] == tl.serviced[i] + w.tasks[k].priority) &&
      ((exists k :: 0 <= k < |w.tasks| && Serviceable(w.tasks[k], at)) <==> r.0.tasks != w.tasks) &&
      (r.0.tasks == w.tasks ==> r == (w, tl)) &&
      r.0.positions == w.positions && r.0.energy == w.energy && r.0.drawn == w.drawn &&
      (forall j :: 0 <= j < |w.energy| && j != i ==> r.0.buffered[j] == w.buffered[j] && r.1.serviced[j] == tl.serviced[j])
  {
    var r := ObserveAction(w, tl, i);
    match FirstServiceable(w.tasks, w.positions[i])
    case None =>
    case Some(k) =>
      assert r.0.tasks[k] != w.tasks[k];
  }

  // ------------------------------------------------------------ relay

  /** The relay's roll fails: the agent is compromised under comm_jam, has data, and draws below 0.35. */
  predicate Jammed(c: OrbitalConfig, w: World, i: nat, rng: Stream)
    requires Shaped(w) && i < |w.energy|
  {
    w.buffered[i] > 0.0 && w.compromisedFor[i] > 0 && c.spoofMode == "comm_jam" && rng(w.drawn) < 0.35
  }

  /** Ground is within one cell, directly or through a current neighbour. */
  predicate Reachable(w: World, i: nat)
    requires Shaped(w) && i < |w.energy|
  {
    Dist(w.positions[i], Ground) <= 1 || HasPathToGround(w, i)
  }

  /**
   * relay delivers exactly min(1, buffered) when the agent has data, is not
   * jammed, and reaches ground, and nothing otherwise; the buffer never goes
   * negative; a jam costs 1.0 cyber; the jam roll is drawn only for a
   * compromised agent with data under comm_jam.
   */
  lemma RelayDeliversOrJams(c: OrbitalConfig, w: World, tl: Tally, i: nat, rng: Stream)
    requires Shaped(w) && i < |w.energy| && TallyShaped(tl, |w.energy|) && w.buffered[i] >= 0.0
    ensures var r := RelayAction(c, w, tl, i, rng);
      var out := if w.buffered[i] > 0.0 && !Jammed(c, w, i, rng) && Reachable(w, i) then Min(1.0, w.buffered[i]) else 0.0;
      r.0.buffered[i] == w.buffered[i] - out && r.0.buffered[i] >= 0.0 &&
      r.0.deliveredTotal == w.deliveredTotal + out &&
      r.1.delivered[i] == tl.delivered[i] + out &&
      r.1.cyber[i] == tl.cyber[i] + (if Jammed(c, w, i, rng) then 1.0 else 0.0) &&
      r.0.drawn == w.drawn + (if w.buffered[i] > 0.0 && w.compromisedFor[i] > 0 && c.spoofMode == "comm_jam" then 1 else 0) &&
      r.0.tasks == w.tasks && r.0.energy == w.energy && r.0.positions == w.positions &&
      (forall j :: 0 <= j < |w.energy| && j != i ==>
         r.0.buffered[j] == w.buffered[j] && r.1.delivered[j] == tl.delivered[j] && r.1.cyber[j] == tl.cyber[j])
  {
    if w.buffered[i] > 0.0 && w.compromisedFor[i] > 0 && c.spoofMode == "comm_jam" {
      var w' := w.(drawn := w.drawn + 1);
      assert Reachable(w', i) == Reachable(w, i) by {
        assert HasPathToGround(w', i) == HasPathToGround(w, i);
      }
    }
  }

  /** Single-hop reachability of agent i depends only on row i of the graph. */
  lemma PathReadsOneRow(w: World, i: nat, adj: seq<seq<bool>>)
    requires Shaped(w) && i < |w.energy| && Square(adj, |w.energy|)
    requires forall j :: 0 <= j < |w.energy| ==> (adj[i][j] <==> w.adj[i][j])
    ensures HasPathToGround(w.(adj := adj), i) <==> HasPathToGround(w, i)
  {
    var w2 := w.(adj := adj);
    if HasPathToGround(w, i) {
      var j :| 0 <= j < |w.positions| && w.adj[i][j] && Dist(w.positions[j], Ground) <= 1;
      assert w2.adj[i][j];
    }
    if HasPathToGround(w2, i) {
      var j :| 0 <= j < |w2.positions| && w2.adj[i][j] && Dist(w2.positions[j], Ground) <= 1;
      assert w.adj[i][j];
    }
  }

  /**
   * Relay reads the graph only through row i and never writes it: with any
   * graph that agrees on row i, relay computes the same state (apart from the
   * graph itself) and the same tally.
   */
  lemma RelayUsesCurrentGraph(c: OrbitalConfig, w: World, tl: Tally, i: nat, rng: Stream, adj: seq<seq<bool>>)
    requires Shaped(w) && i < |w.energy| && TallyShaped(tl, |w.energy|) && Square(adj, |w.energy|)
    requires forall j :: 0 <= j < |w.energy| ==> (adj[i][j] <==> w.adj[i][j])
    ensures RelayAction(c, w.(adj := adj), tl, i, rng).0 == RelayAction(c, w, tl, i, rng).0.(adj := adj)
    ensures RelayAction(c, w.(adj := adj), tl, i, rng).1 == RelayAction(c, w, tl, i, rng).1
    ensures RelayAction(c, w, tl, i, rng).0.adj == w.adj
  {
    PathReadsOneRow(w, i, adj);
    PathReadsOneRow(w.(drawn := w.drawn + 1), i, adj);
  }

  // ------------------------------------------------------------ cyberscan and lowpower

  /**
   * cyberscan sets the scan boost to 4; a compromised agent's timer is cut by 2
   * (not below 0) on a draw below 0.35; a healthy agent's timer never changes
   * and costs no draw.
   */
  lemma CyberscanEffect(w: World, i: nat, rng: Stream)
    requires Shaped(w) && i < |w.energy|
    ensures var w' := CyberscanAction(w, i, rng);
      w'.scanBoost[i] == 4 &&
      w'.compromisedFor[i] == (if w.compromisedFor[i] > 0 && rng(w.drawn) < 0.35
                               then MaxInt(0, w.compromisedFor[i] - 2) else w.compromisedFor[i]) &&
      (w.compromisedFor[i] >= 0 ==> w'.compromisedFor[i] >= 0)
    ensures var w' := CyberscanAction(w, i, rng);
      w'.compromisedFor[i] <= w.compromisedFor[i] &&
      w'.drawn == w.drawn + (if w.compromisedFor[i] > 0 then 1 else 0) &&
      (forall j :: 0 <= j < |w.energy| && j != i ==>
         w'.compromisedFor[j] == w.compromisedFor[j] && w'.scanBoost[j] == w.scanBoost[j]) &&
      w'.energy == w.energy && w'.buffered == w.buffered && w'.tasks == w.tasks
  {
  }

  /** lowpower never lowers energy below where it was nor raises it above the budget. */
  lemma LowpowerGains(c: OrbitalConfig, w: World, i: nat)
    requires Shaped(w) && i < |w.energy| && (c.enableRecharge ==> c.sunlightPeriod != 0)
    requires c.rechargeRate >= 0.0 && w.energy[i] <= c.energyBudget
    ensures var w' := LowpowerAction(c, w, i);
      w.energy[i] <= w'.energy[i] <= c.energyBudget &&
      (w'.energy[i] != w.energy[i] ==> c.enableRecharge && InSunlight(c, w.t)) &&
      OthersEnergyKept(w, w', i) && w'.drawn == w.drawn
  {
  }

  // ------------------------------------------------------------ payment and noise

  /**
   * The action's cost is recorded in full even when it exhausts the agent; an
   * agent driven to 0 or below ends at exactly 0 with no effect applied; only
   * lowpower can change the remaining energy further.
   */
  lemma PaymentAlwaysCounted(c: OrbitalConfig, w: World, tl: Tally, i: nat, act: int, rng: Stream)
    requires Shaped(w) && i < |w.energy| && TallyShaped(tl, |w.energy|) && Ready(c)
    ensures var r := PayAndApply(c, w, tl, i, act, rng);
      var cost := Cost(c, ActionName(act));
      r.1.spent[i] == tl.spent[i] + cost &&
      (w.energy[i] - cost <= 0.0 ==> r == (w.(energy := w.energy[i := 0.0]), tl.(spent := r.1.spent))) &&
      (w.energy[i] - cost > 0.0 && ActionName(act) != "lowpower" ==> r.0.energy[i] == w.energy[i] - cost)
  {
    var name := ActionName(act);
    var e := w.energy[i] - Cost(c, name);
    if e > 0.0 && name != "lowpower" {
      var paid := tl.(spent := tl.spent[i := tl.spent[i] + Cost(c, name)]);
      var w1 := w.(energy := w.energy[i := e]);
      if name == "move" {
      } else if name == "observe" {
        ObserveServicesFirstServiceable(w1, paid, i);
      } else if name == "relay" {
        if w1.buffered[i] > 0.0 && w1.compromisedFor[i] > 0 && c.spoofMode == "comm_jam" {
        }
      }
    }
  }

  /** A missing or unknown action code is idle and costs the idle price. */
  lemma UnknownActionIsIdle(c: OrbitalConfig, actions: map<string, int>, name: string)
    requires name !in actions || actions[name] !in ActionMap
    ensures ActionName(ActionFor(actions, name)) == "idle"
  {
  }

  /**
   * The requested action is replaced only under action_noise while compromised,
   * on a roll below 0.25, by a code in [0, 6) and at 0.5 cyber; the roll is
   * drawn only in that mode and state.
   */
  lemma NoiseOnlyWhenCompromised(c: OrbitalConfig, w: World, tl: Tally, i: nat, requested: int, rng: Stream)
    requires Shaped(w) && i < |w.energy| && TallyShaped(tl, |w.energy|)
    ensures var r := Perturb(c, w, tl, i, requested, rng);
      var hit := NoiseApplies(c, w, i) && rng(w.drawn) < 0.25;
      (!NoiseApplies(c, w, i) ==> r == (requested, w, tl)) &&
      (r.0 != requested ==> hit) && (hit ==> 0 <= r.0 < 6) &&
      r.2.cyber[i] == tl.cyber[i] + (if hit then 0.5 else 0.0) &&
      r.1.drawn == w.drawn + (if hit then 2 else if NoiseApplies(c, w, i) then 1 else 0) &&
      r.2.serviced == tl.serviced && r.2.delivered == tl.delivered && r.2.spent == tl.spent
  {
  }

  // ------------------------------------------------------------ adversary

  /**
   * Phase 1 changes at most one timer, only a healthy agent's, and sets it to
   * compromise_duration; one or two draws are consumed; nothing else changes.
   */
  lemma CompromiseAtMostOne(c: OrbitalConfig, w: World, rng: Stream)
    requires Shaped(w)
    ensures var w' := Compromise(c, w, rng);
      |w'.compromisedFor| == |w.compromisedFor| &&
      (forall a, b :: 0 <= a < b < |w.compromisedFor| && w'.compromisedFor[a] != w.compromisedFor[a] ==>
         w'.compromisedFor[b] == w.compromisedFor[b]) &&
      (forall k :: 0 <= k < |w.compromisedFor| && w'.compromisedFor[k] != w.compromisedFor[k] ==>
         w.compromisedFor[k] <= 0 && w'.compromisedFor[k] == c.compromiseDuration) &&
      (w'.drawn == w.drawn + 1 || w'.drawn == w.drawn + 2) &&
      w' == w.(compromisedFor := w'.compromisedFor, drawn := w'.drawn)
  {
  }

  /** With adversarial_rate 0 no agent is ever compromised; the roll is still drawn. */
  lemma NoAdversaryNoCompromise(c: OrbitalConfig, w: World, rng: Stream)
    requires Shaped(w) && c.adversarialRate <= 0.0
    ensures Compromise(c, w, rng) == w.(drawn := w.drawn + 1)
  {
  }

  /** A successful roll with a healthy agent present compromises one of them. */
  lemma SuccessfulRollCompromises(c: OrbitalConfig, w: World, rng: Stream)
    requires Shaped(w) && Accepted(c) && rng(w.drawn) < c.adversarialRate
    requires exists k :: 0 <= k < |w.compromisedFor| && w.compromisedFor[k] <= 0
    ensures var w' := Compromise(c, w, rng);
      exists k :: 0 <= k < |w.compromisedFor| && w.compromisedFor[k] <= 0 && w'.compromisedFor[k] == c.compromiseDuration
  {
    var rolled := w.(drawn := w.drawn + 1);
    var h := Healthy(w.compromisedFor);
    var k0 :| 0 <= k0 < |w.compromisedFor| && w.compromisedFor[k0] <= 0;
    assert k0 in h;
    var idx := h[IntBelow(rng(rolled.drawn), |h|)];
    assert Compromise(c, w, rng).compromisedFor[idx] == c.compromiseDuration;
  }

  // ------------------------------------------------------------ task pool

  /**
   * One slot: an active task ages by one and expires past age 25 (no draw);
   * otherwise it keeps its cell and, in dynamic mode, drifts within [0.1, 1]
   * using one draw. An inactive slot rolls once and respawns, active at age 0
   * with priority in [0.2, 1] on the grid, exactly when the roll is below
   * task_spawn_rate, using three more draws. No other slot changes.
   */
  lemma AgeSlotEffect(c: OrbitalConfig, p: Pool, idx: nat, rng: Stream)
    requires idx < |p.tasks| && c.gridSize > 0
    ensures var p' := AgeSlot(c, p, idx, rng);
      var task := p.tasks[idx];
      var task' := p'.tasks[idx];
      (forall k :: 0 <= k < |p.tasks| && k != idx ==> p'.tasks[k] == p.tasks[k]) &&
      (task.active && task.age + 1 > 25 ==> task' == task.(age := task.age + 1, active := false) && p'.drawn == p.drawn) &&
      (task.active && task.age + 1 <= 25 ==>
         task'.active && task'.age == task.age + 1 && task'.x == task.x && task'.y == task.y &&
         (c.taskPriorityMode == "dynamic" ==> 0.1 <= task'.priority <= 1.0 && p'.drawn == p.drawn + 1) &&
         (c.taskPriorityMode != "dynamic" ==> task'.priority == task.priority && p'.drawn == p.drawn)) &&
      (!task.active ==>
         (task'.active <==> rng(p.drawn) < c.taskSpawnRate) &&
         (task'.active ==> task'.age == 0 && 0.2 <= task'.priority <= 1.0 && InGrid(c, Cell(task'.x, task'.y)) &&
                           p'.drawn == p.drawn + 4) &&
         (!task'.active ==> task' == task && p'.drawn == p.drawn + 1))
  {
  }

  // ------------------------------------------------------------ timers

  /** After decay every timer is the old one less 1, never below 0, and the clock advances by 1. */
  lemma DecayEffect(w: World)
    requires Shaped(w)
    ensures var w' := DecayAndTick(w);
      w'.t == w.t + 1 &&
      (forall i :: 0 <= i < |w.energy| ==>
         0 <= w'.compromisedFor[i] && 0 <= w'.scanBoost[i] &&
         w'.compromisedFor[i] == MaxInt(0, w.compromisedFor[i] - 1) && w'.scanBoost[i] == MaxInt(0, w.scanBoost[i] - 1)) &&
      w'.energy == w.energy && w'.positions == w.positions && w'.tasks == w.tasks && w'.drawn == w.drawn
  {
  }

  // ------------------------------------------------------------ sunlight

  lemma DivShift(a: int, d: int)
    requires d > 0
    ensures (a + d) / d == a / d + 1
  {
    var q, r := a / d, a % d;
    assert a == d * q + r && 0 <= r < d;
    assert a + d == d * (q + 1) + r;
    DivUnique(a + d, d, q + 1, r);
  }

  lemma DivUnique(a: int, d: int, q: int, r: int)
    requires d > 0 && a == d * q + r && 0 <= r < d
    ensures a / d == q
  {
    var q0, r0 := a / d, a % d;
    assert d * (q0 - q) == r - r0 by {
      assert d * q0 + r0 == d * q + r;
    }
    if q0 > q {
      MulAtLeast(d, q0 - q);
    } else if q0 < q {
      MulAtLeast(d, q - q0);
    }
  }

  lemma MulAtLeast(d: int, x: int)
    requires d > 0 && x >= 1
    ensures d * x >= d
  {
    assert d * x == d + d * (x - 1);
    assert d * (x - 1) >= 0;
  }

  /** Python's floor division: adding the divisor once adds one to the quotient. */
  lemma FloorDivShift(a: int, d: int)
    requires d != 0
    ensures FloorDiv(a + d, d) == FloorDiv(a, d) + 1
  {
    if d > 0 {
      DivShift(a, d);
    } else {
      assert -(a + d) == -a + -d;
      DivShift(-a, -d);
    }
  }

  /** The sunlight predicate repeats with period sunlight_period (of either sign). */
  lemma SunlightIsPeriodic(c: OrbitalConfig, t: int)
    requires c.sunlightPeriod != 0
    ensures InSunlight(c, t + c.sunlightPeriod) == InSunlight(c, t)
  {
    var p := c.sunlightPeriod;
    var q := FloorDiv(t, p);
    FloorDivShift(t, p);
    assert p * (q + 1) == p * q + p;
    assert FloorMod(t + p, p) == FloorMod(t, p);
  }

  /** With a positive period, the first half of each period (rounded down) is lit and the rest is dark. */
  lemma SunlightFirstHalf(c: OrbitalConfig, t: int)
    requires c.sunlightPeriod > 0
    ensures InSunlight(c, t) <==> t % c.sunlightPeriod < c.sunlightPeriod / 2
  {
  }

  /** A period of 1 is never lit, so neither recharge ever happens. */
  lemma PeriodOneIsDark(c: OrbitalConfig, w: World, t: int)
    requires c.sunlightPeriod == 1 && Shaped(w)
    ensures !InSunlight(c, t) && PassiveRecharge(c, w) == w
  {
  }
}
