/**
 * Engine parameters: the flat configuration record, its default tables and the
 * range checks that reject an invalid configuration before any simulation
 * state exists.
 */
module Config {
  import opened Common

  const DefaultRewardWeights: map<string, real> := map[
    "task" := 1.0, "delivery" := 1.5, "energy" := 0.05,
    "isolation" := 0.3, "failure" := 1.0, "cyber" := 0.4]

  const DefaultEnergyCosts: map<string, real> := map[
    "observe" := 1.5, "relay" := 1.0, "move" := 1.2,
    "lowpower" := 0.2, "cyberscan" := 0.8, "idle" := 0.4]

  datatype OrbitalConfig = OrbitalConfig(
    numSatellites: int,
    gridSize: int,
    numTasks: int,
    taskSpawnRate: real,
    taskPriorityMode: string,
    energyBudget: real,
    energyCosts: map<string, real>,
    enableRecharge: bool,
    rechargeRate: real,
    commRadius: int,
    pLinkDrop: real,
    adversarialRate: real,
    compromiseDuration: int,
    spoofMode: string,
    rewardWeights: map<string, real>,
    rewardMode: string,
    maxSteps: int,
    sunlightPeriod: int,
    renderMode: Option<string>,
    showLinks: bool)

  /** The configuration obtained when no field is given. */
  function Default(): (d: OrbitalConfig)
    ensures "idle" in d.energyCosts && forall name :: name in d.energyCosts ==> d.energyCosts[name] >= 0.0
    ensures forall key :: key in d.rewardWeights ==> d.rewardWeights[key] >= 0.0
    ensures d.energyBudget >= 0.0 && d.rechargeRate >= 0.0 && d.sunlightPeriod != 0
  {
    OrbitalConfig(
      numSatellites := 6, gridSize := 12, numTasks := 8, taskSpawnRate := 0.15,
      taskPriorityMode := "dynamic", energyBudget := 40.0, energyCosts := DefaultEnergyCosts,
      enableRecharge := true, rechargeRate := 0.4, commRadius := 3, pLinkDrop := 0.05,
      adversarialRate := 0.05, compromiseDuration := 8, spoofMode := "obs_spoof",
      rewardWeights := DefaultRewardWeights, rewardMode := "shared", maxSteps := 256,
      sunlightPeriod := 20, renderMode := None, showLinks := true)
  }

  predicate InUnitInterval(x: real) { 0.0 <= x <= 1.0 }

  /** The first k of the construction checks, in source order, pass. */
  predicate PassesFirst(c: OrbitalConfig, k: nat)
  {
    (k > 0 ==> c.numSatellites >= 1) && (k > 1 ==> c.gridSize >= 2) && (k > 2 ==> c.numTasks >= 1) &&
    (k > 3 ==> InUnitInterval(c.taskSpawnRate)) && (k > 4 ==> InUnitInterval(c.pLinkDrop)) &&
    (k > 5 ==> InUnitInterval(c.adversarialRate)) && (k > 6 ==> c.compromiseDuration >= 1)
  }

  /**
   * The error raised by construction: the message of the first failing check,
   * in the order the checks run, or None when the configuration is accepted.
   */
  function Violation(c: OrbitalConfig): (err: Option<string>)
    ensures err.Some? <==>
      c.numSatellites < 1 || c.gridSize < 2 || c.numTasks < 1 ||
      !InUnitInterval(c.taskSpawnRate) || !InUnitInterval(c.pLinkDrop) ||
      !InUnitInterval(c.adversarialRate) || c.compromiseDuration < 1 ||
      c.rewardMode !in {"shared", "local"}
    ensures c.numSatellites < 1 ==> err == Some("num_satellites must be >= 1")
    ensures PassesFirst(c, 1) && c.gridSize < 2 ==> err == Some("grid_size must be >= 2")
    ensures PassesFirst(c, 2) && c.numTasks < 1 ==> err == Some("num_tasks must be >= 1")
    ensures PassesFirst(c, 3) && !InUnitInterval(c.taskSpawnRate) ==> err == Some("task_spawn_rate must be in [0,1]")
    ensures PassesFirst(c, 4) && !InUnitInterval(c.pLinkDrop) ==> err == Some("p_link_drop must be in [0,1]")
    ensures PassesFirst(c, 5) && !InUnitInterval(c.adversarialRate) ==> err == Some("adversarial_rate must be in [0,1]")
    ensures PassesFirst(c, 6) && c.compromiseDuration < 1 ==> err == Some("compromise_duration must be >=1")
    ensures PassesFirst(c, 7) && c.rewardMode !in {"shared", "local"} ==> err == Some("reward_mode must be shared or local")
  {
    if c.numSatellites < 1 then Some("num_satellites must be >= 1")
    else if c.gridSize < 2 then Some("grid_size must be >= 2")
    else if c.numTasks < 1 then Some("num_tasks must be >= 1")
    else if !InUnitInterval(c.taskSpawnRate) then Some("task_spawn_rate must be in [0,1]")
    else if !InUnitInterval(c.pLinkDrop) then Some("p_link_drop must be in [0,1]")
    else if !InUnitInterval(c.adversarialRate) then Some("adversarial_rate must be in [0,1]")
    else if c.compromiseDuration < 1 then Some("compromise_duration must be >=1")
    else if c.rewardMode !in {"shared", "local"} then Some("reward_mode must be shared or local")
    else None
  }

  /** A configuration that construction accepts. */
  predicate Accepted(c: OrbitalConfig)
  {
    Violation(c).None?
  }

  /** The defaults pass every check. */
  lemma DefaultAccepted()
    ensures Accepted(Default())
  {
  }

  /**
   * Validation looks at eight fields only: two configurations that agree on
   * them are accepted or rejected alike, with the same message, whatever their
   * modes, costs, weights, budget or sunlight period.
   */
  lemma ValidationInspectsOnlyCheckedFields(c1: OrbitalConfig, c2: OrbitalConfig)
    requires c1.numSatellites == c2.numSatellites && c1.gridSize == c2.gridSize
    requires c1.numTasks == c2.numTasks && c1.taskSpawnRate == c2.taskSpawnRate
    requires c1.pLinkDrop == c2.pLinkDrop && c1.adversarialRate == c2.adversarialRate
    requires c1.compromiseDuration == c2.compromiseDuration && c1.rewardMode == c2.rewardMode
    ensures Violation(c1) == Violation(c2)
  {
  }

  /** Changing only the unchecked fields of an accepted configuration keeps it accepted. */
  lemma UncheckedFieldsAreFree(c: OrbitalConfig, spoof: string, priorityMode: string,
                               costs: map<string, real>, period: int)
    requires Accepted(c)
    ensures Accepted(c.(spoofMode := spoof, taskPriorityMode := priorityMode,
                        energyCosts := costs, sunlightPeriod := period))
  {
  }
}
