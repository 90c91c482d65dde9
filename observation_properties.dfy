/**
 * What an agent observes: the cyber flags form a one-hot with compromised
 * taking precedence over scanning; the capped fields never exceed 1; spoofing
 * rewrites only entries 0, 7 and 8; and in any state satisfying the tick
 * invariant every entry lies within the observation space's bounds [-1, 1]
 * (given sine and cosine values within [-1, 1]).
 */
module ObservationProperties {
  import opened Common
  import opened Draws
  import opened Config
  import opened Spaces
  import opened Transition
  import opened Invariants

  /** Exactly one of entries 3, 4, 5 is 1 and the others are 0; compromised wins over scanning. */
  lemma CyberOneHot(c: OrbitalConfig, w: World, i: nat, rng: Stream, phaseSin: real, phaseCos: real)
    requires Shaped(w) && i < |w.energy|
    ensures var o := Observation(c, w, i, rng, phaseSin, phaseCos).0;
      (forall k :: 3 <= k < 6 ==> o[k] == 0.0 || o[k] == 1.0) &&
      o[3] + o[4] + o[5] == 1.0 &&
      (o[5] == 1.0 <==> w.compromisedFor[i] > 0) &&
      (o[4] == 1.0 <==> w.compromisedFor[i] <= 0 && w.scanBoost[i] > 0) &&
      (o[3] == 1.0 <==> w.compromisedFor[i] <= 0 && w.scanBoost[i] <= 0)
  {
  }

  /** The task-count, task-priority and buffer entries are capped at 1, spoofed or not. */
  lemma CappedFields(c: OrbitalConfig, w: World, i: nat, rng: Stream, phaseSin: real, phaseCos: real)
    requires Shaped(w) && i < |w.energy|
    ensures var o := Observation(c, w, i, rng, phaseSin, phaseCos).0;
      o[7] <= 1.0 && o[8] <= 1.0 && o[9] <= 1.0
  {
  }

  /**
   * Spoofing replaces only entries 0, 7 and 8, and only for a compromised agent
   * under obs_spoof, using three draws; otherwise the observation is the
   * truthful one and no draw is used.
   */
  lemma SpoofRewritesOnlyThree(c: OrbitalConfig, w: World, i: nat, rng: Stream, phaseSin: real, phaseCos: real)
    requires Shaped(w) && i < |w.energy|
    ensures var r := Observation(c, w, i, rng, phaseSin, phaseCos);
      var truth := Truthful(c, w, i, phaseSin, phaseCos);
      var spoofed := w.compromisedFor[i] > 0 && c.spoofMode == "obs_spoof";
      (forall k :: 0 <= k < ObservationLength && k != 0 && k != 7 && k != 8 ==> r.0[k] == truth[k]) &&
      (!spoofed ==> r == (truth, w.drawn)) &&
      (spoofed ==> r.1 == w.drawn + 3 && 0.0 <= r.0[0] <= 1.0 && 0.0 <= r.0[7] <= 1.0 && 0.0 <= r.0[8] <= 1.0)
  {
  }

  // ------------------------------------------------------------ bounds under the invariant

  lemma RatioInUnit(a: real, d: real)
    requires 0.0 <= a <= d && d > 0.0
    ensures 0.0 <= a / d <= 1.0
  {
    assert a / d * d == a;
  }

  /** A row with a false entry has at most |row| - 1 true entries. */
  lemma {:induction false} CountTrueWithFalse(s: seq<bool>, j: nat)
    requires j < |s| && !s[j]
    ensures CountTrue(s) <= |s| - 1
  {
    var init := s[..|s| - 1];
    if j < |s| - 1 {
      assert init[j] == s[j];
      CountTrueWithFalse(init, j);
    } else {
      CountTrueBound(init);
    }
  }

  lemma {:induction false} NearPriorityNonNegative(c: OrbitalConfig, ts: seq<Task>, at: Cell)
    requires forall k :: 0 <= k < |ts| ==> TaskOk(c, ts[k])
    ensures NearPriority(ts, at) >= 0.0
  {
    if |ts| > 0 {
      NearPriorityNonNegative(c, ts[..|ts| - 1], at);
    }
  }

  /** The degree entry: the diagonal is false, so at most n - 1 neighbours. */
  lemma DegreeEntryInUnit(c: OrbitalConfig, w: World, i: nat)
    requires Inv(c, w) && i < |w.energy|
    ensures 0.0 <= Degree(w.adj, i) as real / MaxInt(1, |w.energy| - 1) as real <= 1.0
  {
    CountTrueWithFalse(w.adj[i], i);
    RatioInUnit(Degree(w.adj, i) as real, MaxInt(1, |w.energy| - 1) as real);
  }

  /** The compromised-neighbour share is at most the degree. */
  lemma NeighbourShareInUnit(w: World, i: nat)
    requires Shaped(w) && i < |w.energy|
    ensures var deg := Degree(w.adj, i);
      deg > 0 ==> 0.0 <= CompromisedNeighbors(w, i, |w.energy|) as real / deg as real <= 1.0
  {
    var n := |w.energy|;
    assert w.adj[i][..n] == w.adj[i];
    var deg := Degree(w.adj, i);
    if deg > 0 {
      RatioInUnit(CompromisedNeighbors(w, i, n) as real, deg as real);
    }
  }

  /** Entries 0, 1, 2, 6, 12, 13 of the truthful observation lie in [0, 1] under the invariant. */
  lemma TruthfulScaledEntries(c: OrbitalConfig, w: World, i: nat, phaseSin: real, phaseCos: real)
    requires Inv(c, w) && Accepted(c) && c.energyBudget >= 0.0 && i < |w.energy|
    ensures var o := Truthful(c, w, i, phaseSin, phaseCos);
      0.0 <= o[0] <= 1.0 && 0.0 <= o[1] <= 1.0 && 0.0 <= o[2] <= 1.0 &&
      0.0 <= o[6] <= 1.0 && 0.0 <= o[12] <= 1.0 && 0.0 <= o[13] <= 1.0
  {
    var n := |w.energy|;
    assert AgentOk(c, w, i);
    var scale := Max((c.gridSize - 1) as real, 1.0);
    var at := w.positions[i];
    RatioInUnit(w.energy[i], Max(c.energyBudget, 0.000001));
    RatioInUnit(at.x as real, scale);
    RatioInUnit(at.y as real, scale);
    DegreeEntryInUnit(c, w, i);
    NeighbourShareInUnit(w, i);
    RatioInUnit(CountAlive(w.energy) as real, n as real);
  }

  /** Entries 7, 8, 9 of the truthful observation lie in [0, 1] under the invariant. */
  lemma TruthfulCappedEntries(c: OrbitalConfig, w: World, i: nat, phaseSin: real, phaseCos: real)
    requires Inv(c, w) && i < |w.energy|
    ensures var o := Truthful(c, w, i, phaseSin, phaseCos);
      0.0 <= o[7] <= 1.0 && 0.0 <= o[8] <= 1.0 && 0.0 <= o[9] <= 1.0
  {
    assert AgentOk(c, w, i);
    NearPriorityNonNegative(c, w.tasks, w.positions[i]);
  }

  /**
   * In any state satisfying the invariant, with sine and cosine in [-1, 1],
   * every observation entry lies within the observation space's bounds.
   */
  lemma ObservationWithinSpace(c: OrbitalConfig, w: World, i: nat, rng: Stream, phaseSin: real, phaseCos: real)
    requires Inv(c, w) && Accepted(c) && c.energyBudget >= 0.0 && i < |w.energy|
    requires -1.0 <= phaseSin <= 1.0 && -1.0 <= phaseCos <= 1.0
    ensures var o := Observation(c, w, i, rng, phaseSin, phaseCos).0;
      var space := ObservationSpace();
      |o| == space.shape && forall k :: 0 <= k < |o| ==> space.low[k] <= o[k] <= space.high[k]
  {
    var o := Observation(c, w, i, rng, phaseSin, phaseCos).0;
    var truth := Truthful(c, w, i, phaseSin, phaseCos);
    TruthfulScaledEntries(c, w, i, phaseSin, phaseCos);
    TruthfulCappedEntries(c, w, i, phaseSin, phaseCos);
    CyberOneHot(c, w, i, rng, phaseSin, phaseCos);
    SpoofRewritesOnlyThree(c, w, i, rng, phaseSin, phaseCos);
    forall k | 0 <= k < |o|
      ensures -1.0 <= o[k] <= 1.0
    {
      if k == 0 || k == 7 || k == 8 {
      } else {
        assert o[k] == truth[k];
      }
    }
  }
}
