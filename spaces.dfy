/** The action code table and the sizes and bounds of the action and observation spaces. */
module Spaces {
  import opened Config

  const ActionMap: map<int, string> := map[
    0 := "observe", 1 := "relay", 2 := "move", 3 := "lowpower", 4 := "cyberscan", 5 := "idle"]

  /** Number of discrete actions: one per table entry. */
  function ActionSpaceSize(): (size: nat)
    ensures size == 6
  {
    assert ActionMap.Keys == {0, 1, 2, 3, 4, 5};
    |ActionMap|
  }

  /** A box-shaped space: per-dimension lower and upper bounds. */
  datatype Box = Box(low: seq<real>, high: seq<real>, shape: nat)

  const ObservationLength: nat := 14

  /** Observation space: 14 dimensions, the first seven upper bounds set twice to 1. */
  function ObservationSpace(): (b: Box)
    ensures b.shape == |b.low| == |b.high| == 14
    ensures forall k :: 0 <= k < 14 ==> b.low[k] == -1.0 && b.high[k] == 1.0
  {
    var low := seq(ObservationLength, _ => -1.0);
    var high := seq(ObservationLength, _ => 1.0);
    var high' := seq(ObservationLength, k requires 0 <= k < ObservationLength => if k < 7 then 1.0 else high[k]);
    Box(low, high', ObservationLength)
  }

  /** Codes 0..5 are exactly the table's keys, their names are pairwise distinct, and 5 is idle. */
  lemma ActionMapIsSixDistinctNames()
    ensures ActionMap.Keys == {0, 1, 2, 3, 4, 5}
    ensures ActionMap[5] == "idle"
    ensures forall a, b :: a in ActionMap && b in ActionMap && a != b ==> ActionMap[a] != ActionMap[b]
  {
  }

  /** Every name a valid code reaches has a default cost, so valid codes never use the idle fallback. */
  lemma ActionNamesHaveDefaultCosts()
    ensures forall a :: a in ActionMap ==> ActionMap[a] in DefaultEnergyCosts
  {
  }

  /** The default cost table prices exactly the six action names, idle among them. */
  lemma DefaultCostsPriceActions()
    ensures "idle" in DefaultEnergyCosts
    ensures forall name :: name in DefaultEnergyCosts ==> name in ActionMap.Values
  {
    assert ActionMap[0] == "observe" && ActionMap[1] == "relay" && ActionMap[2] == "move";
    assert ActionMap[3] == "lowpower" && ActionMap[4] == "cyberscan" && ActionMap[5] == "idle";
  }
}
