/**
 * The scalar reward: a fixed linear combination of the six per-tick
 * components, reading both components and weights from maps in which a
 * missing key stands for 0.
 */
module Reward {

  /** dict.get(key, 0.0) */
  function Get(m: map<string, real>, key: string): real
  {
    if key in m then m[key] else 0.0
  }

  function ComputeSharedReward(components: map<string, real>, weights: map<string, real>): (r: real)
  {
    Get(weights, "task") * Get(components, "task")
    + Get(weights, "delivery") * Get(components, "delivery")
    - Get(weights, "energy") * Get(components, "energy")
    - Get(weights, "isolation") * Get(components, "isolation")
    - Get(weights, "failure") * Get(components, "failure")
    - Get(weights, "cyber") * Get(components, "cyber")
  }

  const ComponentNames: seq<string> := ["task", "delivery", "energy", "isolation", "failure", "cyber"]

  /** Task and delivery are gains; the four other components are costs. */
  function Signed(key: string, v: real): real
  {
    if key == "task" || key == "delivery" then v else -v
  }

  /** Reference definition: signed weighted sum over a list of component names. */
  function WeightedSum(keys: seq<string>, components: map<string, real>, weights: map<string, real>): real
  {
    if |keys| == 0 then 0.0
    else Signed(keys[0], Term(weights, keys[0], components)) + WeightedSum(keys[1..], components, weights)
  }

  /** The reward is the signed, weighted sum of the six named components. */
  lemma {:induction false} RewardIsSignedWeightedSum(components: map<string, real>, weights: map<string, real>)
    ensures ComputeSharedReward(components, weights) == WeightedSum(ComponentNames, components, weights)
  {
    var c, w := components, weights;
    var l5 := ["cyber"];
    var l4 := ["failure"] + l5;
    var l3 := ["isolation"] + l4;
    var l2 := ["energy"] + l3;
    var l1 := ["delivery"] + l2;
    assert l5[1..] == [] && l4[1..] == l5 && l3[1..] == l4 && l2[1..] == l3 && l1[1..] == l2;
    assert ComponentNames == ["task"] + l1 && ComponentNames[1..] == l1;
    assert WeightedSum(l5, c, w) == -Term(w, "cyber", c);
    assert WeightedSum(l4, c, w) == -Term(w, "failure", c) + WeightedSum(l5, c, w);
    assert WeightedSum(l3, c, w) == -Term(w, "isolation", c) + WeightedSum(l4, c, w);
    assert WeightedSum(l2, c, w) == -Term(w, "energy", c) + WeightedSum(l3, c, w);
    assert WeightedSum(l1, c, w) == Term(w, "delivery", c) + WeightedSum(l2, c, w);
    assert WeightedSum(ComponentNames, c, w) == Term(w, "task", c) + WeightedSum(l1, c, w);
    RewardByTerms(c, w);
  }

  /** A missing component key reads as 0. */
  lemma MissingComponentIsZero(components: map<string, real>, weights: map<string, real>, key: string)
    requires key !in components
    ensures ComputeSharedReward(components, weights) == ComputeSharedReward(components[key := 0.0], weights)
  {
  }

  /** A missing weight key reads as 0. */
  lemma MissingWeightIsZero(components: map<string, real>, weights: map<string, real>, key: string)
    requires key !in weights
    ensures ComputeSharedReward(components, weights) == ComputeSharedReward(components, weights[key := 0.0])
  {
  }

  /** Keys other than the six component names never matter. */
  lemma OtherKeysIgnored(components: map<string, real>, weights: map<string, real>, key: string, v: real, w: real)
    requires key !in ComponentNames
    ensures ComputeSharedReward(components, weights) == ComputeSharedReward(components[key := v], weights[key := w])
  {
  }

  /** Componentwise sum of two component maps (missing keys read as 0). */
  function AddComponents(c1: map<string, real>, c2: map<string, real>): (sum: map<string, real>)
    ensures forall key :: Get(sum, key) == Get(c1, key) + Get(c2, key)
  {
    map key | key in c1.Keys + c2.Keys :: Get(c1, key) + Get(c2, key)
  }

  /** All-zero components give zero reward. */
  lemma ZeroComponentsZeroReward(components: map<string, real>, weights: map<string, real>)
    requires forall key :: key in components ==> components[key] == 0.0
    ensures ComputeSharedReward(components, weights) == 0.0
  {
  }

  /** For fixed weights the reward is additive in the components. */
  lemma RewardIsAdditive(c1: map<string, real>, c2: map<string, real>, weights: map<string, real>)
    ensures ComputeSharedReward(AddComponents(c1, c2), weights)
         == ComputeSharedReward(c1, weights) + ComputeSharedReward(c2, weights)
  {
    var s := AddComponents(c1, c2);
    TermAdditive(weights, "task", c1, c2, s);
    TermAdditive(weights, "delivery", c1, c2, s);
    TermAdditive(weights, "energy", c1, c2, s);
    TermAdditive(weights, "isolation", c1, c2, s);
    TermAdditive(weights, "failure", c1, c2, s);
    TermAdditive(weights, "cyber", c1, c2, s);
    RewardByTerms(s, weights);
    RewardByTerms(c1, weights);
    RewardByTerms(c2, weights);
  }

  lemma TermAdditive(weights: map<string, real>, key: string, c1: map<string, real>, c2: map<string, real>, s: map<string, real>)
    requires Get(s, key) == Get(c1, key) + Get(c2, key)
    ensures Term(weights, key, s) == Term(weights, key, c1) + Term(weights, key, c2)
  {
    var w := Get(weights, key);
    assert w * (Get(c1, key) + Get(c2, key)) == w * Get(c1, key) + w * Get(c2, key);
  }

  predicate NonNegativeWeights(weights: map<string, real>)
  {
    forall key :: key in weights ==> weights[key] >= 0.0
  }

  /**
   * With non-negative weights, more task or delivery never lowers the reward and
   * more energy, isolation, failure or cyber penalty never raises it.
   */
  lemma RewardIsMonotone(c1: map<string, real>, c2: map<string, real>, weights: map<string, real>)
    requires NonNegativeWeights(weights)
    requires Get(c1, "task") <= Get(c2, "task") && Get(c1, "delivery") <= Get(c2, "delivery")
    requires Get(c1, "energy") >= Get(c2, "energy") && Get(c1, "isolation") >= Get(c2, "isolation")
    requires Get(c1, "failure") >= Get(c2, "failure") && Get(c1, "cyber") >= Get(c2, "cyber")
    ensures ComputeSharedReward(c1, weights) <= ComputeSharedReward(c2, weights)
  {
    var w := weights;
    TermMonotone(w, "task", c1, c2);
    TermMonotone(w, "delivery", c1, c2);
    TermMonotone(w, "energy", c2, c1);
    TermMonotone(w, "isolation", c2, c1);
    TermMonotone(w, "failure", c2, c1);
    TermMonotone(w, "cyber", c2, c1);
    RewardByTerms(c1, w);
    RewardByTerms(c2, w);
  }

  /** One weighted component. */
  function Term(weights: map<string, real>, key: string, components: map<string, real>): real
  {
    Get(weights, key) * Get(components, key)
  }

  lemma RewardByTerms(c: map<string, real>, w: map<string, real>)
    ensures ComputeSharedReward(c, w)
         == Term(w, "task", c) + Term(w, "delivery", c) - Term(w, "energy", c)
          - Term(w, "isolation", c) - Term(w, "failure", c) - Term(w, "cyber", c)
  {
  }

  lemma TermMonotone(weights: map<string, real>, key: string, lo: map<string, real>, hi: map<string, real>)
    requires NonNegativeWeights(weights) && Get(lo, key) <= Get(hi, key)
    ensures Term(weights, key, lo) <= Term(weights, key, hi)
  {
    MulMonotone(weights, key, Get(lo, key), Get(hi, key));
  }

  lemma MulMonotone(weights: map<string, real>, key: string, a: real, b: real)
    requires NonNegativeWeights(weights) && a <= b
    ensures Get(weights, key) * a <= Get(weights, key) * b
  {
    var w := Get(weights, key);
    assert w >= 0.0;
    assert w * b - w * a == w * (b - a);
  }
}
