/**
 * What the comm-graph rebuild computes: the adjacency matrix is symmetric with
 * an empty diagonal, and a pair of distinct agents is linked exactly when they
 * are within comm_radius of each other and the draw made for that pair exceeds
 * p_link_drop. Pairs out of range consume no draw.
 */
module GraphProperties {
  import opened Draws
  import opened Config
  import opened Transition

  /** (a, b) comes before (i, j) in the rebuild's loop order (rows first, then columns). */
  predicate PairBefore(a: int, b: int, i: int, j: int)
  {
    a < i || (a == i && b < j)
  }

  /** The generator position at which the pair a < b is considered. */
  function PairDraw(c: OrbitalConfig, pos: seq<Cell>, rng: Stream, d0: nat, a: nat, b: nat): nat
    requires a < b < |pos|
  {
    LinksBefore(c, pos, rng, d0, a, b).drawn
  }

  /** The pair a < b survives: in range, and its own draw exceeds p_link_drop. */
  predicate Survives(c: OrbitalConfig, pos: seq<Cell>, rng: Stream, d0: nat, a: nat, b: nat)
    requires a < b < |pos|
  {
    Dist(pos[a], pos[b]) <= c.commRadius && rng(PairDraw(c, pos, rng, d0, a, b)) > c.pLinkDrop
  }

  /** The edges found before (i, j) are exactly the earlier pairs that survive. */
  lemma {:induction false} LinksBeforeExact(c: OrbitalConfig, pos: seq<Cell>, rng: Stream, d0: nat, i: nat, j: nat)
    requires i < j <= |pos|
    ensures forall a: int, b: int :: (a, b) in LinksBefore(c, pos, rng, d0, i, j).edges <==>
      (0 <= a < b < |pos| && PairBefore(a, b, i, j) && Survives(c, pos, rng, d0, a, b))
    decreases i, j
  {
    var r := LinksBefore(c, pos, rng, d0, i, j);
    if j == i + 1 {
      if i > 0 {
        LinksBeforeExact(c, pos, rng, d0, i - 1, |pos|);
        forall a: int, b: int
          ensures (a, b) in r.edges <==> (0 <= a < b < |pos| && PairBefore(a, b, i, j) && Survives(c, pos, rng, d0, a, b))
        {
          assert (0 <= a < b < |pos| && PairBefore(a, b, i, j)) <==> (0 <= a < b < |pos| && PairBefore(a, b, i - 1, |pos|));
        }
      }
    } else {
      var l := LinksBefore(c, pos, rng, d0, i, j - 1);
      LinksBeforeExact(c, pos, rng, d0, i, j - 1);
      assert r == Link(c, pos, rng, l, i, j - 1);
      assert PairDraw(c, pos, rng, d0, i, j - 1) == l.drawn;
      var added := Survives(c, pos, rng, d0, i, j - 1);
      assert r.edges == if added then l.edges + {(i, j - 1)} else l.edges;
      forall a: int, b: int
        ensures (a, b) in r.edges <==> (0 <= a < b < |pos| && PairBefore(a, b, i, j) && Survives(c, pos, rng, d0, a, b))
      {
        if a == i && b == j - 1 {
        } else {
          assert (a, b) in r.edges <==> (a, b) in l.edges;
          assert PairBefore(a, b, i, j) <==> PairBefore(a, b, i, j - 1);
        }
      }
    }
  }

  /** After all rows every surviving pair, and nothing else, is an edge. */
  lemma LinksAfterRowsExact(c: OrbitalConfig, pos: seq<Cell>, rng: Stream, d0: nat)
    ensures forall a: int, b: int :: (a, b) in LinksAfterRows(c, pos, rng, d0, |pos|).edges <==>
      (0 <= a < b < |pos| && Survives(c, pos, rng, d0, a, b))
  {
    var n := |pos|;
    if n > 0 {
      var r := LinksBefore(c, pos, rng, d0, n - 1, n);
      assert LinksAfterRows(c, pos, rng, d0, n) == r;
      LinksBeforeExact(c, pos, rng, d0, n - 1, n);
      forall a: int, b: int
        ensures (a, b) in r.edges <==> (0 <= a < b < n && Survives(c, pos, rng, d0, a, b))
      {
        assert 0 <= a < b < n ==> PairBefore(a, b, n - 1, n);
      }
    }
  }

  /** Considering a pair consumes one draw when the pair is in range, and none otherwise. */
  lemma PairConsumesDrawIffInRange(c: OrbitalConfig, pos: seq<Cell>, rng: Stream, d0: nat, a: nat, b: nat)
    requires a < b < |pos|
    ensures LinksBefore(c, pos, rng, d0, a, b + 1).drawn
         == PairDraw(c, pos, rng, d0, a, b) + (if Dist(pos[a], pos[b]) <= c.commRadius then 1 else 0)
  {
  }

  /** A negative radius links nothing and consumes no draw. */
  lemma {:induction false} NoRangeNoDraws(c: OrbitalConfig, pos: seq<Cell>, rng: Stream, d0: nat, i: nat, j: nat)
    requires i < j <= |pos| && c.commRadius < 0
    ensures LinksBefore(c, pos, rng, d0, i, j) == Links({}, d0)
    decreases i, j
  {
    if j == i + 1 {
      if i > 0 {
        NoRangeNoDraws(c, pos, rng, d0, i - 1, |pos|);
      }
    } else {
      NoRangeNoDraws(c, pos, rng, d0, i, j - 1);
    }
  }

  /**
   * The rebuilt matrix: symmetric, false on the diagonal, and true at (a, b),
   * a < b, exactly when that pair survives.
   */
  lemma RebuildGraphExact(c: OrbitalConfig, w: World, rng: Stream)
    requires Shaped(w)
    ensures var w' := RebuildGraph(c, w, rng);
      && w'.positions == w.positions
      && (forall a, b :: 0 <= a < b < |w.positions| ==>
            (w'.adj[a][b] <==> Survives(c, w.positions, rng, w.drawn, a, b)))
      && (forall a, b :: 0 <= a < |w.positions| && 0 <= b < |w.positions| ==> w'.adj[a][b] == w'.adj[b][a])
      && (forall a :: 0 <= a < |w.positions| ==> !w'.adj[a][a])
  {
    LinksAfterRowsExact(c, w.positions, rng, w.drawn);
  }

  /** Every link joins two distinct agents within comm_radius. */
  lemma RebuildGraphLinksInRange(c: OrbitalConfig, w: World, rng: Stream)
    requires Shaped(w)
    ensures var w' := RebuildGraph(c, w, rng);
      forall a, b :: 0 <= a < |w.positions| && 0 <= b < |w.positions| && w'.adj[a][b] ==>
        a != b && Dist(w.positions[a], w.positions[b]) <= c.commRadius
  {
    RebuildGraphExact(c, w, rng);
    var w' := RebuildGraph(c, w, rng);
    forall a, b | 0 <= a < |w.positions| && 0 <= b < |w.positions| && w'.adj[a][b]
      ensures a != b && Dist(w.positions[a], w.positions[b]) <= c.commRadius
    {
      if b < a {
        assert w'.adj[b][a];
        assert Dist(w.positions[a], w.positions[b]) == Dist(w.positions[b], w.positions[a]);
      }
    }
  }

  /** With p_link_drop at 1 no link ever survives, so the graph is empty. */
  lemma CertainDropEmptiesGraph(c: OrbitalConfig, w: World, rng: Stream)
    requires Shaped(w) && c.pLinkDrop >= 1.0
    ensures var w' := RebuildGraph(c, w, rng);
      forall a, b :: 0 <= a < |w.positions| && 0 <= b < |w.positions| ==> !w'.adj[a][b]
  {
    RebuildGraphExact(c, w, rng);
    var w' := RebuildGraph(c, w, rng);
    forall a, b | 0 <= a < |w.positions| && 0 <= b < |w.positions|
      ensures !w'.adj[a][b]
    {
      if a < b {
        assert !Survives(c, w.positions, rng, w.drawn, a, b);
      } else if b < a {
        assert !Survives(c, w.positions, rng, w.drawn, b, a);
        assert w'.adj[a][b] == w'.adj[b][a];
      }
    }
  }

  /** Two agents at the same cell are always within a non-negative radius; only the drop can cut them. */
  lemma CoLocatedLinkedUnlessDropped(c: OrbitalConfig, w: World, rng: Stream, a: nat, b: nat)
    requires Shaped(w) && a < b < |w.positions| && w.positions[a] == w.positions[b] && c.commRadius >= 0
    ensures RebuildGraph(c, w, rng).adj[a][b] <==> rng(PairDraw(c, w.positions, rng, w.drawn, a, b)) > c.pLinkDrop
  {
    RebuildGraphExact(c, w, rng);
  }

  /** A negative radius gives the empty graph and leaves the generator where it was. */
  lemma NegativeRadiusEmptyGraph(c: OrbitalConfig, w: World, rng: Stream)
    requires Shaped(w) && c.commRadius < 0
    ensures RebuildGraph(c, w, rng).drawn == w.drawn
    ensures RebuildGraph(c, w, rng).adj == Adjacency(|w.positions|, {})
  {
    if |w.positions| > 0 {
      NoRangeNoDraws(c, w.positions, rng, w.drawn, |w.positions| - 1, |w.positions|);
    }
  }
}
