/**
 * The engine's pseudo-random generator, seen from outside: an opaque stream of
 * draws in [0, 1). Each generator call of the source consumes the next draw(s),
 * in program order; how those draws are produced is not modelled. Integer and
 * interval draws are obtained by scaling one unit draw, which keeps the exact
 * range of the source's call but claims nothing about its distribution.
 */
module Draws {

  type Unit = r: real | 0.0 <= r < 1.0

  /** One seeded generator: the k-th value it will ever produce. */
  type Stream = nat -> Unit

  lemma ProductBounds(u: Unit, d: real)
    requires d >= 0.0
    ensures 0.0 <= u * d <= d
    ensures d > 0.0 ==> u * d < d
  {
    assert d - u * d == d * (1.0 - u);
  }

  /** rng.integers(0, k): an integer in [0, k). */
  function IntBelow(u: Unit, k: int): (r: int)
    requires k > 0
    ensures 0 <= r < k
  {
    var x := u * k as real;
    assert 0.0 <= x < k as real by {
      ProductBounds(u, k as real);
    }
    x.Floor
  }

  /** rng.uniform(lo, hi): a real in [lo, hi) (just lo when the interval is empty). */
  function Uniform(u: Unit, lo: real, hi: real): (r: real)
    requires lo <= hi
    ensures lo <= r <= hi
    ensures lo < hi ==> r < hi
  {
    var span := hi - lo;
    ProductBounds(u, span);
    var offset := u * span;
    lo + offset
  }
}
