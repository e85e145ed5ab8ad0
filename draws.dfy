/**
 * Uniform random draws.
 *
 * The game reads its randomness one call at a time (`Math.random()` or the
 * seeded `getRandomNumber()`), each call giving a number in [0,1).  Here that
 * source is an explicit stream: call number `i` returns `s(i)`.  Every
 * generator takes the stream and the index of its first draw, and hands back
 * the index after its last draw.
 */
module Draws {

  /** An unbounded stream of draws, indexed by call number. */
  type Stream = nat -> real

  /** What one call of the random source may return. */
  predicate IsDraw(r: real) {
    0.0 <= r < 1.0
  }

  /** Every draw of the stream is in [0,1). */
  ghost predicate ValidStream(s: Stream) {
    forall i: nat :: IsDraw(s(i))
  }

  /** `Math.floor(r * n)`: an index into a table of `n` entries chosen by draw `r`. */
  function Pick(r: real, n: nat): (k: nat)
    requires IsDraw(r) && n > 0
    ensures k < n
  {
    assert 0.0 <= r * n as real < n as real by {
      ScaleBelow(r, n as real);
    }
    (r * n as real).Floor
  }

  /** A draw scaled by a positive factor stays below that factor. */
  lemma ScaleBelow(r: real, m: real)
    requires IsDraw(r) && m > 0.0
    ensures 0.0 <= r * m < m
  {
    assert m - r * m == (1.0 - r) * m;
  }
}
