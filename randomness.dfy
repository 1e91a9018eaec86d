/** Draws from the host's uniform random source, which yields a value in [0, 1),
    and the one way both components turn a draw into a position in a list. */
module Randomness {

  /** A value the host's random source can return. */
  predicate IsRandom(r: real) {
    0.0 <= r < 1.0
  }

  /** `floor(r * n)`: the index a draw picks out of a list of length `n`;
      it always names an element of that list. */
  function PickIndex(r: real, n: nat): (k: nat)
    requires IsRandom(r) && n > 0
    ensures k < n
  {
    var scaled := r * n as real;
    assert 0.0 <= scaled < n as real by {
      ScaleBelow(r, n as real);
    }
    scaled.Floor
  }

  /** Scaling a draw by a positive length stays below that length. */
  lemma ScaleBelow(r: real, m: real)
    requires IsRandom(r) && m > 0.0
    ensures 0.0 <= r * m < m
  {
    assert m - r * m == (1.0 - r) * m;
  }
}
