/**
 * `Math.floor(Math.random() * n)`, the index pick used for every random choice.
 * The value that `Math.random()` returns is a parameter `r` with 0 <= r < 1.
 */
module Sampling {

  predicate IsRandom(r: real)
  {
    0.0 <= r < 1.0
  }

  lemma ScaledBelow(r: real, n: nat)
    requires IsRandom(r)
    ensures 0.0 <= r * n as real
    ensures n > 0 ==> r * n as real < n as real
  {
    if n > 0 {
      assert (1.0 - r) * n as real > 0.0;
    }
  }

  /** The index `Math.floor(r * n)` is in range for any non-empty pool. */
  function PickIndex(r: real, n: nat): (i: nat)
    requires IsRandom(r)
    ensures n > 0 ==> i < n
    ensures n == 0 ==> i == 0
  {
    ScaledBelow(r, n);
    (r * n as real).Floor
  }

  /** Every index of a pool is drawn by some value of `Math.random()`. */
  lemma PickIndexReaches(n: nat, i: nat)
    requires i < n
    ensures IsRandom(i as real / n as real)
    ensures PickIndex(i as real / n as real, n) == i
  {
    assert (i as real / n as real) * n as real == i as real;
  }

}
