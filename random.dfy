/**
  * The gateway's source of randomness, `Math.random()`, made an input: each
  * draw is a value passed in by the caller.
  */
module Random {

  /** A value of `Math.random()`: a real number in [0, 1). */
  type Unit = u: real | 0.0 <= u < 1.0

  /** `Math.floor(u * n)`: the draw `u` scaled to `n` buckets. */
  function Scale(u: Unit, n: int): (k: int)
    ensures n >= 1 ==> 0 <= k < n
    ensures n <= 0 ==> n <= k <= 0
  {
    ScaleBounds(u, n);
    (u * n as real).Floor
  }

  lemma ScaleBounds(u: Unit, n: int)
    ensures n >= 1 ==> 0.0 <= u * n as real < n as real
    ensures n <= 0 ==> n as real <= u * n as real <= 0.0
  {
    if n >= 1 {
      assert u * n as real < 1.0 * n as real;
    } else {
      assert u * n as real >= 1.0 * n as real;
    }
  }
}
