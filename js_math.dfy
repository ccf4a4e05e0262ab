/** `Math.round` on a finite number, over the reals (floating-point error is not modelled). */
module JsMath {

  /** `Math.round(x)`: the nearest integer, a half rounded up toward +infinity. */
  function Round(x: real): (r: int)
    ensures r as real - 0.5 <= x < r as real + 0.5
  {
    (x + 0.5).Floor
  }

  /** The contract of `Round` pins its result down: no other integer is that close. */
  lemma RoundUnique(x: real, k: int)
    requires k as real - 0.5 <= x < k as real + 0.5
    ensures Round(x) == k
  {
  }

  /** Whole numbers are left as they are. */
  lemma RoundOfInteger(n: int)
    ensures Round(n as real) == n
  {
    RoundUnique(n as real, n);
  }
}
