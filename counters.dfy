/**
 * The `Math.max(1, n - 1)` that the enterprise form's truck counter and the
 * registration wizards' Back buttons apply: one down, never below 1.
 */
module Counters {
  function Decrement(n: int): (r: int)
    ensures r >= 1
    ensures n > 1 ==> r == n - 1
    ensures n <= 1 ==> r == 1
  {
    if n - 1 > 1 then n - 1 else 1
  }

  /** From any count of at least 1, one up and one down restores it. */
  lemma IncrementThenDecrement(n: int)
    requires n >= 1
    ensures Decrement(n + 1) == n
  {
  }
}
