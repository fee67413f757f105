/** How long a retry may wait: the Node client's expression and the Go client's loop are one ceiling. */
module Backoff {
  import opened Sequences

  function Pow2(n: nat): nat { if n == 0 then 1 else 2 * Pow2(n - 1) }

  /** `min(max, base * 2 ** max(0, attempt))`; the wait is any time up to it. */
  function Ceiling(attempt: int, base: nat, max: nat): nat {
    Min(max, base * Pow2(if attempt < 0 then 0 else attempt))
  }

  lemma {:induction false} DoublingReaches(ceiling: nat, n: nat, max: nat)
    requires ceiling >= max
    ensures ceiling * Pow2(n) >= max
  {
    if n > 0 {
      DoublingReaches(ceiling, n - 1, max);
      assert ceiling * Pow2(n) == 2 * (ceiling * Pow2(n - 1));
    }
  }

  /** It starts at the base, doubles from one attempt to the next, and is cut off at the cap throughout. */
  lemma CeilingRises(attempt: int, base: nat, max: nat)
    ensures attempt <= 0 ==> Ceiling(attempt, base, max) == Min(max, base)
    ensures Ceiling(attempt, base, max) <= Ceiling(attempt + 1, base, max) <= max
    ensures attempt >= 0 ==> Ceiling(attempt + 1, base, max) == Min(max, 2 * Ceiling(attempt, base, max))
  {
    if attempt >= 0 {
      assert base * Pow2(attempt + 1) == 2 * (base * Pow2(attempt));
    }
  }

  /** Doubles until it has doubled enough or reached the cap. */
  method CeilingLoop(attempt: int, base: nat, max: nat) returns (ceiling: nat)
    ensures ceiling == Ceiling(attempt, base, max)
  {
    var tries := if attempt < 0 then 0 else attempt;
    ceiling := base;
    var i := 0;
    assert ceiling * Pow2(tries) == base * Pow2(tries);
    while i < tries && ceiling < max
      invariant 0 <= i <= tries && ceiling * Pow2(tries - i) == base * Pow2(tries)
    {
      assert ceiling * Pow2(tries - i) == 2 * ceiling * Pow2(tries - i - 1);
      ceiling := ceiling * 2;
      i := i + 1;
    }
    if ceiling >= max { DoublingReaches(ceiling, tries - i, max); }
    if ceiling > max { ceiling := max; }
  }
}
