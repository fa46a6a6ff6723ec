/**
 * The output-token cap of a step: it doubles, up to the model's maximum, each time the model hits it.
 */
module OutputCap {
  function Escalated(cap: nat, max: nat): nat { if cap * 2 <= max then cap * 2 else max }

  /** How often the cap can still be raised. */
  function Escalations(cap: nat, max: nat): nat
    decreases max - cap
  {
    if Escalated(cap, max) > cap then 1 + Escalations(Escalated(cap, max), max) else 0
  }

  lemma EscalationStep(cap: nat, max: nat)
    ensures Escalations(cap, max) ==
      if Escalated(cap, max) > cap then 1 + Escalations(Escalated(cap, max), max) else 0
  {
  }

  function Pow2(n: nat): nat { if n == 0 then 1 else 2 * Pow2(n - 1) }

  /** The number of escalations is the binary logarithm of max / cap, rounded up. */
  lemma {:induction false} EscalationsAreLog(cap: nat, max: nat)
    requires 1 <= cap <= max
    ensures cap * Pow2(Escalations(cap, max)) >= max
    ensures forall k: nat :: k < Escalations(cap, max) ==> cap * Pow2(k) < max
    decreases max - cap
  {
    if cap < max {
      var next := Escalated(cap, max);
      EscalationsAreLog(next, max);
      var n := Escalations(next, max);
      assert Escalations(cap, max) == n + 1;
      if cap * 2 <= max {
        Regroup(cap, n);
        forall k: nat | k < n + 1 ensures cap * Pow2(k) < max {
          if k > 0 {
            Regroup(cap, k - 1);
            assert next * Pow2(k - 1) < max;
          }
        }
      }
    }
  }

  lemma Regroup(cap: nat, n: nat)
    ensures cap * Pow2(n + 1) == cap * 2 * Pow2(n)
  {
    assert Pow2(n + 1) == 2 * Pow2(n);
    assert cap * (2 * Pow2(n)) == cap * 2 * Pow2(n);
  }
}
