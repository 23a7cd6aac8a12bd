/**
 * The safety-order planner (bot.py:138-147) and the take-profit formula (bot.py:99, bot.py:219):
 * closed-form arithmetic over the number of safety orders a position has already used.
 */
module Planner {

  import opened Config

  /** `b ** n` on Python integers. */
  function Pow(b: nat, n: nat): (r: nat)
    ensures b >= 1 ==> r >= 1
  {
    if n == 0 then 1 else b * Pow(b, n - 1)
  }

  /** Fraction below the average price at which safety order number `n` (0-based) fires (bot.py:138-139). */
  function SafetyOrderDrop(n: nat): (r: real)
    ensures r >= InitialSafetyOrderDrop
  {
    InitialSafetyOrderDrop * (Pow(2, n) as real)
  }

  /** Dollar amount of safety order number `n` (bot.py:143-147): the first two are both 30. */
  function SafetyOrderAmount(n: nat): (r: nat)
    ensures r >= FirstSafetyOrderAmount
  {
    if n == 0 then FirstSafetyOrderAmount
    else FirstSafetyOrderAmount * Pow(SafetyOrderMultiplier, n - 1)
  }

  /** Safety order `n` fires when the price has fallen to `average * (1 - drop(n))` or below (bot.py:200). */
  predicate SafetyOrderTriggered(price: real, average: real, n: nat)
    ensures SafetyOrderTriggered(price, average, n) && average > 0.0 ==> price < average
  {
    price <= average * (1.0 - SafetyOrderDrop(n))
  }

  /** The limit price of a take-profit order for a reference price (bot.py:99, bot.py:219). */
  function TakeProfitPrice(reference: real): (r: real)
    ensures reference > 0.0 ==> r > reference
    ensures reference < 0.0 ==> r < reference
    ensures reference == 0.0 ==> r == 0.0
  {
    reference * (1.0 + ProfitTarget)
  }

  // ----- properties of the ladder -----

  /** Each safety order waits for twice the drop of the one before it. */
  lemma DropDoubles(n: nat)
    ensures SafetyOrderDrop(n + 1) == 2.0 * SafetyOrderDrop(n)
  {
  }

  lemma {:induction false} DropStrictlyIncreasing(m: nat, n: nat)
    requires m < n
    ensures SafetyOrderDrop(m) < SafetyOrderDrop(n)
  {
    DropDoubles(n - 1);
    if m < n - 1 {
      DropStrictlyIncreasing(m, n - 1);
    }
  }

  /** The drops used by the four safety orders of a position. */
  lemma DropLadder()
    ensures SafetyOrderDrop(0) == 0.02
    ensures SafetyOrderDrop(1) == 0.04
    ensures SafetyOrderDrop(2) == 0.08
    ensures SafetyOrderDrop(3) == 0.16
  {
  }

  /** From the second safety order on, each amount doubles the previous one; the first two are equal. */
  lemma AmountDoubles(n: nat)
    ensures SafetyOrderAmount(1) == SafetyOrderAmount(0)
    ensures n >= 1 ==> SafetyOrderAmount(n + 1) == 2 * SafetyOrderAmount(n)
  {
  }

  lemma {:induction false} AmountNonDecreasing(m: nat, n: nat)
    requires m <= n
    ensures SafetyOrderAmount(m) <= SafetyOrderAmount(n)
  {
    if m < n {
      AmountDoubles(n - 1);
      AmountNonDecreasing(m, n - 1);
    }
  }

  /** The amounts used by the four safety orders of a position: 30, 30, 60, 120. */
  lemma AmountLadder()
    ensures SafetyOrderAmount(0) == 30
    ensures SafetyOrderAmount(1) == 30
    ensures SafetyOrderAmount(2) == 60
    ensures SafetyOrderAmount(3) == 120
  {
  }

  /** A price deep enough for a later safety order is deep enough for every earlier one. */
  lemma TriggerNested(price: real, average: real, m: nat, n: nat)
    requires m < n && average >= 0.0
    requires SafetyOrderTriggered(price, average, n)
    ensures SafetyOrderTriggered(price, average, m)
  {
    DropStrictlyIncreasing(m, n);
    assert average * SafetyOrderDrop(m) <= average * SafetyOrderDrop(n);
  }

  /** A higher reference price gives a higher take-profit target. */
  lemma TakeProfitMonotone(p: real, q: real)
    requires p < q
    ensures TakeProfitPrice(p) < TakeProfitPrice(q)
  {
  }
}
