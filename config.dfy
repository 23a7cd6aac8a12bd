/**
 * The trading parameters fixed at the top of bot.py (bot.py:26-39).
 * Money, prices and fractions are real numbers; the Python floats are not modelled.
 */
module Config {

  /** A market symbol such as "PEPE/USDT". */
  type Pair = string

  /** The pairs the bot trades, in the order `main` visits them. */
  const TradingPairs: seq<Pair> := ["FTT/USDT", "ALPACA/USDT", "PEPE/USDT", "TIA/USDT"]

  const InitialCapital: real := 500.0
  /** Dollar amount of the entry buy. */
  const InitialTradeAmount: real := 10.0
  const FirstSafetyOrderAmount: nat := 30
  const SafetyOrderMultiplier: nat := 2
  /** Hard ceiling on the safety orders one position may use. */
  const SafetyOrderCount: nat := 4
  const ProfitTarget: real := 0.01
  const InitialSafetyOrderDrop: real := 0.02
  /** Entry requires an RSI at or below this value (bot.py:168). */
  const RsiEntryThreshold: real := 30.0

  predicate Distinct<T(==)>(s: seq<T>) {
    forall i, j :: 0 <= i < j < |s| ==> s[i] != s[j]
  }

  lemma TradingPairsDistinct()
    ensures Distinct(TradingPairs)
  {
  }
}
