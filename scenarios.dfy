/**
 * Clients of the `Bot` class that walk one pair through the life of a position with concrete
 * numbers, using only the methods' contracts: entry at 1.00, a first safety order at 0.98,
 * then the take-profit fill. A second client shows the minimum-notional rejection and an
 * invalid signal.
 */
module Scenarios {

  import opened Wrappers
  import opened Config
  import opened Planner
  import opened Ledger
  import opened Orders
  import opened Controller

  const Symbol: Pair := "PEPE/USDT"
  /** $10 bought at 1.00. */
  const EntryFill := Fill(10.0, 10.0, 1.0)
  /** $30 bought at 0.98. */
  const SafetyFill := Fill(30.0 / 0.98, 30.0, 0.98)
  const FirstTarget := TakeProfitOrder("tp-1", 1.01, 10.0)
  /** Cost over quantity of the two fills. */
  const AverageAfterSafety: real := 40.0 / (10.0 + 30.0 / 0.98)
  const NoBuy := BuyReplies(None, None, None)
  const NoRepeg := RepegReplies(false, None)
  const Resting := Some(TakeProfitReport(Open, 1.01, 0.0))

  method OpenAverageDownAndClose() {
    var bot := new Bot(map[]);
    OpenAtEntry(bot);
    AverageDown(bot);
    Close(bot);
  }

  /** Tick 1: RSI 25 and price 1.00 below the lower band 1.02 open the pair; 1.00 is no 2% drop. */
  method OpenAtEntry(bot: Bot)
    requires bot.Valid() && Symbol in bot.positions && Symbol in bot.safetyOrders
    requires bot.minNotional == map[] && bot.capital == InitialCapital
    requires bot.positions[Symbol] == None && bot.safetyOrders[Symbol] == []
    modifies bot
    ensures bot.Valid() && Symbol in bot.positions && Symbol in bot.safetyOrders
    ensures bot.minNotional == map[] && bot.capital == InitialCapital
    ensures bot.positions[Symbol] == Some(Position(EntryFill, FirstTarget, 1.0)) && bot.safetyOrders[Symbol] == []
  {
    var entry := BuyReplies(Some(1.0), Some(EntryFill), Some("tp-1"));
    DropLadder();
    assert PlaceBuy(InitialTradeAmount, 0.0, entry) == Some(Placed(EntryFill, FirstTarget));
    assert !SafetyOrderTriggered(1.0, 1.0, 0);
    bot.Turn(Symbol, Some(Signal(25.0, 1.02, 1.0)), TurnReplies(entry, Resting, NoBuy, NoRepeg));
  }

  /**
   * Tick 2: price 0.98 is exactly 2% below the average, so the first safety order, $30, fires;
   * the average falls below 1.00 and the re-pegged target below 1.01.
   */
  method AverageDown(bot: Bot)
    requires bot.Valid() && Symbol in bot.positions && Symbol in bot.safetyOrders
    requires bot.minNotional == map[] && bot.capital == InitialCapital
    requires bot.positions[Symbol] == Some(Position(EntryFill, FirstTarget, 1.0)) && bot.safetyOrders[Symbol] == []
    modifies bot
    ensures bot.Valid() && Symbol in bot.positions && Symbol in bot.safetyOrders
    ensures bot.minNotional == map[] && bot.capital == InitialCapital
    ensures bot.safetyOrders[Symbol] == [SafetyFill]
    ensures bot.positions[Symbol] ==
            Some(Position(EntryFill, TakeProfitOrder("tp-2", TakeProfitPrice(AverageAfterSafety), 10.0), AverageAfterSafety))
    ensures 0.98 < AverageAfterSafety < 1.0 && TakeProfitPrice(AverageAfterSafety) < 1.01
  {
    var safety := BuyReplies(Some(0.98), Some(SafetyFill), Some("tp-extra"));
    var l := PairLedger(Some(Position(EntryFill, FirstTarget, 1.0)), []);
    DropLadder();
    assert SafetyOrderAmount(0) == 30;
    assert SafetyOrderTriggered(0.98, 1.0, 0);
    assert PlaceBuy(30.0, 0.0, safety).Some?;
    assert SafetyFires(l, 0.0, 0.98, safety);
    assert [SafetyFill][1..] == [];
    assert TotalFilled([SafetyFill]) == 30.0 / 0.98;
    assert TotalCost([SafetyFill]) == 30.0;
    assert BlendedAverage(EntryFill, [SafetyFill]) == AverageAfterSafety;
    bot.Turn(Symbol, Some(Signal(40.0, 0.9, 0.98)), TurnReplies(NoBuy, Resting, safety, RepegReplies(true, Some("tp-2"))));
  }

  /** Tick 3: the re-pegged order is reported filled for the entry quantity: flat, profit booked. */
  method Close(bot: Bot)
    requires bot.Valid() && Symbol in bot.positions && Symbol in bot.safetyOrders
    requires bot.minNotional == map[] && bot.capital == InitialCapital
    requires bot.safetyOrders[Symbol] == [SafetyFill]
    requires bot.positions[Symbol] ==
             Some(Position(EntryFill, TakeProfitOrder("tp-2", TakeProfitPrice(AverageAfterSafety), 10.0), AverageAfterSafety))
    modifies bot
    ensures bot.Valid() && Symbol in bot.positions && Symbol in bot.safetyOrders
    ensures bot.positions[Symbol] == None && bot.safetyOrders[Symbol] == []
    ensures bot.capital == InitialCapital + (TakeProfitPrice(AverageAfterSafety) - AverageAfterSafety) * 10.0
    ensures bot.capital > InitialCapital
  {
    var target := TakeProfitPrice(AverageAfterSafety);
    var filled := Some(TakeProfitReport(Closed, target, 10.0));
    assert 0.98 < AverageAfterSafety;
    bot.Turn(Symbol, Some(Signal(60.0, 0.9, target)), TurnReplies(NoBuy, filled, NoBuy, NoRepeg));
  }

  method RejectedAndSkipped() {
    var bot := new Bot(map["TIA/USDT" := 15.0]);
    assert TradingPairs[3] == "TIA/USDT" && TradingPairs[0] == "FTT/USDT";
    Rejected(bot);
    Skipped(bot);
  }

  /** $10 is below the $15 minimum of TIA/USDT: the pair stays flat whatever the exchange would answer. */
  method Rejected(bot: Bot)
    requires bot.Valid() && bot.minNotional == map["TIA/USDT" := 15.0]
    requires "TIA/USDT" in bot.positions && bot.positions["TIA/USDT"] == None
    modifies bot
    ensures bot.Valid() && bot.minNotional == map["TIA/USDT" := 15.0]
    ensures "TIA/USDT" in bot.positions && "TIA/USDT" in bot.safetyOrders
    ensures bot.positions["TIA/USDT"] == None && bot.safetyOrders["TIA/USDT"] == []
    ensures bot.capital == old(bot.capital)
  {
    var entry := BuyReplies(Some(2.0), Some(Fill(5.0, 10.0, 2.0)), Some("tp-1"));
    assert MinNotionalOf(bot.minNotional, "TIA/USDT") == 15.0;
    assert BelowMinimum(InitialTradeAmount, 15.0);
    bot.Turn("TIA/USDT", Some(Signal(20.0, 2.5, 2.0)), TurnReplies(entry, None, NoBuy, NoRepeg));
  }

  /** An invalid signal leaves every pair and the capital as they were. */
  method Skipped(bot: Bot)
    requires bot.Valid() && "FTT/USDT" in bot.positions
    modifies bot
    ensures bot.Valid() && bot.positions == old(bot.positions) && bot.safetyOrders == old(bot.safetyOrders)
    ensures bot.capital == old(bot.capital)
  {
    var entry := BuyReplies(Some(2.0), Some(Fill(5.0, 10.0, 2.0)), Some("tp-1"));
    bot.Turn("FTT/USDT", None, TurnReplies(entry, None, NoBuy, NoRepeg));
  }
}
