/**
 * The two order helpers `main` calls: the buy branch of `place_order` (bot.py:81-103, 116-118)
 * and `move_take_profit` (bot.py:122-134). The exchange calls they make are not modelled;
 * their answers are parameters, `None` standing for a call that raised.
 */
module Orders {

  import opened Wrappers
  import opened Planner
  import opened Ledger

  /** The answers to the three exchange calls of one buy: ticker, market buy, take-profit limit sell. */
  datatype BuyReplies = BuyReplies(ticker: Option<real>, marketBuy: Option<Fill>, limitSell: Option<OrderId>)

  /** A successful buy: the market order and the take-profit order placed beside it. */
  datatype Placed = Placed(order: Fill, tpOrder: TakeProfitOrder)

  /** The answers to the two exchange calls of a re-peg: cancel the old order, place the new one. */
  datatype RepegReplies = RepegReplies(cancelled: bool, placed: Option<OrderId>)

  /** The minimum-notional rejection of bot.py:92; a pair with no known minimum has minimum 0. */
  predicate BelowMinimum(amount: real, minNotional: real) {
    amount < minNotional
  }

  /**
   * `place_order(pair, 'buy', amount)`. The order goes through only when the ticker answered
   * with a non-zero price (the quantity `amount / price` is computed first, bot.py:90), the
   * amount is not below the pair's minimum notional, and both the market buy and the limit
   * sell were accepted. The take-profit order sells the bought quantity at the ticker price
   * plus the profit target, not at the fill's average.
   */
  function PlaceBuy(amount: real, minNotional: real, replies: BuyReplies): (r: Option<Placed>)
    ensures r.Some? <==>
              replies.ticker.Some? && replies.ticker.value != 0.0 &&
              !BelowMinimum(amount, minNotional) &&
              replies.marketBuy.Some? && replies.limitSell.Some?
    ensures r.Some? ==> r.value.order == replies.marketBuy.value
    ensures r.Some? ==> var price := replies.ticker.value;
                        r.value.tpOrder.id == replies.limitSell.value &&
                        r.value.tpOrder.price == TakeProfitPrice(price) &&
                        r.value.tpOrder.amount * price == amount
  {
    match replies.ticker
    case None => None
    case Some(price) =>
      if price == 0.0 then None
      else
        var quantity := amount / price;
        if BelowMinimum(amount, minNotional) then None
        else
          match replies.marketBuy
          case None => None
          case Some(order) =>
            match replies.limitSell
            case None => None
            case Some(id) => Some(Placed(order, TakeProfitOrder(id, TakeProfitPrice(price), quantity)))
  }

  /** An amount below the minimum never produces an order, whatever the exchange would answer. */
  lemma BelowMinimumNeverPlaces(amount: real, minNotional: real, replies: BuyReplies)
    requires BelowMinimum(amount, minNotional)
    ensures PlaceBuy(amount, minNotional, replies).None?
  {
  }

  /**
   * `move_take_profit`: cancel the resting order, then place a new one at the new price for the
   * quantity of the old order. Either call failing gives `None`.
   */
  function MoveTakeProfit(newPrice: real, current: TakeProfitOrder, replies: RepegReplies): (r: Option<TakeProfitOrder>)
    ensures r.Some? <==> replies.cancelled && replies.placed.Some?
    ensures r.Some? ==> r.value.id == replies.placed.value && r.value.price == newPrice
    ensures r.Some? ==> r.value.amount == current.amount
  {
    if !replies.cancelled then None
    else
      match replies.placed
      case None => None
      case Some(id) => Some(TakeProfitOrder(id, newPrice, current.amount))
  }
}
