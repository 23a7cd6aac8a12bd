# DCA position controller of the KLTNR trading bot, in Dafny

The bot in `bot.py` trades a fixed set of spot pairs with a "dollar-cost averaging with safety
orders" strategy. On every tick it visits each pair:

- it opens a $10 position when RSI is at most 30 and the price is below the lower Keltner band;
- it closes the position when the resting take-profit limit order is reported `closed`, moving the
  profit into a running capital total;
- otherwise it buys the next "safety order" when the price has fallen far enough below the
  average entry price. It then recomputes the average over all fills and re-pegs the take-profit
  order 1% above the new average.

This project models that controller and its helpers:

- `Config`: the trading constants.
- `Planner`: the safety-order ladder (`calculate_safety_order_drop`, `calculate_safety_order_amount`)
  and the take-profit formula.
- `Ledger`: the order records kept per pair, and the blended average with its properties.
- `Orders`: the buy branch of `place_order` and `move_take_profit`. Each is a function of what the
  exchange answered to each call, where `None` means the call raised.
- `Controller`: one pair's turn as a pure function `PairTurn`, split into its phases `Enter`,
  `OpenTurn` and `SafetyPhase`. Beside it sits the class `Bot`, which holds the two dictionaries
  `positions` and `safetyOrders` and the `capital` total that `main` mutates. Its methods `Turn`,
  `TradeOnSignal`, `EnterPosition`, `CheckOpenPosition`, `PlaceSafetyOrder` and `Tick` update
  those fields in place as the loop body does. They are proved to agree with `PairTurn`, and
  `Turn` and `Tick` keep the invariant `Valid()`.
- The methods `TradeOnSignal`, `EnterPosition`, `CheckOpenPosition` and `PlaceSafetyOrder` are the
  internal phases of `Turn`. They do not keep `Valid()` themselves. Their phase functions `Enter`
  and `SafetyPhase` keep each ledger sound, so a caller gets `Valid()` back through
  `UpdateKeepsStateOk`.
- `Scenarios`: clients that drive a `Bot` with concrete numbers. `OpenAverageDownAndClose` walks one
  position through entry, a safety fill and the take-profit fill. `RejectedAndSkipped` shows the
  minimum-notional rejection (bot.py:92-93) and the skip on invalid market data (bot.py:161-163).

Money, prices and fractions are Dafny `real`s. Exchange answers, the market signal and the
minimum-notional table are parameters.

## Behaviours of bot.py worth knowing

- The safety-order amounts are 30, 30, 60, 120. The comment on `SAFETY_ORDER_MULTIPLIER`
  (bot.py:36) says each safety order is double the previous one, but `calculate_safety_order_amount`
  (bot.py:144-147) gives order `n >= 1` the amount `30 * 2^(n-1)`, so order 1 costs the same as
  order 0 (`Planner.AmountLadder`).
- Every pair starts flat (bot.py:152-153). Open orders already on the exchange are not read back
  at start-up.
- At entry the take-profit price is 1% above the ticker price that `place_order` read (bot.py:99),
  not above the fill's average. After a safety fill it is 1% above the new blended average
  (bot.py:219).
- The average is re-summed over the stored safety list after each safety fill (bot.py:208-215).
  Over the reals this agrees with keeping running totals (`Ledger.TotalsAppend`).
- The only take-profit is the resting limit sell order. The position is closed only when the
  exchange reports that order `closed` (bot.py:185-186).
- The booked profit is `(report price - average) * report filled` (bot.py:187-188). Both values
  come from the exchange's report on the take-profit order.

Further behaviours that the model keeps as written:

- A re-pegged take-profit order keeps the old order's `amount`, which is the entry quantity. So
  the take-profit order never covers the coins bought by safety orders (`Controller.SafetyPhase`).
- If the market buy fills but the take-profit limit sell beside it fails, `place_order` reports no
  order. The fill is then not recorded (`Orders.PlaceBuy`). This holds for entries and for safety
  orders.
- If the cancel succeeds but the new limit order fails, the ledger still points at the cancelled
  order.
- A pair opened in a tick has its take-profit order checked in the same tick, and may fire a
  safety order too.

## Model

| member | source | states |
|---|---|---|
| `Config.TradingPairsDistinct` | bot.py:26 | the four traded pairs are distinct, so each turn touches its own dictionary entries |
| `Planner.Pow` | bot.py:139 | integer power; at least 1 for a base of at least 1 |
| `Planner.SafetyOrderDrop` | bot.py:138-139 | the drop fraction for safety order `n` is never below the initial 2% |
| `Planner.DropDoubles` | bot.py:138-139 | each safety order needs twice the drop of the previous one |
| `Planner.DropStrictlyIncreasing` | bot.py:138-139 | the drop fractions strictly increase with the order number |
| `Planner.DropLadder` | bot.py:39 | the four drops are 0.02, 0.04, 0.08 and 0.16 |
| `Planner.SafetyOrderAmount` | bot.py:143-147 | a safety order's amount is never below the first amount, 30 |
| `Planner.AmountDoubles` | bot.py:143-147 | orders 0 and 1 cost the same; from order 1 on, each costs double the previous one |
| `Planner.AmountNonDecreasing` | bot.py:143-147 | the amounts never decrease along the ladder |
| `Planner.AmountLadder` | bot.py:35-37 | the four amounts are 30, 30, 60 and 120 |
| `Planner.SafetyOrderTriggered` | bot.py:200 | safety order `n` fires when the price is at or below `average * (1 - drop(n))`; for a positive average a triggering price is strictly below the average |
| `Planner.TriggerNested` | bot.py:200 | a price low enough to trigger a later safety order also triggers every earlier one |
| `Planner.TakeProfitPrice` | bot.py:99 | the target is above a positive reference price, below a negative one, and 0 for 0 |
| `Planner.TakeProfitMonotone` | bot.py:219 | a higher average gives a higher take-profit target |
| `Ledger.TotalCost` | bot.py:213-214 | the summed cost of the safety fills |
| `Ledger.TotalFilled` | bot.py:211-212 | the summed quantity of the safety fills is non-negative, and positive once there is one |
| `Ledger.TotalsAppend` | bot.py:208-214 | appending a fill adds exactly its quantity and its cost to the sums |
| `Ledger.PositionQuantity` | bot.py:211-212 | a position's total quantity is positive, so the division at line 215 is defined |
| `Ledger.BlendedAverage` | bot.py:211-215 | the new average times the total quantity equals the total cost; with no safety fill it is the entry fill's unit price |
| `Ledger.TotalsWithin` | bot.py:211-214 | if every fill's unit price is in [lo, hi], the summed cost is between lo and hi times the summed quantity |
| `Ledger.PositionTotalsWithin` | bot.py:211-214 | the same bound for the entry fill together with the safety fills |
| `Ledger.BlendedWithinFillPrices` | bot.py:211-216 | the blended average lies between the cheapest and the dearest fill's unit price |
| `Ledger.BlendedMovesTowardFill` | bot.py:211-216 | a new fill lowers the average exactly when bought below it and raises it exactly when bought above it; the new average lies between the old average and the fill's price |
| `Orders.BelowMinimum` | bot.py:92 | the buy amount is strictly below the pair's minimum notional |
| `Orders.PlaceBuy` | bot.py:81-103 | a buy is placed exactly when the ticker gave a non-zero price, the amount is not below the minimum notional, and both exchange orders were accepted; the take-profit is 1% above the ticker price for the bought quantity |
| `Orders.BelowMinimumNeverPlaces` | bot.py:92-93 | an amount below the pair's minimum notional never produces an order |
| `Orders.MoveTakeProfit` | bot.py:122-134 | a re-peg succeeds exactly when both the cancel and the new order succeed; the new order has the new price and the old quantity |
| `Controller.EntrySignal` | bot.py:168 | the entry condition apart from flatness: RSI at most 30 and the price strictly below the lower band |
| `Controller.Profit` | bot.py:187-188 | the booked profit `(report price - average) * report filled`; with a positive filled quantity it is positive exactly when the order sold above the average and negative exactly when it sold below |
| `Controller.MinNotionalOf` | bot.py:92 | the pair's minimum notional from the market table, and 0 for a pair missing from it |
| `Controller.Enter` | bot.py:168-177 | a flat pair opens exactly when RSI <= 30, price < lower band and the buy was placed; the position holds the entry fill, its take-profit order and the fill's average; an open pair and the safety list are untouched; a sound ledger stays sound |
| `Controller.SafetyPhase` | bot.py:197-228 | the ladder grows by one exactly when budget remains, the price is at or below `average * (1 - drop(n))` and the buy was placed; then the new average is the blended average of all fills and a successful re-peg targets 1% above it; otherwise nothing changes; a failed re-peg keeps the old take-profit order; the entry fill and the take-profit quantity never change; a sound ledger stays sound |
| `Controller.OpenTurn` | bot.py:183-228 | for an open pair: a failed status query changes nothing; a `closed` report makes the pair flat and books `(price - average) * filled`; any other status runs the safety phase |
| `Controller.PairTurn` | bot.py:158-228 | an invalid signal changes nothing; the ledger invariant is preserved; profit is booked only when the pair becomes flat; the pair opens if and only if the entry condition held and the buy was placed (unless it closes in the same turn); a below-minimum entry leaves a flat pair flat; a `closed` report closes with exactly the booked profit; the ladder grows only by one fill, only when its trigger held and the buy was placed, and always when those held |
| `Controller.AverageIsCostOverQuantity` | bot.py:211-216 | after a safety fill the stored average equals the position's cost over its quantity |
| `Controller.StoredAverageIsBlended` | bot.py:177 | if the entry fill is consistent, the stored average is always the blended average of all fills |
| `Controller.AverageWithinFillPrices` | bot.py:211-216 | after a safety fill the stored average lies between the position's cheapest and dearest fill |
| `Controller.SafetyFillMovesAverage` | bot.py:208-216 | for a sound ledger whose entry fill is consistent or which already holds a safety fill: a safety fill bought below the stored average lowers it and one bought above raises it; the new average lies between the old one and the fill's price |
| `Controller.UpdateKeepsStateOk` | bot.py:152-153 | rewriting one pair's entries with a sound ledger keeps both dictionaries keyed by the traded pairs and every ledger sound |
| `Controller.TurnKeepsStateOk` | bot.py:158-228 | one pair's turn on a sound state leaves both dictionaries keyed by the traded pairs and every ledger sound |
| `Controller.NextTurnTaken` | bot.py:157 | one pair's turn leaves every other pair's entries as they were, so the pairs turned so far stay as their own turns left them |
| `Controller.Bot.constructor` | bot.py:152-154 | every pair starts flat with an empty safety list, and capital starts at 500 |
| `Controller.Bot.Turn` | bot.py:158-163 | keeps `Valid()`; one pair's turn rewrites only that pair's two entries, as `PairTurn` says, and adds the booked profit to capital; an invalid signal changes nothing |
| `Controller.Bot.TradeOnSignal` | bot.py:165-228 | with valid market data, the pair's entries and capital become what `PairTurn` gives for that signal |
| `Controller.Bot.EnterPosition` | bot.py:168-181 | the pair's position becomes what `Enter` gives; the safety lists and capital are untouched |
| `Controller.Bot.CheckOpenPosition` | bot.py:183-194 | when `fetch_order` raised nothing changes; on a `closed` report capital += profit, position None, safety list empty and no safety order that turn; any other status runs the safety phase, as `OpenTurn` says |
| `Controller.Bot.PlaceSafetyOrder` | bot.py:197-228 | appends the fill, reassigns the average and maybe the take-profit order in place as `SafetyPhase` says, and leaves capital alone |
| `Controller.Bot.Tick` | bot.py:157-231 | a tick keeps the invariant `Valid()`; after it each pair's ledger is what its own turn makes of its old ledger, whatever the other pairs did, and capital has gained the sum of the booked profits |
| `Scenarios.OpenAtEntry` | bot.py:168-177 | RSI 25 at price 1.00 below the band opens a $10 position, average 1.00, target 1.01 |
| `Scenarios.AverageDown` | bot.py:197-228 | price 0.98 fires the first $30 safety order; the average falls below 1.00 and the target below 1.01 |
| `Scenarios.Close` | bot.py:185-194 | the filled take-profit makes the pair flat and raises capital by the booked profit |
| `Scenarios.Rejected` | bot.py:92-93 | an entry signal on TIA/USDT, whose minimum notional is $15, leaves the pair flat with capital unchanged, because $10 is below the minimum |
| `Scenarios.Skipped` | bot.py:161-163 | an invalid signal leaves both dictionaries and the capital as they were |

## Left out

- Indicator computation in `fetch_data` (bot.py:61-77): RSI, EMA and ATR through pandas and `ta`,
  with rounding. These are floating-point library calls. The model takes the resulting RSI, lower
  band and last price as a `Signal`. `None` stands for the all-zero-closes case and for any data
  or ticker call that raised.
- The exchange calls (`fetch_ticker`, `create_market_buy_order`, `create_limit_sell_order`,
  `cancel_order`, `fetch_order`, `load_markets`). They are network I/O. Their answers are parameters.
- The market-sell branch of `place_order` (bot.py:105-114). `main` never calls it.
- The extra take-profit order that `place_order` places for each safety buy. `main` discards it;
  the model only requires its placement to succeed, as the code does.
- Telegram messages and console output (bot.py:48-57 and the prints). These are HTTP I/O and string
  formatting.
- `time.sleep` and the endless `while True` (bot.py:156, bot.py:233). `Bot.Tick` is one iteration of
  the loop. Any number of ticks keeps `Bot.Valid()`, because each tick preserves it.
- Exceptions not modelled:
  - A zero total quantity at bot.py:215 cannot occur, because `Fill.filled` is positive by type.
    This is the exchange's promise for an executed buy.
  - A missing `average` in a fill is not modelled: the fill's average is always a number here.
  - A pair missing from the minimum-notional table is modelled: its minimum is 0, as
    `.get(pair, 0)` gives (`Controller.MinNotionalOf`). What is not modelled is a table entry whose
    minimum is `None`. That comparison raises at bot.py:92 and is caught at bot.py:116, so the buy
    is not placed.
  - Every exception the model does cover has the same effect in the code: the pair's turn ends with
    its state as it was at that point.
- Orders.PlaceBuy: the stored take-profit order takes its price and amount from the request (the
  ticker price plus 1%, and `amount / price`), and only its id from the exchange's answer. The
  code stores the dict the exchange returned (bot.py:100, bot.py:129). So the model assumes the
  exchange echoes the requested price and amount, with no rounding to tick or lot size.
- Orders.MoveTakeProfit: for the same reason, the new order's amount is the old order's stored
  amount (bot.py:128), and the model assumes the exchange echoes it unchanged.
- Floating-point rounding. Money is exact real arithmetic.
- The Flask liveness endpoint and thread start-up in `app.py`. These are web wiring and concurrency,
  with no trading logic.
