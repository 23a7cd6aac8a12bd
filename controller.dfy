/**
 * The per-pair controller that the body of `main` runs for every pair on every tick
 * (bot.py:152-231): open on an entry signal, close when the resting take-profit order has
 * filled, otherwise fire the next safety order and re-peg the take-profit.
 *
 * `PairTurn` states one pair's turn as a function of that pair's ledger; the class `Bot`
 * holds the dictionaries and the capital total `main` mutates, and its methods are proved
 * to update them as `PairTurn` says.
 */
module Controller {

  import opened Wrappers
  import opened Config
  import opened Planner
  import opened Ledger
  import opened Orders

  /** The RSI and lower band from `fetch_data` (bot.py:159) and the last price (bot.py:165). */
  datatype Signal = Signal(rsi: real, lowerBand: real, price: real)

  datatype OrderState = Open | Closed | Canceled | Expired | Rejected

  /** What `fetch_order` says of the resting take-profit order (bot.py:185). */
  datatype TakeProfitReport = TakeProfitReport(state: OrderState, price: real, filled: real)

  /**
   * Every exchange answer one pair's turn may consult: the entry buy, the take-profit status
   * (`None` when `fetch_order` raised), the safety buy and the re-peg.
   */
  datatype TurnReplies = TurnReplies(entry: BuyReplies, tpCheck: Option<TakeProfitReport>, safety: BuyReplies, repeg: RepegReplies)

  /** One pair's share of the bot state: `positions[pair]` and `safety_orders[pair]`. */
  datatype PairLedger = PairLedger(position: Option<Position>, safety: seq<Fill>)

  /** The ledger of a pair with no position. */
  const Flat := PairLedger(None, [])

  /** A pair's ledger after its turn, with the profit the turn moved into capital. */
  datatype Outcome = Outcome(ledger: PairLedger, profit: real)

  /** The entry condition of bot.py:168, apart from the pair being flat. */
  predicate EntrySignal(s: Signal) {
    s.rsi <= RsiEntryThreshold && s.price < s.lowerBand
  }

  /**
   * What holds of every pair between turns: the ladder is bounded, a flat pair has no safety
   * orders, and an open position's average is the entry fill's average until the first safety
   * fill and the blended average of all fills from then on.
   */
  predicate LedgerOk(l: PairLedger) {
    |l.safety| <= SafetyOrderCount &&
    (l.position.None? ==> l.safety == []) &&
    (l.position.Some? ==>
      l.position.value.averagePrice ==
        if l.safety == [] then l.position.value.mainOrder.average
        else BlendedAverage(l.position.value.mainOrder, l.safety))
  }

  /** The profit booked when the take-profit order is reported closed (bot.py:187-188). */
  function Profit(p: Position, report: TakeProfitReport): (r: real)
    ensures report.filled > 0.0 ==>
              (r > 0.0 <==> report.price > p.averagePrice) && (r < 0.0 <==> report.price < p.averagePrice)
  {
    (report.price - p.averagePrice) * report.filled
  }

  // ----- the three phases of a turn -----

  /** The entry phase (bot.py:168-177). */
  function Enter(l: PairLedger, minNotional: real, s: Signal, replies: BuyReplies): (r: PairLedger)
    ensures r.safety == l.safety
    ensures LedgerOk(l) ==> LedgerOk(r)
    ensures l.position.Some? ==> r == l
    ensures l.position.None? && r.position.Some? <==>
              l.position.None? && EntrySignal(s) && PlaceBuy(InitialTradeAmount, minNotional, replies).Some?
    ensures l.position.None? && r.position.Some? ==>
              var placed := PlaceBuy(InitialTradeAmount, minNotional, replies).value;
              r.position.value == Position(placed.order, placed.tpOrder, placed.order.average)
  {
    if EntrySignal(s) && l.position.None? then
      match PlaceBuy(InitialTradeAmount, minNotional, replies)
      case None => l
      case Some(placed) => PairLedger(Some(Position(placed.order, placed.tpOrder, placed.order.average)), l.safety)
    else l
  }

  /** The safety order of an open position fires: budget left, price low enough, buy placed. */
  predicate SafetyFires(l: PairLedger, minNotional: real, price: real, replies: BuyReplies)
    requires l.position.Some?
  {
    var n := |l.safety|;
    n < SafetyOrderCount &&
    SafetyOrderTriggered(price, l.position.value.averagePrice, n) &&
    PlaceBuy(SafetyOrderAmount(n) as real, minNotional, replies).Some?
  }

  /** Both calls of the re-peg were accepted. */
  predicate RepegAccepted(repeg: RepegReplies) {
    repeg.cancelled && repeg.placed.Some?
  }

  /** The safety-order phase of an open position (bot.py:197-228). */
  function SafetyPhase(l: PairLedger, minNotional: real, price: real, replies: BuyReplies, repeg: RepegReplies): (r: PairLedger)
    requires l.position.Some?
    ensures r.position.Some?
    ensures LedgerOk(l) ==> LedgerOk(r)
    ensures r.position.value.mainOrder == l.position.value.mainOrder
    ensures r.position.value.tpOrder.amount == l.position.value.tpOrder.amount
    ensures !SafetyFires(l, minNotional, price, replies) ==> r == l
    ensures SafetyFires(l, minNotional, price, replies) ==>
              r.safety == l.safety + [replies.marketBuy.value] &&
              r.position.value.averagePrice == BlendedAverage(l.position.value.mainOrder, r.safety)
    ensures SafetyFires(l, minNotional, price, replies) && RepegAccepted(repeg) ==>
              r.position.value.tpOrder.id == repeg.placed.value &&
              r.position.value.tpOrder.price == TakeProfitPrice(r.position.value.averagePrice)
    ensures !RepegAccepted(repeg) ==> r.position.value.tpOrder == l.position.value.tpOrder
  {
    var p := l.position.value;
    var n := |l.safety|;
    if n < SafetyOrderCount && SafetyOrderTriggered(price, p.averagePrice, n) then
      match PlaceBuy(SafetyOrderAmount(n) as real, minNotional, replies)
      case None => l
      case Some(placed) =>
        var safety := l.safety + [placed.order];
        var average := BlendedAverage(p.mainOrder, safety);
        var tp := match MoveTakeProfit(TakeProfitPrice(average), p.tpOrder, repeg)
                  case None => p.tpOrder
                  case Some(moved) => moved;
        PairLedger(Some(p.(averagePrice := average, tpOrder := tp)), safety)
    else l
  }

  /**
   * One pair's turn within a tick (bot.py:158-228). An unavailable signal changes nothing. The
   * entry phase may open the pair; an open pair whose take-profit is reported closed becomes
   * flat and books its profit; otherwise the safety-order phase runs. A `fetch_order` that
   * raised ends the turn.
   */
  function PairTurn(l: PairLedger, minNotional: real, signal: Option<Signal>, replies: TurnReplies): (o: Outcome)
    ensures signal.None? ==> o == Outcome(l, 0.0)
    ensures LedgerOk(l) ==> LedgerOk(o.ledger)
    ensures o.profit != 0.0 ==> o.ledger == Flat
    ensures l.position.None? && o.ledger.position.Some? ==>
              signal.Some? && EntrySignal(signal.value) && PlaceBuy(InitialTradeAmount, minNotional, replies.entry).Some?
    ensures l.position.None? && BelowMinimum(InitialTradeAmount, minNotional) ==> o == Outcome(l, 0.0)
    ensures signal.Some? && replies.tpCheck.Some? && replies.tpCheck.value.state == Closed ==>
              var entered := Enter(l, minNotional, signal.value, replies.entry);
              entered.position.Some? ==> o == Outcome(Flat, Profit(entered.position.value, replies.tpCheck.value))
    ensures l.position.None? && signal.Some? && EntrySignal(signal.value) &&
            PlaceBuy(InitialTradeAmount, minNotional, replies.entry).Some? &&
            !(replies.tpCheck.Some? && replies.tpCheck.value.state == Closed) ==>
              o.ledger.position.Some?
    ensures |o.ledger.safety| > |l.safety| ==>
              signal.Some? && replies.tpCheck.Some? && replies.tpCheck.value.state != Closed &&
              var entered := Enter(l, minNotional, signal.value, replies.entry);
              entered.position.Some? &&
              |l.safety| < SafetyOrderCount &&
              SafetyOrderTriggered(signal.value.price, entered.position.value.averagePrice, |l.safety|) &&
              PlaceBuy(SafetyOrderAmount(|l.safety|) as real, minNotional, replies.safety).Some? &&
              o.ledger.safety == l.safety + [replies.safety.marketBuy.value] &&
              o.profit == 0.0
    ensures signal.Some? && replies.tpCheck.Some? && replies.tpCheck.value.state != Closed ==>
              var entered := Enter(l, minNotional, signal.value, replies.entry);
              entered.position.Some? && SafetyFires(entered, minNotional, signal.value.price, replies.safety) ==>
                |o.ledger.safety| == |l.safety| + 1
  {
    match signal
    case None => Outcome(l, 0.0)
    case Some(s) =>
      var entered := Enter(l, minNotional, s, replies.entry);
      if entered.position.None? then Outcome(entered, 0.0)
      else OpenTurn(entered, minNotional, s.price, replies)
  }

  /** The part of a turn after the entry phase, for a pair that is open (bot.py:183-228). */
  function OpenTurn(l: PairLedger, minNotional: real, price: real, replies: TurnReplies): (o: Outcome)
    requires l.position.Some?
    ensures replies.tpCheck.None? ==> o == Outcome(l, 0.0)
    ensures replies.tpCheck.Some? && replies.tpCheck.value.state == Closed ==>
              o == Outcome(Flat, Profit(l.position.value, replies.tpCheck.value))
    ensures replies.tpCheck.Some? && replies.tpCheck.value.state != Closed ==>
              o == Outcome(SafetyPhase(l, minNotional, price, replies.safety, replies.repeg), 0.0)
  {
    match replies.tpCheck
    case None => Outcome(l, 0.0)
    case Some(report) =>
      if report.state == Closed then Outcome(Flat, Profit(l.position.value, report))
      else Outcome(SafetyPhase(l, minNotional, price, replies.safety, replies.repeg), 0.0)
  }

  // ----- what the ledger invariant gives -----

  /** An open position's stored average is its cost over its quantity once a safety order has filled. */
  lemma AverageIsCostOverQuantity(l: PairLedger)
    requires LedgerOk(l) && l.position.Some? && l.safety != []
    ensures var p := l.position.value;
            p.averagePrice * PositionQuantity(p.mainOrder, l.safety) == PositionCost(p.mainOrder, l.safety)
  {
  }

  /** The stored average of a sound ledger is the blended average, provided the entry fill is consistent. */
  lemma StoredAverageIsBlended(l: PairLedger)
    requires LedgerOk(l) && l.position.Some? && Consistent(l.position.value.mainOrder)
    ensures l.position.value.averagePrice == BlendedAverage(l.position.value.mainOrder, l.safety)
  {
  }

  /**
   * After a safety fill the stored average lies between the cheapest and the dearest fill of
   * the position.
   */
  lemma AverageWithinFillPrices(l: PairLedger, lo: real, hi: real)
    requires LedgerOk(l) && l.position.Some? && l.safety != []
    requires lo <= UnitPrice(l.position.value.mainOrder) <= hi && PricesWithin(l.safety, lo, hi)
    ensures lo <= l.position.value.averagePrice <= hi
  {
    BlendedWithinFillPrices(l.position.value.mainOrder, l.safety, lo, hi);
  }

  /**
   * A safety fill bought below the position's average lowers the stored average, one bought
   * above raises it, and the new average lies between the old one and the fill's price. Before
   * the first safety fill the stored average is the exchange's `average` of the entry fill, so
   * there the entry fill must be consistent (its average is its cost over its quantity).
   */
  lemma SafetyFillMovesAverage(l: PairLedger, minNotional: real, price: real, replies: BuyReplies, repeg: RepegReplies)
    requires LedgerOk(l) && l.position.Some?
    requires l.safety != [] || Consistent(l.position.value.mainOrder)
    requires SafetyFires(l, minNotional, price, replies)
    ensures var before := l.position.value.averagePrice;
            var after := SafetyPhase(l, minNotional, price, replies, repeg).position.value.averagePrice;
            var u := UnitPrice(replies.marketBuy.value);
            (after < before <==> u < before) && (after > before <==> u > before) &&
            (u <= before ==> u <= after <= before) && (u >= before ==> before <= after <= u)
  {
    if l.safety == [] {
      StoredAverageIsBlended(l);
    }
    BlendedMovesTowardFill(l.position.value.mainOrder, l.safety, replies.marketBuy.value);
  }

  /** `min_notional_values.get(pair, 0)` (bot.py:92). */
  function MinNotionalOf(minNotional: map<Pair, real>, pair: Pair): real {
    if pair in minNotional then minNotional[pair] else 0.0
  }

  function LedgerAt(positions: map<Pair, Option<Position>>, safetyOrders: map<Pair, seq<Fill>>, pair: Pair): PairLedger
    requires pair in positions && pair in safetyOrders
  {
    PairLedger(positions[pair], safetyOrders[pair])
  }

  /** The set of traded pairs, the keys of both dictionaries. */
  function PairSet(): set<Pair> {
    set p | p in TradingPairs
  }

  /**
   * Profit booked by the first `k` pairs of a tick that starts from the given dictionaries.
   * Each pair works on its own ledger, so the order of the pairs only matters for the sum.
   */
  function TickProfit(positions: map<Pair, Option<Position>>, safetyOrders: map<Pair, seq<Fill>>,
                      minNotional: map<Pair, real>, signals: seq<Option<Signal>>, replies: seq<TurnReplies>, k: nat): real
    requires k <= |TradingPairs| && |signals| == |TradingPairs| && |replies| == |TradingPairs|
    requires PairSet() <= positions.Keys && PairSet() <= safetyOrders.Keys
  {
    if k == 0 then 0.0
    else
      var pair := TradingPairs[k - 1];
      TickProfit(positions, safetyOrders, minNotional, signals, replies, k - 1) +
      PairTurn(LedgerAt(positions, safetyOrders, pair), MinNotionalOf(minNotional, pair), signals[k - 1], replies[k - 1]).profit
  }

  /** Both dictionaries are keyed by exactly the traded pairs and every pair's ledger is sound. */
  ghost predicate StateOk(positions: map<Pair, Option<Position>>, safetyOrders: map<Pair, seq<Fill>>) {
    positions.Keys == PairSet() && safetyOrders.Keys == PairSet() &&
    forall p :: p in PairSet() ==> LedgerOk(LedgerAt(positions, safetyOrders, p))
  }

  lemma UpdateKeepsStateOk(positions: map<Pair, Option<Position>>, safetyOrders: map<Pair, seq<Fill>>, pair: Pair, l: PairLedger)
    requires StateOk(positions, safetyOrders) && pair in PairSet() && LedgerOk(l)
    ensures StateOk(positions[pair := l.position], safetyOrders[pair := l.safety])
  {
    var ps, ss := positions[pair := l.position], safetyOrders[pair := l.safety];
    forall p | p in PairSet()
      ensures LedgerOk(LedgerAt(ps, ss, p))
    {
      if p != pair {
        assert LedgerAt(ps, ss, p) == LedgerAt(positions, safetyOrders, p);
      } else {
        assert LedgerAt(ps, ss, p) == l;
      }
    }
  }

  /** One pair's turn keeps both dictionaries keyed by the traded pairs and every ledger sound. */
  lemma TurnKeepsStateOk(positions: map<Pair, Option<Position>>, safetyOrders: map<Pair, seq<Fill>>,
                         minNotional: map<Pair, real>, pair: Pair, signal: Option<Signal>, replies: TurnReplies)
    requires StateOk(positions, safetyOrders) && pair in positions
    ensures var o := PairTurn(LedgerAt(positions, safetyOrders, pair), MinNotionalOf(minNotional, pair), signal, replies);
            StateOk(positions[pair := o.ledger.position], safetyOrders[pair := o.ledger.safety])
  {
    UpdateKeepsStateOk(positions, safetyOrders, pair,
      PairTurn(LedgerAt(positions, safetyOrders, pair), MinNotionalOf(minNotional, pair), signal, replies).ledger);
  }

  /**
   * Within a tick that started from `positions0` and `safetyOrders0`, the first `k` pairs have
   * taken their turns and the others are untouched.
   */
  ghost predicate TurnsTaken(positions0: map<Pair, Option<Position>>, safetyOrders0: map<Pair, seq<Fill>>,
                             positions: map<Pair, Option<Position>>, safetyOrders: map<Pair, seq<Fill>>,
                             minNotional: map<Pair, real>, signals: seq<Option<Signal>>, replies: seq<TurnReplies>, k: nat)
    requires k <= |TradingPairs| && |signals| == |TradingPairs| && |replies| == |TradingPairs|
  {
    PairSet() <= positions0.Keys && PairSet() <= safetyOrders0.Keys &&
    PairSet() <= positions.Keys && PairSet() <= safetyOrders.Keys &&
    (forall i :: 0 <= i < k ==>
      LedgerAt(positions, safetyOrders, TradingPairs[i]) ==
      PairTurn(LedgerAt(positions0, safetyOrders0, TradingPairs[i]), MinNotionalOf(minNotional, TradingPairs[i]), signals[i], replies[i]).ledger) &&
    (forall i :: k <= i < |TradingPairs| ==>
      LedgerAt(positions, safetyOrders, TradingPairs[i]) == LedgerAt(positions0, safetyOrders0, TradingPairs[i]))
  }

  /** Pair `k` taking its turn extends `TurnsTaken` from `k` to `k + 1`. */
  lemma NextTurnTaken(positions0: map<Pair, Option<Position>>, safetyOrders0: map<Pair, seq<Fill>>,
                      positions: map<Pair, Option<Position>>, safetyOrders: map<Pair, seq<Fill>>,
                      positions': map<Pair, Option<Position>>, safetyOrders': map<Pair, seq<Fill>>,
                      minNotional: map<Pair, real>, signals: seq<Option<Signal>>, replies: seq<TurnReplies>, k: nat)
    requires k < |TradingPairs| && |signals| == |TradingPairs| && |replies| == |TradingPairs|
    requires TurnsTaken(positions0, safetyOrders0, positions, safetyOrders, minNotional, signals, replies, k)
    requires var pair := TradingPairs[k];
             var o := PairTurn(LedgerAt(positions, safetyOrders, pair), MinNotionalOf(minNotional, pair), signals[k], replies[k]);
             positions' == positions[pair := o.ledger.position] && safetyOrders' == safetyOrders[pair := o.ledger.safety]
    ensures TurnsTaken(positions0, safetyOrders0, positions', safetyOrders', minNotional, signals, replies, k + 1)
  {
    TradingPairsDistinct();
    var pair := TradingPairs[k];
    assert LedgerAt(positions, safetyOrders, pair) == LedgerAt(positions0, safetyOrders0, pair);
    forall i | 0 <= i < |TradingPairs| && i != k
      ensures LedgerAt(positions', safetyOrders', TradingPairs[i]) == LedgerAt(positions, safetyOrders, TradingPairs[i])
    {
      assert TradingPairs[i] != pair;
    }
  }

  /** The state `main` keeps across ticks: the two dictionaries and the capital total. */
  class Bot {
    /** The exchange's minimum notional per pair, loaded once at start-up (bot.py:42-44). */
    const minNotional: map<Pair, real>
    var positions: map<Pair, Option<Position>>
    var safetyOrders: map<Pair, seq<Fill>>
    var capital: real

    ghost predicate Valid()
      reads this
    {
      StateOk(positions, safetyOrders)
    }

    /** Every pair starts flat with no safety orders, and capital starts at 500 (bot.py:152-154). */
    constructor (minNotional: map<Pair, real>)
      ensures Valid()
      ensures this.minNotional == minNotional && capital == InitialCapital
      ensures forall p :: p in TradingPairs ==> p in positions && p in safetyOrders && LedgerAt(positions, safetyOrders, p) == Flat
    {
      this.minNotional := minNotional;
      positions := map p | p in TradingPairs :: None;
      safetyOrders := map p | p in TradingPairs :: [];
      capital := InitialCapital;
    }

    /**
     * One pair's turn, updating the dictionaries in place as the loop body of `main` does
     * (bot.py:158-183). Only that pair's entries change, and capital moves by the profit the
     * turn booked. The turn keeps every pair's ledger sound.
     */
    method Turn(pair: Pair, signal: Option<Signal>, replies: TurnReplies)
      requires Valid() && pair in positions && pair in safetyOrders
      modifies this
      ensures Valid()
      ensures var o := PairTurn(LedgerAt(old(positions), old(safetyOrders), pair), MinNotionalOf(minNotional, pair), signal, replies);
              positions == old(positions)[pair := o.ledger.position] &&
              safetyOrders == old(safetyOrders)[pair := o.ledger.safety] &&
              capital == old(capital) + o.profit
    {
      TurnKeepsStateOk(positions, safetyOrders, minNotional, pair, signal, replies);
      if signal.Some? {
        TradeOnSignal(pair, signal.value, replies);
      }
    }

    /**
     * A turn with valid market data (bot.py:165-228): the entry phase, then, for a pair that
     * is open, the take-profit check and the safety-order phase.
     */
    method TradeOnSignal(pair: Pair, s: Signal, replies: TurnReplies)
      requires pair in positions && pair in safetyOrders
      modifies this
      ensures var o := PairTurn(LedgerAt(old(positions), old(safetyOrders), pair), MinNotionalOf(minNotional, pair), Some(s), replies);
              positions == old(positions)[pair := o.ledger.position] &&
              safetyOrders == old(safetyOrders)[pair := o.ledger.safety] &&
              capital == old(capital) + o.profit
    {
      ghost var l := LedgerAt(positions, safetyOrders, pair);
      var minimum := MinNotionalOf(minNotional, pair);
      EnterPosition(pair, minimum, s, replies.entry);
      ghost var entered := Enter(l, minimum, s, replies.entry);
      assert LedgerAt(positions, safetyOrders, pair) == entered;
      if positions[pair].Some? {
        CheckOpenPosition(pair, minimum, s.price, replies);
      }
    }

    /**
     * The entry phase (bot.py:168-181): a flat pair with an entry signal places the $10 buy and,
     * when it went through, records the position with the fill's `average` as its average.
     */
    method EnterPosition(pair: Pair, minimum: real, s: Signal, replies: BuyReplies)
      requires pair in positions && pair in safetyOrders
      modifies this
      ensures var r := Enter(LedgerAt(old(positions), old(safetyOrders), pair), minimum, s, replies);
              positions == old(positions)[pair := r.position] &&
              safetyOrders == old(safetyOrders) && capital == old(capital)
    {
      if s.rsi <= RsiEntryThreshold && s.price < s.lowerBand && positions[pair].None? {
        var placed := PlaceBuy(InitialTradeAmount, minimum, replies);
        if placed.Some? {
          var order := placed.value.order;
          positions := positions[pair := Some(Position(order, placed.value.tpOrder, order.average))];
        }
      }
    }

    /**
     * The turn of a pair that is open after the entry phase (bot.py:183-194): book the profit
     * and go flat when the take-profit order is reported closed, stop when `fetch_order`
     * raised, and otherwise go on to the safety-order phase.
     */
    method CheckOpenPosition(pair: Pair, minimum: real, price: real, replies: TurnReplies)
      requires pair in positions && pair in safetyOrders && positions[pair].Some?
      modifies this
      ensures var o := OpenTurn(LedgerAt(old(positions), old(safetyOrders), pair), minimum, price, replies);
              positions == old(positions)[pair := o.ledger.position] &&
              safetyOrders == old(safetyOrders)[pair := o.ledger.safety] &&
              capital == old(capital) + o.profit
    {
      if replies.tpCheck.None? {
        return;
      }
      var report := replies.tpCheck.value;
      if report.state == Closed {
        var profit := Profit(positions[pair].value, report);
        capital := capital + profit;
        positions := positions[pair := None];
        safetyOrders := safetyOrders[pair := []];
        return;
      }
      PlaceSafetyOrder(pair, minimum, price, replies.safety, replies.repeg);
    }

    /**
     * The safety-order phase (bot.py:197-228): with budget left and the price at or below the
     * trigger, buy the next rung, append it, recompute the average over all fills and try to
     * re-peg the take-profit order; a failed re-peg keeps the old order.
     */
    method PlaceSafetyOrder(pair: Pair, minimum: real, price: real, buyReplies: BuyReplies, repeg: RepegReplies)
      requires pair in positions && pair in safetyOrders && positions[pair].Some?
      modifies this
      ensures var r := SafetyPhase(LedgerAt(old(positions), old(safetyOrders), pair), minimum, price, buyReplies, repeg);
              positions == old(positions)[pair := r.position] &&
              safetyOrders == old(safetyOrders)[pair := r.safety] &&
              capital == old(capital)
    {
      ghost var l := LedgerAt(positions, safetyOrders, pair);
      ghost var after := SafetyPhase(l, minimum, price, buyReplies, repeg);
      var n := |safetyOrders[pair]|;
      if n < SafetyOrderCount {
        var drop := SafetyOrderDrop(n);
        if price <= positions[pair].value.averagePrice * (1.0 - drop) {
          var amount := SafetyOrderAmount(n);
          var placed := PlaceBuy(amount as real, minimum, buyReplies);
          if placed.None? {
            assert positions == old(positions)[pair := after.position];
            return;
          }
          assert SafetyFires(l, minimum, price, buyReplies);
          safetyOrders := safetyOrders[pair := safetyOrders[pair] + [placed.value.order]];
          var main := positions[pair].value.mainOrder;
          var totalQuantity := main.filled + TotalFilled(safetyOrders[pair]);
          var totalCost := main.cost + TotalCost(safetyOrders[pair]);
          var newAverage := totalCost / totalQuantity;
          positions := positions[pair := Some(positions[pair].value.(averagePrice := newAverage))];
          var newTpPrice := TakeProfitPrice(newAverage);
          var moved := MoveTakeProfit(newTpPrice, positions[pair].value.tpOrder, repeg);
          if moved.Some? {
            positions := positions[pair := Some(positions[pair].value.(tpOrder := moved.value))];
          }
          assert positions[pair] == after.position;
          assert positions == old(positions)[pair := after.position];
          return;
        }
      }
      assert positions == old(positions)[pair := after.position];
    }

    /**
     * One tick: every traded pair takes its turn in order (bot.py:157). Each pair ends where its
     * own turn puts it, whatever the other pairs did, and capital gains the sum of the tick's
     * booked profits.
     */
    method Tick(signals: seq<Option<Signal>>, replies: seq<TurnReplies>)
      requires Valid()
      requires |signals| == |TradingPairs| && |replies| == |TradingPairs|
      modifies this
      ensures Valid()
      ensures forall i :: 0 <= i < |TradingPairs| ==>
                LedgerAt(positions, safetyOrders, TradingPairs[i]) ==
                PairTurn(LedgerAt(old(positions), old(safetyOrders), TradingPairs[i]),
                         MinNotionalOf(minNotional, TradingPairs[i]), signals[i], replies[i]).ledger
      ensures capital == old(capital) + TickProfit(old(positions), old(safetyOrders), minNotional, signals, replies, |TradingPairs|)
    {
      ghost var positions0, safetyOrders0 := positions, safetyOrders;
      for k := 0 to |TradingPairs|
        invariant Valid()
        invariant TurnsTaken(positions0, safetyOrders0, positions, safetyOrders, minNotional, signals, replies, k)
        invariant capital == old(capital) + TickProfit(positions0, safetyOrders0, minNotional, signals, replies, k)
      {
        ghost var ps, ss := positions, safetyOrders;
        Turn(TradingPairs[k], signals[k], replies[k]);
        NextTurnTaken(positions0, safetyOrders0, ps, ss, positions, safetyOrders, minNotional, signals, replies, k);
      }
    }
  }
}
