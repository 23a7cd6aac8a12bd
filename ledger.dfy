/**
 * The per-pair position ledger: the order records `main` keeps for an open position
 * (bot.py:177, bot.py:208) and the blended average it recomputes after each safety fill
 * (bot.py:211-216).
 */
module Ledger {

  /** A quantity the exchange reports as filled. */
  type Quantity = r: real | r > 0.0 witness 1.0

  /** An executed market buy, reduced to the fields `main` reads: `filled`, `cost` and `average`. */
  datatype Fill = Fill(filled: Quantity, cost: real, average: real)

  type OrderId = string

  /** A resting take-profit limit sell, reduced to the fields `main` reads: `id`, `price` and `amount`. */
  datatype TakeProfitOrder = TakeProfitOrder(id: OrderId, price: real, amount: real)

  /** The record `positions[pair]` holds while a pair is open (bot.py:177). */
  datatype Position = Position(mainOrder: Fill, tpOrder: TakeProfitOrder, averagePrice: real)

  /** Price paid per unit in one fill. */
  function UnitPrice(f: Fill): real {
    f.cost / f.filled
  }

  /** The exchange's own `average` agrees with its `cost` and `filled`. */
  predicate Consistent(f: Fill) {
    f.average == UnitPrice(f)
  }

  /** `sum(so['filled'] for so in fills)`. */
  function TotalFilled(fills: seq<Fill>): (r: real)
    ensures r >= 0.0
    ensures fills != [] ==> r > 0.0
  {
    if fills == [] then 0.0 else fills[0].filled + TotalFilled(fills[1..])
  }

  /** `sum(so['cost'] for so in fills)`. */
  function TotalCost(fills: seq<Fill>): real {
    if fills == [] then 0.0 else fills[0].cost + TotalCost(fills[1..])
  }

  lemma {:induction false} TotalsAppend(fills: seq<Fill>, f: Fill)
    ensures TotalFilled(fills + [f]) == TotalFilled(fills) + f.filled
    ensures TotalCost(fills + [f]) == TotalCost(fills) + f.cost
  {
    if fills == [] {
      assert [] + [f] == [f];
    } else {
      assert (fills + [f])[1..] == fills[1..] + [f];
      TotalsAppend(fills[1..], f);
    }
  }

  /** Quantity held across the entry buy and the safety fills. */
  function PositionQuantity(main: Fill, safety: seq<Fill>): (r: real)
    ensures r > 0.0
  {
    main.filled + TotalFilled(safety)
  }

  /** Money spent across the entry buy and the safety fills. */
  function PositionCost(main: Fill, safety: seq<Fill>): real {
    main.cost + TotalCost(safety)
  }

  /**
   * The average entry price after a safety fill (bot.py:211-215): total cost over total
   * quantity of the entry buy and every safety fill so far.
   */
  function BlendedAverage(main: Fill, safety: seq<Fill>): (r: real)
    ensures r * PositionQuantity(main, safety) == PositionCost(main, safety)
    ensures safety == [] ==> r == UnitPrice(main)
  {
    PositionCost(main, safety) / PositionQuantity(main, safety)
  }

  // ----- properties of the blended average -----

  /** Every fill in the list was bought at a unit price within [lo, hi]. */
  predicate PricesWithin(fills: seq<Fill>, lo: real, hi: real) {
    forall i :: 0 <= i < |fills| ==> lo <= UnitPrice(fills[i]) <= hi
  }

  lemma UnitPriceBounds(f: Fill, lo: real, hi: real)
    requires lo <= UnitPrice(f) <= hi
    ensures lo * f.filled <= f.cost <= hi * f.filled
  {
    assert UnitPrice(f) * f.filled == f.cost;
  }

  lemma {:induction false} TotalsWithin(fills: seq<Fill>, lo: real, hi: real)
    requires PricesWithin(fills, lo, hi)
    ensures lo * TotalFilled(fills) <= TotalCost(fills) <= hi * TotalFilled(fills)
  {
    if fills != [] {
      UnitPriceBounds(fills[0], lo, hi);
      assert PricesWithin(fills[1..], lo, hi) by {
        forall i | 0 <= i < |fills[1..]| ensures lo <= UnitPrice(fills[1..][i]) <= hi {
          assert fills[1..][i] == fills[i + 1];
        }
      }
      TotalsWithin(fills[1..], lo, hi);
      var q := TotalFilled(fills[1..]);
      assert TotalFilled(fills) == fills[0].filled + q;
      assert TotalCost(fills) == fills[0].cost + TotalCost(fills[1..]);
      Distributes(lo, fills[0].filled, q);
      Distributes(hi, fills[0].filled, q);
    }
  }

  lemma PositionTotalsWithin(main: Fill, safety: seq<Fill>, lo: real, hi: real)
    requires lo <= UnitPrice(main) <= hi
    requires PricesWithin(safety, lo, hi)
    ensures lo * PositionQuantity(main, safety) <= PositionCost(main, safety) <= hi * PositionQuantity(main, safety)
  {
    UnitPriceBounds(main, lo, hi);
    TotalsWithin(safety, lo, hi);
    Distributes(lo, main.filled, TotalFilled(safety));
    Distributes(hi, main.filled, TotalFilled(safety));
  }

  /**
   * The blended average lies between the cheapest and the dearest fill: if the entry buy
   * and every safety fill cost between lo and hi per unit, so does the average.
   */
  lemma BlendedWithinFillPrices(main: Fill, safety: seq<Fill>, lo: real, hi: real)
    requires lo <= UnitPrice(main) <= hi
    requires PricesWithin(safety, lo, hi)
    ensures lo <= BlendedAverage(main, safety) <= hi
  {
    PositionTotalsWithin(main, safety, lo, hi);
    QuotientWithin(PositionCost(main, safety), PositionQuantity(main, safety), lo, hi);
  }

  /**
   * A new safety fill lowers the blended average exactly when it was bought below the old
   * average, raises it exactly when bought above, and the new average lies between the old
   * average and the new fill's price.
   */
  lemma BlendedMovesTowardFill(main: Fill, safety: seq<Fill>, f: Fill)
    ensures var before := BlendedAverage(main, safety);
            var after := BlendedAverage(main, safety + [f]);
            (after < before <==> UnitPrice(f) < before) &&
            (after > before <==> UnitPrice(f) > before) &&
            (UnitPrice(f) <= before ==> UnitPrice(f) <= after <= before) &&
            (UnitPrice(f) >= before ==> before <= after <= UnitPrice(f))
  {
    TotalsAppend(safety, f);
    MediantBetween(PositionCost(main, safety), PositionQuantity(main, safety), f.cost, f.filled);
  }

  // ----- real arithmetic used above -----

  lemma Distributes(k: real, a: real, b: real)
    ensures k * (a + b) == k * a + k * b
  {
  }

  lemma QuotientWithin(c: real, q: real, lo: real, hi: real)
    requires q > 0.0 && lo * q <= c <= hi * q
    ensures lo <= c / q <= hi
  {
    var a := c / q;
    assert (a - lo) * q == c - lo * q;
    assert (hi - a) * q == hi * q - c;
    SignOfProduct(a - lo, q, c - lo * q, 1.0);
    SignOfProduct(hi - a, q, hi * q - c, 1.0);
  }

  /** The mediant (C + c) / (Q + q) moves from C / Q toward c / q and lies between them. */
  lemma MediantBetween(bigC: real, bigQ: real, c: real, q: real)
    requires bigQ > 0.0 && q > 0.0
    ensures var a, u, m := bigC / bigQ, c / q, (bigC + c) / (bigQ + q);
            (m < a <==> u < a) && (m > a <==> u > a) &&
            (u <= a ==> u <= m <= a) && (u >= a ==> a <= m <= u)
  {
    var a, u, m := bigC / bigQ, c / q, (bigC + c) / (bigQ + q);
    assert a * bigQ == bigC;
    assert u * q == c;
    assert m * (bigQ + q) == bigC + c;
    assert (m - a) * (bigQ + q) == (u - a) * q by {
      assert m * (bigQ + q) - a * (bigQ + q) == bigC + c - a * bigQ - a * q;
    }
    assert (m - u) * (bigQ + q) == (a - u) * bigQ by {
      assert m * (bigQ + q) - u * (bigQ + q) == bigC + c - u * bigQ - u * q;
    }
    SignOfProduct(m - a, bigQ + q, u - a, q);
    SignOfProduct(m - u, bigQ + q, a - u, bigQ);
  }

  /** Two equal products with positive second factors have first factors of the same sign. */
  lemma SignOfProduct(x: real, p: real, y: real, s: real)
    requires p > 0.0 && s > 0.0 && x * p == y * s
    ensures (x < 0.0 <==> y < 0.0) && (x > 0.0 <==> y > 0.0)
  {
    if x < 0.0 { assert x * p < 0.0; }
    if x > 0.0 { assert x * p > 0.0; }
    if y < 0.0 { assert y * s < 0.0; }
    if y > 0.0 { assert y * s > 0.0; }
  }
}
