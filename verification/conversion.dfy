/** The arithmetic of the order: the order total, the back-solved amount, and the
    conversions between a target's profit percentage and its absolute price. All
    arithmetic is exact over `real`; the store's `0.01` is exactly 1/100. */
module Conversion {
  import opened Model

  /** `total`: the order price times the order amount. */
  function Total(price: real, amount: real): real {
    price * amount
  }

  /** `setTotal`: the amount that makes the total come out as `total`, or 0 when
      there is no positive price to divide by. */
  function AmountForTotal(price: real, total: real): (amount: real)
    ensures price > 0.0 ==> Total(price, amount) == total
    ensures price <= 0.0 ==> amount == 0.0
  {
    if price > 0.0 then total / price else 0.0
  }

  /** `newPrice`: the absolute price that lies `profit` percent away from the order price. */
  function NewPrice(orderPrice: real, profit: real): real {
    orderPrice + orderPrice * profit * 0.01
  }

  /** `newProfit`: the percentage by which `price` lies away from the order price,
      or 0 when the order price is 0. It inverts `NewPrice` whenever it can. */
  function NewProfit(orderPrice: real, price: real): (profit: real)
    ensures orderPrice == 0.0 ==> profit == 0.0
    ensures orderPrice != 0.0 ==> NewPrice(orderPrice, profit) == price
  {
    if orderPrice != 0.0 then ((price - orderPrice) / orderPrice) * 100.0 else 0.0
  }

  /** A target whose price is the one its profit percentage yields at `orderPrice`. */
  predicate Reconciled(orderPrice: real, t: Target) {
    t.price == NewPrice(orderPrice, t.profit)
  }

  /** Every target of a list is reconciled with the order price. */
  predicate AllReconciled(orderPrice: real, ts: seq<Target>) {
    forall i | 0 <= i < |ts| :: Reconciled(orderPrice, ts[i])
  }

  /** Converting a profit to a price and back gives the profit again. */
  lemma ProfitPriceRoundTrip(orderPrice: real, profit: real)
    requires orderPrice != 0.0
    ensures NewProfit(orderPrice, NewPrice(orderPrice, profit)) == profit
  {
  }

  /** Converting a price to a profit and back gives the price again. */
  lemma PriceProfitRoundTrip(orderPrice: real, price: real)
    requires orderPrice != 0.0
    ensures NewPrice(orderPrice, NewProfit(orderPrice, price)) == price
  {
  }

  /** At a positive order price, a target lies above the order price exactly when
      its profit percentage is positive, and at it exactly when the profit is 0. */
  lemma PriceAboveOrderIffProfitPositive(orderPrice: real, profit: real)
    requires orderPrice > 0.0
    ensures NewPrice(orderPrice, profit) > orderPrice <==> profit > 0.0
    ensures NewPrice(orderPrice, profit) == orderPrice <==> profit == 0.0
  {
  }

  /** Conversions at price 0 collapse: every profit maps to price 0, every price to profit 0. */
  lemma ZeroOrderPrice(profit: real, price: real)
    ensures NewPrice(0.0, profit) == 0.0
    ensures NewProfit(0.0, price) == 0.0
  {
  }
}
