/** The projected profit of the take-profit plan: what closing each target's share
    of the order amount at the target's price would earn, in the quote currency,
    signed by the order side. */
module Projection {
  import opened Model
  import opened Conversion

  /** +1 for a buy order, -1 for a sell order; the side enters nowhere else. */
  function Sign(side: OrderSide): (s: real)
    ensures s == 1.0 || s == -1.0
    ensures s == 1.0 <==> side == Buy
  {
    if side == Buy then 1.0 else -1.0
  }

  /** The contribution of one target: its price distance from the order price times
      its share (`amount` percent) of the order amount, signed by the side. */
  function Contribution(side: OrderSide, orderPrice: real, orderAmount: real, t: Target): real {
    (t.price - orderPrice) * (orderAmount * t.amount * 0.01) * Sign(side)
  }

  /** `totalProfit`: the contributions folded from the first target to the last,
      starting from 0. */
  function TotalProfit(side: OrderSide, orderPrice: real, orderAmount: real, ts: seq<Target>): real
    decreases |ts|
  {
    if |ts| == 0 then 0.0
    else Contribution(side, orderPrice, orderAmount, ts[|ts| - 1]) + TotalProfit(side, orderPrice, orderAmount, ts[..|ts| - 1])
  }

  /** With no targets there is no projected profit. */
  lemma NoTargetsNoProfit(side: OrderSide, orderPrice: real, orderAmount: real)
    ensures TotalProfit(side, orderPrice, orderAmount, []) == 0.0
  {
  }

  /** For the same targets, price and amount, the sell projection is exactly the
      negated buy projection. */
  lemma {:induction false} SellIsNegatedBuy(orderPrice: real, orderAmount: real, ts: seq<Target>)
    ensures TotalProfit(Sell, orderPrice, orderAmount, ts) == -TotalProfit(Buy, orderPrice, orderAmount, ts)
    decreases |ts|
  {
    if |ts| > 0 {
      SellIsNegatedBuy(orderPrice, orderAmount, ts[..|ts| - 1]);
    }
  }

  /** The sum over the targets of profit percent times amount percent. */
  function WeightedProfit(ts: seq<Target>): real
    decreases |ts|
  {
    if |ts| == 0 then 0.0 else ts[|ts| - 1].profit * ts[|ts| - 1].amount + WeightedProfit(ts[..|ts| - 1])
  }

  /** A reconciled target contributes its profit percent of the order price on its
      amount percent of the order amount. */
  lemma ReconciledContribution(side: OrderSide, orderPrice: real, orderAmount: real, t: Target)
    requires Reconciled(orderPrice, t)
    ensures Contribution(side, orderPrice, orderAmount, t)
         == Sign(side) * orderPrice * orderAmount * (t.profit * t.amount) / 10000.0
  {
  }

  /** When every target is reconciled with the order price, the projection only
      depends on the profit and amount percentages: it is the signed order total
      times the weighted profit, over 100 * 100. */
  lemma {:induction false} ReconciledProjection(side: OrderSide, orderPrice: real, orderAmount: real, ts: seq<Target>)
    requires AllReconciled(orderPrice, ts)
    ensures TotalProfit(side, orderPrice, orderAmount, ts)
         == Sign(side) * orderPrice * orderAmount * WeightedProfit(ts) / 10000.0
    decreases |ts|
  {
    if |ts| > 0 {
      var init, last := ts[..|ts| - 1], ts[|ts| - 1];
      assert AllReconciled(orderPrice, init) by {
        forall i | 0 <= i < |init| ensures Reconciled(orderPrice, init[i]) {
          assert init[i] == ts[i];
        }
      }
      ReconciledProjection(side, orderPrice, orderAmount, init);
      assert Reconciled(orderPrice, last);
      ReconciledContribution(side, orderPrice, orderAmount, last);
      var c := Sign(side) * orderPrice * orderAmount;
      assert c * (last.profit * last.amount) / 10000.0 + c * WeightedProfit(init) / 10000.0
          == c * (last.profit * last.amount + WeightedProfit(init)) / 10000.0;
    }
  }

  /** A worked instance: at price 100 and amount 10, one target at 110 closing 50 %
      of the amount projects +50 for a buy and -50 for a sell. */
  lemma OneTargetExample()
    ensures var ts := [Target("a", 10.0, 110.0, 50.0, None)];
            TotalProfit(Buy, 100.0, 10.0, ts) == 50.0 && TotalProfit(Sell, 100.0, 10.0, ts) == -50.0
  {
  }
}
