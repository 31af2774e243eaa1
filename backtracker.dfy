/** The per-bar rule of the backtrader strategy BOLL_MACD_RSI_Strategy
    (backtracker.py:6-78). The indicator lines are computed by the framework;
    the model takes, for each bar, the values `next` reads at offsets 0 and
    -1, including the mean of the middle band over its last five values.
    Whether a position is open is the broker's state and is passed in. The
    strategy object keeps the price of its last buy and the orders it has
    issued. */
module BacktraderStrategy {
  import opened Options

  /** The strategy's parameters (backtracker.py:7-17). */
  datatype Params = Params(bollPeriod: nat, bollDev: real, macd1: nat, macd2: nat, macdSig: nat,
                           rsiPeriod: nat, rsiOverbuy: real, rsiOversell: real, stopLoss: real)

  const DefaultParams: Params := Params(20, 2.0, 12, 26, 9, 14, 70.0, 30.0, 0.03)

  /** The indicator values one call of `next` reads: the bar's own (`[0]`)
      and the previous bar's (`[-1]`). `midMean` is `np.mean(boll.mid[-5:])`. */
  datatype Bar = Bar(close: real, prevClose: real,
                     mid: real, midMean: real,
                     low: real, prevLow: real, high: real, prevHigh: real,
                     macd: real, prevMacd: real, signal: real, prevSignal: real,
                     rsi: real, prevRsi: real)

  /** Every order is for this many shares (backtracker.py:56, 78). */
  const OrderSize: nat := 100

  datatype Order = Buy(size: nat) | Sell(size: nat)

  // ---------------------------------------------------------------------
  // The conditions (backtracker.py:36-75)

  predicate TrendUp(v: Bar) { v.mid > v.midMean }

  predicate TrendDown(v: Bar) { v.mid < v.midMean }

  /** The close comes back from under the lower band to between the lower
      and the middle band. */
  predicate BollBuy(v: Bar)
  {
    v.prevClose < v.prevLow && v.close > v.low && v.close < v.mid
  }

  /** MACD crosses above its signal line, at most slightly below zero. */
  predicate MacdBuy(v: Bar)
  {
    v.macd > v.signal && v.prevMacd < v.prevSignal && v.macd > -0.02
  }

  /** RSI climbs out of the oversold zone to below 50. */
  predicate RsiBuy(v: Bar, p: Params)
  {
    v.prevRsi < p.rsiOversell && v.rsi > p.rsiOversell && v.rsi < 50.0
  }

  /** The close comes back from over the upper band to between the middle
      and the upper band. */
  predicate BollSell(v: Bar)
  {
    v.prevClose > v.prevHigh && v.close < v.high && v.close > v.mid
  }

  /** MACD crosses below its signal line, at most slightly above zero. */
  predicate MacdSell(v: Bar)
  {
    v.macd < v.signal && v.prevMacd > v.prevSignal && v.macd < 0.02
  }

  /** RSI falls out of the overbought zone to above 50. */
  predicate RsiSell(v: Bar, p: Params)
  {
    v.prevRsi > p.rsiOverbuy && v.rsi < p.rsiOverbuy && v.rsi > 50.0
  }

  /** The close is more than `stopLoss` below the recorded buy price. */
  predicate StopLoss(v: Bar, p: Params, buyPrice: real)
  {
    v.close < buyPrice * (1.0 - p.stopLoss)
  }

  predicate EntrySignal(v: Bar, p: Params)
  {
    BollBuy(v) && MacdBuy(v) && RsiBuy(v, p) && TrendUp(v)
  }

  predicate ExitSignal(v: Bar, p: Params, buyPrice: real)
  {
    (BollSell(v) && MacdSell(v) && RsiSell(v, p) && TrendDown(v)) || StopLoss(v, p, buyPrice)
  }

  // ---------------------------------------------------------------------
  // The decision of one bar

  /** The order one call of `next` issues, and the buy price afterwards. */
  datatype Decision = Decision(order: Option<Order>, buyPrice: real)

  /** `next` as a function of the bar, whether a position is open and the
      recorded buy price: flat, it buys 100 shares on the entry signal and
      records the close; holding, it sells 100 shares on the exit signal. */
  function Decide(v: Bar, p: Params, holding: bool, buyPrice: real): (d: Decision)
    ensures d.order.Some? && d.order.value.Buy? <==> !holding && EntrySignal(v, p)
    ensures d.order.Some? && d.order.value.Sell? <==> holding && ExitSignal(v, p, buyPrice)
    ensures d.order.Some? ==> d.order.value.size == OrderSize
    ensures d.buyPrice == (if d.order.Some? && d.order.value.Buy? then v.close else buyPrice)
  {
    if !holding then
      if EntrySignal(v, p) then Decision(Some(Buy(OrderSize)), v.close) else Decision(None, buyPrice)
    else
      if ExitSignal(v, p, buyPrice) then Decision(Some(Sell(OrderSize)), buyPrice) else Decision(None, buyPrice)
  }

  /** The trend cannot be up and down at once. */
  lemma TrendExclusive(v: Bar)
    ensures !(TrendUp(v) && TrendDown(v))
  {
  }

  /** While a position is open the stop-loss alone triggers a sell, whatever
      the other indicators say. */
  lemma StopLossOverrides(v: Bar, p: Params, buyPrice: real)
    requires StopLoss(v, p, buyPrice)
    ensures Decide(v, p, true, buyPrice).order == Some(Sell(OrderSize))
  {
  }

  /** Without the stop-loss, a sell needs all four sell conditions. */
  lemma SellNeedsAllSignals(v: Bar, p: Params, buyPrice: real)
    requires !StopLoss(v, p, buyPrice)
    requires Decide(v, p, true, buyPrice).order.Some?
    ensures BollSell(v) && MacdSell(v) && RsiSell(v, p) && TrendDown(v)
    ensures v.macd < v.signal && v.prevMacd > v.prevSignal && v.macd < 0.02
    ensures 50.0 < v.rsi < p.rsiOverbuy < v.prevRsi
  {
  }

  /** A buy needs a strict MACD cross, an RSI between the oversold level and
      50 coming from below that level, and an upward trend. */
  lemma BuyNeedsCrossAndRsiBand(v: Bar, p: Params, buyPrice: real)
    requires Decide(v, p, false, buyPrice).order.Some?
    ensures v.prevMacd < v.prevSignal && v.macd > v.signal && v.macd > -0.02
    ensures v.prevRsi < p.rsiOversell < v.rsi < 50.0
    ensures TrendUp(v) && !TrendDown(v)
  {
  }

  /** One order per bar at most, and never one that the position state rules
      out: flat, no sell; holding, no buy. */
  lemma OrderMatchesPosition(v: Bar, p: Params, holding: bool, buyPrice: real)
    ensures var d := Decide(v, p, holding, buyPrice);
      d.order.Some? ==> (d.order.value.Buy? <==> !holding)
  {
  }

  /** With a positive buy price and a stop-loss fraction in (0, 1), the stop
      level lies strictly between 0 and the buy price. */
  lemma StopLevelBelowEntry(p: Params, buyPrice: real)
    requires buyPrice > 0.0 && 0.0 < p.stopLoss < 1.0
    ensures 0.0 < buyPrice * (1.0 - p.stopLoss) < buyPrice
  {
    var f := 1.0 - p.stopLoss;
    assert buyPrice * f == buyPrice - buyPrice * p.stopLoss;
    PositiveProduct(buyPrice, p.stopLoss);
    PositiveProduct(buyPrice, f);
  }

  lemma PositiveProduct(x: real, y: real)
    requires x > 0.0 && y > 0.0
    ensures x * y > 0.0
  {
  }

  /** The buy price `buy_price` starts at 0: a position the strategy did not
      open itself is never stopped out on a non-negative close. */
  lemma NoStopBeforeFirstBuy(v: Bar, p: Params)
    requires v.close >= 0.0 && p.stopLoss <= 1.0
    ensures !StopLoss(v, p, 0.0)
  {
  }

  /** After a buy on one bar, a later bar that still holds the position and
      closes below the stop level of that buy's close is sold. */
  lemma EntryThenStop(v1: Bar, v2: Bar, p: Params, buyPrice: real)
    requires Decide(v1, p, false, buyPrice).order.Some?
    requires v2.close < v1.close * (1.0 - p.stopLoss)
    ensures Decide(v2, p, true, Decide(v1, p, false, buyPrice).buyPrice).order == Some(Sell(OrderSize))
  {
    StopLossOverrides(v2, p, v1.close);
  }

  /** Every bar of a run: the decisions of consecutive calls, each seeing the
      buy price the previous one left. */
  function Run(bars: seq<Bar>, p: Params, holding: seq<bool>, buyPrice: real): (r: (seq<Option<Order>>, real))
    requires |holding| == |bars|
    ensures |r.0| == |bars|
    decreases |bars|
  {
    if |bars| == 0 then ([], buyPrice)
    else
      var n := |bars| - 1;
      var before := Run(bars[..n], p, holding[..n], buyPrice);
      var d := Decide(bars[n], p, holding[n], before.1);
      (before.0 + [d.order], d.buyPrice)
  }

  predicate IsBuy(o: Option<Order>) { o.Some? && o.value.Buy? }

  /** No order after position `k` is a buy. */
  predicate NoBuyAfter(os: seq<Option<Order>>, k: int)
  {
    forall m :: 0 <= m < |os| && k < m ==> !IsBuy(os[m])
  }

  /** A run without a buy leaves the buy price as it was. */
  lemma {:induction false} RunWithoutBuy(bars: seq<Bar>, p: Params, holding: seq<bool>, buyPrice: real)
    requires |holding| == |bars|
    requires NoBuyAfter(Run(bars, p, holding, buyPrice).0, -1)
    ensures Run(bars, p, holding, buyPrice).1 == buyPrice
    decreases |bars|
  {
    if |bars| > 0 {
      var n := |bars| - 1;
      var r := Run(bars, p, holding, buyPrice);
      var before := Run(bars[..n], p, holding[..n], buyPrice);
      forall m | 0 <= m < n ensures !IsBuy(before.0[m]) {
        assert before.0[m] == r.0[m];
      }
      RunWithoutBuy(bars[..n], p, holding[..n], buyPrice);
      assert r.0[n] == Decide(bars[n], p, holding[n], before.1).order;
    }
  }

  /** After a run the buy price is the close of the last bar that bought. */
  lemma {:induction false} RunBuyPrice(bars: seq<Bar>, p: Params, holding: seq<bool>, buyPrice: real, k: nat)
    requires |holding| == |bars| && k < |bars|
    requires IsBuy(Run(bars, p, holding, buyPrice).0[k]) && NoBuyAfter(Run(bars, p, holding, buyPrice).0, k)
    ensures Run(bars, p, holding, buyPrice).1 == bars[k].close
    decreases |bars|
  {
    var n := |bars| - 1;
    var r := Run(bars, p, holding, buyPrice);
    var before := Run(bars[..n], p, holding[..n], buyPrice);
    var d := Decide(bars[n], p, holding[n], before.1);
    assert r.0 == before.0 + [d.order];
    if k < n {
      assert !IsBuy(r.0[n]);
      assert before.0[k] == r.0[k];
      forall m | 0 <= m < n && k < m ensures !IsBuy(before.0[m]) {
        assert before.0[m] == r.0[m];
      }
      RunBuyPrice(bars[..n], p, holding[..n], buyPrice, k);
    }
  }

  // ---------------------------------------------------------------------
  // The strategy object

  class Strategy {
    const params: Params
    /** `self.buy_price`: the close of the last buy, 0 before any. */
    var buyPrice: real
    /** The orders `self.buy` and `self.sell` have issued, in order. */
    var orders: seq<Order>

    /** Every issued order is for OrderSize shares. */
    predicate Valid()
      reads this
    {
      forall k :: 0 <= k < |orders| ==> orders[k].size == OrderSize
    }

    /** `__init__` (backtracker.py:19-32), the indicator set-up aside. */
    constructor(p: Params)
      ensures params == p && buyPrice == 0.0 && orders == []
      ensures Valid()
    {
      params := p;
      buyPrice := 0.0;
      orders := [];
    }

    /** `next` (backtracker.py:34-78). `positionSize` is the size of the open
        position; as for backtrader's position, any non-zero size counts as
        holding. */
    method Next(v: Bar, positionSize: int)
      requires Valid()
      modifies this
      ensures Valid()
      ensures var d := Decide(v, params, positionSize != 0, old(buyPrice));
        buyPrice == d.buyPrice && orders == old(orders) + (if d.order.Some? then [d.order.value] else [])
    {
      var trendUp := v.mid > v.midMean;
      var trendDown := v.mid < v.midMean;
      if positionSize == 0 {
        var bollBuy := v.prevClose < v.prevLow && v.close > v.low && v.close < v.mid;
        var macdBuy := v.macd > v.signal && v.prevMacd < v.prevSignal && v.macd > -0.02;
        var rsiBuy := v.prevRsi < params.rsiOversell && v.rsi > params.rsiOversell && v.rsi < 50.0;
        if bollBuy && macdBuy && rsiBuy && trendUp {
          orders := orders + [Buy(OrderSize)];
          buyPrice := v.close;
        }
      } else {
        var bollSell := v.prevClose > v.prevHigh && v.close < v.high && v.close > v.mid;
        var macdSell := v.macd < v.signal && v.prevMacd > v.prevSignal && v.macd < 0.02;
        var rsiSell := v.prevRsi > params.rsiOverbuy && v.rsi < params.rsiOverbuy && v.rsi > 50.0;
        var stopLoss := v.close < buyPrice * (1.0 - params.stopLoss);
        if (bollSell && macdSell && rsiSell && trendDown) || stopLoss {
          orders := orders + [Sell(OrderSize)];
        }
      }
    }
  }
}
