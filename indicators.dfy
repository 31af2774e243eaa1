/** The indicator columns `run_backtest_strategy` adds to the price table
    before it simulates (strategy_backtester.py:76-92): Bollinger bands and
    the 5-bar mean of their middle line, MACD with its signal line and
    histogram, and RSI from rolling means of gains and losses. Every value is
    exact over the reals; a value pandas would hold as NaN is None. */
module Indicators {
  import opened Options
  import opened Series
  import StockApi

  /** The parameters of a backtest run. */
  datatype Config = Config(initialCapital: real, bbPeriod: nat, bbStdDev: real,
                           macdFast: nat, macdSlow: nat, macdSignal: nat,
                           rsiPeriod: nat, rsiOversold: real, rsiOverbought: real)

  /** Every window and span is at least one bar. */
  predicate ValidPeriods(cfg: Config)
  {
    cfg.bbPeriod >= 1 && cfg.macdFast >= 1 && cfg.macdSlow >= 1 && cfg.macdSignal >= 1 && cfg.rsiPeriod >= 1
  }

  /** One row of the indicator table. */
  datatype Row = Row(close: real, middle: Option<real>, std: Option<real>, upper: Option<real>, lower: Option<real>,
                     middleSma5: Option<real>, macd: real, signal: real, histogram: real, rsi: Option<real>)

  /** The window of the mean the middle band's trend is judged against. */
  const TrendWindow: nat := 5

  /** `delta.where(delta > 0, 0)`: the rise from the previous close, or 0.
      The first row's delta is NaN, which compares false and so becomes 0. */
  function Gain(closes: seq<real>, i: nat): (g: real)
    requires i < |closes|
    ensures g >= 0.0
  {
    if i == 0 then 0.0
    else var d := closes[i] - closes[i - 1]; if d > 0.0 then d else 0.0
  }

  /** `-delta.where(delta < 0, 0)`: the fall from the previous close, or 0. */
  function Loss(closes: seq<real>, i: nat): (l: real)
    requires i < |closes|
    ensures l >= 0.0
  {
    if i == 0 then 0.0
    else var d := closes[i] - closes[i - 1]; if d < 0.0 then -d else 0.0
  }

  /** A bar's move is split into its gain and its loss: at most one of them
      is non-zero, and their difference is the move. */
  lemma GainLossSplit(closes: seq<real>, i: nat)
    requires 0 < i < |closes|
    ensures Gain(closes, i) - Loss(closes, i) == closes[i] - closes[i - 1]
    ensures Gain(closes, i) == 0.0 || Loss(closes, i) == 0.0
  {
  }

  function Gains(closes: seq<real>): (r: seq<Option<real>>)
    ensures |r| == |closes|
    ensures forall i :: 0 <= i < |closes| ==> r[i] == Some(Gain(closes, i))
  {
    seq(|closes|, i requires 0 <= i < |closes| => Some(Gain(closes, i)))
  }

  function Losses(closes: seq<real>): (r: seq<Option<real>>)
    ensures |r| == |closes|
    ensures forall i :: 0 <= i < |closes| ==> r[i] == Some(Loss(closes, i))
  {
    seq(|closes|, i requires 0 <= i < |closes| => Some(Loss(closes, i)))
  }

  /** `100 - 100 / (1 + gain / loss)` as the doubles come out: with no loss
      and some gain, gain / loss is infinite and the RSI is 100; with neither,
      0 / 0 is NaN and so is the RSI. */
  function RsiValue(gain: real, loss: real): (r: Option<real>)
    requires gain >= 0.0 && loss >= 0.0
    ensures r.Some? <==> gain > 0.0 || loss > 0.0
    ensures r.Some? ==> 0.0 <= r.value <= 100.0
    ensures r.Some? ==> r.value * (gain + loss) == 100.0 * gain
  {
    if loss > 0.0 then
      var rsi := 100.0 - 100.0 / (1.0 + gain / loss);
      RsiIdentity(gain, loss);
      Some(rsi)
    else if gain > 0.0 then Some(100.0)
    else None
  }

  lemma RsiIdentity(gain: real, loss: real)
    requires gain >= 0.0 && loss > 0.0
    ensures var rsi := 100.0 - 100.0 / (1.0 + gain / loss);
      0.0 <= rsi <= 100.0 && rsi * (gain + loss) == 100.0 * gain
  {
    var q := gain / loss;
    assert q * loss == gain;
    MulNonneg(gain, 1.0 / loss);
    var d := 1.0 + q;
    var f := 100.0 / d;
    assert f * d == 100.0;
    assert 0.0 < f <= 100.0 by {
      if f > 100.0 {
        MulStrict(100.0, f, d);
        MulNonneg(100.0, q);
        assert false;
      }
    }
    var rsi := 100.0 - f;
    calc {
      rsi * (gain + loss);
      rsi * (q * loss + loss);
      { assert q * loss + loss == d * loss; }
      rsi * (d * loss);
      (100.0 * d - f * d) * loss;
      (100.0 * d - 100.0) * loss;
      100.0 * q * loss;
      100.0 * gain;
    }
  }

  /** The RSI column: rolling means of gains and losses over `period` bars. */
  function Rsi(closes: seq<real>, period: nat): (r: seq<Option<real>>)
    requires period >= 1
    ensures |r| == |closes|
    ensures forall i :: 0 <= i < |closes| && r[i].Some? ==> 0.0 <= r[i].value <= 100.0
    ensures forall i :: 0 <= i < |closes| && r[i].Some? ==> period <= i + 1
  {
    var gains, losses := Gains(closes), Losses(closes);
    seq(|closes|, i requires 0 <= i < |closes| => RsiAt(gains, losses, period, i))
  }

  function RsiAt(gains: seq<Option<real>>, losses: seq<Option<real>>, period: nat, i: nat): (r: Option<real>)
    requires period >= 1 && i < |gains| == |losses|
    requires forall j :: 0 <= j < |gains| ==> gains[j].Some? && gains[j].value >= 0.0
    requires forall j :: 0 <= j < |losses| ==> losses[j].Some? && losses[j].value >= 0.0
    ensures r.Some? ==> 0.0 <= r.value <= 100.0 && period <= i + 1
  {
    var g, l := RollingMean(gains, period, i), RollingMean(losses, period, i);
    if g.Some? && l.Some? then
      RollingMeanAtLeast(gains, period, i, 0.0);
      RollingMeanAtLeast(losses, period, i, 0.0);
      RsiValue(g.value, l.value)
    else None
  }

  /** The pointwise difference of two columns of equal length. */
  function Minus(xs: seq<real>, ys: seq<real>): (r: seq<real>)
    requires |xs| == |ys|
    ensures |r| == |xs|
    ensures forall i :: 0 <= i < |xs| ==> r[i] == xs[i] - ys[i]
  {
    seq(|xs|, i requires 0 <= i < |xs| => xs[i] - ys[i])
  }

  /** The middle-band column of a band table. */
  function Middles(bands: seq<StockApi.Band>): (r: seq<Option<real>>)
    ensures |r| == |bands|
    ensures forall i :: 0 <= i < |bands| ==> r[i] == bands[i].middle
  {
    seq(|bands|, i requires 0 <= i < |bands| => bands[i].middle)
  }

  /** `EMA_fast - EMA_slow` of the close. */
  function MacdLine(closes: seq<real>, cfg: Config): (r: seq<real>)
    requires ValidPeriods(cfg)
    ensures |r| == |closes|
  {
    Minus(Ewm(closes, cfg.macdFast), Ewm(closes, cfg.macdSlow))
  }

  /** The EMA of the MACD line over `macdSignal` bars. */
  function SignalLine(closes: seq<real>, cfg: Config): (r: seq<real>)
    requires ValidPeriods(cfg)
    ensures |r| == |closes|
  {
    Ewm(MacdLine(closes, cfg), cfg.macdSignal)
  }

  /** The rows of the table, one per bar, from its columns. */
  function Assemble(closes: seq<real>, bands: seq<StockApi.Band>, trend: seq<Option<real>>,
                    macd: seq<real>, signal: seq<real>, rsi: seq<Option<real>>): (t: seq<Row>)
    requires |bands| == |trend| == |macd| == |signal| == |rsi| == |closes|
    ensures |t| == |closes|
    ensures forall i :: 0 <= i < |closes| ==>
      t[i] == Row(closes[i], bands[i].middle, bands[i].std, bands[i].upper, bands[i].lower, trend[i],
                  macd[i], signal[i], macd[i] - signal[i], rsi[i])
  {
    seq(|closes|, i requires 0 <= i < |closes| =>
      Row(closes[i], bands[i].middle, bands[i].std, bands[i].upper, bands[i].lower, trend[i],
          macd[i], signal[i], macd[i] - signal[i], rsi[i]))
  }

  /** The indicator table of strategy_backtester.py:76-92. The rolling
      standard deviation of the close is given; the bands come from
      calculate_bollinger_bands. */
  function IndicatorTable(closes: seq<real>, stds: seq<Option<real>>, cfg: Config): (t: seq<Row>)
    requires ValidPeriods(cfg) && |stds| == |closes|
    ensures |t| == |closes|
    ensures forall i :: 0 <= i < |t| ==> t[i].close == closes[i] && t[i].std == stds[i]
    ensures forall i :: 0 <= i < |t| ==> t[i].histogram == t[i].macd - t[i].signal
  {
    var bands := StockApi.BollingerBands(closes, stds, cfg.bbPeriod, cfg.bbStdDev);
    Assemble(closes, bands, Rolling(Middles(bands), TrendWindow), MacdLine(closes, cfg), SignalLine(closes, cfg),
             Rsi(closes, cfg.rsiPeriod))
  }

  /** Row `i` of the table, column by column. */
  lemma TableRow(closes: seq<real>, stds: seq<Option<real>>, cfg: Config, i: nat)
    requires ValidPeriods(cfg) && |stds| == |closes| && i < |closes|
    ensures var bands := StockApi.BollingerBands(closes, stds, cfg.bbPeriod, cfg.bbStdDev);
      var row := IndicatorTable(closes, stds, cfg)[i];
      && row.middle == bands[i].middle && row.upper == bands[i].upper && row.lower == bands[i].lower
      && row.middleSma5 == RollingMean(Middles(bands), TrendWindow, i)
      && row.macd == MacdLine(closes, cfg)[i] && row.signal == SignalLine(closes, cfg)[i]
      && row.rsi == Rsi(closes, cfg.rsiPeriod)[i]
  {
  }

  /** The band columns of row `i`: the middle band exists from the
      `bbPeriod`-th bar, the outer bands where the deviation also does, and
      they lie `bbStdDev` deviations either side of the middle. */
  lemma TableBands(closes: seq<real>, stds: seq<Option<real>>, cfg: Config, i: nat)
    requires ValidPeriods(cfg) && |stds| == |closes| && i < |closes|
    ensures var row := IndicatorTable(closes, stds, cfg)[i];
      && (row.middle.Some? <==> cfg.bbPeriod <= i + 1)
      && (row.upper.Some? <==> row.middle.Some? && stds[i].Some?)
      && (row.lower.Some? <==> row.upper.Some?)
      && (row.upper.Some? ==> row.upper.value - row.middle.value == cfg.bbStdDev * stds[i].value)
      && (row.lower.Some? ==> row.middle.value - row.lower.value == cfg.bbStdDev * stds[i].value)
  {
    var bands := StockApi.BollingerBands(closes, stds, cfg.bbPeriod, cfg.bbStdDev);
    var b := bands[i];
    assert b.middle.Some? <==> cfg.bbPeriod <= i + 1;
    assert (b.upper.Some? <==> b.middle.Some? && stds[i].Some?) && (b.lower.Some? <==> b.upper.Some?);
    assert b.upper.Some? ==> b.upper.value - b.middle.value == cfg.bbStdDev * stds[i].value == b.middle.value - b.lower.value;
    TableRow(closes, stds, cfg, i);
  }

  /** The trend column of row `i` exists only when the middle band exists on
      the last five bars. */
  lemma TableTrend(closes: seq<real>, stds: seq<Option<real>>, cfg: Config, i: nat)
    requires ValidPeriods(cfg) && |stds| == |closes| && i < |closes|
    ensures var t := IndicatorTable(closes, stds, cfg);
      t[i].middleSma5.Some? <==> TrendWindow <= i + 1 && forall j :: i + 1 - TrendWindow <= j <= i ==> t[j].middle.Some?
  {
    var t := IndicatorTable(closes, stds, cfg);
    var bands := StockApi.BollingerBands(closes, stds, cfg.bbPeriod, cfg.bbStdDev);
    TableRow(closes, stds, cfg, i);
    forall j | 0 <= j < |closes| ensures t[j].middle == Middles(bands)[j] {
      TableRow(closes, stds, cfg, j);
    }
  }

  /** The RSI column of row `i` exists only from the `rsiPeriod`-th bar and
      lies between 0 and 100. */
  lemma TableRsi(closes: seq<real>, stds: seq<Option<real>>, cfg: Config, i: nat)
    requires ValidPeriods(cfg) && |stds| == |closes| && i < |closes|
    ensures var row := IndicatorTable(closes, stds, cfg)[i];
      row.rsi.Some? ==> 0.0 <= row.rsi.value <= 100.0 && cfg.rsiPeriod <= i + 1
  {
    TableRow(closes, stds, cfg, i);
  }

  /** The MACD line starts at zero, since both averages are seeded with the
      first close. */
  lemma MacdStartsAtZero(closes: seq<real>, stds: seq<Option<real>>, cfg: Config)
    requires ValidPeriods(cfg) && |stds| == |closes| && |closes| > 0
    ensures IndicatorTable(closes, stds, cfg)[0].macd == 0.0
    ensures IndicatorTable(closes, stds, cfg)[0].histogram == 0.0
  {
    EwmRecurrence(closes, cfg.macdFast, 0);
    EwmRecurrence(closes, cfg.macdSlow, 0);
    var m := MacdLine(closes, cfg);
    assert m[0] == closes[0] - closes[0];
    EwmRecurrence(m, cfg.macdSignal, 0);
    assert SignalLine(closes, cfg)[0] == 0.0;
    TableRow(closes, stds, cfg, 0);
  }

  /** For a flat price every average equals the price, so MACD, signal and
      histogram are all zero. */
  lemma FlatPriceMacd(closes: seq<real>, stds: seq<Option<real>>, cfg: Config, p: real, i: nat)
    requires ValidPeriods(cfg) && |stds| == |closes| && i < |closes|
    requires forall j :: 0 <= j < |closes| ==> closes[j] == p
    ensures IndicatorTable(closes, stds, cfg)[i].macd == 0.0
    ensures IndicatorTable(closes, stds, cfg)[i].signal == 0.0
    ensures IndicatorTable(closes, stds, cfg)[i].histogram == 0.0
  {
    TableRow(closes, stds, cfg, i);
    FlatMacdLine(closes, cfg, p);
    EwmWithin(MacdLine(closes, cfg), cfg.macdSignal, 0.0, 0.0);
  }

  /** For a flat price the fast and slow averages agree, so the MACD line
      is zero. */
  lemma FlatMacdLine(closes: seq<real>, cfg: Config, p: real)
    requires ValidPeriods(cfg)
    requires forall j :: 0 <= j < |closes| ==> closes[j] == p
    ensures forall j :: 0 <= j < |closes| ==> MacdLine(closes, cfg)[j] == 0.0
  {
    EwmWithin(closes, cfg.macdFast, p, p);
    EwmWithin(closes, cfg.macdSlow, p, p);
  }

  /** For a flat price there is neither gain nor loss, so the RSI is NaN
      throughout: the zero-division case is not given a value. */
  lemma FlatPriceRsiMissing(closes: seq<real>, period: nat, p: real, i: nat)
    requires period >= 1 && i < |closes|
    requires forall j :: 0 <= j < |closes| ==> closes[j] == p
    ensures Rsi(closes, period)[i].None?
  {
    var gains, losses := Gains(closes), Losses(closes);
    if RollingMean(gains, period, i).Some? {
      RollingMeanWithin(gains, period, i, 0.0, 0.0);
      RollingMeanWithin(losses, period, i, 0.0, 0.0);
    }
  }
}
