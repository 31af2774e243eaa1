/** The Bollinger/MACD/RSI backtest of strategy_backtester.py:47-206: the
    price rows of one symbol and date range are selected and put in date
    order, the indicator table is built, an all-in position is opened on the
    first bar, and from the first bar on which every indicator exists the
    strategy buys with all its cash when the three buy signals agree and sells
    everything when the three sell signals agree. The portfolio is valued at
    every close, and the SPY and QQQ benchmarks are rebased to the starting
    capital on the dates they share with the strategy. */
module Backtester {
  import opened Options
  import opened Series
  import opened Indicators

  /** One row of the price file: the symbol, the trading day (as a day
      number; every date in this module is one) and the close. */
  datatype PriceRow = PriceRow(symbol: string, date: int, close: real)

  datatype BacktestError =
    | NoPriceData            // no row of the symbol in the date range
    | NoCompleteIndicatorRow // no bar on which every indicator exists
    | RepeatedDate           // a date looked up by label occurs more than once

  // ---------------------------------------------------------------------
  // Selecting the rows of one symbol and putting them in date order

  predicate Selected(x: PriceRow, symbol: string, startDate: int, endDate: int)
  {
    x.symbol == symbol && startDate <= x.date <= endDate
  }

  /** The rows of `symbol` dated within [startDate, endDate], in file order. */
  function SelectRows(rows: seq<PriceRow>, symbol: string, startDate: int, endDate: int): (r: seq<PriceRow>)
    ensures |r| <= |rows|
    ensures forall x :: x in r <==> x in rows && Selected(x, symbol, startDate, endDate)
  {
    if |rows| == 0 then []
    else
      var init := rows[..|rows| - 1];
      assert rows == init + [rows[|rows| - 1]];
      var rest := SelectRows(init, symbol, startDate, endDate);
      if Selected(rows[|rows| - 1], symbol, startDate, endDate) then rest + [rows[|rows| - 1]] else rest
  }

  predicate DateOrdered(rows: seq<PriceRow>)
  {
    forall i, j :: 0 <= i < j < |rows| ==> rows[i].date <= rows[j].date
  }

  /** Puts `x` into the date-ordered `rows`, ahead of the rows of its own day. */
  function InsertByDate(x: PriceRow, rows: seq<PriceRow>): (r: seq<PriceRow>)
    requires DateOrdered(rows)
    ensures |r| == |rows| + 1
    ensures multiset(r) == multiset(rows) + multiset{x}
    ensures DateOrdered(r)
  {
    if |rows| == 0 || x.date <= rows[0].date then
      ConsOrdered(x, rows);
      [x] + rows
    else
      var rest := InsertByDate(x, rows[1..]);
      assert rows == [rows[0]] + rows[1..];
      NoEarlierAfterInsert(rows[0], x, rows[1..], rest);
      ConsOrdered(rows[0], rest);
      [rows[0]] + rest
  }

  /** A row dated no later than every row of an ordered sequence can go
      in front of it. */
  lemma ConsOrdered(y: PriceRow, rows: seq<PriceRow>)
    requires DateOrdered(rows)
    requires forall k :: 0 <= k < |rows| ==> y.date <= rows[k].date
    ensures DateOrdered([y] + rows)
  {
  }

  /** Inserting a later row into rows that are no earlier than `y` keeps
      them no earlier than `y`. */
  lemma NoEarlierAfterInsert(y: PriceRow, x: PriceRow, tail: seq<PriceRow>, rest: seq<PriceRow>)
    requires y.date < x.date
    requires DateOrdered([y] + tail)
    requires multiset(rest) == multiset(tail) + multiset{x}
    ensures forall k :: 0 <= k < |rest| ==> y.date <= rest[k].date
  {
    forall k | 0 <= k < |rest| ensures y.date <= rest[k].date {
      assert rest[k] in multiset(rest);
      if rest[k] != x {
        assert rest[k] in tail;
        var m :| 0 <= m < |tail| && tail[m] == rest[k];
        assert ([y] + tail)[0] == y && ([y] + tail)[m + 1] == rest[k];
      }
    }
  }

  /** `sort_index`: the rows in date order; rows of the same day keep their
      order. */
  function SortByDate(rows: seq<PriceRow>): (r: seq<PriceRow>)
    ensures |r| == |rows|
    ensures multiset(r) == multiset(rows)
    ensures DateOrdered(r)
  {
    if |rows| == 0 then []
    else
      assert rows == [rows[0]] + rows[1..];
      InsertByDate(rows[0], SortByDate(rows[1..]))
  }

  /** Rows already in date order are left as they are. */
  lemma {:induction false} SortOrderedIsIdentity(rows: seq<PriceRow>)
    requires DateOrdered(rows)
    ensures SortByDate(rows) == rows
  {
    if |rows| > 0 {
      SortOrderedIsIdentity(rows[1..]);
    }
  }

  /** Lines 47-74: the selected rows in date order, or NoPriceData when there
      are none. */
  function PriceHistory(rows: seq<PriceRow>, symbol: string, startDate: int, endDate: int): (r: Result<seq<PriceRow>, BacktestError>)
    ensures r.Failure? <==> forall x :: x in rows ==> !Selected(x, symbol, startDate, endDate)
    ensures r.Failure? ==> r.error == NoPriceData
    ensures r.Success? ==> DateOrdered(r.value) && |r.value| > 0
    ensures r.Success? ==> |r.value| == |SelectRows(rows, symbol, startDate, endDate)|
  {
    var selected := SelectRows(rows, symbol, startDate, endDate);
    if |selected| == 0 then Failure(NoPriceData)
    else
      var sorted := SortByDate(selected);
      assert selected[0] in rows;
      Success(sorted)
  }

  /** A history holds exactly the selected rows of the table. */
  lemma PriceHistoryRows(rows: seq<PriceRow>, symbol: string, startDate: int, endDate: int)
    ensures var r := PriceHistory(rows, symbol, startDate, endDate);
      r.Success? ==> forall x :: x in r.value <==> x in rows && Selected(x, symbol, startDate, endDate)
  {
    var selected := SelectRows(rows, symbol, startDate, endDate);
    if |selected| > 0 {
      var sorted := SortByDate(selected);
      assert forall x :: x in sorted <==> x in multiset(selected);
    }
  }

  function Dates(rows: seq<PriceRow>): (r: seq<int>)
    ensures |r| == |rows| && forall i :: 0 <= i < |rows| ==> r[i] == rows[i].date
  {
    seq(|rows|, i requires 0 <= i < |rows| => rows[i].date)
  }

  function Closes(rows: seq<PriceRow>): (r: seq<real>)
    ensures |r| == |rows| && forall i :: 0 <= i < |rows| ==> r[i] == rows[i].close
  {
    seq(|rows|, i requires 0 <= i < |rows| => rows[i].close)
  }

  // ---------------------------------------------------------------------
  // The signals (lines 123-174)

  /** The row-`i` test of line 124: every indicator the rules read exists. */
  predicate Complete(row: Row)
  {
    row.rsi.Some? && row.upper.Some? && row.lower.Some? && row.middle.Some? && row.middleSma5.Some?
  }

  /** The first complete row (the `dropna().index.min()` of line 113). */
  function FirstComplete(table: seq<Row>): (r: Option<nat>)
    ensures r.None? <==> forall j :: 0 <= j < |table| ==> !Complete(table[j])
    ensures r.Some? ==> r.value < |table| && Complete(table[r.value])
    ensures r.Some? ==> forall j :: 0 <= j < r.value ==> !Complete(table[j])
  {
    FirstCompleteFrom(table, 0)
  }

  function FirstCompleteFrom(table: seq<Row>, k: nat): (r: Option<nat>)
    requires k <= |table|
    ensures r.None? <==> forall j :: k <= j < |table| ==> !Complete(table[j])
    ensures r.Some? ==> k <= r.value < |table| && Complete(table[r.value])
    ensures r.Some? ==> forall j :: k <= j < r.value ==> !Complete(table[j])
    decreases |table| - k
  {
    if k == |table| then None
    else if Complete(table[k]) then Some(k)
    else FirstCompleteFrom(table, k + 1)
  }

  /** Close crosses back up through the lower band, stays under the middle
      band, and the middle band is above its own 5-bar mean of the bar before.
      A missing earlier value compares false, as NaN does. */
  predicate BollingerBuy(prev: Row, cur: Row)
    requires Complete(cur)
  {
    && prev.close < cur.lower.value
    && cur.close >= cur.lower.value
    && cur.close < cur.middle.value
    && prev.middleSma5.Some? && cur.middle.value > prev.middleSma5.value
  }

  /** MACD crosses above its signal line, and the histogram turns positive. */
  predicate MacdBuy(prev: Row, cur: Row)
  {
    cur.macd > cur.signal && prev.macd <= prev.signal && cur.histogram > 0.0 && prev.histogram <= 0.0
  }

  /** RSI rises out of the oversold zone and is at most 50. */
  predicate RsiBuy(prev: Row, cur: Row, oversold: real)
    requires Complete(cur)
  {
    prev.rsi.Some? && prev.rsi.value < oversold && cur.rsi.value >= oversold && cur.rsi.value <= 50.0
  }

  /** Close above the upper band. */
  predicate BollingerSell(cur: Row)
    requires Complete(cur)
  {
    cur.close > cur.upper.value
  }

  /** MACD crosses below its signal line, and the histogram turns negative. */
  predicate MacdSell(prev: Row, cur: Row)
  {
    cur.macd < cur.signal && prev.macd >= prev.signal && cur.histogram < 0.0 && prev.histogram >= 0.0
  }

  /** RSI at or above the overbought level. */
  predicate RsiSell(cur: Row, overbought: real)
    requires Complete(cur)
  {
    cur.rsi.value >= overbought
  }

  predicate BuySignal(prev: Row, cur: Row, cfg: Config)
    requires Complete(cur)
  {
    BollingerBuy(prev, cur) && MacdBuy(prev, cur) && RsiBuy(prev, cur, cfg.rsiOversold)
  }

  predicate SellSignal(prev: Row, cur: Row, cfg: Config)
    requires Complete(cur)
  {
    BollingerSell(cur) && MacdSell(prev, cur) && RsiSell(cur, cfg.rsiOverbought)
  }

  /** The MACD rule asks for a cross of the MACD line and the signal line; on
      rows of the indicator table the histogram clauses add nothing, since the
      histogram is the difference of the two lines. */
  lemma MacdRulesAreCrossings(closes: seq<real>, stds: seq<Option<real>>, cfg: Config, i: nat)
    requires ValidPeriods(cfg) && |stds| == |closes| && 0 < i < |closes|
    ensures var t := IndicatorTable(closes, stds, cfg);
      && (MacdBuy(t[i - 1], t[i]) <==> t[i].macd > t[i].signal && t[i - 1].macd <= t[i - 1].signal)
      && (MacdSell(t[i - 1], t[i]) <==> t[i].macd < t[i].signal && t[i - 1].macd >= t[i - 1].signal)
  {
  }

  /** With a non-negative band multiplier and deviation, the Bollinger buy
      rule (close under the middle band) and sell rule (close over the upper
      band) exclude each other on a row whose upper band lies `k * std` above
      its middle band, as every row of the indicator table does (TableBands). */
  lemma BandRulesExclusive(prev: Row, cur: Row, k: real, std: real)
    requires Complete(cur) && k >= 0.0 && std >= 0.0
    requires cur.upper.value - cur.middle.value == k * std
    ensures !(BollingerBuy(prev, cur) && BollingerSell(cur))
  {
    MulNonneg(k, std);
  }

  // ---------------------------------------------------------------------
  // Trading

  /** Cash and whole shares held. */
  datatype Book = Book(cash: real, shares: int)

  /** What a book is worth at a price (the value appended at lines 119, 126
      and 176). */
  function Worth(b: Book, price: real): real
  {
    b.cash + b.shares as real * price
  }

  /** `cash // price`: the number of whole shares the cash pays for. */
  function PurchaseSize(cash: real, price: real): (n: int)
    ensures price > 0.0 ==> 0.0 <= cash - n as real * price < price
    ensures cash >= 0.0 && n > 0 ==> price > 0.0
  {
    if price == 0.0 then 0
    else
      FloorBounds(cash, price);
      (cash / price).Floor
  }

  lemma FloorBounds(cash: real, price: real)
    requires price != 0.0
    ensures var n := (cash / price).Floor;
      && (price > 0.0 ==> 0.0 <= cash - n as real * price < price)
      && (cash >= 0.0 && n > 0 ==> price > 0.0)
  {
    var n := (cash / price).Floor;
    var f := cash / price;
    assert f * price == cash;
    if price > 0.0 {
      MulNonneg(f - n as real, price);
      assert (f - n as real) * price == f * price - n as real * price;
      RemainderBelowPrice(cash, price);
    } else if cash >= 0.0 && n > 0 {
      MulStrict(0.0, f, -price);
      assert false;
    }
  }

  lemma RemainderBelowPrice(cash: real, price: real)
    requires price > 0.0
    ensures cash - (cash / price).Floor as real * price < price
  {
    var n := (cash / price).Floor;
    var f := cash / price;
    assert f * price == cash;
    assert f < n as real + 1.0;
    var g := n as real + 1.0 - f;
    MulStrict(0.0, g, price);
    assert 0.0 < g * price;
    assert g * price == n as real * price + price - f * price;
  }

  /** The opening purchase of lines 100-110: with positive cash and a
      positive first price, as many shares as the cash pays for. */
  function Opening(capital: real, price: real): (b: Book)
    ensures b.shares > 0 <==> capital > 0.0 && price > 0.0 && PurchaseSize(capital, price) > 0
    ensures b.shares > 0 ==> b.shares == PurchaseSize(capital, price) && 0.0 <= b.cash < price
    ensures b.shares == 0 ==> b.cash == capital
    ensures Worth(b, price) == capital
    ensures capital >= 0.0 ==> b.cash >= 0.0 && b.shares >= 0
  {
    if capital > 0.0 && price > 0.0 && PurchaseSize(capital, price) > 0 then
      var n := PurchaseSize(capital, price);
      Book(capital - n as real * price, n)
    else Book(capital, 0)
  }

  /** What one bar of the main loop did. */
  datatype BarResult = BarResult(book: Book, bought: bool, sold: bool)

  /** One bar of the main loop (lines 121-176): an incomplete bar is
      skipped; otherwise the buy rule runs and then the sell rule. */
  function TradeBar(b: Book, prev: Row, cur: Row, cfg: Config): (r: BarResult)
    ensures !Complete(cur) ==> r == BarResult(b, false, false)
    ensures r.bought <==> Complete(cur) && BuySignal(prev, cur, cfg) && b.cash > 0.0 && PurchaseSize(b.cash, cur.close) > 0
    ensures r.sold <==> Complete(cur) && SellSignal(prev, cur, cfg) && b.shares + (if r.bought then PurchaseSize(b.cash, cur.close) else 0) > 0
    ensures !(r.bought && r.sold)
    ensures r.sold ==> r.book.shares == 0
    ensures r.bought ==> r.book.shares == b.shares + PurchaseSize(b.cash, cur.close) && 0.0 <= r.book.cash < cur.close
    ensures r.sold ==> r.book.cash == b.cash + b.shares as real * cur.close
    ensures !r.bought && !r.sold ==> r.book == b
    ensures Worth(r.book, cur.close) == Worth(b, cur.close)
    ensures b.cash >= 0.0 && b.shares >= 0 && cur.close > 0.0 ==> r.book.cash >= 0.0 && r.book.shares >= 0
  {
    if !Complete(cur) then BarResult(b, false, false)
    else
      var buy := BuySignal(prev, cur, cfg) && b.cash > 0.0 && PurchaseSize(b.cash, cur.close) > 0;
      var afterBuy :=
        if buy then
          var n := PurchaseSize(b.cash, cur.close);
          Book(b.cash - n as real * cur.close, b.shares + n)
        else b;
      var sell := SellSignal(prev, cur, cfg) && afterBuy.shares > 0;
      var afterSell := if sell then Book(afterBuy.cash + afterBuy.shares as real * cur.close, 0) else afterBuy;
      BarResult(afterSell, buy, sell)
  }

  // ---------------------------------------------------------------------
  // The simulation as a specification

  /** The variables of the simulation loop: the book, the portfolio values
      so far and the trade dates. */
  datatype Ledger = Ledger(book: Book, equity: seq<real>, buyDates: seq<int>, sellDates: seq<int>)

  /** What a run needs: dates and table of equal length, and a first trading
      bar that has a bar before it. */
  predicate ValidRun(table: seq<Row>, dates: seq<int>, start: nat)
  {
    |dates| == |table| && 1 <= start < |table|
  }

  /** The ledger before any bar: the opening purchase on the first bar. */
  function OpeningLedger(table: seq<Row>, dates: seq<int>, cfg: Config, start: nat): (l: Ledger)
    requires ValidRun(table, dates, start)
  {
    var b := Opening(cfg.initialCapital, table[0].close);
    Ledger(b, [], if b.shares > 0 then [dates[0]] else [], [])
  }

  /** A bar before the first trading bar: the book is only valued. */
  function HoldStep(l: Ledger, price: real): (r: Ledger)
  {
    Ledger(l.book, l.equity + [Worth(l.book, price)], l.buyDates, l.sellDates)
  }

  /** A bar of the main loop: the book is traded, the trade dates recorded,
      and the book valued. */
  function TradeStep(l: Ledger, prev: Row, cur: Row, date: int, cfg: Config): (r: Ledger)
  {
    var bar := TradeBar(l.book, prev, cur, cfg);
    Ledger(bar.book, l.equity + [Worth(bar.book, cur.close)],
           l.buyDates + (if bar.bought then [date] else []),
           l.sellDates + (if bar.sold then [date] else []))
  }

  /** The ledger after bars 0..i-1: bars before `start` are only valued
      (lines 118-119), later bars are traded and valued (lines 121-176). */
  function Replay(table: seq<Row>, dates: seq<int>, cfg: Config, start: nat, i: nat): (l: Ledger)
    requires ValidRun(table, dates, start) && i <= |table|
    ensures |l.equity| == i
  {
    if i == 0 then OpeningLedger(table, dates, cfg, start)
    else
      var j := i - 1;
      if j < start then HoldStep(Replay(table, dates, cfg, start, j), table[j].close)
      else TradeStep(Replay(table, dates, cfg, start, j), table[j - 1], table[j], dates[j], cfg)
  }

  /** The outcome of a run (the values returned at line 227). */
  datatype Report = Report(table: seq<Row>, dates: seq<int>, equity: seq<real>,
                           buyDates: seq<int>, sellDates: seq<int>,
                           cash: real, shares: int, finalValue: real)

  /** The first bar on which every indicator exists comes after the fifth
      bar, because the middle band's 5-bar mean needs five bars. */
  lemma StartAfterWarmUp(closes: seq<real>, stds: seq<Option<real>>, cfg: Config)
    requires ValidPeriods(cfg) && |stds| == |closes|
    ensures var t := IndicatorTable(closes, stds, cfg);
      FirstComplete(t).Some? ==> TrendWindow <= FirstComplete(t).value + 1 && cfg.bbPeriod <= FirstComplete(t).value + 1
  {
    var t := IndicatorTable(closes, stds, cfg);
    if FirstComplete(t).Some? {
      var k := FirstComplete(t).value;
      TableTrend(closes, stds, cfg, k);
      TableBands(closes, stds, cfg, k);
    }
  }

  /** The first row never has every indicator: the 5-bar mean of the middle
      band is missing there. */
  lemma FirstRowIncomplete(closes: seq<real>, stds: seq<Option<real>>, cfg: Config)
    requires ValidPeriods(cfg) && |stds| == |closes| && |closes| > 0
    ensures !Complete(IndicatorTable(closes, stds, cfg)[0])
  {
    TableTrend(closes, stds, cfg, 0);
  }

  /** The simulation over the indicator table (lines 94-186 and 225):
      NoCompleteIndicatorRow when no bar has every indicator, otherwise the
      ledger after the last bar, valued at the last close. */
  function Simulate(dates: seq<int>, table: seq<Row>, cfg: Config): (r: Result<Report, BacktestError>)
    requires |dates| == |table| && (|table| > 0 ==> !Complete(table[0]))
    ensures r.Failure? <==> forall j :: 0 <= j < |table| ==> !Complete(table[j])
    ensures r.Failure? ==> r.error == NoCompleteIndicatorRow
    ensures r.Success? ==> |r.value.equity| == |table| && r.value.dates == dates && r.value.table == table
  {
    match FirstComplete(table)
    case None => Failure(NoCompleteIndicatorRow)
    case Some(start) =>
      var l := Replay(table, dates, cfg, start, |table|);
      Success(Report(table, dates, l.equity, l.buyDates, l.sellDates, l.book.cash, l.book.shares,
                     Worth(l.book, table[|table| - 1].close)))
  }

  /** Whether the date of bar `k` is shared with another bar. */
  predicate DateRepeats(dates: seq<int>, k: nat)
    requires k < |dates|
  {
    exists j :: 0 <= j < |dates| && j != k && dates[j] == dates[k]
  }

  /** Strictly increasing dates repeat nowhere; the dates of ordered rows
      are ordered, and there a first date that does not repeat is below the
      second. */
  lemma RepeatsAndOrder(history: seq<PriceRow>)
    ensures Increasing(Dates(history)) ==> forall k :: 0 <= k < |history| ==> !DateRepeats(Dates(history), k)
    ensures DateOrdered(history) ==> forall i, j :: 0 <= i < j < |history| ==> Dates(history)[i] <= Dates(history)[j]
    ensures DateOrdered(history) && |history| > 1 && !DateRepeats(Dates(history), 0) ==> Dates(history)[0] < Dates(history)[1]
  {
    var dates := Dates(history);
    if DateOrdered(history) && |history| > 1 && !DateRepeats(dates, 0) {
      assert dates[1] != dates[0];
    }
  }

  /** Lines 94-186 and 225 on the date-ordered history. Looking up the first
      bar by its date (line 103) and the first complete bar by its date
      (lines 113 and 116) fails when that date is shared: RepeatedDate. */
  function RunHistory(history: seq<PriceRow>, table: seq<Row>, cfg: Config): (r: Result<Report, BacktestError>)
    requires |table| == |history| && (|table| > 0 ==> !Complete(table[0])) && DateOrdered(history)
    ensures r.Success? ==> |r.value.equity| == |r.value.dates| == |history| && r.value.dates == Dates(history)
    ensures r.Success? ==> forall i, j :: 0 <= i < j < |r.value.dates| ==> r.value.dates[i] <= r.value.dates[j]
    ensures r.Success? && |history| > 1 ==> r.value.dates[0] < r.value.dates[1]
    ensures r.Failure? ==> r.error == NoCompleteIndicatorRow || r.error == RepeatedDate
    ensures r.Failure? && r.error == RepeatedDate ==> !Increasing(Dates(history))
    ensures Increasing(Dates(history)) ==> r == Simulate(Dates(history), table, cfg)
  {
    RepeatsAndOrder(history);
    LookUpDates(Dates(history), table, cfg)
  }

  /** The date look-ups of lines 103 and 113-116 ahead of the simulation:
      RepeatedDate when the first bar's date or the first complete bar's
      date is shared, the simulation otherwise. */
  function LookUpDates(dates: seq<int>, table: seq<Row>, cfg: Config): (r: Result<Report, BacktestError>)
    requires |dates| == |table| && (|table| > 0 ==> !Complete(table[0]))
    ensures r == Simulate(dates, table, cfg) || r == Failure(RepeatedDate)
    ensures r == Failure(RepeatedDate) ==> exists k :: 0 <= k < |dates| && DateRepeats(dates, k)
    ensures (forall k :: 0 <= k < |dates| ==> !DateRepeats(dates, k)) ==> r == Simulate(dates, table, cfg)
    ensures r.Success? && |dates| > 0 ==> !DateRepeats(dates, 0)
  {
    if |dates| > 0 && DateRepeats(dates, 0) then Failure(RepeatedDate)
    else
      match FirstComplete(table)
      case Some(start) =>
        if DateRepeats(dates, start) then Failure(RepeatedDate) else Simulate(dates, table, cfg)
      case None => Simulate(dates, table, cfg)
  }

  /** The whole run: select and order the rows, build the indicator table
      on their closes, then simulate. The rolling deviations are those of
      the selected closes in date order. */
  function Backtest(rows: seq<PriceRow>, symbol: string, startDate: int, endDate: int,
                    stds: seq<Option<real>>, cfg: Config): (r: Result<Report, BacktestError>)
    requires ValidPeriods(cfg) && |stds| == |SelectRows(rows, symbol, startDate, endDate)|
    ensures r.Failure? && r.error == NoPriceData <==> forall x :: x in rows ==> !Selected(x, symbol, startDate, endDate)
    ensures r.Success? ==> |r.value.equity| == |r.value.dates| == |SelectRows(rows, symbol, startDate, endDate)|
    ensures r.Success? ==> forall i, j :: 0 <= i < j < |r.value.dates| ==> r.value.dates[i] <= r.value.dates[j]
  {
    AfterSelection(PriceHistory(rows, symbol, startDate, endDate), stds, cfg)
  }

  /** The run after the rows are selected and ordered: a selection error is
      passed on, an ordered history is run. */
  function AfterSelection(h: Result<seq<PriceRow>, BacktestError>, stds: seq<Option<real>>, cfg: Config): (r: Result<Report, BacktestError>)
    requires ValidPeriods(cfg) && (h.Success? ==> DateOrdered(h.value) && |stds| == |h.value|)
    ensures h.Failure? ==> r == Failure(h.error)
    ensures h.Success? ==> r.Failure? ==> r.error == NoCompleteIndicatorRow || r.error == RepeatedDate
    ensures r.Success? ==> h.Success? && |r.value.equity| == |r.value.dates| == |h.value|
    ensures r.Success? ==> forall i, j :: 0 <= i < j < |r.value.dates| ==> r.value.dates[i] <= r.value.dates[j]
  {
    match h
    case Failure(e) => Failure(e)
    case Success(history) => RunHistory(history, HistoryTable(history, stds, cfg), cfg)
  }

  /** A run fails with RepeatedDate only when the ordered dates repeat, and
      with strictly increasing dates it is the simulation over the indicator
      table; a successful run never starts with a shared date. */
  lemma BacktestRepeatedDate(rows: seq<PriceRow>, symbol: string, startDate: int, endDate: int,
                             stds: seq<Option<real>>, cfg: Config)
    requires ValidPeriods(cfg) && |stds| == |SelectRows(rows, symbol, startDate, endDate)|
    ensures var h, r := PriceHistory(rows, symbol, startDate, endDate), Backtest(rows, symbol, startDate, endDate, stds, cfg);
      r.Failure? && r.error == RepeatedDate ==> h.Success? && !Increasing(Dates(h.value))
    ensures var h, r := PriceHistory(rows, symbol, startDate, endDate), Backtest(rows, symbol, startDate, endDate, stds, cfg);
      h.Success? && Increasing(Dates(h.value)) ==> r == Simulate(Dates(h.value), HistoryTable(h.value, stds, cfg), cfg)
    ensures var r := Backtest(rows, symbol, startDate, endDate, stds, cfg);
      r.Success? && |r.value.dates| > 1 ==> r.value.dates[0] < r.value.dates[1]
  {
  }

  /** The indicator table of the closes of the history. */
  function HistoryTable(history: seq<PriceRow>, stds: seq<Option<real>>, cfg: Config): (t: seq<Row>)
    requires ValidPeriods(cfg) && |stds| == |history|
    ensures |t| == |history| && (|t| > 0 ==> !Complete(t[0]))
  {
    var closes := Closes(history);
    if |closes| > 0 then FirstRowIncomplete(closes, stds, cfg); IndicatorTable(closes, stds, cfg)
    else IndicatorTable(closes, stds, cfg)
  }

  // ---------------------------------------------------------------------
  // Properties of the simulation

  /** A bar never changes the worth of the book at that bar's close: trades
      happen at the close, so the portfolio value moves only with the price. */
  lemma StepKeepsWorth(table: seq<Row>, dates: seq<int>, cfg: Config, start: nat, j: nat)
    requires ValidRun(table, dates, start) && j < |table|
    ensures Worth(Replay(table, dates, cfg, start, j + 1).book, table[j].close)
         == Worth(Replay(table, dates, cfg, start, j).book, table[j].close)
    ensures Replay(table, dates, cfg, start, j + 1).equity[j]
         == Worth(Replay(table, dates, cfg, start, j + 1).book, table[j].close)
  {
  }

  /** Later ledgers extend the equity curve of earlier ones. */
  lemma {:induction false} ReplayPrefix(table: seq<Row>, dates: seq<int>, cfg: Config, start: nat, j: nat, i: nat)
    requires ValidRun(table, dates, start) && j <= i <= |table|
    ensures Replay(table, dates, cfg, start, i).equity[..j] == Replay(table, dates, cfg, start, j).equity
    decreases i - j
  {
    if j < i {
      ReplayPrefix(table, dates, cfg, start, j, i - 1);
      var e := Replay(table, dates, cfg, start, i).equity;
      var e1 := Replay(table, dates, cfg, start, i - 1).equity;
      assert e[..i - 1] == e1;
      assert e[..j] == e1[..j];
    }
  }

  /** The portfolio value recorded for bar `j` is the worth, at that bar's
      close, of the book held after it. */
  lemma EquityIsWorth(table: seq<Row>, dates: seq<int>, cfg: Config, start: nat, j: nat)
    requires ValidRun(table, dates, start) && j < |table|
    ensures Replay(table, dates, cfg, start, |table|).equity[j]
         == Worth(Replay(table, dates, cfg, start, j + 1).book, table[j].close)
  {
    ReplayPrefix(table, dates, cfg, start, j + 1, |table|);
    StepKeepsWorth(table, dates, cfg, start, j);
    assert Replay(table, dates, cfg, start, |table|).equity[..j + 1][j]
        == Replay(table, dates, cfg, start, |table|).equity[j];
  }

  /** The first recorded value is the initial capital: the opening purchase
      converts cash into shares at the first close. */
  lemma EquityStartsAtCapital(table: seq<Row>, dates: seq<int>, cfg: Config, start: nat)
    requires ValidRun(table, dates, start)
    ensures Replay(table, dates, cfg, start, |table|).equity[0] == cfg.initialCapital
  {
    EquityIsWorth(table, dates, cfg, start, 0);
  }

  /** From one bar to the next the portfolio value changes by the shares
      held going into the bar times the change of the close. */
  lemma EquityFollowsPrice(table: seq<Row>, dates: seq<int>, cfg: Config, start: nat, j: nat)
    requires ValidRun(table, dates, start) && 0 < j < |table|
    ensures var equity := Replay(table, dates, cfg, start, |table|).equity;
      equity[j] - equity[j - 1] == Replay(table, dates, cfg, start, j).book.shares as real * (table[j].close - table[j - 1].close)
  {
    var equity := Replay(table, dates, cfg, start, |table|).equity;
    var b := Replay(table, dates, cfg, start, j).book;
    ConsecutiveWorth(table, dates, cfg, start, j);
    WorthDifference(equity[j], equity[j - 1], b, table[j].close, table[j - 1].close);
  }

  /** The two recorded values around bar `j` are the worth of one book, the
      one held going into bar `j`, at the two closes. */
  lemma ConsecutiveWorth(table: seq<Row>, dates: seq<int>, cfg: Config, start: nat, j: nat)
    requires ValidRun(table, dates, start) && 0 < j < |table|
    ensures var equity := Replay(table, dates, cfg, start, |table|).equity;
      var b := Replay(table, dates, cfg, start, j).book;
      equity[j] == Worth(b, table[j].close) && equity[j - 1] == Worth(b, table[j - 1].close)
  {
    EquityIsWorth(table, dates, cfg, start, j);
    StepKeepsWorth(table, dates, cfg, start, j);
    EquityIsWorth(table, dates, cfg, start, j - 1);
  }

  lemma WorthDifference(now: real, before: real, b: Book, x: real, y: real)
    requires now == Worth(b, x) && before == Worth(b, y)
    ensures now - before == b.shares as real * (x - y)
  {
  }

  /** With a non-negative capital and positive closes the strategy never
      borrows cash and never goes short. */
  lemma {:induction false} BookNonNegative(table: seq<Row>, dates: seq<int>, cfg: Config, start: nat, i: nat)
    requires ValidRun(table, dates, start) && i <= |table|
    requires cfg.initialCapital >= 0.0
    requires forall j :: 0 <= j < |table| ==> table[j].close > 0.0
    ensures Replay(table, dates, cfg, start, i).book.cash >= 0.0
    ensures Replay(table, dates, cfg, start, i).book.shares >= 0
  {
    if i > 0 {
      BookNonNegative(table, dates, cfg, start, i - 1);
    }
  }

  /** The warm-up bars do not trade: until the first trading bar the book is
      the opening one and the only trade is the opening purchase. */
  lemma {:induction false} WarmUpHolds(table: seq<Row>, dates: seq<int>, cfg: Config, start: nat, i: nat)
    requires ValidRun(table, dates, start) && i <= start
    ensures var l := Replay(table, dates, cfg, start, i);
      && l.book == Opening(cfg.initialCapital, table[0].close)
      && l.sellDates == []
      && l.buyDates == (if l.book.shares > 0 then [dates[0]] else [])
  {
    if i > 0 {
      WarmUpHolds(table, dates, cfg, start, i - 1);
    }
  }

  /** Trades happen only on bars of the main loop: a sale on one of the
      bars `start`..`i`-1, a purchase there or at the opening on the first
      bar; and there is at most one of each per bar. */
  lemma {:induction false} TradeDatesWithinRun(table: seq<Row>, dates: seq<int>, cfg: Config, start: nat, i: nat)
    requires ValidRun(table, dates, start) && start <= i <= |table|
    ensures var l := Replay(table, dates, cfg, start, i);
      && (forall d :: d in l.sellDates ==> d in dates[start..i])
      && (forall d :: d in l.buyDates ==> d == dates[0] || d in dates[start..i])
      && |l.sellDates| <= i - start
      && |l.buyDates| <= 1 + (i - start)
  {
    if i == start {
      WarmUpHolds(table, dates, cfg, start, i);
    } else {
      TradeDatesWithinRun(table, dates, cfg, start, i - 1);
      assert dates[start..i] == dates[start..i - 1] + [dates[i - 1]];
    }
  }

  /** A bar of the main loop on which an indicator is missing leaves the book
      and the trade dates as they were. */
  lemma SkippedBarKeepsLedger(table: seq<Row>, dates: seq<int>, cfg: Config, start: nat, j: nat)
    requires ValidRun(table, dates, start) && start <= j < |table| && !Complete(table[j])
    ensures var before, after := Replay(table, dates, cfg, start, j), Replay(table, dates, cfg, start, j + 1);
      after.book == before.book && after.buyDates == before.buyDates && after.sellDates == before.sellDates
  {
    var before := Replay(table, dates, cfg, start, j);
    assert before.buyDates + [] == before.buyDates;
    assert before.sellDates + [] == before.sellDates;
  }

  /** The reported final value is the last recorded portfolio value, and the
      first is the initial capital. */
  lemma ReportEnds(dates: seq<int>, table: seq<Row>, cfg: Config)
    requires |dates| == |table| && (|table| > 0 ==> !Complete(table[0]))
    ensures var r := Simulate(dates, table, cfg);
      r.Success? ==> r.value.finalValue == r.value.equity[|table| - 1] && r.value.equity[0] == cfg.initialCapital
  {
    var r := Simulate(dates, table, cfg);
    if r.Success? {
      var start := FirstComplete(table).value;
      EquityIsWorth(table, dates, cfg, start, |table| - 1);
      EquityStartsAtCapital(table, dates, cfg, start);
    }
  }

  // ---------------------------------------------------------------------
  // The benchmark curves (lines 187-206): for SPY and QQQ, the closes on the
  // dates the benchmark shares with the strategy, rebased so that the first
  // shared date is worth the initial capital. The price histories are
  // inputs: a symbol is present in `fetched` when the data source returned
  // a non-empty history with a close column.

  /** The benchmarks, in the order they are fetched. */
  const BenchmarkSymbols: seq<string> := ["SPY", "QQQ"]

  /** The strategy's dates that the benchmark also has, in the strategy's
      order: the inner merge on the date index. */
  function AlignedDates(dates: seq<int>, prices: map<int, real>): (r: seq<int>)
    ensures |r| <= |dates|
  {
    if |dates| == 0 then []
    else (if dates[0] in prices then [dates[0]] else []) + AlignedDates(dates[1..], prices)
  }

  /** The aligned dates are exactly the shared ones. */
  lemma {:induction false} AlignedMembers(dates: seq<int>, prices: map<int, real>)
    ensures forall d :: d in AlignedDates(dates, prices) <==> d in dates && d in prices
    ensures forall i :: 0 <= i < |AlignedDates(dates, prices)| ==> AlignedDates(dates, prices)[i] in prices
  {
    if |dates| > 0 {
      AlignedMembers(dates[1..], prices);
      var head := if dates[0] in prices then [dates[0]] else [];
      var rest := AlignedDates(dates[1..], prices);
      var r := AlignedDates(dates, prices);
      assert r == head + rest;
      assert dates == [dates[0]] + dates[1..];
      forall d ensures d in r <==> d in dates && d in prices {
        assert d in r <==> d in head || d in rest;
        assert d in dates <==> d == dates[0] || d in dates[1..];
      }
      forall i | 0 <= i < |r| ensures r[i] in prices {
        if i < |head| {
          assert r[i] == dates[0];
        } else {
          assert r[i] == rest[i - |head|];
        }
      }
    }
  }

  predicate Increasing(dates: seq<int>)
  {
    forall i, j :: 0 <= i < j < |dates| ==> dates[i] < dates[j]
  }

  /** Aligning keeps the strategy's date order. */
  lemma {:induction false} AlignedKeepsOrder(dates: seq<int>, prices: map<int, real>)
    requires Increasing(dates)
    ensures Increasing(AlignedDates(dates, prices))
  {
    if |dates| > 0 {
      var rest := AlignedDates(dates[1..], prices);
      AlignedKeepsOrder(dates[1..], prices);
      AlignedMembers(dates[1..], prices);
      forall k | 0 <= k < |rest| ensures dates[0] < rest[k] {
        assert rest[k] in rest;
      }
    }
  }

  /** A benchmark quoted on every date of the strategy is aligned on all of
      them. */
  lemma {:induction false} AlignedAll(dates: seq<int>, prices: map<int, real>)
    requires forall i :: 0 <= i < |dates| ==> dates[i] in prices
    ensures AlignedDates(dates, prices) == dates
  {
    if |dates| > 0 {
      var tail := dates[1..];
      assert dates[0] in prices;
      forall i | 0 <= i < |tail| ensures tail[i] in prices {
        assert tail[i] == dates[i + 1];
      }
      AlignedAll(tail, prices);
      assert AlignedDates(dates, prices) == [dates[0]] + AlignedDates(tail, prices);
      assert dates == [dates[0]] + tail;
    }
  }

  /** Whether the benchmark shares at least one date with the strategy. */
  predicate Overlaps(dates: seq<int>, prices: map<int, real>)
  {
    exists d :: d in dates && d in prices
  }

  lemma OverlapsAligned(dates: seq<int>, prices: map<int, real>)
    ensures Overlaps(dates, prices) <==> |AlignedDates(dates, prices)| > 0
  {
    var aligned := AlignedDates(dates, prices);
    AlignedMembers(dates, prices);
    if Overlaps(dates, prices) {
      var d :| d in dates && d in prices;
      assert d in aligned;
    }
    if |aligned| > 0 {
      assert aligned[0] in aligned;
      var d := aligned[0];
      assert d in dates && d in prices;
      assert Overlaps(dates, prices);
    }
  }

  /** One point of a benchmark curve; None stands for the infinity or NaN
      that dividing by a zero first price gives. */
  datatype Point = Point(date: int, value: Option<real>)

  /** The benchmark rebased to `capital`: None when no date is shared (the
      `aligned_bench_data.empty` case). */
  function Rebased(dates: seq<int>, prices: map<int, real>, capital: real): (r: Option<seq<Point>>)
    ensures r.None? <==> !Overlaps(dates, prices)
    ensures r.Some? ==> |r.value| == |AlignedDates(dates, prices)| > 0
    ensures r.Some? ==> forall i :: 0 <= i < |r.value| ==> r.value[i].date == AlignedDates(dates, prices)[i]
  {
    var aligned := AlignedDates(dates, prices);
    OverlapsAligned(dates, prices);
    AlignedMembers(dates, prices);
    if |aligned| == 0 then None
    else
      var base := prices[aligned[0]];
      Some(seq(|aligned|, i requires 0 <= i < |aligned| => Point(aligned[i], Scaled(prices[aligned[i]], base, capital))))
  }

  /** `price / base * capital`, non-finite when the base is zero. */
  function Scaled(price: real, base: real, capital: real): Option<real>
  {
    if base == 0.0 then None else Some(price / base * capital)
  }

  /** The curve starts at the capital and moves in proportion to the
      benchmark's price; a zero first price leaves no finite point. */
  lemma RebasedProportional(dates: seq<int>, prices: map<int, real>, capital: real)
    ensures var r := Rebased(dates, prices, capital);
      r.Some? ==> r.value[0].date in prices
    ensures var r := Rebased(dates, prices, capital);
      r.Some? && prices[r.value[0].date] == 0.0 ==> forall i :: 0 <= i < |r.value| ==> r.value[i].value.None?
    ensures var r := Rebased(dates, prices, capital);
      r.Some? && prices[r.value[0].date] != 0.0 ==> r.value[0].value == Some(capital)
    ensures var r := Rebased(dates, prices, capital);
      r.Some? && prices[r.value[0].date] != 0.0 ==> forall i :: 0 <= i < |r.value| ==>
        r.value[i].date in prices && r.value[i].value.Some? &&
        r.value[i].value.value * prices[r.value[0].date] == capital * prices[r.value[i].date]
  {
    var r := Rebased(dates, prices, capital);
    if r.Some? {
      RebasedPoint(dates, prices, capital, 0);
      var base := prices[r.value[0].date];
      forall i | 0 <= i < |r.value|
        ensures r.value[i].date in prices
        ensures r.value[i].value == Scaled(prices[r.value[i].date], base, capital)
      {
        RebasedPoint(dates, prices, capital, i);
      }
      if base != 0.0 {
        assert base / base == 1.0;
        assert base / base * capital == capital;
        forall i | 0 <= i < |r.value|
          ensures r.value[i].value.Some? && r.value[i].value.value * base == capital * prices[r.value[i].date]
        {
          ScaleBack(prices[r.value[i].date], base, capital);
        }
      }
    }
  }

  /** Each point of the curve is dated with a benchmark date and holds its
      price scaled by the first price. */
  lemma RebasedPoint(dates: seq<int>, prices: map<int, real>, capital: real, i: nat)
    requires Rebased(dates, prices, capital).Some? && i < |Rebased(dates, prices, capital).value|
    ensures var r := Rebased(dates, prices, capital).value;
      r[i].date in prices && r[0].date in prices && r[i].value == Scaled(prices[r[i].date], prices[r[0].date], capital)
  {
    var aligned := AlignedDates(dates, prices);
    AlignedMembers(dates, prices);
    assert aligned[0] in aligned && aligned[i] in aligned;
  }

  lemma ScaleBack(p: real, base: real, capital: real)
    requires base != 0.0
    ensures p / base * capital * base == capital * p
  {
    assert p / base * base == p;
  }

  /** The benchmark curves: each benchmark whose history shares a date with
      the strategy, rebased to the initial capital. */
  function Benchmarks(dates: seq<int>, fetched: map<string, map<int, real>>, capital: real): (r: map<string, seq<Point>>)
    ensures forall s :: s in r <==> s in BenchmarkSymbols && s in fetched && Overlaps(dates, fetched[s])
    ensures forall s :: s in r ==> Rebased(dates, fetched[s], capital) == Some(r[s])
  {
    map s | s in BenchmarkSymbols && s in fetched && Overlaps(dates, fetched[s]) :: Rebased(dates, fetched[s], capital).value
  }

  // ---------------------------------------------------------------------
  // The simulation loop

  /** Lines 94-110, 112-176 and 225, run over the indicator table. */
  method RunBacktest(dates: seq<int>, table: seq<Row>, cfg: Config) returns (r: Result<Report, BacktestError>)
    requires |dates| == |table| && (|table| > 0 ==> !Complete(table[0]))
    ensures r == Simulate(dates, table, cfg)
  {
    var first := FirstComplete(table);
    if first.None? {
      return Failure(NoCompleteIndicatorRow);
    }
    var l := SimulationLoop(table, dates, cfg, first.value);
    r := Success(Report(table, dates, l.equity, l.buyDates, l.sellDates, l.book.cash, l.book.shares,
                        Worth(l.book, table[|table| - 1].close)));
  }

  /** Lines 123-174 for one complete or incomplete bar. */
  method TradeOneBar(cash0: real, shares0: int, prev: Row, cur: Row, cfg: Config)
    returns (cash: real, shares: int, bought: bool, sold: bool)
    ensures BarResult(Book(cash, shares), bought, sold) == TradeBar(Book(cash0, shares0), prev, cur, cfg)
  {
    cash, shares, bought, sold := cash0, shares0, false, false;
    if !Complete(cur) {
      return;
    }
    if BuySignal(prev, cur, cfg) && cash > 0.0 {
      var n := PurchaseSize(cash, cur.close);
      if n > 0 {
        shares := shares + n;
        cash := cash - n as real * cur.close;
        bought := true;
      }
    }
    if SellSignal(prev, cur, cfg) && shares > 0 {
      cash := cash + shares as real * cur.close;
      shares := 0;
      sold := true;
    }
  }

  /** The opening purchase and the two loops over the bars. */
  method SimulationLoop(table: seq<Row>, dates: seq<int>, cfg: Config, start: nat) returns (l: Ledger)
    requires ValidRun(table, dates, start)
    ensures l == Replay(table, dates, cfg, start, |table|)
  {
    var cash := cfg.initialCapital;
    var shares := 0;
    var equity: seq<real> := [];
    var buyDates: seq<int> := [];
    var sellDates: seq<int> := [];
    var price := table[0].close;
    if cash > 0.0 && price > 0.0 {
      var n := PurchaseSize(cash, price);
      if n > 0 {
        shares := shares + n;
        cash := cash - n as real * price;
        buyDates := buyDates + [dates[0]];
      }
    }

    var i := 0;
    while i < start
      invariant 0 <= i <= start
      invariant Ledger(Book(cash, shares), equity, buyDates, sellDates) == Replay(table, dates, cfg, start, i)
    {
      ghost var before := Ledger(Book(cash, shares), equity, buyDates, sellDates);
      equity := equity + [Worth(Book(cash, shares), table[i].close)];
      assert Ledger(Book(cash, shares), equity, buyDates, sellDates) == HoldStep(before, table[i].close);
      i := i + 1;
    }
    l := TradeLoop(table, dates, cfg, start, cash, shares, equity, buyDates, sellDates);
  }

  /** The main loop over the bars from `start` on (lines 121-176), picking
      up the state the earlier bars left. */
  method TradeLoop(table: seq<Row>, dates: seq<int>, cfg: Config, start: nat,
                   cash0: real, shares0: int, equity0: seq<real>, buyDates0: seq<int>, sellDates0: seq<int>)
    returns (l: Ledger)
    requires ValidRun(table, dates, start)
    requires Ledger(Book(cash0, shares0), equity0, buyDates0, sellDates0) == Replay(table, dates, cfg, start, start)
    ensures l == Replay(table, dates, cfg, start, |table|)
  {
    var cash, shares, equity, buyDates, sellDates := cash0, shares0, equity0, buyDates0, sellDates0;
    var i := start;
    while i < |table|
      invariant start <= i <= |table|
      invariant Ledger(Book(cash, shares), equity, buyDates, sellDates) == Replay(table, dates, cfg, start, i)
    {
      ghost var before := Ledger(Book(cash, shares), equity, buyDates, sellDates);
      var prev, cur := table[i - 1], table[i];
      var bought, sold;
      cash, shares, bought, sold := TradeOneBar(cash, shares, prev, cur, cfg);
      if bought {
        buyDates := buyDates + [dates[i]];
      }
      if sold {
        sellDates := sellDates + [dates[i]];
      }
      assert buyDates == before.buyDates + (if bought then [dates[i]] else []);
      assert sellDates == before.sellDates + (if sold then [dates[i]] else []);
      equity := equity + [Worth(Book(cash, shares), cur.close)];
      assert Ledger(Book(cash, shares), equity, buyDates, sellDates) == TradeStep(before, prev, cur, dates[i], cfg);
      i := i + 1;
    }
    l := Ledger(Book(cash, shares), equity, buyDates, sellDates);
  }
}
