# Bollinger/MACD/RSI stock strategy — a Dafny model

This project models the trading core of a small stock-analysis application
in Dafny and proves properties of the model. The core has three parts:

- **The backtest** (`strategy_backtester.py`, `run_backtest_strategy`). It:
  - selects one symbol's daily closes in a date range and puts them in date order;
  - adds Bollinger bands, a 5-bar mean of the middle band, MACD with signal
    and histogram, and RSI;
  - opens an all-in position on the first bar;
  - from the first bar on which every indicator exists, buys with all its cash
    when the three buy rules agree and sells everything when the three sell
    rules agree;
  - values the portfolio at every close;
  - rebases the SPY and QQQ benchmarks to the starting capital on the dates
    they share with the strategy.
- **The backtrader strategy** (`backtracker.py`, `BOLL_MACD_RSI_Strategy`).
  Its `next` method decides, bar by bar, whether to buy or sell 100 shares.
  It remembers the entry price so it can apply a 3 % stop-loss.
- **The data-layer helpers** (`api.py`, `StockDataAPI` and
  `calculate_bollinger_bands`):
  - date normalisation;
  - market dispatch;
  - the list of US symbol candidates;
  - choosing and renaming the date column;
  - index-name lookup;
  - the Bollinger and EMA columns.

The modules are:

| file | module | contents |
|---|---|---|
| `options.dfy` | `Options` | `Option` (pandas NaN / Python `None`) and `Result` |
| `series.dfy` | `Series` | pandas column primitives: NaN-aware rolling mean and `ewm(span, adjust=False)` |
| `search.dfy` | `Search` | the outcome of trying a list of candidates in order, skipping repeats, until one is listed (`FirstListed`), and the distinct elements of a list |
| `stock_api.dfy` | `StockApi` | the `api.py` helpers; `UsCandidateList`, `TryCandidates` and `FindDateColumn` are loop methods; `TryCandidates` is proved against `Search.FirstListed` |
| `indicators.dfy` | `Indicators` | the indicator table of `strategy_backtester.py:76-92` |
| `backtester.dfy` | `Backtester` | row selection and sorting, signals, trading, the simulation (a `Replay` specification and the loop methods `SimulationLoop` and `TradeLoop` proved equal to it), and the benchmarks |
| `backtracker.dfy` | `BacktraderStrategy` | the decision function `Decide` and the class `Strategy`, whose `Next` updates `buyPrice` and the order log |

Modelling conventions:

- Prices and cash are `real`. A NaN cell is `None`. A comparison that reads a
  missing value is false, as it is against NaN.
- The rolling standard deviation is an input (a `seq<Option<real>>`), because
  there is no square root on `real`.
- Dates in the backtest are day numbers.

Behaviour of the code worth noting, which the model keeps:

- **Backtester sell rules.** The Bollinger sell rule is `close > upper`
  (`strategy_backtester.py:166`). The RSI sell rule is `rsi >= overbought`
  (line 171).
- **Backtester MACD rules.** Each MACD rule compares MACD with its signal
  line on two bars and also tests the sign of the histogram (lines 152-153
  and 168-169).
- **Backtester Bollinger buy.** It compares the previous close with the
  current bar's lower band (line 149).
- **RSI with zero average loss.** Lines 91-92 give RSI 100 when the average
  gain is positive. They give NaN when the average gain is also zero.
- **No bar with every indicator.** Then `dropna().index.min()` is `NaT`, not
  `None`, and `get_loc` raises. The model returns
  `Failure(NoCompleteIndicatorRow)`.
- **Repeated dates.** Looking up the first bar by its date (line 103), or
  the first complete bar by its date (lines 113 and 116), raises when that
  date occurs twice. The model returns `Failure(RepeatedDate)`.

## Model

| member | source | states |
|---|---|---|
| Series.RollingMean | api.py:589 | `rolling(window).mean()` at row i is present exactly when the window is full and holds no NaN |
| Series.RollingMeanWithin | api.py:589 | a full rolling mean lies between any bounds of the values in its window |
| Series.RollingMeanAtLeast | strategy_backtester.py:89-90 | a rolling mean of values that are all at least `lo` is at least `lo` |
| Series.Rolling | strategy_backtester.py:78 | the rolling column has one entry per row, and each is that row's rolling mean |
| Series.SumAvailable | strategy_backtester.py:78 | a window sum is present iff no value in it is NaN |
| Series.Alpha | strategy_backtester.py:81 | the smoothing factor 2/(span+1) of a span of at least 1 lies in (0, 1] |
| Series.Ewm | strategy_backtester.py:81-84 | `ewm(span, adjust=False).mean()` keeps the length of its input |
| Series.EwmRecurrence | strategy_backtester.py:81-84 | the average starts at the first value; each later value blends the previous average with the new value by alpha |
| Series.EwmPrefix | strategy_backtester.py:81-84 | the average of the first k values is the first k entries of the whole average, so it never looks ahead |
| Series.EwmLast | strategy_backtester.py:81-84 | the last entry is the blend of the average of the shorter series and the last value |
| Series.EwmWithin | strategy_backtester.py:81-84 | every entry of the average lies within any bounds the inputs respect |
| StockApi.RemoveAll | api.py:50 | `replace('-', '')` leaves no '-' and never lengthens the string |
| StockApi.RemoveAllAppend | api.py:50 | removing a character distributes over concatenation |
| StockApi.RemoveAllAbsent | api.py:50 | removing a character that is absent changes nothing |
| StockApi.PySlice | api.py:124-125 | a Python slice equals the Dafny slice when in range, and is never longer than asked |
| StockApi.Replace | api.py:131 | `replace(a, b)` keeps the length and swaps exactly the occurrences of `a`; the same holds for the column rename at api.py:182 |
| StockApi.StripStart | api.py:128 | the result starts with a non-space and ends where the input ends |
| StockApi.StripEnd | api.py:128 | the result ends with a non-space and starts where the input starts |
| StockApi.Strip | api.py:128 | a non-empty stripped string has no space at either end |
| StockApi.Upper | api.py:128 | upper-casing keeps the length |
| StockApi.UpperChar | api.py:128 | upper-casing keeps whitespace as whitespace and non-space as non-space |
| StockApi.LastPart | api.py:129 | the part after the last '.' has no '.' and ends where the input ends |
| StockApi.LastPartIsSuffix | api.py:129 | that part is a suffix of the input, preceded by a '.' when shorter |
| StockApi.CompactDate | api.py:47-55 | a given date loses every '-' |
| StockApi.UsDate | api.py:124-125 | for 8 or more characters, the result is `s[:4]-s[4:6]-s[6:8]`, 10 characters with '-' at 4 and 7 |
| StockApi.RemoveDashes | api.py:50 | compacting `y-m-d` gives `ymd` when the parts have no '-' |
| StockApi.IsoDateRoundTrip | api.py:124-125 | compacting a `YYYY-MM-DD` date gives an 8-digit date, and reformatting it returns the original |
| StockApi.CompactDateRoundTrip | api.py:124-125 | reformatting an 8-digit date gives a `YYYY-MM-DD` date, and compacting it returns the original |
| StockApi.MarketFetcher | api.py:58-69 | only sh, sz, cyb, us and us2 reach a fetcher; us and us2 reach exactly the two US fetchers; anything else gives None |
| StockApi.DateArgument | api.py:47-55 | an absent or empty date takes the default; a given one loses every '-' |
| StockApi.PlanStockRequest | api.py:45-73 | a request is made iff the market is supported; given dates lose their '-'; absent or empty dates take the defaults |
| StockApi.UsRequestKeepsIsoDates | api.py:45-65 | a us request for `YYYY-MM-DD` dates reaches the US history fetcher, and its reformatted dates are the caller's own |
| StockApi.UsBase | api.py:128-129 | the base symbol never contains '.' |
| StockApi.UsCandidatesAtMostSix | api.py:129-131 | only two spellings remain, so at most six distinct candidates exist |
| StockApi.UsFormsEndVisible | api.py:128-131 | no spelling ends in whitespace |
| StockApi.StripCandidate | api.py:135-139 | `cand.strip()` leaves a prefixed candidate unchanged |
| StockApi.CandidateStripped | api.py:132-139 | every candidate is already stripped, so the stripped form is tried |
| StockApi.UsForms | api.py:130-131 | the spellings tried: the base, the base with '.' for '-', the base with '-' for '.' |
| StockApi.UsCandidates | api.py:131-135 | every pair of prefix 105, 106 or 107 with a spelling, joined by '.' |
| StockApi.UsCandidateList | api.py:131-135 | the nested loops list exactly the candidate set, in at most nine entries, as the three prefixes 105, 106, 107 of each spelling in turn, each spelling once, in some order of the set |
| StockApi.TryCandidates | api.py:137-150 | for any list, the attempts and the result are exactly `FirstListed` over the stripped, non-blank candidates: without a hit no candidate is listed and every distinct one was tried once, in list order; with a hit the found one is the first listed candidate and the attempts are the distinct candidates up to it |
| StockApi.Cleaned | api.py:139-140 | the candidates the loop considers are stripped, and blank ones are skipped, so none is empty |
| StockApi.CleanedStep | api.py:138-140 | one more candidate adds its stripped form unless that is blank |
| StockApi.CleanedPrefix | api.py:138-140 | the candidates considered before the loop stops are a prefix of all those it would consider |
| StockApi.CleanedStripped | api.py:139-140 | a list of stripped, non-blank candidates is considered as it is |
| StockApi.Expand | api.py:132-135 | three entries per spelling |
| StockApi.Triple | api.py:134-135 | the inner loop's three candidates of a spelling, with prefixes 105, 106 and 107 in that order |
| StockApi.ExpandSnoc | api.py:133-135 | one more pass of the outer loop appends the three candidates of its spelling |
| StockApi.ExpandHas | api.py:133-135 | every pairing of a prefix with a spelling visited by the outer loop is in the list |
| StockApi.ExpandOnly | api.py:133-135 | every listed candidate pairs a prefix with a visited spelling |
| StockApi.ExpandedForms | api.py:131-135 | visiting each spelling of the set once lists exactly the candidate set, in at most nine entries |
| StockApi.ReplaceAbsent | api.py:131 | `replace(a, b)` with no `a` in the string returns it unchanged |
| StockApi.FetchUsHistory | api.py:127-153 | the search over the candidate list of the user's symbol, listed 105, 106, 107 per spelling, is `FirstListed` over that list: no candidate tried twice, only candidates of the symbol, the earlier attempts unlisted, a hit last and listed, without a hit every candidate tried, and at most six attempts |
| Search.DistinctSnoc | api.py:140-142 | adding an element not yet tried keeps the tried list free of repeats |
| Search.DistinctWithin | api.py:137-142 | a duplicate-free list drawn from a set is no longer than the set |
| Search.Dedup | api.py:138-142 | the candidates without repeats, in order of first occurrence, are never more than the candidates |
| Search.DedupMembers | api.py:138-142 | the distinct candidates are exactly the elements of the list |
| Search.DedupDistinct | api.py:138-142 | no candidate occurs twice among the distinct ones |
| Search.DedupAppend | api.py:140-142 | a repeated candidate adds nothing; a new one is appended |
| Search.SearchStep | api.py:138-148 | one pass of the loop: a tried candidate changes nothing, a new one is appended to the attempts and to `tried`, and a new listed one ends the search as its first hit |
| Search.FirstListedLift | api.py:147-148 | a hit found before the end of the list is the hit of the whole list |
| Search.FirstListedFacts | api.py:137-153 | a search outcome has no attempt twice, only listed candidates as attempts, unlisted attempts before the last, a hit last and listed, and without a hit every candidate among the unlisted attempts |
| Search.FoundFacts | api.py:137-148 | the same for a search with a hit |
| Search.FoundLast | api.py:147-148 | stopping at the first listed candidate, the attempts end with it and hold no listed candidate before it |
| Search.UnlistedPrefix | api.py:138-150 | the candidates before the first hit, distinct or not, are unlisted |
| Search.NotFoundFacts | api.py:138-153 | without a hit the attempts are the distinct candidates, none listed, and every candidate was attempted |
| Search.FirstListedAt | api.py:147-148 | stopping at the first listed candidate with the distinct candidates up to it is a search outcome |
| Search.DedupWithin | api.py:138-142 | the distinct candidates of a prefix are candidates of the list |
| StockApi.PreferredFrom | api.py:174-177 | the scan from position `from` finds the first listed name that the table has, or reports that none is present |
| StockApi.DateColumns | api.py:171 | the five recognised date-column names, in order of preference: `日期`, `date`, `Date`, `datetime`, `时间` |
| StockApi.PreferredDateColumn | api.py:171-177 | the chosen date column is in the table, is one of the five names, and no earlier name is in the table |
| StockApi.FindDateColumn | api.py:171-177 | the loop picks exactly the preferred date column |
| StockApi.FormattedHeader | api.py:163-196 | an empty table is unchanged; otherwise the preferred date column, or else the first column, becomes `日期`, and `市场` is present |
| StockApi.IndexHistoryRequest | api.py:489-507 | exactly the five index names give a request, for an 8-character sh/sz code and the caller's dates; others give None |
| StockApi.IndexSymbols | api.py:496-502 | the five index names and their codes |
| StockApi.IndexSymbolsShape | api.py:496-502 | every index code is `sh` or `sz` followed by six characters |
| StockApi.IndexSymbolsDistinct | api.py:496-502 | different index names have different codes |
| StockApi.BollingerBands | api.py:588-594 | the middle band exists from row period-1 on; upper and lower exist iff middle and std do; `upper − middle = k·std = middle − lower` |
| StockApi.BandsOrdered | api.py:593-594 | with k ≥ 0 and std ≥ 0, lower ≤ middle ≤ upper |
| StockApi.MiddleWithinWindow | api.py:589 | the middle band lies within the lowest and highest close of its window |
| StockApi.WithBollingerBands | api.py:580-597 | a missing or empty frame, or one without `close`, is returned unchanged; otherwise exactly the band columns for (period, k) are set |
| StockApi.WithEma | api.py:327-337 | a missing or empty frame, or one without `收盘`, is returned unchanged; otherwise the column for the period is the `ewm(span=period, adjust=False)` mean of the closes and the other columns are untouched |
| Indicators.Gain | strategy_backtester.py:88-89 | the gain of a bar is never negative |
| Indicators.Loss | strategy_backtester.py:88-90 | the loss of a bar is never negative |
| Indicators.GainLossSplit | strategy_backtester.py:88-90 | gain − loss is the price change, and at most one of them is non-zero |
| Indicators.Gains | strategy_backtester.py:89 | the gain column is present on every row, the first row's NaN difference included |
| Indicators.Losses | strategy_backtester.py:90 | the loss column is present on every row |
| Indicators.RsiValue | strategy_backtester.py:91-92 | RSI exists iff gain or loss is positive, lies in [0, 100], and satisfies `rsi·(gain+loss) = 100·gain` |
| Indicators.RsiIdentity | strategy_backtester.py:91-92 | for a positive loss, `100 − 100/(1 + gain/loss)` equals that RSI |
| Indicators.Rsi | strategy_backtester.py:87-92 | the RSI column keeps the length; every present value lies in [0, 100] and comes after the warm-up |
| Indicators.RsiAt | strategy_backtester.py:89-92 | the RSI of a row lies in [0, 100], and only once the window is full |
| Indicators.Minus | strategy_backtester.py:83 | column subtraction is pointwise |
| Indicators.Middles | strategy_backtester.py:78 | the middle-band column is the bands' middle values |
| Indicators.MacdLine | strategy_backtester.py:81-83 | the MACD column keeps the length of the closes |
| Indicators.SignalLine | strategy_backtester.py:84 | the signal column keeps the length of the closes |
| Indicators.Assemble | strategy_backtester.py:76-92 | each row holds the columns' values at that position, with histogram = MACD − signal |
| Indicators.IndicatorTable | strategy_backtester.py:76-92 | one row per close, with that close and std, and histogram = MACD − signal |
| Indicators.TableRow | strategy_backtester.py:76-92 | row i holds the bands, the 5-bar mean of the middle band, MACD, signal and RSI at i |
| Indicators.TableBands | strategy_backtester.py:77 | on every row the middle band exists from the bb_period-th bar, the outer bands where the deviation also does, each `bb_std_dev` deviations from the middle |
| Indicators.TableTrend | strategy_backtester.py:78 | the 5-bar mean of the middle band exists iff the middle band exists on the last five bars |
| Indicators.TableRsi | strategy_backtester.py:87-92 | a row's RSI lies in [0, 100] and exists only from the rsi_period-th bar |
| Indicators.MacdStartsAtZero | strategy_backtester.py:81-85 | MACD and histogram are 0 on the first bar |
| Indicators.FlatMacdLine | strategy_backtester.py:81-83 | a constant price gives a MACD line of 0 throughout |
| Indicators.FlatPriceMacd | strategy_backtester.py:81-85 | a constant price gives MACD, signal and histogram 0 throughout |
| Indicators.FlatPriceRsiMissing | strategy_backtester.py:88-92 | a constant price gives no RSI at all (0/0) |
| Backtester.SelectRows | strategy_backtester.py:51-56 | exactly the rows of the symbol within the date range are kept |
| Backtester.InsertByDate | strategy_backtester.py:74 | insertion keeps the rows as a multiset plus the new row, and keeps date order |
| Backtester.SortByDate | strategy_backtester.py:74 | the result is in date order and is a permutation of the input |
| Backtester.SortOrderedIsIdentity | strategy_backtester.py:74 | sorting rows already in date order changes nothing |
| Backtester.PriceHistory | strategy_backtester.py:47-74 | NoPriceData iff no row is selected; otherwise as many rows as are selected, non-empty and in date order |
| Backtester.PriceHistoryRows | strategy_backtester.py:51-74 | the history holds exactly the rows of the symbol within the date range |
| Backtester.Dates | strategy_backtester.py:73 | the index holds the rows' dates |
| Backtester.Closes | strategy_backtester.py:72 | the close column holds the rows' closes |
| Backtester.Complete | strategy_backtester.py:125-127 | a bar is traded only when RSI, both outer bands, the middle band and its 5-bar mean are present |
| Backtester.FirstComplete | strategy_backtester.py:114 | the first row with every indicator present, or None when there is none |
| Backtester.FirstCompleteFrom | strategy_backtester.py:114 | the first such row at or after k |
| Backtester.MacdRulesAreCrossings | strategy_backtester.py:152-169 | on the indicator table, the MACD buy and sell rules reduce to their crossing clauses |
| Backtester.BandRulesExclusive | strategy_backtester.py:149-166 | when upper − middle = k·std with k, std ≥ 0, the Bollinger buy and sell rules never hold together |
| Backtester.BollingerBuy | strategy_backtester.py:149-150 | the previous close is below the current lower band, the close is at or above the lower band and below the middle band, and the middle band is above the previous 5-bar mean of the middle band |
| Backtester.MacdBuy | strategy_backtester.py:152-153 | MACD is above its signal after being at or below it, and the histogram is positive after being at most zero |
| Backtester.RsiBuy | strategy_backtester.py:155 | RSI was below the oversold level and is now at or above it and at most 50 |
| Backtester.BuySignal | strategy_backtester.py:157 | all three buy rules hold |
| Backtester.BollingerSell | strategy_backtester.py:166 | the close is above the upper band |
| Backtester.MacdSell | strategy_backtester.py:168-169 | MACD is below its signal after being at or above it, and the histogram is negative after being at least zero |
| Backtester.RsiSell | strategy_backtester.py:171 | RSI is at or above the overbought level |
| Backtester.SellSignal | strategy_backtester.py:173 | all three sell rules hold |
| Backtester.Worth | strategy_backtester.py:119 | the portfolio value `cash + shares * close` |
| Backtester.PurchaseSize | strategy_backtester.py:107 | `cash // price` leaves a remainder in [0, price); a positive count from non-negative cash needs a positive price |
| Backtester.FloorBounds | strategy_backtester.py:159 | the floor bounds behind `cash // price` |
| Backtester.RemainderBelowPrice | strategy_backtester.py:159-162 | after buying `cash // price` shares, the cash left is below the price |
| Backtester.Opening | strategy_backtester.py:101-111 | shares are bought iff the cash and the price are positive and `cash // price` is positive; then exactly that many are bought and the cash left is below the price; worth at that price stays the capital; nothing goes negative |
| Backtester.TradeBar | strategy_backtester.py:121-177 | a bar missing an indicator does nothing; buy iff the buy rules hold, cash > 0 and `cash // close` > 0, and then exactly that many shares are added and the cash left is below the close; sell iff the sell rules hold and shares > 0, and then every share is sold at the close; worth at the close is unchanged; the book stays non-negative |
| Backtester.Replay | strategy_backtester.py:118-179 | after i bars, the portfolio curve has i entries |
| Backtester.StartAfterWarmUp | strategy_backtester.py:113-116 | the first complete bar comes after both the 5-bar and the Bollinger warm-up |
| Backtester.FirstRowIncomplete | strategy_backtester.py:78 | the first bar never has every indicator, so `prev_date` never wraps to the last row |
| Backtester.Simulate | strategy_backtester.py:94-186 | NoCompleteIndicatorRow iff no bar has every indicator; otherwise one value per bar, with the table and dates returned |
| Backtester.RepeatsAndOrder | strategy_backtester.py:103-116 | strictly increasing dates repeat nowhere; in ordered dates a first date that does not repeat is below the second |
| Backtester.RunHistory | strategy_backtester.py:94-186 | on the ordered history: RepeatedDate only when the dates do not strictly increase, otherwise failure only as NoCompleteIndicatorRow; with strictly increasing dates the run is `Simulate`; on success one value per row and the history's dates, the first two distinct |
| Backtester.LookUpDates | strategy_backtester.py:103-116 | the date look-ups give RepeatedDate or the simulation; RepeatedDate only when some date is shared; with no shared date the simulation; a successful run never starts on a shared date |
| Backtester.HistoryTable | strategy_backtester.py:72-92 | the indicator table has one row per history row and its first row is incomplete |
| Backtester.AfterSelection | strategy_backtester.py:58-186 | a selection error is passed on unchanged; a run on an ordered history fails only with NoCompleteIndicatorRow or RepeatedDate, and on success has one value and one date per row, dates in order |
| Backtester.Backtest | strategy_backtester.py:47-186 | NoPriceData iff no row is selected; on success one value and one date per selected row, dates in order |
| Backtester.BacktestRepeatedDate | strategy_backtester.py:103-116 | RepeatedDate only when the ordered dates repeat; with strictly increasing dates the run is `Simulate` on the indicator table of the history; on success the first two dates are distinct |
| Backtester.StepKeepsWorth | strategy_backtester.py:119-179 | a bar never changes the book's worth at that bar's close, and the recorded value is that worth |
| Backtester.ReplayPrefix | strategy_backtester.py:118-179 | values once appended are never changed |
| Backtester.EquityIsWorth | strategy_backtester.py:119-179 | each curve entry is `cash + shares·close` of the book after that bar |
| Backtester.EquityStartsAtCapital | strategy_backtester.py:95-119 | the first value is the initial capital |
| Backtester.EquityFollowsPrice | strategy_backtester.py:119-179 | between consecutive bars the value moves by the shares held times the price change |
| Backtester.BookNonNegative | strategy_backtester.py:95-179 | with non-negative capital and positive closes, cash and shares stay non-negative |
| Backtester.WarmUpHolds | strategy_backtester.py:101-119 | during the warm-up the book is the opening book, with only the opening purchase recorded |
| Backtester.TradeDatesWithinRun | strategy_backtester.py:111-177 | sale dates fall on trading bars, purchase dates there or on the first bar, at most one per bar |
| Backtester.SkippedBarKeepsLedger | strategy_backtester.py:125-129 | a bar missing an indicator leaves cash, shares and trade dates unchanged |
| Backtester.ReportEnds | strategy_backtester.py:225 | the final value is the last curve value, and the first curve value is the capital |
| Backtester.AlignedDates | strategy_backtester.py:202 | the inner join is never longer than the strategy's dates |
| Backtester.AlignedMembers | strategy_backtester.py:202 | the joined dates are exactly the strategy dates that have a benchmark price |
| Backtester.AlignedKeepsOrder | strategy_backtester.py:202 | the join keeps increasing dates increasing |
| Backtester.AlignedAll | strategy_backtester.py:202 | when the benchmark covers every date, the join is all the dates |
| Backtester.OverlapsAligned | strategy_backtester.py:203 | the join is non-empty iff some date is shared |
| Backtester.Rebased | strategy_backtester.py:200-205 | None iff no date is shared; otherwise one point per joined date, on that date |
| Backtester.RebasedProportional | strategy_backtester.py:203-204 | with a non-zero first price the first value is the capital and each value is the capital times the price relative to the first price; with a zero first price no value is finite |
| Backtester.RebasedPoint | strategy_backtester.py:202-204 | each point is dated with a benchmark date and holds its price divided by the first shared price, times the capital |
| Backtester.Benchmarks | strategy_backtester.py:188-206 | exactly SPY and QQQ, when fetched and overlapping, get a curve, and each is its rebased series; no price is required to be non-zero |
| Backtester.RunBacktest | strategy_backtester.py:94-225 | the imperative run returns exactly `Simulate` |
| Backtester.TradeOneBar | strategy_backtester.py:125-177 | the imperative bar updates cash, shares and the trade flags exactly as `TradeBar` |
| Backtester.SimulationLoop | strategy_backtester.py:95-179 | the opening purchase, the warm-up loop and the trading loop leave exactly the ledger `Replay` describes |
| Backtester.TradeLoop | strategy_backtester.py:121-176 | from the ledger `Replay` gives at the first complete bar, the trading loop leaves exactly the ledger `Replay` gives at the end |
| BacktraderStrategy.TrendUp | backtracker.py:36 | the middle band is above the mean of its last five values |
| BacktraderStrategy.TrendDown | backtracker.py:38 | the middle band is below the mean of its last five values |
| BacktraderStrategy.BollBuy | backtracker.py:43-45 | the previous close is below the previous lower band, and the close is strictly between the lower and the middle band |
| BacktraderStrategy.MacdBuy | backtracker.py:47-49 | MACD crosses above its signal (strictly below before) and is above -0.02 |
| BacktraderStrategy.RsiBuy | backtracker.py:51-53 | RSI was below the oversold level and is now above it and below 50 |
| BacktraderStrategy.BollSell | backtracker.py:62-64 | the previous close is above the previous upper band, and the close is strictly between the middle and the upper band |
| BacktraderStrategy.MacdSell | backtracker.py:66-68 | MACD crosses below its signal (strictly above before) and is below 0.02 |
| BacktraderStrategy.RsiSell | backtracker.py:70-72 | RSI was above the overbought level and is now below it and above 50 |
| BacktraderStrategy.StopLoss | backtracker.py:75 | the close is below the entry price times one minus the stop-loss fraction |
| BacktraderStrategy.EntrySignal | backtracker.py:55 | the three buy rules and the up-trend hold |
| BacktraderStrategy.ExitSignal | backtracker.py:77 | the three sell rules and the down-trend hold, or the stop-loss does |
| BacktraderStrategy.Decide | backtracker.py:34-78 | buy iff flat and every entry rule and the up-trend hold; sell iff holding and (all exit rules and the down-trend, or the stop-loss); the size is always 100; a buy records the close as entry price |
| BacktraderStrategy.TrendExclusive | backtracker.py:36-38 | trend up and trend down never hold together |
| BacktraderStrategy.StopLossOverrides | backtracker.py:75-78 | while holding, the stop-loss alone issues a sale of 100 |
| BacktraderStrategy.SellNeedsAllSignals | backtracker.py:62-77 | without the stop-loss, a sale needs all three exit rules and the down-trend: a strict MACD cross under 0.02 and `50 < rsi < overbuy < prev rsi` |
| BacktraderStrategy.BuyNeedsCrossAndRsiBand | backtracker.py:41-55 | a purchase needs a strict MACD cross above −0.02, `prev rsi < oversell < rsi < 50`, and the up-trend |
| BacktraderStrategy.OrderMatchesPosition | backtracker.py:41-60 | a flat strategy can only buy, a holding one can only sell, and there is at most one order per bar |
| BacktraderStrategy.StopLevelBelowEntry | backtracker.py:75 | with 0 < stop_loss < 1 and a positive entry price, the stop level is positive and below entry |
| BacktraderStrategy.NoStopBeforeFirstBuy | backtracker.py:32-75 | with the initial entry price 0 the stop-loss never fires |
| BacktraderStrategy.EntryThenStop | backtracker.py:55-78 | after a buy, a later close below entry·(1 − stop_loss) sells |
| BacktraderStrategy.Run | backtracker.py:34-78 | running `next` over the bars gives one decision per bar |
| BacktraderStrategy.RunWithoutBuy | backtracker.py:55-57 | with no buy, the entry price is the one the run started with |
| BacktraderStrategy.RunBuyPrice | backtracker.py:55-57 | the entry price after a run is the close of the last buy |
| BacktraderStrategy.Strategy.constructor | backtracker.py:31-32 | a new strategy has entry price 0 and no orders |
| BacktraderStrategy.Strategy.Next | backtracker.py:34-78 | one bar updates the entry price and appends the order exactly as `Decide` with the broker's position, and keeps every order at size 100 |

## Left out

- **Network and library fetching.** akshare, yfinance and HTTP are not
  modelled. Where a fetch happens, its answer is a parameter:
  - `listed` stands for the symbols the US history service knows;
  - the benchmark histories are a map of prices.
- **Reading the CSV file.** Reading `us2_stock_data_temp.csv`, parsing its
  dates and checking for a `close` column are not modelled. The model starts
  from parsed price rows with a close.
- **Rolling standard deviation.** It is an input, non-negative where it is
  present.
- **IEEE arithmetic.** Floating-point rounding, infinities and NaN
  propagation beyond `Option` are not modelled.
- **Zero prices.** A price of zero buys zero shares. A benchmark whose first
  shared price is zero gets points whose value is `None`. In Python they are
  infinities or NaN, and the model does not tell these apart.
- **Clock defaults.** The `datetime.now()` default dates are the parameters
  `defaultStart` and `defaultEnd`.
- **String functions.** `strip` removes all of Python's ASCII whitespace
  (tab to carriage return, `\x1c` to `\x1f` and space). Non-ASCII whitespace
  is kept. `upper` changes only the Latin letters a to z.
- **Order of the candidate spellings.** The order in which Python iterates a
  set is not modelled. `UsCandidateList` and `FetchUsHistory` hold for any
  order of the spellings. Within a spelling the prefixes keep the order 105,
  106, 107.
- **Order of rows with equal dates.** `sort_index` does not fix the order
  of rows that share a date, and the model keeps them in input order. Only a
  shared date at the first bar or at the first complete bar changes the
  outcome (`RepeatedDate`), and that does not depend on the order.
- **Bollinger bands in the backtest.** `strategy_backtester.py:77` calls
  `api._calculate_bollinger_bands`, which `StockDataAPI` does not define.
  The model uses the module function `calculate_bollinger_bands`.
- **Type coercion in `_format_dataframe`.** Converting to datetime and to
  numbers, and the printed messages, are not modelled. They change no column
  name.
- **Plotting and output.** Plotly figures, Streamlit calls and `print` are
  not modelled.
- **The backtrader engine.** Cerebro, the broker, commissions, order fills
  and the indicator implementations are not modelled:
  - the position size is a parameter of `Next`;
  - the indicator values, the previous bar's values and the 5-bar
    middle-band mean are given in `Bar`.
- **Backtester.BandRulesExclusive.** It is stated per row, for any row whose
  upper band lies `k·std` above its middle band. `Indicators.TableBands`
  gives that for every row of the indicator table. It is not restated as a
  whole-table lemma.
- **Backtester.Simulate.** It requires that the first row is incomplete,
  which every indicator table satisfies (`Backtester.FirstRowIncomplete`).
  The source's `prev_date = df.index[i-1]` wrap-around at `i = 0` therefore
  never arises.
- **Backtester.BookNonNegative.** It assumes positive closes and
  non-negative capital. The source does not guard either.
- **The other files.** The UI, demo and data-retrieval scripts, and the
  rest of `api.py` (the fetchers and the remaining indicator helpers), are
  not part of this model.
