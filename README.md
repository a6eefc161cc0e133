# Daily trading simulator: ledger, risk engine and walk-forward driver in Dafny

This project models the accounting and risk core of a small daily trading
simulator written in Python with pandas and numpy, and proves properties of
that model. The modelled parts are:

- **The portfolio ledger** (`portfolio.py`, module `Portfolio`). It holds cash,
  one position per symbol, cumulative realized PnL and the history of recorded
  fills.
  - `apply_fill` validates a fill.
  - It clamps an unaffordable BUY to `floor((cash - commission) / price)` shares,
    or drops it.
  - It keeps a weighted-average cost.
  - It caps a SELL at the held quantity.
  - `snapshot` marks the book to market.
  - The value-level meaning of `apply_fill` is the function `Step`. The class
    `Portfolio.Portfolio` holds the same state in fields, and its methods are
    proved against `Step`.
  - The central invariant is `Books`: every held quantity equals the net of the
    recorded fills, is never negative, and a flat position has zero average cost.
- **The risk engine** (`risk.py`, module `Risk`).
  - Historical Value-at-Risk over a trailing window of daily PnL. It uses numpy's
    default linear (type 7) quantile, modelled with an insertion sort and
    interpolation between order statistics.
  - Drawdown from the running equity peak.
  - The per-date limit check that emits gross-exposure, drawdown, VaR and
    non-positive-equity alerts in that order.
- **The demo trader** (`trader.py`, module `Trader`).
  - The 0/1 regime from a crossover of two trailing means of the close.
  - The per-bar BUY/SELL decision.
- **The driver** (`run.py`, module `Run`).
  - `apply_slippage` and the minimum-length check.
  - The day-by-day loop: look up the position, decide, submit the slipped fill at
    the open, and mark the book at the close.
  - The post-pass: drawdown, daily PnL, rolling VaR, and the alerts from
    `check_limits` over every marked row.
  - `RunSpec` is the whole run as a function. The method `WalkForward` performs it
    over a `Portfolio` object and is proved equal to it.

Prices, cash, commissions and PnL are `real`; quantities are `int`; dates are
`int` day numbers. Exceptions of the source become `Result`/`Outcome` error
values: `LedgerError`, `RiskError`, `SignalError` and `RunError`. Each
precondition states only what the source itself demands of its callers.

## Model

| member | source | states |
|---|---|---|
| Portfolio.Position.MarketValue | portfolio.py:24-25 | quantity times the mark price; no contract of its own, its use in the snapshot sums is stated by `Portfolio.GrossBoundsNet` and `Portfolio.Portfolio.Snapshot` |
| Portfolio.Opened | portfolio.py:35-42 | the ledger `__init__` builds: cash equal to the initial cash, no positions, zero realized PnL, no fills; no contract of its own, `Portfolio.OpenedKeepsBooks` and `Portfolio.Portfolio.Create` state its meaning |
| Portfolio.IndexOf | portfolio.py:45 | the index of the symbol's position, the first one holding it, or -1 exactly when no position holds the symbol |
| Portfolio.WithPosition | portfolio.py:44-47 | after `get_position` the returned index holds a position of the requested symbol |
| Portfolio.HeldAfterLookup | portfolio.py:44-47 | `get_position` never changes what any symbol's position is, so the lookup itself moves no quantity or cost |
| Portfolio.LookupInsertsOnlyWhenAbsent | portfolio.py:44-47 | `get_position` leaves the table unchanged iff the symbol is a key, appends one zero position iff it is not, and a second lookup of the same symbol changes nothing |
| Portfolio.LookupKeepsDistinct | portfolio.py:44-47 | `get_position` keeps one position per symbol |
| Portfolio.LookupKeepsBooks | portfolio.py:44-47 | `get_position` preserves the ledger invariant `Books` |
| Portfolio.OpenedKeepsBooks | portfolio.py:35-42 | a freshly opened ledger satisfies `Books` |
| Portfolio.Step | portfolio.py:49-90 | `apply_fill` on ledger values: validation, lookup, then the BUY or SELL branch; no contract of its own, its meaning is stated by `Portfolio.StepKeepsBooks`, `Portfolio.InvalidFillFails`, `Portfolio.ZeroPriceBuyFails`, `Portfolio.BuyUpdatesHeld` and `Portfolio.SellIsCapped` |
| Portfolio.BuyStep | portfolio.py:60-76 | the BUY branch: clamp or drop an unaffordable order, fail on the zero-price division; no contract of its own, stated by `Portfolio.UnaffordableBuyIsClamped` and `Portfolio.BuyStepExecutes` |
| Portfolio.CommitBuy | portfolio.py:69-76 | executing a BUY of a given quantity; no contract of its own, stated by `Portfolio.CommitBuyEffect` |
| Portfolio.WeightedAvg | portfolio.py:70-74 | the new average cost, 0 when the new quantity is 0; no contract of its own, stated by `Portfolio.WeightedAvgBasis` |
| Portfolio.SellStep | portfolio.py:77-88 | the SELL branch capped at the holding; no contract of its own, stated by `Portfolio.SellIsCapped` |
| Portfolio.RecordedSell | portfolio.py:90 | the corrected SELL record, carrying the executed quantity; no contract of its own, its consequence is `Portfolio.StepKeepsBooks` |
| Portfolio.StepKeepsBooks | portfolio.py:49-90 | every `apply_fill` call, whatever the fill, preserves `Books`: each held quantity equals the net of the recorded fills, none is negative, and a flat position costs 0 |
| Portfolio.InvalidFillFails | portfolio.py:50-53 | a non-positive quantity fails with NonPositiveQty, otherwise an unknown side fails with UnknownSide (both iff), and either failure leaves the ledger unchanged |
| Portfolio.ZeroPriceBuyFails | portfolio.py:60-64 | the only other failure is an unaffordable BUY at price 0 (iff), after the position was already created |
| Portfolio.AffordableBuy | portfolio.py:60-76 | an affordable BUY executes in full: quantity up by qty, weighted-average cost, cash down by qty*price+commission, realized PnL unchanged, the fill recorded |
| Portfolio.BuyUpdatesHeld | portfolio.py:55-90 | any executed BUY adds the executed quantity at the weighted average, debits exactly its cost and records it; realized PnL and initial cash stay the same; a non-executed BUY changes neither the position nor the history; no other symbol changes |
| Portfolio.UnaffordableBuyIsClamped | portfolio.py:61-68 | an unaffordable BUY at a positive price is dropped when floor((cash-commission)/price) <= 0, otherwise executed for that many shares, fewer than asked, leaving cash non-negative and realized PnL and initial cash unchanged |
| Portfolio.SellIsCapped | portfolio.py:77-90 | a SELL executes min(requested, held): dropped when flat, otherwise realized PnL and cash move by the executed quantity, the average cost resets when flat and is kept otherwise, no other symbol changes |
| Portfolio.OneFillPerExecutedCall | portfolio.py:49-90 | an executed call appends exactly one record, equal to the fill except for the executed quantity; a dropped or failed call keeps fills, cash and realized PnL |
| Portfolio.OpeningBuy | portfolio.py:60-76 | buying n at p from flat without commission holds n at average cost p |
| Portfolio.ClosingSell | portfolio.py:77-88 | selling the whole holding without commission realizes n*(sell price - cost) and goes flat at cost 0 |
| Portfolio.RoundTrip | portfolio.py:49-90 | a commission-free buy then sell of n shares realizes n*(p2-p1), moves cash by the same amount, ends flat and records both fills |
| Portfolio.ApplyAll | portfolio.py:90 | the fill history of a sequence of calls only grows: the old history is a prefix of the new one |
| Portfolio.ApplyAllKeepsBooks | portfolio.py:49-90 | `Books` holds after any sequence of `apply_fill` calls |
| Portfolio.WeightedAvgBasis | portfolio.py:70-74 | the weighted average times the new quantity is the old cost basis plus price*qty |
| Portfolio.BasisGrows | portfolio.py:70-75 | adding q shares at px at the weighted average adds px*q to the position's cost basis (avg_cost*qty) |
| Portfolio.BoughtCostAppend | portfolio.py:90 | what the BUY records of a history paid in a symbol adds up over consecutive stretches of the history |
| Portfolio.BasisAfterBuy | portfolio.py:60-90 | given the effect of a BUY call, the symbol's cost basis grows by exactly what the appended record paid, and the old history is kept as a prefix |
| Portfolio.BuyAddsBasis | portfolio.py:49-90 | one BUY `apply_fill` call, executed, clamped, dropped or failed, grows each symbol's cost basis by exactly what its appended record paid in that symbol |
| Portfolio.BuysAccumulateBasis | portfolio.py:49-90 | after any sequence of BUY calls each symbol's cost basis has grown by the sum of price*qty over the records appended in that symbol |
| Portfolio.NetFilledConcat | portfolio.py:90 | the net quantity of a fill history adds up over consecutive stretches of it |
| Portfolio.FlatBuysAverage | portfolio.py:49-90 | from a flat position, after any sequence of BUY calls the held qty equals the net quantity of the appended records (all BUYs, so their total quantity) and avg_cost*qty equals the sum of price*qty over them, so avg_cost is their quantity-weighted mean price |
| Portfolio.RecordedSellAsWritten | portfolio.py:90 | the record appended for a SELL as written carries the requested quantity, symbol and side |
| Portfolio.CappedSellRecordAsWrittenOverstates | portfolio.py:79-90 | holding 3 and selling 10 empties the position, but the history as written nets to -7; the corrected history nets to the held 0 |
| Portfolio.SnapshotOf | portfolio.py:92-116 | the snapshot row: cash, market value, equity = cash + market value, realized and unrealized PnL, gross and net exposure; no contract of its own, stated by `Portfolio.GrossBoundsNet`, `Portfolio.MissingPriceMarksAtZero` and `Portfolio.Portfolio.Snapshot` |
| Portfolio.GrossBoundsNet | portfolio.py:98-103 | gross exposure is non-negative and at least the magnitude of net exposure |
| Portfolio.LongBookGrossIsNet | portfolio.py:98-103 | a long-only book marked at non-negative prices has gross exposure equal to net exposure |
| Portfolio.MissingPriceMarksAtZero | portfolio.py:99 | a symbol without a price gives the same snapshot as a price of 0 |
| Portfolio.MissingPriceSums | portfolio.py:98-104 | the market-value, gross and unrealized sums are unchanged by adding a 0 price for an unpriced symbol |
| Portfolio.Portfolio.constructor | portfolio.py:35-42 | a new object holds the opened ledger and satisfies `Books` |
| Portfolio.Portfolio.Create | portfolio.py:35-42 | a non-positive initial cash is rejected (iff) with NonPositiveInitialCash, otherwise a fresh opened ledger |
| Portfolio.Portfolio.GetPosition | portfolio.py:44-47 | returns the symbol's position, inserts a zero one only when absent, changes no other field and keeps `Books` |
| Portfolio.Portfolio.ApplyFill | portfolio.py:49-90 | the new state and outcome are those of `Step` on the old state, and `Books` is kept |
| Portfolio.Portfolio.Buy | portfolio.py:60-76 | the BUY branch on the fields equals `BuyStep` on the old state |
| Portfolio.Portfolio.Sell | portfolio.py:77-88 | the SELL branch on the fields equals `SellStep` on the old state |
| Portfolio.Portfolio.Snapshot | portfolio.py:92-116 | the accumulating loop yields `SnapshotOf` the state; equity is cash plus market value; net equals market value; gross is non-negative and bounds net |
| Risk.Insert | risk.py:32 | inserting into a sorted sequence keeps it sorted and adds exactly that element |
| Risk.Sort | risk.py:32 | the sorted window is sorted and a permutation of the window |
| Risk.SortedEnds | risk.py:32 | the first order statistic is a minimum and the last a maximum of the window, and every order statistic is an element of the window |
| Risk.PermutationEnds | risk.py:32 | any sorted permutation starts at a minimum, ends at a maximum and holds only elements of the original |
| Risk.LerpBetween | risk.py:32 | linear interpolation between a <= b at a fraction in [0, 1] stays in [a, b] |
| Risk.VirtualIndexInRange | risk.py:32 | the type-7 virtual index (n-1)q lies in [0, n-1] with its floor, and its fractional part is in [0, 1) |
| Risk.Quantile | risk.py:32 | the linear quantile never leaves the range of the sample |
| Risk.QuantileAtZeroIsMin | risk.py:32 | the 0-quantile is the sample minimum |
| Risk.QuantileAtOneIsMax | risk.py:32 | the 1-quantile is the sample maximum |
| Risk.VarOfWindow | risk.py:31-33 | the VaR of a window is non-negative, 0 when the window has no loss, and otherwise backed by a loss at least as large |
| Risk.VarAt | risk.py:36-38 | entry i of the VaR series: absent before index window-1, otherwise the VaR of the trailing window ending at i; no contract of its own, stated by `Risk.VarSeriesShape` |
| Risk.VarSeries | risk.py:22-39 | a successful VaR series has one entry per PnL value |
| Risk.RollingHistoricalVar | risk.py:22-39 | the array-filling loop returns exactly `VarSeries`, errors included |
| Risk.VarSeriesErrors | risk.py:28-32 | a window below 20 is rejected (iff); otherwise alpha outside [0, 1] is rejected exactly when at least one window is computed |
| Risk.VarSeriesShape | risk.py:31-39 | one entry per day, absent exactly before index window-1, present entries non-negative, 0 over a loss-free window, otherwise backed by a loss in the window |
| Risk.VarSeriesPrefix | risk.py:37-38 | no look-ahead: the VaR of a PnL prefix is the prefix of the VaR |
| Risk.RunningPeak | risk.py:43 | one running peak per equity point |
| Risk.RunningPeakIsMax | risk.py:43 | each running peak is the maximum of the equity up to and including its day, attained on one of those days |
| Risk.DrawdownOfPoint | risk.py:44 | below a positive peak the drawdown is in [0, 1), and it is 0 exactly at the peak |
| Risk.DrawdownOf | risk.py:44-45 | (peak - equity) / peak, and 0 for a zero peak; no contract of its own, stated by `Risk.DrawdownOfPoint` and `Risk.DrawdownAtZeroPeak` |
| Risk.ComputeDrawdown | risk.py:42-45 | one drawdown per equity point |
| Risk.DrawdownBounds | risk.py:42-45 | with positive equity every drawdown is in [0, 1), and it is 0 exactly where equity is at its running peak |
| Risk.DrawdownAtZeroPeak | risk.py:44-45 | a zero running peak gives drawdown 0 (the division by NaN filled with 0) |
| Risk.DrawdownPrefix | risk.py:42-45 | no look-ahead: peaks and drawdowns of a prefix are the prefix of the peaks and drawdowns |
| Risk.CheckLimits | risk.py:48-73 | at most four alerts, all dated at the checked date |
| Risk.CheckLimitsRaises | risk.py:60-71 | each kind of alert is raised exactly when its limit is breached (gross >, drawdown >=, VaR present and >, equity <= 0) |
| Risk.CheckLimitsValues | risk.py:60-71 | every alert carries the breached value and its limit; a VaR alert's value is the given VaR |
| Risk.CheckLimitsOrder | risk.py:54-73 | alerts come in the fixed order gross, drawdown, VaR, equity, each kind at most once |
| Trader.TrailingMean | trader.py:19-20 | the rolling mean over a full trailing window, absent until it fills; no contract of its own, stated by `Trader.TrailingMeanBounds` |
| Trader.Regime | trader.py:19-21 | 1 when both means exist and the fast one is above the slow one, else 0; no contract of its own, stated by `Trader.SignalsShape` |
| Trader.GenerateSignals | trader.py:18-23 | a successful signal series has one regime per close |
| Trader.SignalsShape | trader.py:18-23 | negative windows are rejected (iff); each regime is 0 or 1, and 1 exactly when both trailing windows are full and the fast mean exceeds the slow mean |
| Trader.WarmUpIsFlat | trader.py:19-21 | before the longer window fills, the regime is 0 |
| Trader.SignalsPrefix | trader.py:18-23 | no look-ahead: the signals of a prefix of the closes are the prefix of the signals |
| Trader.TrailingMeanBounds | trader.py:19-20 | a trailing mean lies within the range of the closes in its window |
| Trader.FlatPricesGiveNoSignal | trader.py:18-23 | a constant close never enters the long regime |
| Trader.DecideFill | trader.py:26-42 | any decision is a BUY or a SELL, and a SELL (with a positive trade size) asks for between 1 and the held quantity |
| Trader.DecideFillCases | trader.py:32-42 | no order outside regimes 0/1; regime 1 buys the trade size; regime 0 sells min(trade size, held) and orders nothing exactly when nothing is held |
| Run.ApplySlippage | run.py:47-53 | BUY and SELL succeed and any other side fails (iff); with non-negative price and bps a BUY pays at least the price and a SELL receives at most it |
| Run.SlippageSpread | run.py:47-52 | the BUY and SELL prices sit price*bps/10000 above and below the price |
| Run.Closes | run.py:73 | the close series has one close per bar, in order |
| Run.Touched | run.py:96 | the driver's `get_position` of the ticker; no contract of its own, stated by `Run.BarStepTrades` and `Portfolio.LookupInsertsOnlyWhenAbsent` |
| Run.DecisionAt | run.py:97-98 | `decide_fill` on the regime and the quantity currently held; no contract of its own, stated by `Trader.DecideFillCases` and `Run.BarStepTrades` |
| Run.SubmittedFill | run.py:100-110 | the fill for a decision at the slipped open with the fixed commission; no contract of its own, stated by `Run.BarStepTrades` |
| Run.BarStep | run.py:91-115 | a processed bar yields the snapshot of the ledger after its fill, dated at the bar and marked at its close |
| Run.Fold | run.py:91-115 | a completed loop has one row per bar |
| Run.FoldExtends | run.py:91-115 | a completed loop extends the loop over all but the last bar by one row |
| Run.FoldPrefix | run.py:91-115 | the loop over the first k bars completes with the first k rows |
| Run.FoldStopsAtFailure | run.py:91-115 | once a bar fails, later bars change nothing: the run ends with that failure |
| Run.FoldFailure | run.py:91-115 | a failed loop fails with the failure of one bar's step |
| Run.FoldRow | run.py:91-115 | row k-1 is the row of bar k-1 processed from the ledger after k-1 bars, and leaves the ledger after k bars |
| Run.FoldSucceeds | run.py:91-115 | a loop whose step succeeds from every ledger on every bar completes |
| Run.Walk | run.py:91-115 | one row per bar, the last one the snapshot of the final ledger at the last close |
| Run.BarStepTrades | run.py:96-111 | without a decision the bar submits nothing and only the lookup remains; with one, it submits exactly one fill for the ticker at the bar's date, with the decided side and quantity, the slipped open price and the fixed commission, and fails exactly when that `apply_fill` fails |
| Run.BarStepFailures | run.py:96-111 | a bar can only fail inside `apply_fill`; with a positive trade size only as an unaffordable BUY at a slipped price of 0 |
| Run.WalkFailures | run.py:91-111 | the loop fails only with NonPositiveQty or DivisionByZero, and only with DivisionByZero when the trade size is positive |
| Run.WalkPrefix | run.py:91-115 | the loop is causal: the walk over the first k bars completes with the first k rows |
| Run.WalkRows | run.py:91-115 | row k-1 is dated at bar k-1 and is the snapshot, at that bar's close, of the ledger after the first k bars |
| Run.SlippedBuyPositive | run.py:49-50 | a BUY slipped by non-negative basis points off a positive open has a positive price |
| Run.WalkSucceeds | run.py:91-111 | with positive opens, non-negative slippage and a positive trade size no bar fails, so the walk completes |
| Run.Equity | run.py:118 | the equity column has one entry per row, equal to that row's equity |
| Run.DailyPnl | run.py:121 | one daily PnL per equity point |
| Run.DailyPnlTelescopes | run.py:121 | the daily PnL up to day i adds up to the equity change since day 0 |
| Run.PnlOfRows | run.py:121 | daily PnL is 0 on the first row and each row's change in equity after |
| Run.RowChecks | run.py:125-128 | one limit check per marked row, each of at most four alerts |
| Run.AlertsOf | run.py:125-128 | the alerts of n rows number at most 4n |
| Run.AlertsOfMembers | run.py:125-128 | an alert is listed exactly when the limit check of one of the rows raised it |
| Run.MarkBar | run.py:96-115 | one iteration on the object matches `BarStep` on the old ledger (row, new ledger, or error) and keeps `Books` |
| Run.MarkBars | run.py:91-115 | the loop on the object matches `Walk` from the old ledger (rows, final ledger, or error) and keeps `Books` |
| Run.CollectAlerts | run.py:125-128 | the alerts loop returns `AlertsOf` all rows |
| Run.WalkForward | run.py:70-128 | the driver returns exactly `RunSpec` of its bars and configuration |
| Run.RunSpec | run.py:70-128 | the whole run as a function: length check, signals, fresh ledger, walk, then the post-pass; no contract of its own, stated by `Run.WalkForward`, `Run.RunEarlyExits`, `Run.RunCompletes`, `Run.RunParts`, `Run.RunRows`, `Run.RunSeries` and `Run.RunAlerts` |
| Run.RunEarlyExits | run.py:70-76 | a run stops with NotEnoughRows iff bars < max(fast, slow) + 5, then on a negative window iff one is negative, then on the initial cash iff it is not positive |
| Run.RunCompletes | run.py:70-128 | a run completes when the length, window and cash checks pass, opens are positive, slippage is non-negative, the trade size is positive, the VaR window is at least 20 and alpha is in [0, 1] |
| Run.DefaultRunConfig | run.py:18-37 | the configuration the command line builds when only the ticker is given, with the given ticker |
| Run.DefaultRunCompletes | run.py:18-37 | with the command-line defaults (windows 20/100, trade size 25, 2 bps, cash 100000, VaR 250/0.99) any history of at least 105 bars with positive opens runs to completion |
| Run.RunParts | run.py:76-128 | a completed run is the walk from a fresh ledger, then drawdown, daily PnL, VaR and alerts over its rows |
| Run.RunRows | run.py:91-117 | a completed run has one row per bar, each dated at its bar |
| Run.RunSeries | run.py:117-122 | drawdown, daily PnL and VaR have one entry per bar; daily PnL is 0 on day 0 and the equity change after |
| Run.VaRAlertsNeedVaR | run.py:125-128 | every VaR alert comes from a row whose VaR entry is present, and carries that entry |
| Run.RunAlerts | run.py:122-128 | the run's alerts are exactly the alerts raised by some row's check, and a VaR alert only comes from a day whose VaR window has filled |
| Run.DriverSellsWithinHolding | run.py:96-111 | with a positive trade size a driver SELL never exceeds the holding, so the as-written and corrected SELL records coincide |

## Left out

- `data.py`, which downloads and loads the CSV, is not part of this model. The model starts from a sequence of bars, each with date, open and close.
- Command-line parsing, the start/end date filtering (run.py:65-68), the output files, the JSON report, the plot and the console output are I/O and are not modelled.
- The sort of the alert table by date and type (run.py:130-132) is a presentation step. The model keeps the alerts in the order `check_limits` emits them, row by row.
- IEEE floating point is modelled as exact reals. Rounding, infinities and NaN arithmetic are not captured. The two NaNs the core relies on are modelled as values: VaR entries before the window fills are `None` and are treated as absent by the limit check; a zero running peak gives drawdown 0, as `fillna(0.0)` does.
- The regime of each bar is taken by position from the signal series. The source looks it up by date with `regime.loc[dt]` (run.py:97). The two agree when the bar dates are distinct, because the signals are computed from the same bars, and the `notna` fallback never fires because the signal series is integer.
- Duplicate bar dates: with a repeated date, `regime.loc[dt]` at run.py:97 returns a series, and `pd.notna(...)` used as a condition raises ValueError, so the source fails on the first repeated date. The loader sorts the rows but does not drop duplicates. The model does not capture this failure: it processes every bar by position and carries on.
- Dates are `int` day numbers, not timestamps.
- Portfolio.Portfolio.GetPosition: returns the position as a value. The source returns a reference to the stored `Position` object, which `apply_fill` then mutates; the model instead rewrites the stored entry. The driver only reads the quantity from it.
- numpy's `quantile` is modelled only for its default linear method and only over NaN-free windows.
- `RiskLimits`, `VaRSpec` and `TraderConfig` appear as datatypes with their source defaults as constants, used by `Run.DefaultRunConfig`. The source does not validate their fields, and neither does the model.
- The cast `int(qty)` and the `float(...)` conversions in the driver are identities on the modelled types.

## Findings

| source | as written | input that shows it | evidently intended | confidence | as-written member | corrected member |
|---|---|---|---|---|---|---|
| portfolio.py:90 | a SELL is recorded with `qty`, which still holds the requested quantity; the executed `sell_qty` is only used for the position, cash and PnL | holding 3 shares of X, `apply_fill` of SELL 10 X: the position goes to 0, but the history records a SELL of 10 and nets to -7 shares | the record carries the executed quantity, so the fill history accounts for every held share | not executed | Portfolio.CappedSellRecordAsWrittenOverstates | Portfolio.StepKeepsBooks |

The corrected record (`Portfolio.RecordedSell`, used by `Portfolio.Step` and
the `Portfolio.Portfolio.Sell` method) is what the rest of the model uses.
The as-written record is `Portfolio.RecordedSellAsWritten`. In the driver the
discrepancy never shows: the trader never asks to sell more than it holds
(`Run.DriverSellsWithinHolding`).
