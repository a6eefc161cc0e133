/**
 * The simulation driver of run.py: price slippage, the day-by-day walk that
 * trades at each open and marks the book at each close, and the post-pass that
 * derives drawdown, daily PnL, VaR and alerts from the marked rows.
 */
module Run {
  import opened Common
  import Portfolio
  import Risk
  import Trader

  /** One daily bar of the price history (the columns the driver reads). */
  datatype Bar = Bar(date: int, open: real, close: real)

  /** The run's parameters, as the command line supplies them. */
  datatype RunConfig = RunConfig(
    ticker: string,
    initialCash: real,
    slippageBps: real,
    commission: real,
    trader: Trader.TraderConfig,
    varSpec: Risk.VaRSpec,
    limits: Risk.RiskLimits)

  /** The exceptions that end a run. */
  datatype RunError =
    | NotEnoughRows                                // fewer bars than the mean windows need
    | SignalFailure(signal: Trader.SignalError)    // `generate_signals` rejected a window
    | LedgerFailure(ledger: Portfolio.LedgerError) // `Portfolio(...)` or `apply_fill` raised
    | UnknownSlippageSide                          // `apply_slippage` with a side other than BUY / SELL
    | RiskFailure(risk: Risk.RiskError)            // `rolling_historical_var` raised

  // ---------------------------------------------------------------------------
  // apply_slippage
  // ---------------------------------------------------------------------------

  /** `apply_slippage`: a BUY pays `bps` basis points above the price, a SELL receives that much below. */
  function ApplySlippage(price: real, side: string, bps: real): (r: Result<real, RunError>)
    ensures r.Ok? <==> side == Portfolio.BUY || side == Portfolio.SELL
    ensures r.Err? ==> r.error == UnknownSlippageSide
    ensures r.Ok? && price >= 0.0 && bps >= 0.0 ==>
              (side == Portfolio.BUY ==> r.value >= price) && (side == Portfolio.SELL ==> r.value <= price)
  {
    var slip := bps / 10000.0;
    if side == Portfolio.BUY then Ok(price * (1.0 + slip))
    else if side == Portfolio.SELL then Ok(price * (1.0 - slip))
    else Err(UnknownSlippageSide)
  }

  /** The two sides sit symmetrically around the price, `price * bps / 10000` away. */
  lemma SlippageSpread(price: real, bps: real)
    ensures var buy := ApplySlippage(price, Portfolio.BUY, bps).value;
            var sell := ApplySlippage(price, Portfolio.SELL, bps).value;
            && buy - price == price * (bps / 10000.0)
            && price - sell == price * (bps / 10000.0)
  {
    var slip := bps / 10000.0;
    assert price * (1.0 + slip) == price + price * slip;
    assert price * (1.0 - slip) == price - price * slip;
  }

  // ---------------------------------------------------------------------------
  // The walk over the bars
  // ---------------------------------------------------------------------------

  /** The closes, the series the signals are computed from. */
  function Closes(bars: seq<Bar>): (close: seq<real>)
    ensures |close| == |bars| && forall i :: 0 <= i < |bars| ==> close[i] == bars[i].close
  {
    seq(|bars|, i requires 0 <= i < |bars| => bars[i].close)
  }

  /** The ledger after one bar and the row marked at its close. */
  datatype Marked = Marked(state: Portfolio.LedgerState, row: Portfolio.SnapshotRow)

  /** The ledger after a run of bars and one marked row per bar. */
  datatype Walked = Walked(state: Portfolio.LedgerState, rows: seq<Portfolio.SnapshotRow>)

  /** The fill the driver submits for a decision: the slipped open price and the fixed commission. */
  function SubmittedFill(bar: Bar, cfg: RunConfig, d: Trader.Decision): Result<Portfolio.Fill, RunError>
  {
    match ApplySlippage(bar.open, d.side, cfg.slippageBps)
    case Err(e) => Err(e)
    case Ok(px) => Ok(Portfolio.Fill(bar.date, cfg.ticker, d.side, d.qty, px, cfg.commission))
  }

  /** The position lookup the driver does before deciding: it creates the ticker's position. */
  function Touched(st: Portfolio.LedgerState, ticker: string): Portfolio.LedgerState
  {
    st.(positions := Portfolio.WithPosition(st.positions, ticker).positions)
  }

  /** What the trader decides at a bar, given the quantity currently held. */
  function DecisionAt(st: Portfolio.LedgerState, bar: Bar, regime: int, cfg: RunConfig): Option<Trader.Decision>
  {
    Trader.DecideFill(bar.date, cfg.ticker, regime, Portfolio.Held(st.positions, cfg.ticker).qty, cfg.trader)
  }

  /**
   * One iteration of the walk: look the ticker up, decide, submit the fill (if
   * any) at the slipped open, then mark the book at the close with the ticker
   * as the only priced symbol.
   */
  function BarStep(st: Portfolio.LedgerState, bar: Bar, regime: int, cfg: RunConfig): (m: Result<Marked, RunError>)
    ensures m.Ok? ==> m.value.row == Portfolio.SnapshotOf(m.value.state, bar.date, map[cfg.ticker := bar.close])
  {
    var touched := Touched(st, cfg.ticker);
    var decision := DecisionAt(st, bar, regime, cfg);
    var traded :=
      if decision.None? then Ok(touched)
      else match SubmittedFill(bar, cfg, decision.value)
        case Err(e) => Err(e)
        case Ok(f) =>
          var r := Portfolio.Step(touched, f);
          if r.outcome.Failed? then Err(LedgerFailure(r.outcome.error)) else Ok(r.state);
    match traded
    case Err(e) => Err(e)
    case Ok(after) => Ok(Marked(after, Portfolio.SnapshotOf(after, bar.date, map[cfg.ticker := bar.close])))
  }

  /** The work done for one bar: from the ledger before it to the ledger after it and its row. */
  type BarFn = (Portfolio.LedgerState, Bar, int) -> Result<Marked, RunError>

  /** Run `step` over the bars in order, collecting one row per bar, stopping at the first failure. */
  function Fold(step: BarFn, st0: Portfolio.LedgerState, bars: seq<Bar>, regimes: seq<int>): (w: Result<Walked, RunError>)
    requires |regimes| == |bars|
    ensures w.Ok? ==> |w.value.rows| == |bars|
  {
    if bars == [] then Ok(Walked(st0, []))
    else
      var n := |bars| - 1;
      match Fold(step, st0, bars[..n], regimes[..n])
      case Err(e) => Err(e)
      case Ok(prev) =>
        match step(prev.state, bars[n], regimes[n])
        case Err(e) => Err(e)
        case Ok(m) => Ok(Walked(m.state, prev.rows + [m.row]))
  }

  /** A successful fold extends the successful fold over all but its last bar by one row. */
  lemma FoldExtends(step: BarFn, st0: Portfolio.LedgerState, bars: seq<Bar>, regimes: seq<int>)
    requires |regimes| == |bars| && bars != []
    requires Fold(step, st0, bars, regimes).Ok?
    ensures var pre := Fold(step, st0, bars[..|bars| - 1], regimes[..|bars| - 1]);
            && pre.Ok?
            && pre.value.rows == Fold(step, st0, bars, regimes).value.rows[..|bars| - 1]
  {
  }

  /** Folding is causal: the fold over the first `k` bars succeeds with the first `k` rows. */
  lemma {:induction false} FoldPrefix(step: BarFn, st0: Portfolio.LedgerState, bars: seq<Bar>, regimes: seq<int>, k: nat)
    requires |regimes| == |bars| && k <= |bars|
    requires Fold(step, st0, bars, regimes).Ok?
    ensures Fold(step, st0, bars[..k], regimes[..k]).Ok?
    ensures Fold(step, st0, bars[..k], regimes[..k]).value.rows == Fold(step, st0, bars, regimes).value.rows[..k]
  {
    if k < |bars| {
      var n := |bars| - 1;
      FoldExtends(step, st0, bars, regimes);
      FoldPrefix(step, st0, bars[..n], regimes[..n], k);
      assert bars[..n][..k] == bars[..k] && regimes[..n][..k] == regimes[..k];
      ghost var rows := Fold(step, st0, bars, regimes).value.rows;
      assert rows[..n][..k] == rows[..k];
    } else {
      assert bars[..k] == bars && regimes[..k] == regimes;
    }
  }

  /** A fold stops at its first failing bar: the bars after it change nothing. */
  lemma {:induction false} FoldStopsAtFailure(step: BarFn, st0: Portfolio.LedgerState, bars: seq<Bar>, regimes: seq<int>, k: nat)
    requires |regimes| == |bars| && k <= |bars|
    requires Fold(step, st0, bars[..k], regimes[..k]).Err?
    ensures Fold(step, st0, bars, regimes) == Fold(step, st0, bars[..k], regimes[..k])
  {
    if k < |bars| {
      var n := |bars| - 1;
      assert bars[..n][..k] == bars[..k] && regimes[..n][..k] == regimes[..k];
      FoldStopsAtFailure(step, st0, bars[..n], regimes[..n], k);
    } else {
      assert bars[..k] == bars && regimes[..k] == regimes;
    }
  }

  /** A fold that fails, fails with the failure of one bar's step from some ledger. */
  lemma {:induction false} FoldFailure(step: BarFn, st0: Portfolio.LedgerState, bars: seq<Bar>, regimes: seq<int>)
    requires |regimes| == |bars|
    requires Fold(step, st0, bars, regimes).Err?
    ensures exists st: Portfolio.LedgerState, i :: 0 <= i < |bars| && step(st, bars[i], regimes[i]) == Err(Fold(step, st0, bars, regimes).error)
  {
    var n := |bars| - 1;
    var prev := Fold(step, st0, bars[..n], regimes[..n]);
    if prev.Err? {
      FoldFailure(step, st0, bars[..n], regimes[..n]);
      var st: Portfolio.LedgerState, i :| 0 <= i < n && step(st, bars[..n][i], regimes[..n][i]) == Err(prev.error);
      assert bars[..n][i] == bars[i] && regimes[..n][i] == regimes[i];
    } else {
      assert step(prev.value.state, bars[n], regimes[n]) == Err(Fold(step, st0, bars, regimes).error);
    }
  }

  /** A fold whose step succeeds from every ledger on every bar completes. */
  lemma {:induction false} FoldSucceeds(step: BarFn, st0: Portfolio.LedgerState, bars: seq<Bar>, regimes: seq<int>)
    requires |regimes| == |bars|
    requires forall st: Portfolio.LedgerState, i :: 0 <= i < |bars| ==> step(st, bars[i], regimes[i]).Ok?
    ensures Fold(step, st0, bars, regimes).Ok?
  {
    if bars != [] {
      var n := |bars| - 1;
      forall st: Portfolio.LedgerState, i | 0 <= i < n ensures step(st, bars[..n][i], regimes[..n][i]).Ok? {
        assert bars[..n][i] == bars[i] && regimes[..n][i] == regimes[i];
      }
      FoldSucceeds(step, st0, bars[..n], regimes[..n]);
    }
  }

  /** The driver's step: `BarStep` under the run's configuration. */
  function StepOf(cfg: RunConfig): BarFn
  {
    (st, bar, regime) => BarStep(st, bar, regime, cfg)
  }

  /** The walk over the bars: the last row is the ledger after the last bar, marked at its close. */
  function Walk(st0: Portfolio.LedgerState, bars: seq<Bar>, regimes: seq<int>, cfg: RunConfig): (w: Result<Walked, RunError>)
    requires |regimes| == |bars|
    ensures w.Ok? ==> |w.value.rows| == |bars|
    ensures w.Ok? && bars != [] ==>
              w.value.rows[|bars| - 1] ==
              Portfolio.SnapshotOf(w.value.state, bars[|bars| - 1].date, map[cfg.ticker := bars[|bars| - 1].close])
  {
    Fold(StepOf(cfg), st0, bars, regimes)
  }

  /**
   * A bar either fails inside `apply_fill` or is marked. The side is always BUY
   * or SELL, so slippage never raises, and with a positive trade size the only
   * possible failure is a BUY that cannot be afforded at a price of 0.
   */
  lemma BarStepFailures(st: Portfolio.LedgerState, bar: Bar, regime: int, cfg: RunConfig)
    ensures var m := BarStep(st, bar, regime, cfg);
            m.Err? ==> m.error == LedgerFailure(Portfolio.NonPositiveQty) || m.error == LedgerFailure(Portfolio.DivisionByZero)
    ensures var m := BarStep(st, bar, regime, cfg);
            m.Err? && cfg.trader.tradeSize > 0 ==>
              && m.error == LedgerFailure(Portfolio.DivisionByZero)
              && DecisionAt(st, bar, regime, cfg).value.side == Portfolio.BUY
              && ApplySlippage(bar.open, Portfolio.BUY, cfg.slippageBps).value == 0.0
  {
    var touched := Touched(st, cfg.ticker);
    var decision := DecisionAt(st, bar, regime, cfg);
    if decision.Some? {
      var d := decision.value;
      var f := SubmittedFill(bar, cfg, d).value;
      assert f.side == d.side && f.qty == d.qty;
      Portfolio.InvalidFillFails(touched, f);
      if f.qty > 0 {
        Portfolio.ZeroPriceBuyFails(touched, f);
      }
    }
  }

  /**
   * How one bar moves the ledger: without a decision nothing is submitted and
   * only the ticker's lookup remains; with a decision exactly one fill goes to
   * `apply_fill`, for the ticker, dated at the bar, for the decided side and
   * quantity, at the slipped open price and with the fixed commission. The bar
   * fails exactly when that call fails, with its error.
   */
  lemma BarStepTrades(st: Portfolio.LedgerState, bar: Bar, regime: int, cfg: RunConfig)
    ensures var decision := DecisionAt(st, bar, regime, cfg);
            decision.None? ==> BarStep(st, bar, regime, cfg).Ok? && BarStep(st, bar, regime, cfg).value.state == Touched(st, cfg.ticker)
    ensures var decision := DecisionAt(st, bar, regime, cfg);
            decision.Some? ==>
              var d := decision.value;
              var px := ApplySlippage(bar.open, d.side, cfg.slippageBps);
              && px.Ok?
              && var f := Portfolio.Fill(bar.date, cfg.ticker, d.side, d.qty, px.value, cfg.commission);
                 var r := Portfolio.Step(Touched(st, cfg.ticker), f);
                 var m := BarStep(st, bar, regime, cfg);
                 && (r.outcome.Failed? ==> m == Err(LedgerFailure(r.outcome.error)))
                 && (!r.outcome.Failed? ==> m.Ok? && m.value.state == r.state)
  {
  }

  /** Every failure of a walk is one of the failures of a single bar. */
  lemma WalkFailures(st0: Portfolio.LedgerState, bars: seq<Bar>, regimes: seq<int>, cfg: RunConfig)
    requires |regimes| == |bars|
    ensures var w := Walk(st0, bars, regimes, cfg);
            w.Err? ==> w.error == LedgerFailure(Portfolio.NonPositiveQty) || w.error == LedgerFailure(Portfolio.DivisionByZero)
    ensures var w := Walk(st0, bars, regimes, cfg);
            w.Err? && cfg.trader.tradeSize > 0 ==> w.error == LedgerFailure(Portfolio.DivisionByZero)
  {
    var w := Walk(st0, bars, regimes, cfg);
    if w.Err? {
      FoldFailure(StepOf(cfg), st0, bars, regimes);
      var st: Portfolio.LedgerState, i :| 0 <= i < |bars| && StepOf(cfg)(st, bars[i], regimes[i]) == Err(w.error);
      BarStepFailures(st, bars[i], regimes[i], cfg);
    }
  }

  /** The walk is causal: the walk over the first `k` bars succeeds with the first `k` rows. */
  lemma WalkPrefix(st0: Portfolio.LedgerState, bars: seq<Bar>, regimes: seq<int>, cfg: RunConfig, k: nat)
    requires |regimes| == |bars| && k <= |bars|
    requires Walk(st0, bars, regimes, cfg).Ok?
    ensures var pre := Walk(st0, bars[..k], regimes[..k], cfg);
            pre.Ok? && pre.value.rows == Walk(st0, bars, regimes, cfg).value.rows[..k]
  {
    FoldPrefix(StepOf(cfg), st0, bars, regimes, k);
  }

  /** Row `k - 1` of a fold is the row of the step from the ledger after `k - 1` bars, which leaves the ledger after `k`. */
  lemma FoldRow(step: BarFn, st0: Portfolio.LedgerState, bars: seq<Bar>, regimes: seq<int>, k: nat)
    requires |regimes| == |bars| && 0 < k <= |bars|
    requires Fold(step, st0, bars, regimes).Ok?
    ensures Fold(step, st0, bars[..k - 1], regimes[..k - 1]).Ok?
    ensures Fold(step, st0, bars[..k], regimes[..k]).Ok?
    ensures var m := step(Fold(step, st0, bars[..k - 1], regimes[..k - 1]).value.state, bars[k - 1], regimes[k - 1]);
            && m.Ok?
            && Fold(step, st0, bars, regimes).value.rows[k - 1] == m.value.row
            && Fold(step, st0, bars[..k], regimes[..k]).value.state == m.value.state
  {
    FoldPrefix(step, st0, bars, regimes, k);
    assert bars[..k][..k - 1] == bars[..k - 1] && regimes[..k][..k - 1] == regimes[..k - 1];
    assert bars[..k][k - 1] == bars[k - 1] && regimes[..k][k - 1] == regimes[k - 1];
  }

  /**
   * Row `k - 1` of a walk is dated at its bar and is the snapshot of the
   * ledger after the first `k` bars, marked at that bar's close.
   */
  lemma WalkRows(st0: Portfolio.LedgerState, bars: seq<Bar>, regimes: seq<int>, cfg: RunConfig, k: nat)
    requires |regimes| == |bars| && 0 < k <= |bars|
    requires Walk(st0, bars, regimes, cfg).Ok?
    ensures Walk(st0, bars[..k], regimes[..k], cfg).Ok?
    ensures var pre := Walk(st0, bars[..k], regimes[..k], cfg);
            Walk(st0, bars, regimes, cfg).value.rows[k - 1] ==
            Portfolio.SnapshotOf(pre.value.state, bars[k - 1].date, map[cfg.ticker := bars[k - 1].close])
    ensures Walk(st0, bars, regimes, cfg).value.rows[k - 1].date == bars[k - 1].date
  {
    FoldRow(StepOf(cfg), st0, bars, regimes, k);
  }

  /** A BUY slipped by a non-negative number of basis points off a positive open stays positive. */
  lemma SlippedBuyPositive(price: real, bps: real)
    requires price > 0.0 && bps >= 0.0
    ensures ApplySlippage(price, Portfolio.BUY, bps).value > 0.0
  {
    var slip := bps / 10000.0;
    assert price * (1.0 + slip) == price + price * slip;
    Risk.NonNegProduct(price, slip);
  }

  /**
   * With positive opens, non-negative slippage and a positive trade size no
   * bar fails, so the walk completes from any ledger.
   */
  lemma WalkSucceeds(st0: Portfolio.LedgerState, bars: seq<Bar>, regimes: seq<int>, cfg: RunConfig)
    requires |regimes| == |bars|
    requires forall i :: 0 <= i < |bars| ==> bars[i].open > 0.0
    requires cfg.slippageBps >= 0.0 && cfg.trader.tradeSize > 0
    ensures Walk(st0, bars, regimes, cfg).Ok?
  {
    forall st: Portfolio.LedgerState, i | 0 <= i < |bars| ensures StepOf(cfg)(st, bars[i], regimes[i]).Ok? {
      BarStepFailures(st, bars[i], regimes[i], cfg);
      SlippedBuyPositive(bars[i].open, cfg.slippageBps);
    }
    FoldSucceeds(StepOf(cfg), st0, bars, regimes);
  }

  // ---------------------------------------------------------------------------
  // The post-pass
  // ---------------------------------------------------------------------------

  /** The equity column of the marked rows. */
  function Equity(rows: seq<Portfolio.SnapshotRow>): (eq: seq<real>)
    ensures |eq| == |rows| && forall i :: 0 <= i < |rows| ==> eq[i] == rows[i].equity
  {
    seq(|rows|, i requires 0 <= i < |rows| => rows[i].equity)
  }

  /** `Equity.diff().fillna(0.0)`: each day's change in equity, 0 on the first day. */
  function DailyPnl(eq: seq<real>): (pnl: seq<real>)
    ensures |pnl| == |eq|
  {
    seq(|eq|, i requires 0 <= i < |eq| => if i == 0 then 0.0 else eq[i] - eq[i - 1])
  }

  /** Daily PnL adds up to the equity change since the first day. */
  lemma {:induction false} DailyPnlTelescopes(eq: seq<real>, i: nat)
    requires i < |eq|
    ensures Trader.Sum(DailyPnl(eq)[..i + 1]) == eq[i] - eq[0]
  {
    var pnl := DailyPnl(eq);
    if i == 0 {
      assert pnl[..1] == [0.0];
      assert Trader.Sum([0.0]) == Trader.Sum([]) + 0.0;
    } else {
      DailyPnlTelescopes(eq, i - 1);
      assert pnl[..i + 1][..i] == pnl[..i];
    }
  }

  /** The daily PnL of a run of marked rows: 0 on the first row, then each row's change in equity. */
  lemma PnlOfRows(rows: seq<Portfolio.SnapshotRow>)
    ensures |DailyPnl(Equity(rows))| == |rows|
    ensures rows != [] ==> DailyPnl(Equity(rows))[0] == 0.0
    ensures forall i :: 0 < i < |rows| ==> DailyPnl(Equity(rows))[i] == rows[i].equity - rows[i - 1].equity
  {
    var eq := Equity(rows);
    assert forall i :: 0 < i < |rows| ==> DailyPnl(eq)[i] == eq[i] - eq[i - 1];
  }

  /** The fields of a marked row that the limit check reads, with that row's drawdown. */
  function LimitRow(row: Portfolio.SnapshotRow, dd: real): Risk.LimitInputs
  {
    Risk.LimitInputs(row.grossExposure, Some(dd), row.equity)
  }

  /** The limit check of every marked row, in row order. */
  function RowChecks(rows: seq<Portfolio.SnapshotRow>, dd: seq<real>, vars: seq<Option<real>>, limits: Risk.RiskLimits): (checks: seq<seq<Risk.Alert>>)
    requires |dd| == |rows| && |vars| == |rows|
    ensures |checks| == |rows|
    ensures forall i :: 0 <= i < |rows| ==> |checks[i]| <= 4
  {
    seq(|rows|, i requires 0 <= i < |rows| => Risk.CheckLimits(rows[i].date, LimitRow(rows[i], dd[i]), vars[i], limits))
  }

  /** The first `n` lists, concatenated in order. */
  function Concat(lists: seq<seq<Risk.Alert>>, n: nat): seq<Risk.Alert>
    requires n <= |lists|
  {
    if n == 0 then [] else Concat(lists, n - 1) + lists[n - 1]
  }

  /** Every element of the concatenation comes from one of the first `n` lists. */
  lemma {:induction false} ConcatSound(lists: seq<seq<Risk.Alert>>, n: nat, a: Risk.Alert)
    requires n <= |lists| && a in Concat(lists, n)
    ensures exists i :: 0 <= i < n && a in lists[i]
  {
    if a !in lists[n - 1] {
      ConcatSound(lists, n - 1, a);
    }
  }

  /** Every element of one of the first `n` lists is in the concatenation. */
  lemma {:induction false} ConcatComplete(lists: seq<seq<Risk.Alert>>, n: nat, i: nat, a: Risk.Alert)
    requires i < n <= |lists| && a in lists[i]
    ensures a in Concat(lists, n)
  {
    if i < n - 1 {
      ConcatComplete(lists, n - 1, i, a);
    }
  }

  /** A concatenation of lists of at most four alerts holds at most four per list. */
  lemma {:induction false} ConcatLength(lists: seq<seq<Risk.Alert>>, n: nat)
    requires n <= |lists| && forall i :: 0 <= i < |lists| ==> |lists[i]| <= 4
    ensures |Concat(lists, n)| <= 4 * n
  {
    if n > 0 {
      ConcatLength(lists, n - 1);
    }
  }

  /** The alerts pass over the first `n` rows: `check_limits` for each in order, concatenated. */
  function AlertsOf(rows: seq<Portfolio.SnapshotRow>, dd: seq<real>, vars: seq<Option<real>>, limits: Risk.RiskLimits, n: nat): (alerts: seq<Risk.Alert>)
    requires |dd| == |rows| && |vars| == |rows| && n <= |rows|
    ensures |alerts| <= 4 * n
  {
    ConcatLength(RowChecks(rows, dd, vars, limits), n);
    Concat(RowChecks(rows, dd, vars, limits), n)
  }

  /** Whether the limit check of row `i` raised alert `a`. */
  predicate RaisedAt(rows: seq<Portfolio.SnapshotRow>, dd: seq<real>, vars: seq<Option<real>>, limits: Risk.RiskLimits, i: int, a: Risk.Alert)
    requires |dd| == |rows| && |vars| == |rows|
  {
    0 <= i < |rows| && a in Risk.CheckLimits(rows[i].date, LimitRow(rows[i], dd[i]), vars[i], limits)
  }

  /** An alert is in the list exactly when the limit check of one of the first `n` rows raised it. */
  lemma AlertsOfMembers(rows: seq<Portfolio.SnapshotRow>, dd: seq<real>, vars: seq<Option<real>>, limits: Risk.RiskLimits, n: nat)
    requires |dd| == |rows| && |vars| == |rows| && n <= |rows|
    ensures forall a :: a in AlertsOf(rows, dd, vars, limits, n) <==> exists i :: i < n && RaisedAt(rows, dd, vars, limits, i, a)
  {
    var checks := RowChecks(rows, dd, vars, limits);
    forall a | a in AlertsOf(rows, dd, vars, limits, n) ensures exists i :: i < n && RaisedAt(rows, dd, vars, limits, i, a) {
      ConcatSound(checks, n, a);
      var i :| 0 <= i < n && a in checks[i];
      assert RaisedAt(rows, dd, vars, limits, i, a);
    }
    forall a, i | i < n && RaisedAt(rows, dd, vars, limits, i, a) ensures a in AlertsOf(rows, dd, vars, limits, n) {
      assert a in checks[i];
      ConcatComplete(checks, n, i, a);
    }
  }

  /** The result of a completed run. */
  datatype RunReport = RunReport(
    rows: seq<Portfolio.SnapshotRow>,
    drawdown: seq<real>,
    dailyPnl: seq<real>,
    vars: seq<Option<real>>,
    alerts: seq<Risk.Alert>,
    ledger: Portfolio.LedgerState)

  /** The whole driver: checks, signals, the walk, then the post-pass. */
  function RunSpec(bars: seq<Bar>, cfg: RunConfig): Result<RunReport, RunError>
  {
    if |bars| < Max(cfg.trader.fast, cfg.trader.slow) + 5 then Err(NotEnoughRows)
    else match Trader.GenerateSignals(Closes(bars), cfg.trader.fast, cfg.trader.slow)
      case Err(e) => Err(SignalFailure(e))
      case Ok(regimes) =>
        if cfg.initialCash <= 0.0 then Err(LedgerFailure(Portfolio.NonPositiveInitialCash))
        else match Walk(Portfolio.Opened(cfg.initialCash), bars, regimes, cfg)
          case Err(e) => Err(e)
          case Ok(w) =>
            var eq := Equity(w.rows);
            var dd := Risk.ComputeDrawdown(eq);
            var pnl := DailyPnl(eq);
            match Risk.VarSeries(pnl, cfg.varSpec.window, cfg.varSpec.alpha)
            case Err(e) => Err(RiskFailure(e))
            case Ok(vars) => Ok(RunReport(w.rows, dd, pnl, vars, AlertsOf(w.rows, dd, vars, cfg.limits, |w.rows|), w.state))
  }

  // ---------------------------------------------------------------------------
  // The driver over the Portfolio object
  // ---------------------------------------------------------------------------

  /**
   * One bar of the walk-forward loop: look the ticker up, decide, submit the
   * slipped fill when there is a decision, and mark the book at the close.
   */
  method MarkBar(portfolio: Portfolio.Portfolio, bar: Bar, regime: int, cfg: RunConfig)
    returns (r: Result<Portfolio.SnapshotRow, RunError>)
    requires portfolio.Valid()
    modifies portfolio
    ensures portfolio.Valid()
    ensures var m := BarStep(old(portfolio.State()), bar, regime, cfg);
            && (r.Err? <==> m.Err?)
            && (r.Err? ==> r.error == m.error)
            && (r.Ok? ==> r.value == m.value.row && portfolio.State() == m.value.state)
  {
    ghost var before := portfolio.State();
    var pos := portfolio.GetPosition(cfg.ticker);
    assert portfolio.State() == Touched(before, cfg.ticker);
    var decision := Trader.DecideFill(bar.date, cfg.ticker, regime, pos.qty, cfg.trader);
    assert decision == DecisionAt(before, bar, regime, cfg);
    if decision.Some? {
      var px := ApplySlippage(bar.open, decision.value.side, cfg.slippageBps);
      var fill := Portfolio.Fill(bar.date, cfg.ticker, decision.value.side, decision.value.qty, px.value, cfg.commission);
      assert SubmittedFill(bar, cfg, decision.value) == Ok(fill);
      var outcome := portfolio.ApplyFill(fill);
      if outcome.Failed? {
        return Err(LedgerFailure(outcome.error));
      }
    }
    var snap := portfolio.Snapshot(bar.date, map[cfg.ticker := bar.close]);
    return Ok(snap);
  }

  /** The walk-forward loop over the bars, stopping at the first bar that fails. */
  method MarkBars(portfolio: Portfolio.Portfolio, bars: seq<Bar>, regimes: seq<int>, cfg: RunConfig)
    returns (r: Result<seq<Portfolio.SnapshotRow>, RunError>)
    requires |regimes| == |bars| && portfolio.Valid()
    modifies portfolio
    ensures portfolio.Valid()
    ensures var w := Walk(old(portfolio.State()), bars, regimes, cfg);
            && (r.Err? <==> w.Err?)
            && (r.Err? ==> r.error == w.error)
            && (r.Ok? ==> r.value == w.value.rows && portfolio.State() == w.value.state)
  {
    ghost var st0 := portfolio.State();
    var rows: seq<Portfolio.SnapshotRow> := [];
    var i := 0;
    while i < |bars|
      invariant 0 <= i <= |bars| && portfolio.Valid()
      invariant Walk(st0, bars[..i], regimes[..i], cfg) == Ok(Walked(portfolio.State(), rows))
    {
      assert bars[..i + 1][..i] == bars[..i] && regimes[..i + 1][..i] == regimes[..i];
      var marked := MarkBar(portfolio, bars[i], regimes[i], cfg);
      if marked.Err? {
        FoldStopsAtFailure(StepOf(cfg), st0, bars, regimes, i + 1);
        return Err(marked.error);
      }
      rows := rows + [marked.value];
      i := i + 1;
    }
    assert bars[..i] == bars && regimes[..i] == regimes;
    return Ok(rows);
  }

  /** The alerts pass: extend the list with `check_limits` of every row, in order. */
  method CollectAlerts(rows: seq<Portfolio.SnapshotRow>, dd: seq<real>, vars: seq<Option<real>>, limits: Risk.RiskLimits)
    returns (alerts: seq<Risk.Alert>)
    requires |dd| == |rows| && |vars| == |rows|
    ensures alerts == AlertsOf(rows, dd, vars, limits, |rows|)
  {
    ghost var checks := RowChecks(rows, dd, vars, limits);
    alerts := [];
    var i := 0;
    while i < |rows|
      invariant 0 <= i <= |rows|
      invariant alerts == Concat(checks, i)
    {
      var raised := Risk.CheckLimits(rows[i].date, LimitRow(rows[i], dd[i]), vars[i], limits);
      assert raised == checks[i];
      alerts := alerts + raised;
      i := i + 1;
    }
  }

  /** The driver: the length check, signals, a fresh portfolio, the walk and the post-pass. */
  method WalkForward(bars: seq<Bar>, cfg: RunConfig) returns (r: Result<RunReport, RunError>)
    ensures r == RunSpec(bars, cfg)
  {
    if |bars| < Max(cfg.trader.fast, cfg.trader.slow) + 5 {
      return Err(NotEnoughRows);
    }
    var signals := Trader.GenerateSignals(Closes(bars), cfg.trader.fast, cfg.trader.slow);
    if signals.Err? {
      return Err(SignalFailure(signals.error));
    }
    var regimes := signals.value;
    var created := Portfolio.Portfolio.Create(cfg.initialCash);
    if created.Err? {
      return Err(LedgerFailure(created.error));
    }
    var portfolio := created.value;
    var marked := MarkBars(portfolio, bars, regimes, cfg);
    if marked.Err? {
      return Err(marked.error);
    }
    var rows := marked.value;
    var eq := Equity(rows);
    var dd := Risk.ComputeDrawdown(eq);
    var pnl := DailyPnl(eq);
    var vars := Risk.RollingHistoricalVar(pnl, cfg.varSpec.window, cfg.varSpec.alpha);
    if vars.Err? {
      return Err(RiskFailure(vars.error));
    }
    var alerts := CollectAlerts(rows, dd, vars.value, cfg.limits);
    return Ok(RunReport(rows, dd, pnl, vars.value, alerts, portfolio.State()));
  }

  // ---------------------------------------------------------------------------
  // Properties of a run
  // ---------------------------------------------------------------------------

  /** Why a run stops before the walk: too few bars, a negative window, or a non-positive cash amount. */
  lemma RunEarlyExits(bars: seq<Bar>, cfg: RunConfig)
    ensures RunSpec(bars, cfg) == Err(NotEnoughRows) <==> |bars| < Max(cfg.trader.fast, cfg.trader.slow) + 5
    ensures |bars| >= Max(cfg.trader.fast, cfg.trader.slow) + 5 ==>
              (RunSpec(bars, cfg) == Err(SignalFailure(Trader.NegativeWindow)) <==> cfg.trader.fast < 0 || cfg.trader.slow < 0)
    ensures |bars| >= Max(cfg.trader.fast, cfg.trader.slow) + 5 && cfg.trader.fast >= 0 && cfg.trader.slow >= 0 ==>
              (RunSpec(bars, cfg) == Err(LedgerFailure(Portfolio.NonPositiveInitialCash)) <==> cfg.initialCash <= 0.0)
  {
    if |bars| >= Max(cfg.trader.fast, cfg.trader.slow) + 5 {
      var sig := Trader.GenerateSignals(Closes(bars), cfg.trader.fast, cfg.trader.slow);
      if sig.Ok? && cfg.initialCash > 0.0 {
        WalkFailures(Portfolio.Opened(cfg.initialCash), bars, sig.value, cfg);
      }
    }
  }

  /**
   * A run completes when the checks before the walk pass, every open is
   * positive, slippage is non-negative, the trade size is positive and the VaR
   * parameters are accepted.
   */
  lemma RunCompletes(bars: seq<Bar>, cfg: RunConfig)
    requires |bars| >= Max(cfg.trader.fast, cfg.trader.slow) + 5
    requires cfg.trader.fast >= 0 && cfg.trader.slow >= 0 && cfg.initialCash > 0.0
    requires forall i :: 0 <= i < |bars| ==> bars[i].open > 0.0
    requires cfg.slippageBps >= 0.0 && cfg.trader.tradeSize > 0
    requires cfg.varSpec.window >= Risk.MinWindow && 0.0 <= cfg.varSpec.alpha <= 1.0
    ensures RunSpec(bars, cfg).Ok?
  {
    var regimes := Trader.GenerateSignals(Closes(bars), cfg.trader.fast, cfg.trader.slow).value;
    WalkSucceeds(Portfolio.Opened(cfg.initialCash), bars, regimes, cfg);
  }

  /**
   * The configuration the command line builds when only the ticker is given:
   * 100000 cash, 2 bps slippage, commission 1, and the trader, VaR and limit
   * defaults.
   */
  function DefaultRunConfig(ticker: string): (cfg: RunConfig)
    ensures cfg.ticker == ticker
  {
    RunConfig(ticker, 100000.0, 2.0, 1.0, Trader.DefaultConfig, Risk.DefaultVaRSpec, Risk.DefaultLimits)
  }

  /** With the command-line defaults, any history of at least 105 bars with positive opens runs to completion. */
  lemma DefaultRunCompletes(bars: seq<Bar>, ticker: string)
    requires |bars| >= 105
    requires forall i :: 0 <= i < |bars| ==> bars[i].open > 0.0
    ensures RunSpec(bars, DefaultRunConfig(ticker)).Ok?
  {
    RunCompletes(bars, DefaultRunConfig(ticker));
  }

  /** A completed run is the walk from a fresh ledger followed by the post-pass over its rows. */
  lemma RunParts(bars: seq<Bar>, cfg: RunConfig)
    requires RunSpec(bars, cfg).Ok?
    ensures var rep := RunSpec(bars, cfg).value;
            var sig := Trader.GenerateSignals(Closes(bars), cfg.trader.fast, cfg.trader.slow);
            && sig.Ok? && cfg.initialCash > 0.0
            && Walk(Portfolio.Opened(cfg.initialCash), bars, sig.value, cfg) == Ok(Walked(rep.ledger, rep.rows))
            && rep.drawdown == Risk.ComputeDrawdown(Equity(rep.rows))
            && rep.dailyPnl == DailyPnl(Equity(rep.rows))
            && Risk.VarSeries(rep.dailyPnl, cfg.varSpec.window, cfg.varSpec.alpha) == Ok(rep.vars)
            && rep.alerts == AlertsOf(rep.rows, rep.drawdown, rep.vars, cfg.limits, |rep.rows|)
  {
  }

  /**
   * A completed run has one row per bar, in bar order; with `WalkRows`, row
   * `k - 1` is the snapshot of the ledger after bar `k - 1`, marked at its close.
   */
  lemma RunRows(bars: seq<Bar>, cfg: RunConfig)
    requires RunSpec(bars, cfg).Ok?
    ensures var rep := RunSpec(bars, cfg).value;
            && |rep.rows| == |bars|
            && (forall i :: 0 <= i < |bars| ==> rep.rows[i].date == bars[i].date)
  {
    RunParts(bars, cfg);
    var regimes := Trader.GenerateSignals(Closes(bars), cfg.trader.fast, cfg.trader.slow).value;
    var st0 := Portfolio.Opened(cfg.initialCash);
    var rows := RunSpec(bars, cfg).value.rows;
    forall i | 0 <= i < |bars| ensures rows[i].date == bars[i].date {
      WalkRows(st0, bars, regimes, cfg, i + 1);
    }
  }

  /**
   * Drawdown, daily PnL and VaR have one entry per bar; daily PnL is 0 on the
   * first bar and the change in equity after.
   */
  lemma RunSeries(bars: seq<Bar>, cfg: RunConfig)
    requires RunSpec(bars, cfg).Ok?
    ensures var rep := RunSpec(bars, cfg).value;
            && |rep.drawdown| == |bars| && |rep.dailyPnl| == |bars| && |rep.vars| == |bars|
            && rep.dailyPnl[0] == 0.0
            && (forall i :: 0 < i < |bars| ==> rep.dailyPnl[i] == rep.rows[i].equity - rep.rows[i - 1].equity)
  {
    RunParts(bars, cfg);
    var rep := RunSpec(bars, cfg).value;
    PnlOfRows(rep.rows);
    Risk.VarSeriesShape(rep.dailyPnl, cfg.varSpec.window, cfg.varSpec.alpha);
  }

  /** A VaR alert comes from a row whose VaR entry is present, and carries that entry. */
  lemma VaRAlertsNeedVaR(rows: seq<Portfolio.SnapshotRow>, dd: seq<real>, vars: seq<Option<real>>, limits: Risk.RiskLimits)
    requires |dd| == |rows| && |vars| == |rows|
    ensures forall a :: a in AlertsOf(rows, dd, vars, limits, |rows|) && a.kind == Risk.VaR ==>
              exists i :: 0 <= i < |rows| && a.date == rows[i].date && vars[i] == Some(a.value)
  {
    AlertsOfMembers(rows, dd, vars, limits, |rows|);
    forall a | a in AlertsOf(rows, dd, vars, limits, |rows|) && a.kind == Risk.VaR
      ensures exists i :: 0 <= i < |rows| && a.date == rows[i].date && vars[i] == Some(a.value)
    {
      var i :| i < |rows| && RaisedAt(rows, dd, vars, limits, i, a);
      Risk.CheckLimitsValues(rows[i].date, LimitRow(rows[i], dd[i]), vars[i], limits);
    }
  }

  /**
   * Alerts are the per-row limit checks and nothing else, and a VaR alert only
   * comes from a row whose VaR window has filled (no alert during the warm-up).
   */
  lemma RunAlerts(bars: seq<Bar>, cfg: RunConfig)
    requires RunSpec(bars, cfg).Ok?
    ensures var rep := RunSpec(bars, cfg).value;
            forall a :: a in rep.alerts <==> exists i :: i < |rep.rows| && RaisedAt(rep.rows, rep.drawdown, rep.vars, cfg.limits, i, a)
    ensures var rep := RunSpec(bars, cfg).value;
            forall a :: a in rep.alerts && a.kind == Risk.VaR ==>
              exists i :: cfg.varSpec.window - 1 <= i < |bars| && a.date == bars[i].date && rep.vars[i] == Some(a.value)
  {
    var rep := RunSpec(bars, cfg).value;
    RunParts(bars, cfg);
    RunRows(bars, cfg);
    RunSeries(bars, cfg);
    AlertsOfMembers(rep.rows, rep.drawdown, rep.vars, cfg.limits, |rep.rows|);
    VaRAlertsNeedVaR(rep.rows, rep.drawdown, rep.vars, cfg.limits);
    Risk.VarSeriesShape(rep.dailyPnl, cfg.varSpec.window, cfg.varSpec.alpha);
  }

  /**
   * The driver never asks to sell more than it holds, so the ledger executes a
   * driver SELL in full and the recorded quantity is the same whether it is
   * taken from the request or from the executed amount.
   */
  lemma DriverSellsWithinHolding(st: Portfolio.LedgerState, bar: Bar, regime: int, cfg: RunConfig)
    requires cfg.trader.tradeSize > 0
    requires DecisionAt(st, bar, regime, cfg).Some? && DecisionAt(st, bar, regime, cfg).value.side == Portfolio.SELL
    ensures var d := DecisionAt(st, bar, regime, cfg).value;
            var f := SubmittedFill(bar, cfg, d).value;
            var sold := Min(f.qty, Portfolio.Held(st.positions, cfg.ticker).qty);
            && 0 < f.qty <= Portfolio.Held(st.positions, cfg.ticker).qty
            && sold == f.qty
            && Portfolio.RecordedSellAsWritten(f, sold) == Portfolio.RecordedSell(f, sold)
  {
  }
}
