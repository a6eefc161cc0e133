/**
 * The demo strategy of trader.py: a 0/1 regime from a crossover of two
 * trailing means of the close, and the per-bar order decision.
 */
module Trader {
  import opened Common
  import Portfolio

  /** `TraderConfig`: the two mean windows and the shares per trade event. */
  datatype TraderConfig = TraderConfig(fast: int, slow: int, tradeSize: int)

  const DefaultConfig: TraderConfig := TraderConfig(20, 100, 25)

  // ---------------------------------------------------------------------------
  // generate_signals
  // ---------------------------------------------------------------------------

  /** The rolling-mean rejection: a window must not be negative. */
  datatype SignalError = NegativeWindow

  function Sum(s: seq<real>): real
  {
    if s == [] then 0.0 else Sum(s[..|s| - 1]) + s[|s| - 1]
  }

  /**
   * `close.rolling(w, min_periods=w).mean()` at index `i`: the mean of the
   * trailing inclusive window of `w` closes, absent until the window is full
   * (and always absent for a window of 0, whose mean is undefined).
   */
  function TrailingMean(close: seq<real>, i: int, w: int): Option<real>
    requires 0 <= i < |close|
  {
    if 1 <= w <= i + 1 then Some(Sum(close[i - w + 1..i + 1]) / w as real) else None
  }

  /** The regime at index `i`: 1 when both means exist and the fast one is above the slow one. */
  function Regime(close: seq<real>, i: int, fast: int, slow: int): int
    requires 0 <= i < |close|
  {
    var f := TrailingMean(close, i, fast);
    var s := TrailingMean(close, i, slow);
    if f.Some? && s.Some? && f.value > s.value then 1 else 0
  }

  /** `generate_signals`: one regime per close; a negative window is rejected. */
  function GenerateSignals(close: seq<real>, fast: int, slow: int): (r: Result<seq<int>, SignalError>)
    ensures r.Ok? ==> |r.value| == |close|
  {
    if fast < 0 || slow < 0 then Err(NegativeWindow)
    else Ok(seq(|close|, i requires 0 <= i < |close| => Regime(close, i, fast, slow)))
  }

  /**
   * The signal series has one entry per close, each 0 or 1, and is 1 exactly
   * when both trailing windows are full and the fast mean exceeds the slow mean.
   */
  lemma SignalsShape(close: seq<real>, fast: int, slow: int)
    ensures GenerateSignals(close, fast, slow).Err? <==> fast < 0 || slow < 0
    ensures GenerateSignals(close, fast, slow).Ok? ==>
              var sig := GenerateSignals(close, fast, slow).value;
              && |sig| == |close|
              && (forall i :: 0 <= i < |sig| ==> sig[i] == 0 || sig[i] == 1)
              && (forall i :: 0 <= i < |sig| ==>
                    (sig[i] == 1 <==>
                      && 1 <= fast <= i + 1 && 1 <= slow <= i + 1
                      && Sum(close[i - fast + 1..i + 1]) / fast as real > Sum(close[i - slow + 1..i + 1]) / slow as real))
  {
  }

  /** Before the longer window has filled, the regime is flat. */
  lemma WarmUpIsFlat(close: seq<real>, fast: int, slow: int, i: int)
    requires GenerateSignals(close, fast, slow).Ok?
    requires 0 <= i < |close| && i + 1 < Max(fast, slow)
    ensures GenerateSignals(close, fast, slow).value[i] == 0
  {
  }

  /** No look-ahead: the signals of a prefix of the closes are the prefix of the signals. */
  lemma SignalsPrefix(close: seq<real>, n: nat, fast: int, slow: int)
    requires n <= |close| && GenerateSignals(close, fast, slow).Ok?
    ensures GenerateSignals(close[..n], fast, slow).Ok?
    ensures GenerateSignals(close[..n], fast, slow).value == GenerateSignals(close, fast, slow).value[..n]
  {
    var a := GenerateSignals(close[..n], fast, slow).value;
    var b := GenerateSignals(close, fast, slow).value;
    forall i | 0 <= i < n ensures a[i] == b[i] {
      if 1 <= fast <= i + 1 {
        assert close[..n][i - fast + 1..i + 1] == close[i - fast + 1..i + 1];
      }
      if 1 <= slow <= i + 1 {
        assert close[..n][i - slow + 1..i + 1] == close[i - slow + 1..i + 1];
      }
    }
  }

  /** A sum of values within [lo, hi] lies within [n * lo, n * hi]. */
  lemma {:induction false} SumBounds(s: seq<real>, lo: real, hi: real)
    requires forall k :: 0 <= k < |s| ==> lo <= s[k] <= hi
    ensures |s| as real * lo <= Sum(s) <= |s| as real * hi
  {
    if s != [] {
      var init := s[..|s| - 1];
      assert forall k :: 0 <= k < |init| ==> init[k] == s[k];
      SumBounds(init, lo, hi);
      assert |s| as real * lo == |init| as real * lo + lo;
      assert |s| as real * hi == |init| as real * hi + hi;
    }
  }

  /** A quotient by a positive number keeps the side of a bound scaled by that number. */
  lemma QuotientBounds(x: real, w: real, lo: real, hi: real)
    requires w > 0.0 && w * lo <= x <= w * hi
    ensures lo <= x / w <= hi
  {
    var m := x / w;
    assert m * w == x;
    assert (m - lo) * w == x - w * lo;
    assert (hi - m) * w == w * hi - x;
    FactorSign(m - lo, w);
    FactorSign(hi - m, w);
  }

  /** A trailing mean lies within the range of the closes in its window. */
  lemma TrailingMeanBounds(close: seq<real>, i: int, w: int, lo: real, hi: real)
    requires 0 <= i < |close| && 1 <= w <= i + 1
    requires forall j :: i - w + 1 <= j <= i ==> lo <= close[j] <= hi
    ensures lo <= TrailingMean(close, i, w).value <= hi
  {
    var win := close[i - w + 1..i + 1];
    assert forall k :: 0 <= k < |win| ==> win[k] == close[i - w + 1 + k];
    SumBounds(win, lo, hi);
    QuotientBounds(Sum(win), w as real, lo, hi);
  }

  /** A market whose close never moves never enters the long regime. */
  lemma FlatPricesGiveNoSignal(close: seq<real>, c: real, fast: int, slow: int)
    requires forall j :: 0 <= j < |close| ==> close[j] == c
    requires fast >= 0 && slow >= 0
    ensures forall i :: 0 <= i < |close| ==> GenerateSignals(close, fast, slow).value[i] == 0
  {
    var sig := GenerateSignals(close, fast, slow).value;
    forall i | 0 <= i < |close| ensures sig[i] == 0 {
      if 1 <= fast <= i + 1 && 1 <= slow <= i + 1 {
        TrailingMeanBounds(close, i, fast, c, c);
        TrailingMeanBounds(close, i, slow, c, c);
      }
    }
  }

  // ---------------------------------------------------------------------------
  // decide_fill
  // ---------------------------------------------------------------------------

  /** An order the trader asks for: side and share count. */
  datatype Decision = Decision(side: string, qty: int)

  /**
   * `decide_fill`: in the long regime buy a chunk; in the flat regime sell a
   * chunk of what is held, never more; any other regime value means no order.
   * The date and symbol do not influence the decision.
   */
  function DecideFill(date: int, symbol: string, regime: int, currentQty: int, cfg: TraderConfig): (d: Option<Decision>)
    ensures d.Some? ==> d.value.side == Portfolio.BUY || d.value.side == Portfolio.SELL
    ensures d.Some? && d.value.side == Portfolio.SELL && cfg.tradeSize > 0 ==> 0 < d.value.qty <= currentQty
  {
    if regime != 0 && regime != 1 then None
    else if regime == 1 then Some(Decision(Portfolio.BUY, cfg.tradeSize))
    else if currentQty <= 0 then None
    else Some(Decision(Portfolio.SELL, Min(cfg.tradeSize, currentQty)))
  }

  /** The decision rule case by case. */
  lemma DecideFillCases(date: int, symbol: string, regime: int, currentQty: int, cfg: TraderConfig)
    ensures regime != 0 && regime != 1 ==> DecideFill(date, symbol, regime, currentQty, cfg).None?
    ensures regime == 1 ==> DecideFill(date, symbol, regime, currentQty, cfg) == Some(Decision(Portfolio.BUY, cfg.tradeSize))
    ensures regime == 0 ==>
              (DecideFill(date, symbol, regime, currentQty, cfg).None? <==> currentQty <= 0)
    ensures regime == 0 && currentQty > 0 ==>
              var d := DecideFill(date, symbol, regime, currentQty, cfg).value;
              d.side == Portfolio.SELL && d.qty <= cfg.tradeSize && d.qty <= currentQty
              && (d.qty == cfg.tradeSize || d.qty == currentQty)
  {
  }
}
