/**
 * The risk engine: historical Value-at-Risk over a trailing window of daily PnL,
 * drawdown from the running equity peak, and the per-date limit check.
 */
module Risk {
  import opened Common

  /** Alert thresholds; the defaults are 200000 gross, 20% drawdown, 2500 VaR. */
  datatype RiskLimits = RiskLimits(maxGrossExposure: real, maxDrawdown: real, maxVar: real)

  const DefaultLimits: RiskLimits := RiskLimits(200000.0, 0.20, 2500.0)

  /** VaR window length and confidence; the defaults are 250 days at 99%. */
  datatype VaRSpec = VaRSpec(window: int, alpha: real)

  const DefaultVaRSpec: VaRSpec := VaRSpec(250, 0.99)

  /** The shortest VaR window `rolling_historical_var` accepts. */
  const MinWindow: int := 20

  datatype RiskError =
    | WindowTooSmall        // window < 20
    | QuantileOutOfRange    // 1 - alpha outside [0, 1], rejected by the quantile routine

  // ---------------------------------------------------------------------------
  // Order statistics
  // ---------------------------------------------------------------------------

  predicate Sorted(s: seq<real>)
  {
    forall i, j :: 0 <= i < j < |s| ==> s[i] <= s[j]
  }

  /** Insert `x` into a sorted sequence. */
  function Insert(x: real, s: seq<real>): (r: seq<real>)
    requires Sorted(s)
    ensures |r| == |s| + 1
    ensures Sorted(r) && multiset(r) == multiset(s) + multiset{x}
  {
    if s == [] then [x]
    else if x <= s[0] then [x] + s
    else
      var rest := Insert(x, s[1..]);
      assert s == [s[0]] + s[1..];
      InsertAbove(x, s, rest);
      [s[0]] + rest
  }

  /** What is inserted behind the head of a sorted sequence stays at or above that head. */
  lemma InsertAbove(x: real, s: seq<real>, rest: seq<real>)
    requires Sorted(s) && |s| > 0 && s[0] < x
    requires Sorted(rest) && multiset(rest) == multiset(s[1..]) + multiset{x}
    ensures Sorted([s[0]] + rest)
  {
    forall k | 0 <= k < |rest| ensures s[0] <= rest[k] {
      assert rest[k] in multiset(rest);
      if rest[k] != x {
        assert rest[k] in multiset(s[1..]);
        var m :| 0 <= m < |s[1..]| && s[1..][m] == rest[k];
        assert s[m + 1] == rest[k];
      }
    }
    var r := [s[0]] + rest;
    forall i, j | 0 <= i < j < |r| ensures r[i] <= r[j] {
      if i > 0 {
        assert r[i] == rest[i - 1] && r[j] == rest[j - 1];
      } else {
        assert r[j] == rest[j - 1];
      }
    }
  }

  /** The sample in ascending order. */
  function Sort(s: seq<real>): (r: seq<real>)
    ensures |r| == |s|
    ensures Sorted(r) && multiset(r) == multiset(s)
  {
    if s == [] then []
    else
      assert s == s[..|s| - 1] + [s[|s| - 1]];
      Insert(s[|s| - 1], Sort(s[..|s| - 1]))
  }

  /** A sorted permutation of `x` puts at position 0 an element no greater than any element of `x`. */
  lemma SortedEnds(x: seq<real>)
    requires |x| > 0
    ensures |Sort(x)| == |x|
    ensures forall i :: 0 <= i < |x| ==> Sort(x)[0] <= x[i] <= Sort(x)[|x| - 1]
    ensures forall k :: 0 <= k < |x| ==> exists i :: 0 <= i < |x| && x[i] == Sort(x)[k]
  {
    PermutationEnds(x, Sort(x));
  }

  /** Any sorted permutation `s` of `x` starts at a minimum of `x`, ends at a maximum, and holds only elements of `x`. */
  lemma PermutationEnds(x: seq<real>, s: seq<real>)
    requires |x| > 0 && |s| == |x| && Sorted(s) && multiset(s) == multiset(x)
    ensures forall i :: 0 <= i < |x| ==> s[0] <= x[i] <= s[|x| - 1]
    ensures forall k :: 0 <= k < |x| ==> exists i :: 0 <= i < |x| && x[i] == s[k]
  {
    forall i | 0 <= i < |x| ensures s[0] <= x[i] <= s[|x| - 1] {
      assert x[i] in multiset(x);
      assert x[i] in s;
    }
    forall k | 0 <= k < |x| ensures exists i :: 0 <= i < |x| && x[i] == s[k] {
      assert s[k] in multiset(s);
      assert s[k] in multiset(x);
    }
  }

  /** Linear interpolation from `a` (at t = 0) to `b` (at t = 1). */
  function Lerp(a: real, b: real, t: real): real
  {
    a + t * (b - a)
  }

  /** Interpolating between a <= b with t in [0, 1] stays between a and b. */
  lemma LerpBetween(a: real, b: real, t: real)
    requires a <= b && 0.0 <= t <= 1.0
    ensures a <= Lerp(a, b, t) <= b
  {
    NonNegProduct(t, b - a);
    NonNegProduct(1.0 - t, b - a);
    assert b - (a + t * (b - a)) == (1.0 - t) * (b - a);
  }

  lemma NonNegProduct(x: real, y: real)
    requires x >= 0.0 && y >= 0.0
    ensures x * y >= 0.0
  {
  }

  /** The virtual index h = (n - 1) q of the q-quantile of n order statistics. */
  function VirtualIndex(n: int, q: real): real
  {
    (n - 1) as real * q
  }

  /** The virtual index lies in [0, n - 1], its floor too, and h - floor(h) is a fraction. */
  lemma VirtualIndexInRange(n: int, q: real)
    requires n > 0 && 0.0 <= q <= 1.0
    ensures 0.0 <= VirtualIndex(n, q) <= (n - 1) as real
    ensures 0 <= VirtualIndex(n, q).Floor <= n - 1
    ensures 0.0 <= VirtualIndex(n, q) - VirtualIndex(n, q).Floor as real < 1.0
  {
    var m := (n - 1) as real;
    NonNegProduct(m, q);
    NonNegProduct(m, 1.0 - q);
    assert m - m * q == m * (1.0 - q);
    var h := VirtualIndex(n, q);
    assert 0.0 <= h <= m;
    assert h.Floor as real <= h < h.Floor as real + 1.0;
  }

  /**
   * The default (linear, Hyndman-Fan type 7) quantile: sort, take the virtual
   * index h = (n - 1) q, and interpolate between the order statistics at
   * floor(h) and floor(h) + 1 (clipped to the last one). The result never
   * leaves the range of the sample.
   */
  function Quantile(x: seq<real>, q: real): (r: real)
    requires |x| > 0 && 0.0 <= q <= 1.0
    ensures exists i :: 0 <= i < |x| && x[i] <= r
    ensures exists j :: 0 <= j < |x| && r <= x[j]
  {
    VirtualIndexInRange(|x|, q);
    SortedEnds(x);
    var s := Sort(x);
    var h := VirtualIndex(|x|, q);
    var lo := h.Floor;
    var hi := Min(lo + 1, |x| - 1);
    assert s[lo] <= s[hi];
    InterpolationInSample(x, s, lo, hi, h - lo as real);
    Lerp(s[lo], s[hi], h - lo as real)
  }

  /** Interpolating between two elements of `x` lands inside the range of `x`. */
  lemma InterpolationInSample(x: seq<real>, s: seq<real>, lo: int, hi: int, t: real)
    requires 0 <= lo <= hi < |s| && s[lo] <= s[hi] && 0.0 <= t <= 1.0
    requires forall k :: 0 <= k < |s| ==> exists i :: 0 <= i < |x| && x[i] == s[k]
    ensures exists i :: 0 <= i < |x| && x[i] <= Lerp(s[lo], s[hi], t)
    ensures exists j :: 0 <= j < |x| && Lerp(s[lo], s[hi], t) <= x[j]
  {
    LerpBetween(s[lo], s[hi], t);
    var i :| 0 <= i < |x| && x[i] == s[lo];
    var j :| 0 <= j < |x| && x[j] == s[hi];
  }

  /** At q = 0 the quantile is the sample minimum. */
  lemma QuantileAtZeroIsMin(x: seq<real>)
    requires |x| > 0
    ensures forall i :: 0 <= i < |x| ==> Quantile(x, 0.0) <= x[i]
  {
    SortedEnds(x);
    var s := Sort(x);
    var h := VirtualIndex(|x|, 0.0);
    assert h == 0.0 && h.Floor == 0;
    var hi := Min(1, |x| - 1);
    assert Lerp(s[0], s[hi], 0.0) == s[0];
    assert Quantile(x, 0.0) == Lerp(s[0], s[hi], 0.0);
  }

  /** At q = 1 the quantile is the sample maximum. */
  lemma QuantileAtOneIsMax(x: seq<real>)
    requires |x| > 0
    ensures forall i :: 0 <= i < |x| ==> x[i] <= Quantile(x, 1.0)
  {
    SortedEnds(x);
    var s := Sort(x);
    var n := |x|;
    var h := VirtualIndex(n, 1.0);
    assert h == (n - 1) as real && h.Floor == n - 1;
    assert Min(n, n - 1) == n - 1;
    assert Lerp(s[n - 1], s[n - 1], 0.0) == s[n - 1];
    assert Quantile(x, 1.0) == Lerp(s[n - 1], s[n - 1], 0.0);
  }

  // ---------------------------------------------------------------------------
  // Rolling historical VaR
  // ---------------------------------------------------------------------------

  /** `var_of_window`: VaR = max(0, -quantile(window, 1 - alpha)). */
  function VarOfWindow(x: seq<real>, alpha: real): (r: real)
    requires |x| > 0 && 0.0 <= 1.0 - alpha <= 1.0
    ensures r >= 0.0
    ensures (forall i :: 0 <= i < |x| ==> x[i] >= 0.0) ==> r == 0.0
    ensures r > 0.0 ==> exists i :: 0 <= i < |x| && x[i] <= -r
  {
    MaxReal(0.0, -Quantile(x, 1.0 - alpha))
  }

  /** The VaR entry at index `i`: absent while the window is still filling. */
  function VarAt(pnl: seq<real>, window: int, alpha: real, i: int): Option<real>
    requires 0 <= i < |pnl| && window >= 1
    requires i >= window - 1 ==> 0.0 <= 1.0 - alpha <= 1.0
  {
    if i < window - 1 then None else Some(VarOfWindow(pnl[i - window + 1..i + 1], alpha))
  }

  /**
   * The VaR series: absent before the window first fills, then VaR of the
   * trailing inclusive window ending at each index.
   */
  function VarSeries(pnl: seq<real>, window: int, alpha: real): (r: Result<seq<Option<real>>, RiskError>)
    ensures r.Ok? ==> |r.value| == |pnl|
  {
    if window < MinWindow then Err(WindowTooSmall)
    else if window - 1 < |pnl| && !(0.0 <= 1.0 - alpha <= 1.0) then Err(QuantileOutOfRange)
    else Ok(seq(|pnl|, i requires 0 <= i < |pnl| => VarAt(pnl, window, alpha, i)))
  }

  /**
   * `rolling_historical_var`: rejects a window under 20, then fills a
   * preallocated array of absent entries from index window - 1 onward.
   */
  method RollingHistoricalVar(pnl: seq<real>, window: int, alpha: real) returns (r: Result<seq<Option<real>>, RiskError>)
    ensures r == VarSeries(pnl, window, alpha)
  {
    if window < MinWindow {
      return Err(WindowTooSmall);
    }
    if window - 1 < |pnl| && !(0.0 <= 1.0 - alpha <= 1.0) {
      // the first window's quantile call rejects alpha before any entry is filled
      return Err(QuantileOutOfRange);
    }
    var out := new Option<real>[|pnl|](_ => None);
    var i := window - 1;
    while i < |pnl|
      invariant window - 1 <= i && (i <= |pnl| || i == window - 1)
      invariant forall j :: 0 <= j < |pnl| ==> out[j] == if j < i then VarAt(pnl, window, alpha, j) else None
    {
      var v := VarOfWindow(pnl[i - window + 1..i + 1], alpha);
      assert VarAt(pnl, window, alpha, i) == Some(v);
      out[i] := Some(v);
      i := i + 1;
    }
    r := Ok(out[..]);
    assert r.value == VarSeries(pnl, window, alpha).value;
  }

  /** The rejections of `rolling_historical_var`. */
  lemma VarSeriesErrors(pnl: seq<real>, window: int, alpha: real)
    ensures VarSeries(pnl, window, alpha) == Err(WindowTooSmall) <==> window < 20
    ensures VarSeries(pnl, window, alpha) == Err(QuantileOutOfRange) <==>
            window >= 20 && window <= |pnl| && (alpha < 0.0 || alpha > 1.0)
  {
  }

  /**
   * One entry per input; absent exactly before index window - 1; every present
   * entry non-negative, zero when its window has no loss, and otherwise backed
   * by a loss at least as large in its window.
   */
  lemma VarSeriesShape(pnl: seq<real>, window: int, alpha: real)
    requires VarSeries(pnl, window, alpha).Ok?
    ensures var v := VarSeries(pnl, window, alpha).value;
            && |v| == |pnl|
            && (forall i :: 0 <= i < |v| ==> (v[i].None? <==> i < window - 1))
            && (forall i :: 0 <= i < |v| && v[i].Some? ==> v[i].value >= 0.0)
    ensures var v := VarSeries(pnl, window, alpha).value;
            forall i :: window - 1 <= i < |v| ==>
              && ((forall j :: i - window + 1 <= j <= i ==> pnl[j] >= 0.0) ==> v[i] == Some(0.0))
              && (v[i].value > 0.0 ==> exists j :: i - window + 1 <= j <= i && pnl[j] <= -v[i].value)
  {
    var v := VarSeries(pnl, window, alpha).value;
    forall i | window - 1 <= i < |v|
      ensures (forall j :: i - window + 1 <= j <= i ==> pnl[j] >= 0.0) ==> v[i] == Some(0.0)
      ensures v[i].value > 0.0 ==> exists j :: i - window + 1 <= j <= i && pnl[j] <= -v[i].value
    {
      var w := pnl[i - window + 1..i + 1];
      assert forall k :: 0 <= k < |w| ==> w[k] == pnl[i - window + 1 + k];
      if forall j :: i - window + 1 <= j <= i ==> pnl[j] >= 0.0 {
        assert forall k :: 0 <= k < |w| ==> w[k] >= 0.0;
      }
      if v[i].value > 0.0 {
        var k :| 0 <= k < |w| && w[k] <= -v[i].value;
        assert pnl[i - window + 1 + k] <= -v[i].value;
      }
    }
  }

  /**
   * No look-ahead: the VaR series of a prefix of the PnL history is the prefix
   * of the VaR series of the whole history.
   */
  lemma VarSeriesPrefix(pnl: seq<real>, n: nat, window: int, alpha: real)
    requires n <= |pnl| && VarSeries(pnl, window, alpha).Ok?
    ensures VarSeries(pnl[..n], window, alpha).Ok?
    ensures VarSeries(pnl[..n], window, alpha).value == VarSeries(pnl, window, alpha).value[..n]
  {
    var a := VarSeries(pnl[..n], window, alpha).value;
    var b := VarSeries(pnl, window, alpha).value;
    forall i | 0 <= i < n ensures a[i] == b[i] {
      if i >= window - 1 {
        assert pnl[..n][i - window + 1..i + 1] == pnl[i - window + 1..i + 1];
      }
    }
  }

  // ---------------------------------------------------------------------------
  // Drawdown
  // ---------------------------------------------------------------------------

  /** The running maximum of equity, including the current point (`cummax`). */
  function RunningPeak(eq: seq<real>): (peak: seq<real>)
    ensures |peak| == |eq|
  {
    if eq == [] then []
    else
      var prev := RunningPeak(eq[..|eq| - 1]);
      var last := eq[|eq| - 1];
      prev + [if prev == [] then last else MaxReal(prev[|prev| - 1], last)]
  }

  /** Each running peak is the maximum of the equity curve up to and including its index. */
  lemma {:induction false} RunningPeakIsMax(eq: seq<real>)
    ensures forall i, j :: 0 <= j <= i < |eq| ==> eq[j] <= RunningPeak(eq)[i]
    ensures forall i :: 0 <= i < |eq| ==> exists j :: 0 <= j <= i && RunningPeak(eq)[i] == eq[j]
  {
    if eq != [] {
      var init := eq[..|eq| - 1];
      RunningPeakIsMax(init);
      var prev := RunningPeak(init);
      var peak := RunningPeak(eq);
      var n := |eq| - 1;
      assert peak[..n] == prev;
      forall i, j | 0 <= j <= i < |eq| ensures eq[j] <= peak[i] {
        if i < n {
          assert eq[j] == init[j];
        } else if j < n {
          assert eq[j] <= prev[n - 1];
        }
      }
      forall i | 0 <= i < |eq| ensures exists j :: 0 <= j <= i && peak[i] == eq[j] {
        if i < n {
          var j :| 0 <= j <= i && prev[i] == init[j];
          assert peak[i] == eq[j];
        } else if n > 0 && peak[i] == prev[n - 1] {
          var j :| 0 <= j <= n - 1 && prev[n - 1] == init[j];
          assert peak[i] == eq[j];
        } else {
          assert peak[i] == eq[n];
        }
      }
    }
  }

  /** The drawdown of equity `e` below `peak`: (peak - e) / peak, with a zero peak giving 0. */
  function DrawdownOf(peak: real, e: real): real
  {
    if peak == 0.0 then 0.0 else (peak - e) / peak
  }

  /** `compute_drawdown`: the drawdown of every point below its running peak. */
  function ComputeDrawdown(eq: seq<real>): (dd: seq<real>)
    ensures |dd| == |eq|
  {
    var peak := RunningPeak(eq);
    seq(|eq|, i requires 0 <= i < |eq| => DrawdownOf(peak[i], eq[i]))
  }

  /** Below a positive peak at least as high, the drawdown is a fraction in [0, 1), 0 only at the peak. */
  lemma DrawdownOfPoint(peak: real, e: real)
    requires 0.0 < e <= peak
    ensures 0.0 <= DrawdownOf(peak, e) < 1.0
    ensures DrawdownOf(peak, e) == 0.0 <==> e == peak
  {
    var d := (peak - e) / peak;
    assert d * peak == peak - e;
    assert (1.0 - d) * peak == peak - d * peak;
    FactorSign(d, peak);
    FactorSign(1.0 - d, peak);
  }

  /**
   * With positive equity throughout, every drawdown lies in [0, 1) and is 0
   * exactly where equity stands at its running peak.
   */
  lemma DrawdownBounds(eq: seq<real>)
    requires forall i :: 0 <= i < |eq| ==> eq[i] > 0.0
    ensures forall i :: 0 <= i < |eq| ==> 0.0 <= ComputeDrawdown(eq)[i] < 1.0
    ensures forall i :: 0 <= i < |eq| ==> (ComputeDrawdown(eq)[i] == 0.0 <==> eq[i] == RunningPeak(eq)[i])
  {
    var peak := RunningPeak(eq);
    var dd := ComputeDrawdown(eq);
    RunningPeakIsMax(eq);
    forall i | 0 <= i < |eq|
      ensures 0.0 <= dd[i] < 1.0
      ensures dd[i] == 0.0 <==> eq[i] == peak[i]
    {
      assert eq[i] <= peak[i];
      assert dd[i] == DrawdownOf(peak[i], eq[i]);
      DrawdownOfPoint(peak[i], eq[i]);
    }
  }

  /** Where the running peak is 0 the drawdown is 0, whatever the equity. */
  lemma DrawdownAtZeroPeak(eq: seq<real>, i: nat)
    requires i < |eq| && RunningPeak(eq)[i] == 0.0
    ensures ComputeDrawdown(eq)[i] == 0.0
  {
  }

  /** No look-ahead: a prefix of the equity curve gives a prefix of the peaks and drawdowns. */
  lemma {:induction false} DrawdownPrefix(eq: seq<real>, n: nat)
    requires n <= |eq|
    ensures RunningPeak(eq[..n]) == RunningPeak(eq)[..n]
    ensures ComputeDrawdown(eq[..n]) == ComputeDrawdown(eq)[..n]
  {
    if n == |eq| {
      assert eq[..n] == eq;
    } else {
      var init := eq[..|eq| - 1];
      DrawdownPrefix(init, n);
      assert init[..n] == eq[..n];
      assert RunningPeak(eq)[..|init|] == RunningPeak(init);
      assert RunningPeak(init)[..n] == RunningPeak(eq)[..n];
    }
    var a := ComputeDrawdown(eq[..n]);
    var b := ComputeDrawdown(eq)[..n];
    assert forall i :: 0 <= i < n ==> a[i] == b[i];
  }

  // ---------------------------------------------------------------------------
  // Limit checks
  // ---------------------------------------------------------------------------

  datatype AlertKind = GrossExposure | Drawdown | VaR | EquityNonPositive

  /** The fixed order in which `check_limits` emits alerts. */
  function Rank(k: AlertKind): nat
  {
    match k
    case GrossExposure => 0
    case Drawdown => 1
    case VaR => 2
    case EquityNonPositive => 3
  }

  datatype Alert = Alert(date: int, kind: AlertKind, value: real, limit: real)

  /** The fields of a marked row that `check_limits` reads; the drawdown may be missing. */
  datatype LimitInputs = LimitInputs(grossExposure: real, drawdown: Option<real>, equity: real)

  /** The drawdown a row reports, 0 when it has none. */
  function DrawdownOrZero(row: LimitInputs): real
  {
    if row.drawdown.Some? then row.drawdown.value else 0.0
  }

  predicate Raised(alerts: seq<Alert>, k: AlertKind)
  {
    exists a :: a in alerts && a.kind == k
  }

  /** Alerts listed in strictly increasing rank, so each kind at most once and in the fixed order. */
  predicate Ranked(alerts: seq<Alert>)
  {
    forall i, j :: 0 <= i < j < |alerts| ==> Rank(alerts[i].kind) < Rank(alerts[j].kind)
  }

  /** One conditional append of `check_limits`. */
  function Emit(breached: bool, a: Alert): seq<Alert>
  {
    if breached then [a] else []
  }

  function GrossAlert(date: int, row: LimitInputs, limits: RiskLimits): Alert
  {
    Alert(date, GrossExposure, row.grossExposure, limits.maxGrossExposure)
  }

  function DrawdownAlert(date: int, row: LimitInputs, limits: RiskLimits): Alert
  {
    Alert(date, Drawdown, DrawdownOrZero(row), limits.maxDrawdown)
  }

  function VaRAlert(date: int, v: real, limits: RiskLimits): Alert
  {
    Alert(date, VaR, v, limits.maxVar)
  }

  function EquityAlert(date: int, row: LimitInputs): Alert
  {
    Alert(date, EquityNonPositive, row.equity, 0.0)
  }

  /** Whether the VaR value is present and above its limit. */
  predicate VaRBreached(varValue: Option<real>, limits: RiskLimits)
  {
    varValue.Some? && varValue.value > limits.maxVar
  }

  /** `check_limits`: one alert per breached limit, gross, drawdown, VaR and equity in that order. */
  function CheckLimits(date: int, row: LimitInputs, varValue: Option<real>, limits: RiskLimits): (alerts: seq<Alert>)
    ensures |alerts| <= 4
    ensures forall a :: a in alerts ==> a.date == date
  {
    Emit(row.grossExposure > limits.maxGrossExposure, GrossAlert(date, row, limits))
    + Emit(DrawdownOrZero(row) >= limits.maxDrawdown, DrawdownAlert(date, row, limits))
    + Emit(VaRBreached(varValue, limits), VaRAlert(date, if varValue.Some? then varValue.value else 0.0, limits))
    + Emit(row.equity <= 0.0, EquityAlert(date, row))
  }

  /** Each kind of alert is raised exactly when its limit is breached. */
  lemma CheckLimitsRaises(date: int, row: LimitInputs, varValue: Option<real>, limits: RiskLimits)
    ensures var alerts := CheckLimits(date, row, varValue, limits);
            && (Raised(alerts, GrossExposure) <==> row.grossExposure > limits.maxGrossExposure)
            && (Raised(alerts, Drawdown) <==> DrawdownOrZero(row) >= limits.maxDrawdown)
            && (Raised(alerts, VaR) <==> varValue.Some? && varValue.value > limits.maxVar)
            && (Raised(alerts, EquityNonPositive) <==> row.equity <= 0.0)
  {
    var g := Emit(row.grossExposure > limits.maxGrossExposure, GrossAlert(date, row, limits));
    var d := Emit(DrawdownOrZero(row) >= limits.maxDrawdown, DrawdownAlert(date, row, limits));
    var v := Emit(VaRBreached(varValue, limits), VaRAlert(date, if varValue.Some? then varValue.value else 0.0, limits));
    var e := Emit(row.equity <= 0.0, EquityAlert(date, row));
    assert CheckLimits(date, row, varValue, limits) == g + d + v + e;
    RaisedInParts(g, d, v, e, GrossExposure);
    RaisedInParts(g, d, v, e, Drawdown);
    RaisedInParts(g, d, v, e, VaR);
    RaisedInParts(g, d, v, e, EquityNonPositive);
    RaisedByEmit(row.grossExposure > limits.maxGrossExposure, GrossAlert(date, row, limits));
    RaisedByEmit(DrawdownOrZero(row) >= limits.maxDrawdown, DrawdownAlert(date, row, limits));
    RaisedByEmit(VaRBreached(varValue, limits), VaRAlert(date, if varValue.Some? then varValue.value else 0.0, limits));
    RaisedByEmit(row.equity <= 0.0, EquityAlert(date, row));
  }

  /** A kind is raised in four joined lists exactly when it is raised in one of them. */
  lemma RaisedInParts(g: seq<Alert>, d: seq<Alert>, v: seq<Alert>, e: seq<Alert>, k: AlertKind)
    ensures Raised(g + d + v + e, k) <==> Raised(g, k) || Raised(d, k) || Raised(v, k) || Raised(e, k)
  {
    var all := g + d + v + e;
    if Raised(all, k) {
      var a :| a in all && a.kind == k;
      assert a in g || a in d || a in v || a in e;
    }
    if Raised(g, k) || Raised(d, k) || Raised(v, k) || Raised(e, k) {
      var a :| (a in g || a in d || a in v || a in e) && a.kind == k;
      assert a in all;
    }
  }

  /** A conditional append raises exactly its own kind, and only when its condition holds. */
  lemma RaisedByEmit(breached: bool, a: Alert)
    ensures forall k :: Raised(Emit(breached, a), k) <==> breached && a.kind == k
  {
    if breached {
      assert a in Emit(breached, a);
    }
  }

  /** Every alert carries the breached value and its limit. */
  lemma CheckLimitsValues(date: int, row: LimitInputs, varValue: Option<real>, limits: RiskLimits)
    ensures forall a :: a in CheckLimits(date, row, varValue, limits) ==>
              && (a.kind == GrossExposure ==> a.value == row.grossExposure && a.limit == limits.maxGrossExposure)
              && (a.kind == Drawdown ==> a.value == DrawdownOrZero(row) && a.limit == limits.maxDrawdown)
              && (a.kind == VaR ==> varValue == Some(a.value) && a.limit == limits.maxVar)
              && (a.kind == EquityNonPositive ==> a.value == row.equity && a.limit == 0.0)
  {
    var g := Emit(row.grossExposure > limits.maxGrossExposure, GrossAlert(date, row, limits));
    var d := Emit(DrawdownOrZero(row) >= limits.maxDrawdown, DrawdownAlert(date, row, limits));
    var v := Emit(VaRBreached(varValue, limits), VaRAlert(date, if varValue.Some? then varValue.value else 0.0, limits));
    var e := Emit(row.equity <= 0.0, EquityAlert(date, row));
    assert CheckLimits(date, row, varValue, limits) == g + d + v + e;
  }

  /** Alerts come in the fixed order gross, drawdown, VaR, equity, each kind at most once. */
  lemma CheckLimitsOrder(date: int, row: LimitInputs, varValue: Option<real>, limits: RiskLimits)
    ensures Ranked(CheckLimits(date, row, varValue, limits))
  {
    var g := Emit(row.grossExposure > limits.maxGrossExposure, GrossAlert(date, row, limits));
    var d := Emit(DrawdownOrZero(row) >= limits.maxDrawdown, DrawdownAlert(date, row, limits));
    var v := Emit(VaRBreached(varValue, limits), VaRAlert(date, if varValue.Some? then varValue.value else 0.0, limits));
    var e := Emit(row.equity <= 0.0, EquityAlert(date, row));
    assert CheckLimits(date, row, varValue, limits) == g + d + v + e;
    RankedAppend(g, d, 1);
    RankedAppend(g + d, v, 2);
    RankedAppend(g + d + v, e, 3);
  }

  /** Two ranked lists whose ranks are separated by `m` stay ranked when joined. */
  lemma RankedAppend(a: seq<Alert>, b: seq<Alert>, m: nat)
    requires Ranked(a) && Ranked(b)
    requires forall x :: x in a ==> Rank(x.kind) < m
    requires forall y :: y in b ==> m <= Rank(y.kind)
    ensures Ranked(a + b)
  {
    var c := a + b;
    forall i, j | 0 <= i < j < |c| ensures Rank(c[i].kind) < Rank(c[j].kind) {
      if j < |a| {
        assert c[i] == a[i] && c[j] == a[j];
      } else if i >= |a| {
        assert c[i] == b[i - |a|] && c[j] == b[j - |a|];
      } else {
        assert c[i] == a[i] && a[i] in a;
        assert c[j] == b[j - |a|] && b[j - |a|] in b;
      }
    }
  }
}
