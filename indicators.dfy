/**
 * The price-processing indicators: trailing moving average, RSI and
 * Bollinger bands, as pandas computes them over a close-price series.
 * A position pandas leaves undefined (NaN) is `None`.
 */
module Indicators {
  import opened Wrappers

  // ---------------------------------------------------------------------
  // Sums and means

  function Sum(s: seq<real>): real
  {
    if s == [] then 0.0 else Sum(s[..|s| - 1]) + s[|s| - 1]
  }

  function Mean(s: seq<real>): real
    requires s != []
  {
    Sum(s) / |s| as real
  }

  /** The `w` observations ending at index `i`. */
  function Window(s: seq<real>, i: nat, w: nat): (win: seq<real>)
    requires 0 < w <= i + 1 <= |s|
    ensures |win| == w
  {
    s[i + 1 - w..i + 1]
  }

  lemma {:induction false} SumBounds(s: seq<real>, lo: real, hi: real)
    requires forall k :: 0 <= k < |s| ==> lo <= s[k] <= hi
    ensures |s| as real * lo <= Sum(s) <= |s| as real * hi
  {
    if s != [] {
      SumBounds(s[..|s| - 1], lo, hi);
    }
  }

  /** A mean lies within any bounds that hold for every observation. */
  lemma MeanBounds(s: seq<real>, lo: real, hi: real)
    requires s != []
    requires forall k :: 0 <= k < |s| ==> lo <= s[k] <= hi
    ensures lo <= Mean(s) <= hi
  {
    SumBounds(s, lo, hi);
    var n := |s| as real;
    assert Sum(s) / n >= lo by {
      assert Sum(s) >= n * lo;
    }
    assert Sum(s) / n <= hi by {
      assert Sum(s) <= n * hi;
    }
  }

  lemma {:induction false} SumConstant(s: seq<real>, c: real)
    requires forall k :: 0 <= k < |s| ==> s[k] == c
    ensures Sum(s) == |s| as real * c
  {
    if s != [] {
      SumConstant(s[..|s| - 1], c);
    }
  }

  lemma {:induction false} SumAppend(s: seq<real>, t: seq<real>)
    ensures Sum(s + t) == Sum(s) + Sum(t)
    decreases |t|
  {
    if t == [] {
      assert s + t == s;
    } else {
      assert (s + t)[..|s + t| - 1] == s + t[..|t| - 1];
      SumAppend(s, t[..|t| - 1]);
    }
  }

  /** If every observation of `s` is below its partner in `t`, so is the sum. */
  lemma {:induction false} SumStrictlyBelow(s: seq<real>, t: seq<real>)
    requires |s| == |t| > 0
    requires forall k :: 0 <= k < |s| ==> s[k] < t[k]
    ensures Sum(s) < Sum(t)
  {
    if |s| > 1 {
      SumStrictlyBelow(s[..|s| - 1], t[..|t| - 1]);
    }
  }

  // ---------------------------------------------------------------------
  // Trailing moving average: `series.rolling(window=w).mean()`

  function RollingMeanAt(s: seq<real>, i: nat, w: nat): Option<real>
    requires 0 < w && i < |s|
  {
    if i + 1 >= w then Some(Mean(Window(s, i, w))) else None
  }

  /** `.fillna(v)` */
  function FillNa(s: seq<Option<real>>, v: real): (r: seq<real>)
    ensures |r| == |s|
    ensures forall i :: 0 <= i < |s| ==> r[i] == s[i].GetOr(v)
  {
    seq(|s|, i requires 0 <= i < |s| => s[i].GetOr(v))
  }

  function Zeros(n: nat): (r: seq<real>)
    ensures |r| == n && forall i :: 0 <= i < n ==> r[i] == 0.0
  {
    seq(n, _ => 0.0)
  }

  /** `PriceDataProcessor.calculate_ma`. */
  function CalculateMa(prices: seq<real>, window: nat): (ma: seq<real>)
    requires window > 0
    ensures |ma| == |prices|
    ensures forall i :: 0 <= i < |ma| && i + 1 < window ==> ma[i] == 0.0
  {
    if |prices| < window then Zeros(|prices|)
    else FillNa(seq(|prices|, i requires 0 <= i < |prices| => RollingMeanAt(prices, i, window)), 0.0)
  }

  /**
   * The moving average has the input's length; a position with fewer than
   * `window` observations up to it reads 0.0, every other position is the
   * mean of the `window` prices ending there.
   */
  lemma CalculateMaAt(prices: seq<real>, window: nat, i: nat)
    requires window > 0 && i < |prices|
    ensures |CalculateMa(prices, window)| == |prices|
    ensures i + 1 < window ==> CalculateMa(prices, window)[i] == 0.0
    ensures i + 1 >= window ==> CalculateMa(prices, window)[i] == Mean(Window(prices, i, window))
  {
  }

  /** Past the warm-up, the moving average stays within the range of its window. */
  lemma CalculateMaWithinWindow(prices: seq<real>, window: nat, i: nat, lo: real, hi: real)
    requires window > 0 && window <= i + 1 <= |prices|
    requires forall k :: i + 1 - window <= k <= i ==> lo <= prices[k] <= hi
    ensures lo <= CalculateMa(prices, window)[i] <= hi
  {
    var win := Window(prices, i, window);
    forall k | 0 <= k < |win| ensures lo <= win[k] <= hi {
      assert win[k] == prices[i + 1 - window + k];
    }
    MeanBounds(win, lo, hi);
  }

  // ---------------------------------------------------------------------
  // Relative strength index

  /**
   * `delta.where(delta > 0, 0)`: the first delta is NaN, and NaN > 0 is false,
   * so it becomes 0 like every non-positive step.
   */
  function Gains(p: seq<real>): (g: seq<real>)
    ensures |g| == |p|
    ensures forall i :: 0 <= i < |g| ==> g[i] >= 0.0
  {
    seq(|p|, i requires 0 <= i < |p| => if i > 0 && p[i] - p[i - 1] > 0.0 then p[i] - p[i - 1] else 0.0)
  }

  /** `-delta.where(delta < 0, 0)` */
  function Losses(p: seq<real>): (l: seq<real>)
    ensures |l| == |p|
    ensures forall i :: 0 <= i < |l| ==> l[i] >= 0.0
  {
    seq(|p|, i requires 0 <= i < |p| => if i > 0 && p[i] - p[i - 1] < 0.0 then p[i - 1] - p[i] else 0.0)
  }

  lemma GainsLossesStep(p: seq<real>, i: nat)
    requires i < |p|
    ensures Gains(p)[i] >= 0.0 && Losses(p)[i] >= 0.0
    ensures Gains(p)[i] == 0.0 || Losses(p)[i] == 0.0
    ensures i > 0 ==> Gains(p)[i] - Losses(p)[i] == p[i] - p[i - 1]
  {
  }

  /**
   * `100 - 100 / (1 + gain / loss)` under IEEE rules: a zero loss with a
   * positive gain gives an infinite ratio and so 100; zero over zero is NaN.
   */
  function RsiOf(gain: real, loss: real): Option<real>
    requires gain >= 0.0 && loss >= 0.0
  {
    if loss > 0.0 then Some(100.0 - 100.0 / (1.0 + gain / loss))
    else if gain > 0.0 then Some(100.0)
    else None
  }

  /** Closed form: RSI is the share of gains in all movement, times 100. */
  lemma QuotientUnique(b: real, s: real, x: real)
    requires s != 0.0 && b * s == x
    ensures b == x / s
  {
  }

  lemma RsiOfPositiveLoss(gain: real, loss: real)
    requires gain >= 0.0 && loss > 0.0
    ensures 100.0 - 100.0 / (1.0 + gain / loss) == 100.0 * gain / (gain + loss)
  {
    var s := gain + loss;
    var q := 1.0 + gain / loss;
    assert q * loss == s by {
      assert (gain / loss) * loss == gain;
    }
    var b := 100.0 / q;
    assert b * q == 100.0;
    assert b * s == 100.0 * loss by {
      assert b * s == (b * q) * loss;
    }
    QuotientUnique(b, s, 100.0 * loss);
    QuotientUnique(100.0 - b, s, 100.0 * gain);
  }

  lemma ShareWithin(gain: real, s: real)
    requires 0.0 <= gain <= s && s > 0.0
    ensures 0.0 <= 100.0 * gain / s <= 100.0
  {
    var r := 100.0 * gain / s;
    assert r * s == 100.0 * gain;
  }

  /** Closed form: RSI is the share of gains in all movement, times 100. */
  lemma RsiClosedForm(gain: real, loss: real)
    requires gain >= 0.0 && loss >= 0.0
    ensures RsiOf(gain, loss).None? <==> gain == 0.0 && loss == 0.0
    ensures gain + loss > 0.0 ==> RsiOf(gain, loss) == Some(100.0 * gain / (gain + loss))
    ensures RsiOf(gain, loss).Some? ==> 0.0 <= RsiOf(gain, loss).value <= 100.0
  {
    if loss > 0.0 {
      RsiOfPositiveLoss(gain, loss);
    } else if gain > 0.0 {
      QuotientUnique(100.0, gain, 100.0 * gain);
    }
    if gain + loss > 0.0 {
      ShareWithin(gain, gain + loss);
    }
  }

  lemma {:induction false} SumNonNegative(s: seq<real>)
    requires forall k :: 0 <= k < |s| ==> s[k] >= 0.0
    ensures Sum(s) >= 0.0
  {
    if s != [] {
      SumNonNegative(s[..|s| - 1]);
    }
  }

  function AverageGain(p: seq<real>, i: nat, period: nat): (g: real)
    requires 0 < period <= i + 1 <= |p|
    ensures g >= 0.0
  {
    var win := Window(Gains(p), i, period);
    SumNonNegative(win);
    Mean(win)
  }

  function AverageLoss(p: seq<real>, i: nat, period: nat): (l: real)
    requires 0 < period <= i + 1 <= |p|
    ensures l >= 0.0
  {
    var win := Window(Losses(p), i, period);
    SumNonNegative(win);
    Mean(win)
  }

  /** The unfilled RSI series at index `i` (rolling means of gains and losses). */
  function RsiAt(p: seq<real>, i: nat, period: nat): Option<real>
    requires 0 < period && i < |p|
  {
    if i + 1 >= period then RsiOf(AverageGain(p, i, period), AverageLoss(p, i, period)) else None
  }

  /** `PriceDataProcessor.calculate_rsi`. */
  function CalculateRsi(prices: seq<real>, period: nat): (rsi: seq<real>)
    requires period > 0
    ensures |rsi| == |prices|
    ensures forall i :: 0 <= i < |rsi| ==> 0.0 <= rsi[i] <= 100.0
    ensures |prices| >= period + 1 ==> forall i :: 0 <= i < |rsi| && i + 1 < period ==> rsi[i] == 50.0
  {
    if |prices| < period + 1 then Zeros(|prices|)
    else
      RsiSeriesWithin(prices, period);
      FillNa(seq(|prices|, i requires 0 <= i < |prices| => RsiAt(prices, i, period)), 50.0)
  }

  /** Every defined RSI value lies in [0, 100]. */
  lemma RsiSeriesWithin(prices: seq<real>, period: nat)
    requires period > 0
    ensures forall i :: 0 <= i < |prices| && RsiAt(prices, i, period).Some? ==> 0.0 <= RsiAt(prices, i, period).value <= 100.0
  {
    forall i | 0 <= i < |prices| && RsiAt(prices, i, period).Some?
      ensures 0.0 <= RsiAt(prices, i, period).value <= 100.0
    {
      RsiClosedForm(AverageGain(prices, i, period), AverageLoss(prices, i, period));
    }
  }

  /**
   * Short input reads all 0.0 (not the neutral 50); otherwise every position
   * lies in [0, 100], the warm-up reads 50, and a defined position equals
   * 100 * gain / (gain + loss) over the trailing window.
   */
  lemma CalculateRsiAt(prices: seq<real>, period: nat, i: nat)
    requires period > 0 && i < |prices|
    ensures |CalculateRsi(prices, period)| == |prices|
    ensures |prices| < period + 1 ==> CalculateRsi(prices, period)[i] == 0.0
    ensures |prices| >= period + 1 ==> 0.0 <= CalculateRsi(prices, period)[i] <= 100.0
    ensures |prices| >= period + 1 && i + 1 < period ==> CalculateRsi(prices, period)[i] == 50.0
    ensures |prices| >= period + 1 && i + 1 >= period ==>
      var g, l := AverageGain(prices, i, period), AverageLoss(prices, i, period);
      CalculateRsi(prices, period)[i] == (if g + l == 0.0 then 50.0 else 100.0 * g / (g + l))
  {
    if i + 1 >= period {
      RsiClosedForm(AverageGain(prices, i, period), AverageLoss(prices, i, period));
    }
  }

  /** A price series that does not move has no gains and no losses: its RSI is undefined. */
  lemma RsiUndefinedWhenFlat(p: seq<real>, i: nat, period: nat)
    requires 0 < period <= i < |p|
    requires forall k :: i - period <= k <= i ==> p[k] == p[i]
    ensures RsiAt(p, i, period).None?
  {
    var gw := Window(Gains(p), i, period);
    var lw := Window(Losses(p), i, period);
    forall k | 0 <= k < period ensures gw[k] == 0.0 && lw[k] == 0.0 {
      var j := i + 1 - period + k;
      assert p[j] == p[i] && p[j - 1] == p[i];
    }
    SumConstant(gw, 0.0);
    SumConstant(lw, 0.0);
  }

  // ---------------------------------------------------------------------
  // Bollinger bands

  function SumSquares(s: seq<real>, m: real): real
  {
    if s == [] then 0.0 else SumSquares(s[..|s| - 1], m) + (s[|s| - 1] - m) * (s[|s| - 1] - m)
  }

  /** pandas' `.std()` squared: the sample variance (ddof = 1). */
  function SampleVariance(s: seq<real>): real
    requires |s| >= 2
  {
    SumSquares(s, Mean(s)) / (|s| - 1) as real
  }

  /**
   * The rolling standard deviation needs a square root, so the model takes it
   * as a parameter; this is what it must satisfy to be pandas' sample
   * standard deviation: the non-negative root of the sample variance. The
   * root of zero being zero is spelled out, since the solver does not derive
   * it from the square.
   */
  ghost predicate IsSampleStd(stdOf: seq<real> -> real)
  {
    forall w: seq<real> {:trigger stdOf(w)} :: |w| >= 2 ==>
      && stdOf(w) >= 0.0
      && stdOf(w) * stdOf(w) == SampleVariance(w)
      && (stdOf(w) == 0.0 <==> SampleVariance(w) == 0.0)
  }

  /** `rolling(window=w).std()`: NaN in the warm-up, and everywhere when w < 2. */
  function RollingStdAt(s: seq<real>, i: nat, w: nat, stdOf: seq<real> -> real): Option<real>
    requires 0 < w && i < |s|
  {
    if w >= 2 && i + 1 >= w then Some(stdOf(Window(s, i, w))) else None
  }

  /** `middle + k * std`, NaN when either is. */
  function UpperAt(s: seq<real>, i: nat, w: nat, k: real, stdOf: seq<real> -> real): Option<real>
    requires 0 < w && i < |s|
  {
    var m, sd := RollingMeanAt(s, i, w), RollingStdAt(s, i, w, stdOf);
    if m.Some? && sd.Some? then Some(m.value + k * sd.value) else None
  }

  /** `middle - k * std`, NaN when either is. */
  function LowerAt(s: seq<real>, i: nat, w: nat, k: real, stdOf: seq<real> -> real): Option<real>
    requires 0 < w && i < |s|
  {
    var m, sd := RollingMeanAt(s, i, w), RollingStdAt(s, i, w, stdOf);
    if m.Some? && sd.Some? then Some(m.value - k * sd.value) else None
  }

  datatype Bands = Bands(upper: seq<real>, middle: seq<real>, lower: seq<real>)

  function UpperBand(prices: seq<real>, window: nat, k: real, stdOf: seq<real> -> real): (r: seq<real>)
    requires window > 0
    ensures |r| == |prices|
    ensures forall i :: 0 <= i < |prices| ==> r[i] == UpperAt(prices, i, window, k, stdOf).GetOr(0.0)
  {
    FillNa(seq(|prices|, i requires 0 <= i < |prices| => UpperAt(prices, i, window, k, stdOf)), 0.0)
  }

  function MiddleBand(prices: seq<real>, window: nat): (r: seq<real>)
    requires window > 0
    ensures |r| == |prices|
    ensures forall i :: 0 <= i < |prices| ==> r[i] == RollingMeanAt(prices, i, window).GetOr(0.0)
  {
    FillNa(seq(|prices|, i requires 0 <= i < |prices| => RollingMeanAt(prices, i, window)), 0.0)
  }

  function LowerBand(prices: seq<real>, window: nat, k: real, stdOf: seq<real> -> real): (r: seq<real>)
    requires window > 0
    ensures |r| == |prices|
    ensures forall i :: 0 <= i < |prices| ==> r[i] == LowerAt(prices, i, window, k, stdOf).GetOr(0.0)
  {
    FillNa(seq(|prices|, i requires 0 <= i < |prices| => LowerAt(prices, i, window, k, stdOf)), 0.0)
  }

  /** `PriceDataProcessor.calculate_bollinger_bands` with `std_dev = k`. */
  function CalculateBollingerBands(prices: seq<real>, window: nat, k: real, stdOf: seq<real> -> real): (b: Bands)
    requires window > 0
    ensures |prices| < window ==> b.upper == [] && b.middle == [] && b.lower == []
    ensures |prices| >= window ==> |b.upper| == |b.middle| == |b.lower| == |prices|
  {
    if |prices| < window then Bands([], [], [])
    else Bands(UpperBand(prices, window, k, stdOf), MiddleBand(prices, window), LowerBand(prices, window, k, stdOf))
  }

  /**
   * Short input gives three empty lists; otherwise three input-length lists,
   * 0.0 in the warm-up, the middle band the window mean, and the two bands
   * `k * std` above and below it (both 0.0 when the window is too small for
   * a sample deviation).
   */
  lemma CalculateBollingerBandsAt(prices: seq<real>, window: nat, k: real, stdOf: seq<real> -> real, i: nat)
    requires window > 0 && i < |prices|
    ensures var b := CalculateBollingerBands(prices, window, k, stdOf);
      && (|prices| < window ==> b.upper == [] && b.middle == [] && b.lower == [])
      && (|prices| >= window ==> |b.upper| == |b.middle| == |b.lower| == |prices|)
      && (|prices| >= window && i + 1 < window ==> b.upper[i] == b.middle[i] == b.lower[i] == 0.0)
      && (|prices| >= window && i + 1 >= window ==> b.middle[i] == Mean(Window(prices, i, window)))
      && (|prices| >= window && i + 1 >= window && window >= 2 ==>
            b.upper[i] == b.middle[i] + k * stdOf(Window(prices, i, window)) &&
            b.lower[i] == b.middle[i] - k * stdOf(Window(prices, i, window)))
      && (|prices| >= window && window == 1 ==> b.upper[i] == b.lower[i] == 0.0)
  {
  }

  lemma SampleStdAt(stdOf: seq<real> -> real, w: seq<real>)
    requires IsSampleStd(stdOf) && |w| >= 2
    ensures stdOf(w) >= 0.0
    ensures stdOf(w) == 0.0 <==> SampleVariance(w) == 0.0
  {
  }

  lemma ProductNonNegative(a: real, b: real)
    requires a >= 0.0 && b >= 0.0
    ensures a * b >= 0.0
  {
  }

  /** With a genuine standard deviation and k >= 0 the bands are ordered. */
  lemma BandsOrdered(prices: seq<real>, window: nat, k: real, stdOf: seq<real> -> real, i: nat)
    requires 2 <= window <= i + 1 <= |prices| && k >= 0.0 && IsSampleStd(stdOf)
    ensures var b := CalculateBollingerBands(prices, window, k, stdOf);
      b.lower[i] <= b.middle[i] <= b.upper[i]
  {
    CalculateBollingerBandsAt(prices, window, k, stdOf, i);
    var w := Window(prices, i, window);
    SampleStdAt(stdOf, w);
    ProductNonNegative(k, stdOf(w));
    var h := k * stdOf(w);
    assert h >= 0.0;
  }

  lemma {:induction false} SumSquaresAtMean(s: seq<real>, c: real)
    requires forall j :: 0 <= j < |s| ==> s[j] == c
    ensures SumSquares(s, c) == 0.0
  {
    if s != [] {
      SumSquaresAtMean(s[..|s| - 1], c);
    }
  }

  lemma MeanConstant(s: seq<real>, c: real)
    requires s != [] && forall j :: 0 <= j < |s| ==> s[j] == c
    ensures Mean(s) == c
  {
    SumConstant(s, c);
    QuotientUnique(c, |s| as real, |s| as real * c);
  }

  /** A flat window has zero deviation. */
  lemma FlatWindowStd(w: seq<real>, c: real, stdOf: seq<real> -> real)
    requires |w| >= 2 && IsSampleStd(stdOf)
    requires forall j :: 0 <= j < |w| ==> w[j] == c
    ensures Mean(w) == c && stdOf(w) == 0.0
  {
    MeanConstant(w, c);
    SumSquaresAtMean(w, c);
    assert SampleVariance(w) == 0.0;
    SampleStdAt(stdOf, w);
  }

  /** Over a flat window all three bands coincide with the price. */
  lemma BandsCollapseWhenFlat(prices: seq<real>, window: nat, k: real, stdOf: seq<real> -> real, i: nat)
    requires 2 <= window <= i + 1 <= |prices| && IsSampleStd(stdOf)
    requires forall j :: i + 1 - window <= j <= i ==> prices[j] == prices[i]
    ensures var b := CalculateBollingerBands(prices, window, k, stdOf);
      b.upper[i] == b.middle[i] == b.lower[i] == prices[i]
  {
    var w := Window(prices, i, window);
    forall j | 0 <= j < |w| ensures w[j] == prices[i] {
      assert w[j] == prices[i + 1 - window + j];
    }
    FlatWindowStd(w, prices[i], stdOf);
    CalculateBollingerBandsAt(prices, window, k, stdOf, i);
  }
}
