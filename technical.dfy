/**
 * Trailing-window indicators of the technical-analysis service: moving averages,
 * rolling extremes, RSI, stochastic oscillator, ATR, Williams %R, Bollinger position
 * and support/resistance. Every window is trailing; a value that pandas would leave
 * as NaN (too few bars, 0/0) is `None`.
 */
module Technical {
  import opened Common

  /** `xs.rolling(n).mean()` read at index `i`. */
  function SmaAt(xs: seq<real>, n: nat, i: nat): (r: Option<real>)
    requires 0 < n && i < |xs|
    ensures r.Some? <==> i + 1 >= n
  {
    if i + 1 < n then None else Some(Mean(xs[i + 1 - n..i + 1]))
  }

  /** A moving average lies between the smallest and the largest value of its window. */
  lemma SmaWithinWindow(xs: seq<real>, n: nat, i: nat)
    requires 0 < n && i < |xs| && i + 1 >= n
    ensures MinOf(xs[i + 1 - n..i + 1]) <= SmaAt(xs, n, i).value <= MaxOf(xs[i + 1 - n..i + 1])
  {
    var w := xs[i + 1 - n..i + 1];
    assert SmaAt(xs, n, i) == Some(Mean(w));
    MeanWithinMinMax(w);
  }

  /** The moving average at the latest bar (`rolling(n).mean().iloc[-1]`). */
  function Sma(xs: seq<real>, n: nat): (r: Option<real>)
    requires 0 < n && |xs| > 0
    ensures r.Some? <==> |xs| >= n
  {
    SmaAt(xs, n, |xs| - 1)
  }

  /** `xs.rolling(n).max()` read at index `i`. */
  function RollingMaxAt(xs: seq<real>, n: nat, i: nat): (r: Option<real>)
    requires 0 < n && i < |xs|
    ensures r.Some? <==> i + 1 >= n
    ensures r.Some? ==> forall j :: i + 1 - n <= j <= i ==> xs[j] <= r.value
    ensures r.Some? ==> exists j :: i + 1 - n <= j <= i && xs[j] == r.value
  {
    if i + 1 < n then None
    else
      var w := xs[i + 1 - n..i + 1];
      var m := MaxOf(w);
      assert forall j :: i + 1 - n <= j <= i ==> xs[j] == w[j - (i + 1 - n)];
      Some(m)
  }

  /** `xs.rolling(n).min()` read at index `i`. */
  function RollingMinAt(xs: seq<real>, n: nat, i: nat): (r: Option<real>)
    requires 0 < n && i < |xs|
    ensures r.Some? <==> i + 1 >= n
    ensures r.Some? ==> forall j :: i + 1 - n <= j <= i ==> r.value <= xs[j]
    ensures r.Some? ==> exists j :: i + 1 - n <= j <= i && xs[j] == r.value
  {
    if i + 1 < n then None
    else
      var w := xs[i + 1 - n..i + 1];
      var m := MinOf(w);
      assert forall j :: i + 1 - n <= j <= i ==> xs[j] == w[j - (i + 1 - n)];
      Some(m)
  }

  function Highs(bars: seq<Bar>): (r: seq<real>)
    ensures |r| == |bars| && forall i :: 0 <= i < |bars| ==> r[i] == bars[i].high
  {
    seq(|bars|, i requires 0 <= i < |bars| => bars[i].high)
  }

  function Lows(bars: seq<Bar>): (r: seq<real>)
    ensures |r| == |bars| && forall i :: 0 <= i < |bars| ==> r[i] == bars[i].low
  {
    seq(|bars|, i requires 0 <= i < |bars| => bars[i].low)
  }

  function Max3(a: real, b: real, c: real): (r: real)
    ensures r >= a && r >= b && r >= c
    ensures r == a || r == b || r == c
  {
    if a >= b && a >= c then a else if b >= c then b else c
  }

  /**
   * True range of bar `i`: the largest of high - low, |high - previous close| and
   * |low - previous close|. The first bar has no previous close; pandas' row maximum
   * skips the NaN terms, leaving high - low.
   */
  function TrueRange(bars: seq<Bar>, i: nat): (r: real)
    requires i < |bars|
    ensures r >= bars[i].high - bars[i].low
    ensures i > 0 ==> r >= Abs(bars[i].high - bars[i - 1].close) && r >= Abs(bars[i].low - bars[i - 1].close)
    ensures i == 0 ==> r == bars[i].high - bars[i].low
    ensures i > 0 ==> r == bars[i].high - bars[i].low
                      || r == Abs(bars[i].high - bars[i - 1].close)
                      || r == Abs(bars[i].low - bars[i - 1].close)
  {
    if i == 0 then bars[i].high - bars[i].low
    else Max3(bars[i].high - bars[i].low, Abs(bars[i].high - bars[i - 1].close), Abs(bars[i].low - bars[i - 1].close))
  }

  function TrueRanges(bars: seq<Bar>): (r: seq<real>)
    ensures |r| == |bars| && forall i :: 0 <= i < |bars| ==> r[i] == TrueRange(bars, i)
  {
    seq(|bars|, i requires 0 <= i < |bars| => TrueRange(bars, i))
  }

  /** Average true range: the `period`-bar mean of the true range at the latest bar. */
  function Atr(bars: seq<Bar>, period: nat): (r: Option<real>)
    requires 0 < period && |bars| > 0
    ensures r.Some? <==> |bars| >= period
  {
    Sma(TrueRanges(bars), period)
  }

  /** A bar whose low and high bracket its close. */
  ghost predicate SaneBars(bars: seq<Bar>) {
    forall i :: 0 <= i < |bars| ==> bars[i].low <= bars[i].close <= bars[i].high
  }

  /** ATR is never negative on bars whose high is at least their low. */
  lemma AtrNonNegative(bars: seq<Bar>, period: nat)
    requires 0 < period && |bars| >= period
    requires forall i :: 0 <= i < |bars| ==> bars[i].low <= bars[i].high
    ensures Atr(bars, period).Some? && Atr(bars, period).value >= 0.0
  {
    var n := |bars|;
    var w := TrueRanges(bars)[n - period..n];
    forall k | 0 <= k < |w|
      ensures w[k] >= 0.0
    {
      assert w[k] == TrueRange(bars, n - period + k);
    }
    MeanNonNegative(w);
  }

  /**
   * Stochastic %K at bar `i` over `k` bars: where the close sits between the lowest
   * low and the highest high of the window, in percent. A flat window gives 0/0 or
   * x/0 in pandas; the model leaves that value out.
   */
  function StochKAt(bars: seq<Bar>, k: nat, i: nat): (r: Option<real>)
    requires 0 < k && i < |bars|
    ensures r.Some? ==> i + 1 >= k
    ensures i + 1 >= k ==> (r.Some? <==> RollingMaxAt(Highs(bars), k, i).value != RollingMinAt(Lows(bars), k, i).value)
  {
    var hh := RollingMaxAt(Highs(bars), k, i);
    var ll := RollingMinAt(Lows(bars), k, i);
    if hh.None? || ll.None? || hh.value == ll.value then None
    else Some(100.0 * ((bars[i].close - ll.value) / (hh.value - ll.value)))
  }

  /** The %K series, one value per bar. */
  function StochKs(bars: seq<Bar>, k: nat): (r: seq<Option<real>>)
    requires 0 < k
    ensures |r| == |bars| && forall i :: 0 <= i < |bars| ==> r[i] == StochKAt(bars, k, i)
  {
    seq(|bars|, i requires 0 <= i < |bars| => StochKAt(bars, k, i))
  }

  /** pandas' rolling mean over one full window: missing when any value in it is missing. */
  function MeanIfAll(w: seq<Option<real>>): (r: Option<real>)
    requires |w| > 0
    ensures r.Some? <==> forall j :: 0 <= j < |w| ==> w[j].Some?
  {
    if exists j :: 0 <= j < |w| && w[j].None? then None
    else Some(Mean(seq(|w|, j requires 0 <= j < |w| => w[j].value)))
  }

  /** The rolling mean of values that all lie in [lo, hi] lies there too. */
  lemma MeanIfAllBetween(w: seq<Option<real>>, lo: real, hi: real)
    requires |w| > 0
    requires forall j :: 0 <= j < |w| && w[j].Some? ==> lo <= w[j].value <= hi
    ensures MeanIfAll(w).Some? ==> lo <= MeanIfAll(w).value <= hi
  {
    if MeanIfAll(w).Some? {
      var vs := seq(|w|, j requires 0 <= j < |w| => w[j].value);
      assert MeanIfAll(w).value == Mean(vs);
      MeanBetween(vs, lo, hi);
    }
  }

  /** %D: the `d`-bar mean of %K; any missing %K in the window makes it missing. */
  function StochDAt(bars: seq<Bar>, k: nat, d: nat, i: nat): (r: Option<real>)
    requires 0 < k && 0 < d && i < |bars|
    ensures r.Some? ==> i + 1 >= d
    ensures r.Some? ==> forall j :: i + 1 - d <= j <= i ==> StochKAt(bars, k, j).Some?
    ensures i + 1 >= d && (forall j :: i + 1 - d <= j <= i ==> StochKAt(bars, k, j).Some?) ==> r.Some?
  {
    if i + 1 < d then None
    else
      var w := StochKs(bars, k)[i + 1 - d..i + 1];
      assert forall j :: i + 1 - d <= j <= i ==> w[j - (i + 1 - d)] == StochKAt(bars, k, j);
      MeanIfAll(w)
  }

  datatype Stochastic = Stochastic(k: Option<real>, d: Option<real>)

  /** `calculate_stochastic` at the latest bar. */
  function CalculateStochastic(bars: seq<Bar>, kPeriod: nat, dPeriod: nat): (r: Stochastic)
    requires 0 < kPeriod && 0 < dPeriod && |bars| > 0
    ensures r.k.Some? ==> |bars| >= kPeriod
    ensures r.d.Some? ==> |bars| >= dPeriod && r.k.Some?
  {
    Stochastic(StochKAt(bars, kPeriod, |bars| - 1), StochDAt(bars, kPeriod, dPeriod, |bars| - 1))
  }

  /** Both stochastic readings lie in [0, 100] when every close lies between its bar's low and high. */
  lemma StochasticInRange(bars: seq<Bar>, kPeriod: nat, dPeriod: nat)
    requires 0 < kPeriod && 0 < dPeriod && |bars| > 0 && SaneBars(bars)
    ensures var r := CalculateStochastic(bars, kPeriod, dPeriod);
      (r.k.Some? ==> 0.0 <= r.k.value <= 100.0) && (r.d.Some? ==> 0.0 <= r.d.value <= 100.0)
  {
    var i := |bars| - 1;
    var r := CalculateStochastic(bars, kPeriod, dPeriod);
    StochKBounds(bars, kPeriod, i);
    StochDBounds(bars, kPeriod, dPeriod, i);
    assert r.k == StochKAt(bars, kPeriod, i);
    assert r.d == StochDAt(bars, kPeriod, dPeriod, i);
  }

  /** %K lies in [0, 100] when every bar's close lies between its low and its high. */
  lemma StochKBounds(bars: seq<Bar>, k: nat, i: nat)
    requires 0 < k && i < |bars| && SaneBars(bars)
    ensures StochKAt(bars, k, i).Some? ==> 0.0 <= StochKAt(bars, k, i).value <= 100.0
  {
    var hh := RollingMaxAt(Highs(bars), k, i);
    var ll := RollingMinAt(Lows(bars), k, i);
    if StochKAt(bars, k, i).Some? {
      assert Highs(bars)[i] <= hh.value && ll.value <= Lows(bars)[i];
      var c := bars[i].close;
      assert ll.value <= c <= hh.value;
      var width := hh.value - ll.value;
      assert width > 0.0;
      assert 0.0 <= (c - ll.value) / width <= 1.0 by {
        assert (c - ll.value) / width * width == c - ll.value;
      }
    }
  }

  /** %D, a mean of %K values, also lies in [0, 100] on bars whose close lies between low and high. */
  lemma StochDBounds(bars: seq<Bar>, k: nat, d: nat, i: nat)
    requires 0 < k && 0 < d && i < |bars| && SaneBars(bars)
    ensures StochDAt(bars, k, d, i).Some? ==> 0.0 <= StochDAt(bars, k, d, i).value <= 100.0
  {
    if i + 1 >= d {
      var w := StochKs(bars, k)[i + 1 - d..i + 1];
      forall j | 0 <= j < |w| && w[j].Some?
        ensures 0.0 <= w[j].value <= 100.0
      {
        StochKBounds(bars, k, i + 1 - d + j);
      }
      MeanIfAllBetween(w, 0.0, 100.0);
    }
  }

  /** Williams %R at the latest bar: -100 (hh - close) / (hh - ll) over `period` bars. */
  function WilliamsR(bars: seq<Bar>, period: nat): (r: Option<real>)
    requires 0 < period && |bars| > 0
    ensures r.Some? ==> |bars| >= period
  {
    var i := |bars| - 1;
    var hh := RollingMaxAt(Highs(bars), period, i);
    var ll := RollingMinAt(Lows(bars), period, i);
    if hh.None? || ll.None? || hh.value == ll.value then None
    else Some(-100.0 * ((hh.value - bars[i].close) / (hh.value - ll.value)))
  }

  /** Over the same window, Williams %R is stochastic %K shifted down by 100. */
  lemma WilliamsIsStochasticMinus100(bars: seq<Bar>, period: nat)
    requires 0 < period && |bars| > 0
    ensures WilliamsR(bars, period).Some? <==> StochKAt(bars, period, |bars| - 1).Some?
    ensures WilliamsR(bars, period).Some? ==>
              WilliamsR(bars, period).value == StochKAt(bars, period, |bars| - 1).value - 100.0
  {
    var i := |bars| - 1;
    var hh := RollingMaxAt(Highs(bars), period, i);
    var ll := RollingMinAt(Lows(bars), period, i);
    if hh.Some? && ll.Some? && hh.value != ll.value {
      WilliamsValue(bars, period, hh.value, ll.value);
    }
  }

  lemma WilliamsValue(bars: seq<Bar>, period: nat, h: real, l: real)
    requires 0 < period && |bars| > 0 && h != l
    requires RollingMaxAt(Highs(bars), period, |bars| - 1) == Some(h)
    requires RollingMinAt(Lows(bars), period, |bars| - 1) == Some(l)
    ensures WilliamsR(bars, period) == Some(StochKAt(bars, period, |bars| - 1).value - 100.0)
  {
    ShiftedRatio(h, l, bars[|bars| - 1].close);
  }

  lemma ShiftedRatio(h: real, l: real, c: real)
    requires h != l
    ensures -100.0 * ((h - c) / (h - l)) == 100.0 * ((c - l) / (h - l)) - 100.0
  {
    var w := h - l;
    var x := (c - l) / w;
    var y := (h - c) / w;
    assert x * w == c - l;
    assert y * w == h - c;
    assert (1.0 - x) * w == w - x * w;
    CancelFactor(y, 1.0 - x, w);
  }

  /** The largest present value of a sequence (pandas' `max` skips NaN). */
  function MaxPresent(s: seq<Option<real>>): (r: Option<real>)
    ensures r.None? <==> forall i :: 0 <= i < |s| ==> s[i].None?
    ensures r.Some? ==> forall i :: 0 <= i < |s| && s[i].Some? ==> s[i].value <= r.value
    ensures r.Some? ==> exists i :: 0 <= i < |s| && s[i] == r
  {
    if s == [] then None
    else
      var rest := MaxPresent(s[1..]);
      assert forall i :: 1 <= i < |s| ==> s[i] == s[1..][i - 1];
      if s[0].None? then rest
      else if rest.None? || s[0].value >= rest.value then s[0]
      else rest
  }

  /** The smallest present value of a sequence (pandas' `min` skips NaN). */
  function MinPresent(s: seq<Option<real>>): (r: Option<real>)
    ensures r.None? <==> forall i :: 0 <= i < |s| ==> s[i].None?
    ensures r.Some? ==> forall i :: 0 <= i < |s| && s[i].Some? ==> r.value <= s[i].value
    ensures r.Some? ==> exists i :: 0 <= i < |s| && s[i] == r
  {
    if s == [] then None
    else
      var rest := MinPresent(s[1..]);
      assert forall i :: 1 <= i < |s| ==> s[i] == s[1..][i - 1];
      if s[0].None? then rest
      else if rest.None? || s[0].value <= rest.value then s[0]
      else rest
  }

  datatype Levels = Levels(resistance: Option<real>, support: Option<real>, currentPrice: real)

  /**
   * `get_support_resistance`: the largest rolling maximum and the smallest rolling
   * minimum among the last `window` entries of the two rolling series.
   */
  function SupportResistance(xs: seq<real>, window: nat): (r: Levels)
    requires 0 < window && |xs| > 0
    ensures r.currentPrice == xs[|xs| - 1]
  {
    Levels(MaxPresent(LastN(RollingMaxSeries(xs, window), window)),
           MinPresent(LastN(RollingMinSeries(xs, window), window)),
           xs[|xs| - 1])
  }

  function RollingMaxSeries(xs: seq<real>, window: nat): (r: seq<Option<real>>)
    requires 0 < window
    ensures |r| == |xs| && forall j :: 0 <= j < |xs| ==> r[j] == RollingMaxAt(xs, window, j)
  {
    seq(|xs|, j requires 0 <= j < |xs| => RollingMaxAt(xs, window, j))
  }

  function RollingMinSeries(xs: seq<real>, window: nat): (r: seq<Option<real>>)
    requires 0 < window
    ensures |r| == |xs| && forall j :: 0 <= j < |xs| ==> r[j] == RollingMinAt(xs, window, j)
  {
    seq(|xs|, j requires 0 <= j < |xs| => RollingMinAt(xs, window, j))
  }

  /** With at least `window` bars both levels exist and bracket the current price. */
  lemma SupportBelowPriceBelowResistance(xs: seq<real>, window: nat)
    requires 0 < window <= |xs|
    ensures SupportResistance(xs, window).support.Some?
    ensures SupportResistance(xs, window).resistance.Some?
    ensures SupportResistance(xs, window).support.value <= xs[|xs| - 1] <= SupportResistance(xs, window).resistance.value
  {
    var n := |xs|;
    var lastHighs := LastN(RollingMaxSeries(xs, window), window);
    var lastLows := LastN(RollingMinSeries(xs, window), window);
    var top := RollingMaxAt(xs, window, n - 1);
    var bottom := RollingMinAt(xs, window, n - 1);
    assert lastHighs[|lastHighs| - 1] == top;
    assert lastLows[|lastLows| - 1] == bottom;
    assert xs[n - 1] <= top.value;
    assert bottom.value <= xs[n - 1];
  }

  /** The gain of step `j` (0 for the first bar, whose difference is NaN and replaced by 0). */
  function Gain(xs: seq<real>, j: nat): (r: real)
    requires j < |xs|
    ensures r >= 0.0
  {
    if j == 0 || xs[j] <= xs[j - 1] then 0.0 else xs[j] - xs[j - 1]
  }

  function Loss(xs: seq<real>, j: nat): (r: real)
    requires j < |xs|
    ensures r >= 0.0
  {
    if j == 0 || xs[j] >= xs[j - 1] then 0.0 else xs[j - 1] - xs[j]
  }

  lemma GainLossExclusive(xs: seq<real>, j: nat)
    requires j < |xs|
    ensures Gain(xs, j) == 0.0 || Loss(xs, j) == 0.0
    ensures Gain(xs, j) - Loss(xs, j) == if j == 0 then 0.0 else xs[j] - xs[j - 1]
  {
  }

  /**
   * RSI from the average gain and the average loss. No losses make RS infinite and
   * RSI 100; no gains and no losses make it 0/0 (NaN).
   */
  function RsiFrom(avgGain: real, avgLoss: real): (r: Option<real>)
    requires avgGain >= 0.0 && avgLoss >= 0.0
    ensures r.None? <==> avgGain == 0.0 && avgLoss == 0.0
    ensures r.Some? ==> 0.0 <= r.value <= 100.0
    ensures r == Some(100.0) <==> avgLoss == 0.0 && avgGain > 0.0
    ensures r == Some(0.0) <==> avgGain == 0.0 && avgLoss > 0.0
  {
    if avgLoss == 0.0 then
      if avgGain == 0.0 then None else Some(100.0)
    else
      var rs := avgGain / avgLoss;
      assert rs >= 0.0;
      assert 0.0 < 100.0 / (1.0 + rs) <= 100.0 by {
        assert 100.0 / (1.0 + rs) * (1.0 + rs) == 100.0;
      }
      assert rs == 0.0 <==> avgGain == 0.0 by {
        assert rs * avgLoss == avgGain;
      }
      assert 100.0 / (1.0 + rs) == 100.0 <==> rs == 0.0 by {
        assert 100.0 / (1.0 + rs) * (1.0 + rs) == 100.0;
      }
      Some(100.0 - 100.0 / (1.0 + rs))
  }

  function Gains(xs: seq<real>, lo: nat, hi: nat): (r: seq<real>)
    requires lo <= hi <= |xs|
    ensures |r| == hi - lo && forall m :: 0 <= m < hi - lo ==> r[m] == Gain(xs, lo + m)
  {
    seq(hi - lo, m requires 0 <= m < hi - lo => Gain(xs, lo + m))
  }

  function Losses(xs: seq<real>, lo: nat, hi: nat): (r: seq<real>)
    requires lo <= hi <= |xs|
    ensures |r| == hi - lo && forall m :: 0 <= m < hi - lo ==> r[m] == Loss(xs, lo + m)
  {
    seq(hi - lo, m requires 0 <= m < hi - lo => Loss(xs, lo + m))
  }

  /** `calculate_rsi(xs, period)` read at index `i`: rolling means of gains and losses. */
  function RsiAt(xs: seq<real>, period: nat, i: nat): (r: Option<real>)
    requires 0 < period && i < |xs|
    ensures r.Some? ==> i + 1 >= period && 0.0 <= r.value <= 100.0
  {
    if i + 1 < period then None
    else
      var g := Gains(xs, i + 1 - period, i + 1);
      var l := Losses(xs, i + 1 - period, i + 1);
      MeanBetween(g, 0.0, MaxOf(g));
      MeanBetween(l, 0.0, MaxOf(l));
      RsiFrom(Mean(g), Mean(l))
  }

  /** A series that rises at every step of the window has RSI exactly 100. */
  lemma RsiOfRisingWindow(xs: seq<real>, period: nat, i: nat)
    requires 0 < period && period <= i < |xs|
    requires forall j :: i + 1 - period <= j <= i ==> xs[j - 1] < xs[j]
    ensures RsiAt(xs, period, i) == Some(100.0)
  {
    var g := Gains(xs, i + 1 - period, i + 1);
    var l := Losses(xs, i + 1 - period, i + 1);
    MeanBetween(l, 0.0, 0.0);
    MeanBetween(g, MinOf(g), MaxOf(g));
    assert MinOf(g) > 0.0;
  }

  /** A series that falls at every step of the window has RSI exactly 0. */
  lemma RsiOfFallingWindow(xs: seq<real>, period: nat, i: nat)
    requires 0 < period && period <= i < |xs|
    requires forall j :: i + 1 - period <= j <= i ==> xs[j - 1] > xs[j]
    ensures RsiAt(xs, period, i) == Some(0.0)
  {
    var g := Gains(xs, i + 1 - period, i + 1);
    var l := Losses(xs, i + 1 - period, i + 1);
    MeanBetween(g, 0.0, 0.0);
    MeanBetween(l, MinOf(l), MaxOf(l));
    assert MinOf(l) > 0.0;
  }

  /** `current / avg20` when the 20-bar average volume is positive, otherwise exactly 1. */
  function VolumeRatio(volumes: seq<real>): (r: real)
    requires |volumes| > 0
    ensures var avg := Sma(volumes, 20);
            if Gt(avg, Some(0.0)) then r * avg.value == volumes[|volumes| - 1] else r == 1.0
  {
    var avg := Sma(volumes, 20);
    if Gt(avg, Some(0.0)) then Quotient(volumes[|volumes| - 1], avg.value) else 1.0
  }

  lemma RatioFacts(price: real, lower: real, upper: real)
    requires upper != lower
    ensures (price - lower) / (upper - lower) == 0.0 <==> price == lower
    ensures (price - lower) / (upper - lower) == 1.0 <==> price == upper
    ensures lower < upper ==> (0.0 <= (price - lower) / (upper - lower) <==> lower <= price)
    ensures lower < upper ==> ((price - lower) / (upper - lower) <= 1.0 <==> price <= upper)
  {
    var d := upper - lower;
    var p := (price - lower) / d;
    assert p * d == price - lower;
    assert (p - 1.0) * d == price - upper;
    assert 0.0 * d == 0.0 && 1.0 * d == d;
    if p * d == 0.0 * d { CancelFactor(p, 0.0, d); }
    if p * d == 1.0 * d { CancelFactor(p, 1.0, d); }
    if lower < upper {
      PositiveFactor(p, d);
      PositiveFactor(p - 1.0, d);
    }
  }

  datatype Bands = Bands(upper: Option<real>, middle: Option<real>, lower: Option<real>, position: Option<real>, squeeze: bool)

  /** Where `price` sits between the bands: 0 at the lower band, 1 at the upper band. */
  function BandPosition(price: real, lower: real, upper: real): (r: Option<real>)
    ensures r.Some? <==> upper != lower
    ensures r.Some? ==> (r.value == 0.0 <==> price == lower)
    ensures r.Some? ==> (r.value == 1.0 <==> price == upper)
    ensures r.Some? && lower < upper ==> (0.0 <= r.value <= 1.0 <==> lower <= price <= upper)
  {
    if upper == lower then None
    else
      RatioFacts(price, lower, upper);
      Some((price - lower) / (upper - lower))
  }

  /**
   * `calculate_bollinger_bands(closes, 20, 2)`: the middle band is the 20-bar SMA and
   * the bands lie two rolling standard deviations away. The standard deviation is an
   * input (`std20`, `None` while fewer than 20 bars exist).
   */
  function Bollinger(closes: seq<real>, std20: Option<real>): (r: Bands)
    requires |closes| > 0
    ensures r.middle == Sma(closes, 20)
    ensures r.upper.Some? <==> r.middle.Some? && std20.Some?
    ensures r.lower.Some? <==> r.upper.Some?
    ensures r.upper.Some? ==> r.upper.value - r.middle.value == r.middle.value - r.lower.value == 2.0 * std20.value
    ensures r.squeeze <==> r.upper.Some? && r.middle.value != 0.0 && (r.upper.value - r.lower.value) / r.middle.value < 0.1
    ensures r.upper.Some? ==> r.position == BandPosition(closes[|closes| - 1], r.lower.value, r.upper.value)
    ensures r.upper.None? ==> r.position.None?
  {
    var middle := Sma(closes, 20);
    if middle.None? || std20.None? then Bands(None, middle, None, None, false)
    else
      var upper := middle.value + std20.value * 2.0;
      var lower := middle.value - std20.value * 2.0;
      var position := BandPosition(closes[|closes| - 1], lower, upper);
      var squeeze := middle.value != 0.0 && (upper - lower) / middle.value < 0.1;
      Bands(Some(upper), middle, Some(lower), position, squeeze)
  }
}
