/**
 * The signal synthesizer of the technical-analysis service: it turns the latest
 * indicator values into a list of tags, an integer strength score and a five-way
 * overall recommendation, and reports a per-timeframe view of that result.
 */
module Signals {
  import opened Common
  import opened Technical

  datatype Tag =
    | StrongUptrend | Uptrend | StrongDowntrend | Downtrend
    | ExtremelyOversold | Oversold | ExtremelyOverbought | Overbought
    | MacdBullish | MacdBearish
    | BbOverbought | BbOversold | BbSqueeze
    | StochOversold | StochOverbought
    | HighVolume | LowVolume
    | WilliamsOversold | WilliamsOverbought
    | CciOverbought | CciOversold

  datatype Overall = StrongBuy | Buy | Hold | Sell | StrongSell

  /** The latest value of every indicator the synthesizer reads. */
  datatype Snapshot = Snapshot(
    price: real,
    ma5: Option<real>, ma10: Option<real>, ma20: Option<real>, ma50: Option<real>,
    rsi: Option<real>,
    macd: real, macdSignal: real, macdHistogram: real,
    bbPosition: Option<real>, bbSqueeze: bool,
    stochK: Option<real>, stochD: Option<real>,
    volumeRatio: real,
    williamsR: Option<real>,
    cci: Option<real>)

  /** The fixed score weight of each tag; only trend, RSI, MACD and high volume move the score. */
  function Weight(t: Tag): int
  {
    if t == StrongUptrend then 3
    else if t == Uptrend || t == ExtremelyOversold then 2
    else if t == Oversold || t == MacdBullish || t == HighVolume then 1
    else if t == StrongDowntrend then -3
    else if t == Downtrend || t == ExtremelyOverbought then -2
    else if t == Overbought || t == MacdBearish then -1
    else 0
  }

  function SumWeights(ts: seq<Tag>): int
  {
    if ts == [] then 0 else Weight(ts[0]) + SumWeights(ts[1..])
  }

  lemma {:induction false} SumWeightsAppend(a: seq<Tag>, b: seq<Tag>)
    ensures SumWeights(a + b) == SumWeights(a) + SumWeights(b)
  {
    if a == [] {
      assert a + b == b;
    } else {
      assert (a + b)[1..] == a[1..] + b;
      SumWeightsAppend(a[1..], b);
    }
  }

  predicate IsTrendTag(t: Tag) {
    t == StrongUptrend || t == Uptrend || t == StrongDowntrend || t == Downtrend
  }

  /** price > MA5 > MA10 > MA20 > MA50, each comparison false on a missing average. */
  predicate StrongUpChain(s: Snapshot) {
    Gt(Some(s.price), s.ma5) && Gt(s.ma5, s.ma10) && Gt(s.ma10, s.ma20) && Gt(s.ma20, s.ma50)
  }

  predicate UpChain(s: Snapshot) {
    Gt(Some(s.price), s.ma20) && Gt(s.ma20, s.ma50)
  }

  predicate StrongDownChain(s: Snapshot) {
    Lt(Some(s.price), s.ma5) && Lt(s.ma5, s.ma10) && Lt(s.ma10, s.ma20) && Lt(s.ma20, s.ma50)
  }

  predicate DownChain(s: Snapshot) {
    Lt(Some(s.price), s.ma20) && Lt(s.ma20, s.ma50)
  }

  function TrendTags(s: Snapshot): seq<Tag>
  {
    if StrongUpChain(s) then [StrongUptrend]
    else if UpChain(s) then [Uptrend]
    else if StrongDownChain(s) then [StrongDowntrend]
    else if DownChain(s) then [Downtrend]
    else []
  }

  function RsiTags(s: Snapshot): seq<Tag>
  {
    if Lt(s.rsi, Some(20.0)) then [ExtremelyOversold]
    else if Lt(s.rsi, Some(30.0)) then [Oversold]
    else if Gt(s.rsi, Some(80.0)) then [ExtremelyOverbought]
    else if Gt(s.rsi, Some(70.0)) then [Overbought]
    else []
  }

  function MacdTags(s: Snapshot): seq<Tag>
  {
    if s.macd > s.macdSignal && s.macdHistogram > 0.0 then [MacdBullish]
    else if s.macd < s.macdSignal && s.macdHistogram < 0.0 then [MacdBearish]
    else []
  }

  function BandTags(s: Snapshot): seq<Tag>
  {
    if Gt(s.bbPosition, Some(0.8)) then [BbOverbought]
    else if Lt(s.bbPosition, Some(0.2)) then [BbOversold]
    else []
  }

  function SqueezeTags(s: Snapshot): seq<Tag>
  {
    if s.bbSqueeze then [BbSqueeze] else []
  }

  function StochasticTags(s: Snapshot): seq<Tag>
  {
    if Lt(s.stochK, Some(20.0)) && Lt(s.stochD, Some(20.0)) then [StochOversold]
    else if Gt(s.stochK, Some(80.0)) && Gt(s.stochD, Some(80.0)) then [StochOverbought]
    else []
  }

  function VolumeTags(s: Snapshot): seq<Tag>
  {
    if s.volumeRatio > 2.0 then [HighVolume]
    else if s.volumeRatio < 0.5 then [LowVolume]
    else []
  }

  function WilliamsTags(s: Snapshot): seq<Tag>
  {
    if Lt(s.williamsR, Some(-80.0)) then [WilliamsOversold]
    else if Gt(s.williamsR, Some(-20.0)) then [WilliamsOverbought]
    else []
  }

  function CciTags(s: Snapshot): seq<Tag>
  {
    if Gt(s.cci, Some(100.0)) then [CciOverbought]
    else if Lt(s.cci, Some(-100.0)) then [CciOversold]
    else []
  }

  /** The tags the synthesizer emits, group by group in the order the service checks them. */
  function Tags(s: Snapshot): seq<Tag>
  {
    TrendTags(s) + RsiTags(s) + MacdTags(s) + BandTags(s) + SqueezeTags(s)
    + StochasticTags(s) + VolumeTags(s) + WilliamsTags(s) + CciTags(s)
  }

  /** The points the service adds for each check, as its score increments state them. */
  function TrendPoints(s: Snapshot): int
  {
    if StrongUpChain(s) then 3
    else if UpChain(s) then 2
    else if StrongDownChain(s) then -3
    else if DownChain(s) then -2
    else 0
  }

  function RsiPoints(s: Snapshot): int
  {
    if Lt(s.rsi, Some(20.0)) then 2
    else if Lt(s.rsi, Some(30.0)) then 1
    else if Gt(s.rsi, Some(80.0)) then -2
    else if Gt(s.rsi, Some(70.0)) then -1
    else 0
  }

  function MacdPoints(s: Snapshot): int
  {
    if s.macd > s.macdSignal && s.macdHistogram > 0.0 then 1
    else if s.macd < s.macdSignal && s.macdHistogram < 0.0 then -1
    else 0
  }

  function VolumePoints(s: Snapshot): int
  {
    if s.volumeRatio > 2.0 then 1 else 0
  }

  /**
   * The strength score: only the trend, RSI, MACD and high-volume checks contribute,
   * so it always lies in [-6, 7].
   */
  function StrengthScore(s: Snapshot): (r: int)
    ensures -6 <= r <= 7
  {
    TrendPoints(s) + RsiPoints(s) + MacdPoints(s) + VolumePoints(s)
  }

  /** The overall recommendation is a total function of the strength score. */
  function Classify(score: int): (r: Overall)
    ensures r == StrongBuy <==> score >= 4
    ensures r == Buy <==> 2 <= score < 4
    ensures r == Hold <==> -2 < score < 2
    ensures r == Sell <==> -4 < score <= -2
    ensures r == StrongSell <==> score <= -4
  {
    if score >= 4 then StrongBuy
    else if score >= 2 then Buy
    else if score <= -4 then StrongSell
    else if score <= -2 then Sell
    else Hold
  }

  /** Each check's tags weigh exactly what the service adds to the score for that check. */
  lemma TrendWeight(s: Snapshot)
    ensures SumWeights(TrendTags(s)) == TrendPoints(s)
  {
  }

  lemma RsiWeight(s: Snapshot)
    ensures SumWeights(RsiTags(s)) == RsiPoints(s)
  {
  }

  lemma MacdWeight(s: Snapshot)
    ensures SumWeights(MacdTags(s)) == MacdPoints(s)
  {
  }

  lemma VolumeWeight(s: Snapshot)
    ensures SumWeights(VolumeTags(s)) == VolumePoints(s)
  {
  }

  /** The Bollinger, stochastic, Williams %R and CCI tags weigh nothing. */
  lemma BandWeight(s: Snapshot)
    ensures SumWeights(BandTags(s)) == 0
  {
  }

  lemma SqueezeWeight(s: Snapshot)
    ensures SumWeights(SqueezeTags(s)) == 0
  {
  }

  lemma StochasticWeight(s: Snapshot)
    ensures SumWeights(StochasticTags(s)) == 0
  {
  }

  lemma WilliamsWeight(s: Snapshot)
    ensures SumWeights(WilliamsTags(s)) == 0
  {
  }

  lemma CciWeight(s: Snapshot)
    ensures SumWeights(CciTags(s)) == 0
  {
  }

  /** The strength score is the total weight of the emitted tags. */
  lemma ScoreIsTagWeight(s: Snapshot)
    ensures StrengthScore(s) == SumWeights(Tags(s))
  {
    TrendWeight(s);
    RsiWeight(s);
    MacdWeight(s);
    VolumeWeight(s);
    BandWeight(s);
    SqueezeWeight(s);
    StochasticWeight(s);
    WilliamsWeight(s);
    CciWeight(s);
    var p := TrendTags(s);
    SumWeightsAppend(p, RsiTags(s));
    p := p + RsiTags(s);
    SumWeightsAppend(p, MacdTags(s));
    p := p + MacdTags(s);
    SumWeightsAppend(p, BandTags(s));
    p := p + BandTags(s);
    SumWeightsAppend(p, SqueezeTags(s));
    p := p + SqueezeTags(s);
    SumWeightsAppend(p, StochasticTags(s));
    p := p + StochasticTags(s);
    SumWeightsAppend(p, VolumeTags(s));
    p := p + VolumeTags(s);
    SumWeightsAppend(p, WilliamsTags(s));
    p := p + WilliamsTags(s);
    SumWeightsAppend(p, CciTags(s));
  }

  /** Both ends of the score range are reached. */
  lemma ScoreBoundsAreTight()
    ensures exists s :: StrengthScore(s) == 7
    ensures exists s :: StrengthScore(s) == -6
  {
    var top := Snapshot(10.0, Some(9.0), Some(8.0), Some(7.0), Some(6.0), Some(10.0),
                        1.0, 0.0, 1.0, None, false, None, None, 3.0, None, None);
    var bottom := Snapshot(1.0, Some(2.0), Some(3.0), Some(4.0), Some(5.0), Some(90.0),
                           0.0, 1.0, -1.0, None, false, None, None, 1.0, None, None);
    assert StrengthScore(top) == 7;
    assert StrengthScore(bottom) == -6;
  }

  /** The Bollinger, stochastic, Williams %R and CCI readings never move the score. */
  lemma ScoreIgnoresOscillators(s: Snapshot, bb: Option<real>, squeeze: bool, k: Option<real>,
                                d: Option<real>, wr: Option<real>, cci: Option<real>)
    ensures StrengthScore(s) ==
            StrengthScore(s.(bbPosition := bb, bbSqueeze := squeeze, stochK := k, stochD := d, williamsR := wr, cci := cci))
  {
  }

  /** A low volume ratio tags LOW_VOLUME but scores exactly like a neutral one. */
  lemma LowVolumeScoresNothing(s: Snapshot)
    requires s.volumeRatio < 0.5
    ensures LowVolume in Tags(s)
    ensures StrengthScore(s) == StrengthScore(s.(volumeRatio := 1.0))
  {
    assert LowVolume in VolumeTags(s);
  }

  predicate NoTrendTag(g: seq<Tag>) {
    |g| <= 1 && (g != [] ==> !IsTrendTag(g[0]))
  }

  /** Every check other than the trend check emits at most one tag, never a trend tag. */
  lemma OnlyTrendCheckTagsTrend(s: Snapshot)
    ensures NoTrendTag(RsiTags(s)) && NoTrendTag(MacdTags(s))
    ensures NoTrendTag(BandTags(s)) && NoTrendTag(SqueezeTags(s))
    ensures NoTrendTag(StochasticTags(s)) && NoTrendTag(VolumeTags(s))
    ensures NoTrendTag(WilliamsTags(s)) && NoTrendTag(CciTags(s))
  {
  }

  /** The trend check emits at most one tag, and it is a trend tag. */
  lemma TrendCheckTagsTrend(s: Snapshot)
    ensures |TrendTags(s)| <= 1 && (TrendTags(s) != [] ==> IsTrendTag(TrendTags(s)[0]))
  {
  }

  lemma KeepTrendTag(g: seq<Tag>)
    requires |g| <= 1 && (g != [] ==> IsTrendTag(g[0]))
    ensures Filter(g, IsTrendTag) == g
  {
    if g != [] {
      assert g[1..] == [];
    }
  }

  /** Appending a group without trend tags leaves the trend tags of the prefix as they were. */
  lemma AppendNonTrend(p: seq<Tag>, g: seq<Tag>)
    requires NoTrendTag(g)
    ensures Filter(p + g, IsTrendTag) == Filter(p, IsTrendTag)
  {
    FilterAppend(p, g, IsTrendTag);
    if g != [] {
      assert g[1..] == [];
    }
    assert Filter(p, IsTrendTag) + [] == Filter(p, IsTrendTag);
  }

  /** Appending eight groups without trend tags keeps the trend tags of the first group. */
  lemma AppendNonTrendGroups(t: seq<Tag>, a: seq<Tag>, b: seq<Tag>, c: seq<Tag>, d: seq<Tag>,
                             e: seq<Tag>, f: seq<Tag>, g: seq<Tag>, h: seq<Tag>)
    requires NoTrendTag(a) && NoTrendTag(b) && NoTrendTag(c) && NoTrendTag(d)
    requires NoTrendTag(e) && NoTrendTag(f) && NoTrendTag(g) && NoTrendTag(h)
    ensures Filter(t + a + b + c + d + e + f + g + h, IsTrendTag) == Filter(t, IsTrendTag)
  {
    AppendNonTrend(t, a);
    AppendNonTrend(t + a, b);
    AppendNonTrend(t + a + b, c);
    AppendNonTrend(t + a + b + c, d);
    AppendNonTrend(t + a + b + c + d, e);
    AppendNonTrend(t + a + b + c + d + e, f);
    AppendNonTrend(t + a + b + c + d + e + f, g);
    AppendNonTrend(t + a + b + c + d + e + f + g, h);
  }

  /** The trend tags among all emitted tags are exactly the trend check's output. */
  lemma TrendTagsFiltered(s: Snapshot)
    ensures Filter(Tags(s), IsTrendTag) == TrendTags(s)
  {
    OnlyTrendCheckTagsTrend(s);
    TrendCheckTagsTrend(s);
    KeepTrendTag(TrendTags(s));
    AppendNonTrendGroups(TrendTags(s), RsiTags(s), MacdTags(s), BandTags(s), SqueezeTags(s),
                         StochasticTags(s), VolumeTags(s), WilliamsTags(s), CciTags(s));
  }

  /**
   * At most one trend tag is emitted, and the strict chains take precedence over the
   * plain ones: each trend tag appears exactly when its chain holds and no earlier one does.
   */
  lemma TrendTagExclusive(s: Snapshot)
    ensures |Filter(Tags(s), IsTrendTag)| <= 1
    ensures StrongUptrend in Tags(s) <==> StrongUpChain(s)
    ensures Uptrend in Tags(s) <==> !StrongUpChain(s) && UpChain(s)
    ensures StrongDowntrend in Tags(s) <==> !UpChain(s) && StrongDownChain(s)
    ensures Downtrend in Tags(s) <==> !UpChain(s) && !StrongDownChain(s) && DownChain(s)
  {
    TrendTagsFiltered(s);
    TrendCheckTagsTrend(s);
    TrendGroupRules(s);
    TrendMember(Tags(s), TrendTags(s), StrongUptrend);
    TrendMember(Tags(s), TrendTags(s), Uptrend);
    TrendMember(Tags(s), TrendTags(s), StrongDowntrend);
    TrendMember(Tags(s), TrendTags(s), Downtrend);
  }

  /** Which trend tag the trend check emits. */
  lemma TrendGroupRules(s: Snapshot)
    ensures StrongUptrend in TrendTags(s) <==> StrongUpChain(s)
    ensures Uptrend in TrendTags(s) <==> !StrongUpChain(s) && UpChain(s)
    ensures StrongDowntrend in TrendTags(s) <==> !UpChain(s) && StrongDownChain(s)
    ensures Downtrend in TrendTags(s) <==> !UpChain(s) && !StrongDownChain(s) && DownChain(s)
  {
    assert StrongUpChain(s) ==> UpChain(s);
  }

  /** A trend tag is in a tag list iff it is among that list's trend tags. */
  lemma TrendMember(all: seq<Tag>, trend: seq<Tag>, t: Tag)
    requires Filter(all, IsTrendTag) == trend && IsTrendTag(t)
    ensures t in all <==> t in trend
  {
    FilterMembers(all, IsTrendTag);
  }

  /*
   * The service builds `signals` and `strength_score` in one function, check after
   * check; each check is one method below, and `Synthesize` runs them in order.
   */

  method TrendSignals(s: Snapshot, signals: seq<Tag>, score: int) returns (signals': seq<Tag>, score': int)
    ensures signals' == signals + TrendTags(s) && score' == score + TrendPoints(s)
  {
    signals', score' := signals, score;
    var price := Some(s.price);
    if Gt(price, s.ma5) && Gt(s.ma5, s.ma10) && Gt(s.ma10, s.ma20) && Gt(s.ma20, s.ma50) {
      signals' := signals' + [StrongUptrend];
      score' := score' + 3;
    } else if Gt(price, s.ma20) && Gt(s.ma20, s.ma50) {
      signals' := signals' + [Uptrend];
      score' := score' + 2;
    } else if Lt(price, s.ma5) && Lt(s.ma5, s.ma10) && Lt(s.ma10, s.ma20) && Lt(s.ma20, s.ma50) {
      signals' := signals' + [StrongDowntrend];
      score' := score' - 3;
    } else if Lt(price, s.ma20) && Lt(s.ma20, s.ma50) {
      signals' := signals' + [Downtrend];
      score' := score' - 2;
    }
  }

  method RsiSignals(s: Snapshot, signals: seq<Tag>, score: int) returns (signals': seq<Tag>, score': int)
    ensures signals' == signals + RsiTags(s) && score' == score + RsiPoints(s)
  {
    signals', score' := signals, score;
    if Lt(s.rsi, Some(20.0)) {
      signals' := signals' + [ExtremelyOversold];
      score' := score' + 2;
    } else if Lt(s.rsi, Some(30.0)) {
      signals' := signals' + [Oversold];
      score' := score' + 1;
    } else if Gt(s.rsi, Some(80.0)) {
      signals' := signals' + [ExtremelyOverbought];
      score' := score' - 2;
    } else if Gt(s.rsi, Some(70.0)) {
      signals' := signals' + [Overbought];
      score' := score' - 1;
    }
  }

  method MacdSignals(s: Snapshot, signals: seq<Tag>, score: int) returns (signals': seq<Tag>, score': int)
    ensures signals' == signals + MacdTags(s) && score' == score + MacdPoints(s)
  {
    signals', score' := signals, score;
    if s.macd > s.macdSignal && s.macdHistogram > 0.0 {
      signals' := signals' + [MacdBullish];
      score' := score' + 1;
    } else if s.macd < s.macdSignal && s.macdHistogram < 0.0 {
      signals' := signals' + [MacdBearish];
      score' := score' - 1;
    }
  }

  method BollingerSignals(s: Snapshot, signals: seq<Tag>) returns (signals': seq<Tag>)
    ensures signals' == signals + BandTags(s) + SqueezeTags(s)
  {
    signals' := signals;
    if Gt(s.bbPosition, Some(0.8)) {
      signals' := signals' + [BbOverbought];
    } else if Lt(s.bbPosition, Some(0.2)) {
      signals' := signals' + [BbOversold];
    }
    assert signals' == signals + BandTags(s);
    if s.bbSqueeze {
      signals' := signals' + [BbSqueeze];
    }
  }

  method StochasticSignals(s: Snapshot, signals: seq<Tag>) returns (signals': seq<Tag>)
    ensures signals' == signals + StochasticTags(s)
  {
    signals' := signals;
    if Lt(s.stochK, Some(20.0)) && Lt(s.stochD, Some(20.0)) {
      signals' := signals' + [StochOversold];
    } else if Gt(s.stochK, Some(80.0)) && Gt(s.stochD, Some(80.0)) {
      signals' := signals' + [StochOverbought];
    }
  }

  method VolumeSignals(s: Snapshot, signals: seq<Tag>, score: int) returns (signals': seq<Tag>, score': int)
    ensures signals' == signals + VolumeTags(s) && score' == score + VolumePoints(s)
  {
    signals', score' := signals, score;
    if s.volumeRatio > 2.0 {
      signals' := signals' + [HighVolume];
      score' := score' + 1;
    } else if s.volumeRatio < 0.5 {
      signals' := signals' + [LowVolume];
    }
  }

  method WilliamsSignals(s: Snapshot, signals: seq<Tag>) returns (signals': seq<Tag>)
    ensures signals' == signals + WilliamsTags(s)
  {
    signals' := signals;
    if Lt(s.williamsR, Some(-80.0)) {
      signals' := signals' + [WilliamsOversold];
    } else if Gt(s.williamsR, Some(-20.0)) {
      signals' := signals' + [WilliamsOverbought];
    }
  }

  method CciSignals(s: Snapshot, signals: seq<Tag>) returns (signals': seq<Tag>)
    ensures signals' == signals + CciTags(s)
  {
    signals' := signals;
    if Gt(s.cci, Some(100.0)) {
      signals' := signals' + [CciOverbought];
    } else if Lt(s.cci, Some(-100.0)) {
      signals' := signals' + [CciOversold];
    }
  }

  /**
   * `get_comprehensive_technical_analysis`, the part that builds `signals` and
   * `strength_score` check by check and then picks the overall signal.
   */
  method Synthesize(s: Snapshot) returns (signals: seq<Tag>, score: int, overall: Overall)
    ensures signals == Tags(s)
    ensures score == StrengthScore(s) && -6 <= score <= 7
    ensures overall == Classify(score)
  {
    signals, score := TrendSignals(s, [], 0);
    assert [] + TrendTags(s) == TrendTags(s);
    signals, score := RsiSignals(s, signals, score);
    signals, score := MacdSignals(s, signals, score);
    signals := BollingerSignals(s, signals);
    signals := StochasticSignals(s, signals);
    signals, score := VolumeSignals(s, signals, score);
    signals := WilliamsSignals(s, signals);
    signals := CciSignals(s, signals);

    if score >= 4 {
      overall := StrongBuy;
    } else if score >= 2 {
      overall := Buy;
    } else if score <= -4 {
      overall := StrongSell;
    } else if score <= -2 {
      overall := Sell;
    } else {
      overall := Hold;
    }
  }

  /** The values that come from exponential smoothing or rolling standard deviations. */
  datatype Smoothed = Smoothed(macd: real, macdSignal: real, macdHistogram: real, std20: Option<real>, cci: Option<real>)

  function Volumes(bars: seq<Bar>): (r: seq<real>)
    ensures |r| == |bars| && forall i :: 0 <= i < |bars| ==> r[i] == bars[i].volume
  {
    seq(|bars|, i requires 0 <= i < |bars| => bars[i].volume)
  }

  /** The indicator snapshot at the latest bar of `bars`. */
  function SnapshotOf(bars: seq<Bar>, ext: Smoothed): (r: Snapshot)
    requires |bars| > 0
    ensures r.price == bars[|bars| - 1].close
    ensures r.ma20 == Sma(Closes(bars), 20) && r.ma50 == Sma(Closes(bars), 50)
    ensures r.ma50.Some? <==> |bars| >= 50
  {
    var closes := Closes(bars);
    var n := |bars|;
    var bands := Bollinger(closes, ext.std20);
    var stoch := CalculateStochastic(bars, 14, 3);
    Snapshot(
      closes[n - 1],
      Sma(closes, 5), Sma(closes, 10), Sma(closes, 20), Sma(closes, 50),
      RsiAt(closes, 14, n - 1),
      ext.macd, ext.macdSignal, ext.macdHistogram,
      bands.position, bands.squeeze,
      stoch.k, stoch.d,
      VolumeRatio(Volumes(bars)),
      WilliamsR(bars, 14),
      ext.cci)
  }

  /** Python's `round(x) if x else None`: a zero value is reported as missing. */
  function NoneIfZero(x: Option<real>): (r: Option<real>)
    ensures r.Some? <==> Truthy(x)
    ensures r.Some? ==> r == x
  {
    if Truthy(x) then x else None
  }

  /** Percentage change of the latest close over `back` bars, when that many bars exist. */
  function ChangeOver(closes: seq<real>, back: nat): (r: Option<real>)
    requires |closes| > 0 && forall i :: 0 <= i < |closes| ==> closes[i] > 0.0
    ensures r.Some? <==> |closes| > back
    ensures r.Some? ==> (r.value == 0.0 <==> closes[|closes| - 1 - back] == closes[|closes| - 1])
  {
    var n := |closes|;
    if n > back then
      PctChangeSign(closes[n - 1 - back], closes[n - 1]);
      Some(PctChange(closes[n - 1 - back], closes[n - 1]))
    else None
  }

  function PriceVs(price: real, ma: Option<real>): (r: Option<real>)
    requires ma.Some? ==> ma.value > 0.0
    ensures r.Some? <==> ma.Some?
    ensures r.Some? ==> (r.value > 0.0 <==> price > ma.value)
  {
    if ma.None? then None
    else
      PctChangeSign(ma.value, price);
      Some(PctChange(ma.value, price))
  }

  datatype Analysis = Analysis(
    snapshot: Snapshot,
    priceChange1d: real, priceChange5d: Option<real>, priceChange20d: Option<real>,
    ma100: Option<real>, ma200: Option<real>,
    bands: Bands, atr: Option<real>, levels: Levels,
    priceVsMa20: Option<real>, priceVsMa50: Option<real>,
    signals: seq<Tag>, overallSignal: Overall, strengthScore: int)

  lemma SmaOfPositive(xs: seq<real>, n: nat)
    requires 0 < n && |xs| > 0 && forall i :: 0 <= i < |xs| ==> xs[i] > 0.0
    ensures Sma(xs, n).Some? ==> Sma(xs, n).value > 0.0
  {
    if |xs| >= n {
      var i := |xs| - 1;
      SmaWithinWindow(xs, n, i);
      WindowMinPositive(xs, i + 1 - n, i + 1);
    }
  }

  lemma WindowMinPositive(xs: seq<real>, lo: nat, hi: nat)
    requires lo < hi <= |xs| && forall i :: 0 <= i < |xs| ==> xs[i] > 0.0
    ensures MinOf(xs[lo..hi]) > 0.0
  {
    var w := xs[lo..hi];
    assert forall k :: 0 <= k < |w| ==> w[k] == xs[lo + k];
  }

  /**
   * `get_comprehensive_technical_analysis` on one fetched price history. Without
   * bars it returns an error payload; with one bar reading the previous close raises
   * an index error; with fewer than 20 bars the 20-bar average volume is NaN and its
   * conversion to an integer raises. Every exception is caught into an error payload.
   */
  method Analyze(bars: seq<Bar>, ext: Smoothed) returns (r: Result<Analysis>)
    requires ValidBars(bars)
    ensures bars == [] ==> r == Err("No price data")
    ensures 0 < |bars| < 2 ==> r == Err("single positional indexer is out-of-bounds")
    ensures 2 <= |bars| < 20 ==> r == Err("cannot convert float NaN to integer")
    ensures r.Ok? <==> |bars| >= 20
    ensures r.Ok? ==> r.value.snapshot == SnapshotOf(bars, ext)
    ensures r.Ok? ==> r.value.signals == Tags(r.value.snapshot)
    ensures r.Ok? ==> r.value.strengthScore == StrengthScore(r.value.snapshot)
    ensures r.Ok? ==> r.value.overallSignal == Classify(r.value.strengthScore)
  {
    if |bars| == 0 {
      return Err("No price data");
    }
    if |bars| < 2 {
      return Err("single positional indexer is out-of-bounds");
    }
    if |bars| < 20 {
      return Err("cannot convert float NaN to integer");
    }
    var a := FullAnalysis(bars, ext);
    r := Ok(a);
  }

  /**
   * A long moving average as the analysis record reports it: computed only when the
   * history covers it, and dropped when it is zero. Over positive closes it is
   * reported exactly when the history covers it.
   */
  function LongAverage(closes: seq<real>, n: nat): (r: Option<real>)
    requires 0 < n
    ensures r.Some? ==> |closes| >= n && r == Sma(closes, n)
    ensures |closes| >= n && (forall i :: 0 <= i < |closes| ==> closes[i] > 0.0) ==> r.Some? && r == Sma(closes, n)
  {
    PositiveSmaIsTruthy(closes, n);
    NoneIfZero(if |closes| >= n then Sma(closes, n) else None)
  }

  lemma PositiveSmaIsTruthy(closes: seq<real>, n: nat)
    requires 0 < n
    ensures |closes| >= n && (forall i :: 0 <= i < |closes| ==> closes[i] > 0.0) ==> Truthy(Sma(closes, n))
  {
    if |closes| >= n && forall i :: 0 <= i < |closes| ==> closes[i] > 0.0 {
      SmaOfPositive(closes, n);
    }
  }

  /**
   * The price-change and moving-average comparison fields of the analysis record:
   * the 5- and 20-day changes and the long averages are reported only when they
   * exist and are non-zero.
   */
  method PriceFields(bars: seq<Bar>)
    returns (change1d: real, change5d: Option<real>, change20d: Option<real>,
             ma100: Option<real>, ma200: Option<real>, vs20: Option<real>, vs50: Option<real>)
    requires ValidBars(bars) && |bars| >= 20
    ensures change1d == PctChange(bars[|bars| - 2].close, bars[|bars| - 1].close)
    ensures change5d.Some? <==> |bars| >= 6 && bars[|bars| - 6].close != bars[|bars| - 1].close
    ensures change20d.Some? <==> |bars| >= 21 && bars[|bars| - 21].close != bars[|bars| - 1].close
    ensures ma100.Some? ==> |bars| >= 100 && ma100 == Sma(Closes(bars), 100)
    ensures ma200.Some? ==> |bars| >= 200 && ma200 == Sma(Closes(bars), 200)
    ensures |bars| >= 100 ==> ma100.Some? && ma100 == Sma(Closes(bars), 100)
    ensures |bars| >= 200 ==> ma200.Some? && ma200 == Sma(Closes(bars), 200)
    ensures vs20.Some? <==> Sma(Closes(bars), 20).Some?
    ensures vs20.Some? ==> (vs20.value > 0.0 <==> bars[|bars| - 1].close > Sma(Closes(bars), 20).value)
    ensures vs50.Some? <==> Sma(Closes(bars), 50).Some?
    ensures vs50.Some? ==> (vs50.value > 0.0 <==> bars[|bars| - 1].close > Sma(Closes(bars), 50).value)
  {
    change1d, change5d, change20d := PriceChanges(bars);
    ma100, ma200, vs20, vs50 := AverageFields(bars);
  }

  /** The 1-, 5- and 20-day percentage changes; the longer two are dropped when absent or zero. */
  method PriceChanges(bars: seq<Bar>) returns (change1d: real, change5d: Option<real>, change20d: Option<real>)
    requires ValidBars(bars) && |bars| >= 20
    ensures change1d == PctChange(bars[|bars| - 2].close, bars[|bars| - 1].close)
    ensures change5d.Some? <==> |bars| >= 6 && bars[|bars| - 6].close != bars[|bars| - 1].close
    ensures change20d.Some? <==> |bars| >= 21 && bars[|bars| - 21].close != bars[|bars| - 1].close
  {
    var closes := Closes(bars);
    var n := |bars|;
    change1d := PctChange(closes[n - 2], closes[n - 1]);
    change5d := NoneIfZero(ChangeOver(closes, 5));
    change20d := NoneIfZero(ChangeOver(closes, 20));
  }

  /** The 100- and 200-bar averages and the price's distance from the 20- and 50-bar averages. */
  method AverageFields(bars: seq<Bar>) returns (ma100: Option<real>, ma200: Option<real>, vs20: Option<real>, vs50: Option<real>)
    requires ValidBars(bars) && |bars| >= 20
    ensures ma100.Some? ==> |bars| >= 100 && ma100 == Sma(Closes(bars), 100)
    ensures ma200.Some? ==> |bars| >= 200 && ma200 == Sma(Closes(bars), 200)
    ensures |bars| >= 100 ==> ma100.Some? && ma100 == Sma(Closes(bars), 100)
    ensures |bars| >= 200 ==> ma200.Some? && ma200 == Sma(Closes(bars), 200)
    ensures vs20.Some? <==> Sma(Closes(bars), 20).Some?
    ensures vs20.Some? ==> (vs20.value > 0.0 <==> bars[|bars| - 1].close > Sma(Closes(bars), 20).value)
    ensures vs50.Some? <==> Sma(Closes(bars), 50).Some?
    ensures vs50.Some? ==> (vs50.value > 0.0 <==> bars[|bars| - 1].close > Sma(Closes(bars), 50).value)
  {
    var closes := Closes(bars);
    var price := closes[|bars| - 1];
    assert forall i :: 0 <= i < |closes| ==> closes[i] > 0.0;
    ma100 := LongAverage(closes, 100);
    ma200 := LongAverage(closes, 200);
    SmaOfPositive(closes, 20);
    SmaOfPositive(closes, 50);
    vs20 := PriceVs(price, Sma(closes, 20));
    vs50 := PriceVs(price, Sma(closes, 50));
  }

  /** The snapshot at the latest bar and the signals synthesized from it. */
  method LatestSignals(bars: seq<Bar>, ext: Smoothed)
    returns (snapshot: Snapshot, signals: seq<Tag>, score: int, overall: Overall)
    requires |bars| > 0
    ensures snapshot == SnapshotOf(bars, ext)
    ensures signals == Tags(snapshot) && score == StrengthScore(snapshot) && overall == Classify(score)
  {
    snapshot := SnapshotOf(bars, ext);
    signals, score, overall := Synthesize(snapshot);
  }

  /** The Bollinger, average-true-range and support/resistance fields of the analysis record. */
  method Indicators(bars: seq<Bar>, ext: Smoothed) returns (bands: Bands, atr: Option<real>, levels: Levels)
    requires |bars| >= 20
    ensures bands.middle == Sma(Closes(bars), 20) && bands.upper.Some? == ext.std20.Some?
    ensures atr.Some? && levels.currentPrice == bars[|bars| - 1].close
  {
    var closes := Closes(bars);
    bands := Bollinger(closes, ext.std20);
    atr := Atr(bars, 14);
    levels := SupportResistance(closes, 20);
  }

  /** The record `get_comprehensive_technical_analysis` builds once enough bars exist. */
  method FullAnalysis(bars: seq<Bar>, ext: Smoothed) returns (a: Analysis)
    requires ValidBars(bars) && |bars| >= 20
    ensures a.snapshot == SnapshotOf(bars, ext)
    ensures a.signals == Tags(a.snapshot)
    ensures a.strengthScore == StrengthScore(a.snapshot)
    ensures a.overallSignal == Classify(a.strengthScore)
    ensures a.priceChange1d == PctChange(bars[|bars| - 2].close, bars[|bars| - 1].close)
    ensures a.priceChange5d.Some? <==> |bars| >= 6 && bars[|bars| - 6].close != bars[|bars| - 1].close
    ensures a.priceChange20d.Some? <==> |bars| >= 21 && bars[|bars| - 21].close != bars[|bars| - 1].close
    ensures a.priceVsMa20.Some? && (a.priceVsMa20.value > 0.0 <==> a.snapshot.price > a.snapshot.ma20.value)
    ensures a.priceVsMa50.Some? <==> a.snapshot.ma50.Some?
    ensures a.priceVsMa50.Some? ==> (a.priceVsMa50.value > 0.0 <==> a.snapshot.price > a.snapshot.ma50.value)
    ensures a.bands.middle == a.snapshot.ma20 && a.atr.Some? && a.levels.currentPrice == a.snapshot.price
  {
    var change1d, change5d, change20d, ma100, ma200, vs20, vs50 := PriceFields(bars);
    var snapshot, signals, score, overall := LatestSignals(bars, ext);
    var bands, atr, levels := Indicators(bars, ext);
    a := Analysis(
      snapshot, change1d, change5d, change20d, ma100, ma200, bands, atr, levels,
      vs20, vs50, signals, overall, score);
  }

  datatype Trend = Up | Down

  /** One timeframe's entry in the multi-timeframe view. */
  datatype TimeframeView = TimeframeView(signal: Overall, rsi: Option<real>, trend: Trend)

  /** The three fixed lookbacks, by display name. */
  const TimeframeNames: seq<string> := ["Short Term", "Medium Term", "Long Term"]

  /** The price history fetched for one timeframe, with its smoothed indicators. */
  datatype History = History(bars: seq<Bar>, ext: Smoothed)

  function TrendOf(s: Snapshot): (t: Trend)
    ensures t == Up <==> Gt(Some(s.price), s.ma20)
  {
    if Gt(Some(s.price), s.ma20) then Up else Down
  }

  /** The view a timeframe reports when its analysis succeeds. */
  function ViewOf(h: History): TimeframeView
    requires |h.bars| > 0
  {
    var s := SnapshotOf(h.bars, h.ext);
    TimeframeView(Classify(StrengthScore(s)), s.rsi, TrendOf(s))
  }

  /** One timeframe of `get_multi_timeframe_signals`: nothing when the analysis fails. */
  method TimeframeSignal(h: History) returns (view: Option<TimeframeView>)
    requires ValidBars(h.bars)
    ensures view == OutcomeOf(h)
  {
    var analysis := Analyze(h.bars, h.ext);
    if analysis.Ok? {
      var a := analysis.value;
      var trend := if Gt(Some(a.snapshot.price), a.snapshot.ma20) then Up else Down;
      view := Some(TimeframeView(a.overallSignal, a.snapshot.rsi, trend));
    } else {
      view := None;
    }
  }

  /**
   * `get_multi_timeframe_signals`: one analysis per timeframe; those that return an
   * error are left out of the result.
   */
  method MultiTimeframeSignals(histories: seq<History>) returns (results: map<string, TimeframeView>)
    requires |histories| == 3
    requires forall k :: 0 <= k < |histories| ==> ValidBars(histories[k].bars)
    ensures results == Keyed(TimeframeNames, Outcomes(histories), |histories|)
  {
    ghost var outs := Outcomes(histories);
    results := map[];
    var k := 0;
    while k < |histories|
      invariant 0 <= k <= |histories|
      invariant results == Keyed(TimeframeNames, outs, k)
    {
      var view := TimeframeSignal(histories[k]);
      var next := if view.Some? then results[TimeframeNames[k] := view.value] else results;
      KeyedNext(TimeframeNames, outs, k, results, view, next);
      results := next;
      k := k + 1;
    }
  }

  lemma KeyedNext<V>(names: seq<string>, values: seq<Option<V>>, k: nat, m: map<string, V>,
                     v: Option<V>, m': map<string, V>)
    requires k < |values| <= |names| && m == Keyed(names, values, k) && v == values[k]
    requires m' == if v.Some? then m[names[k] := v.value] else m
    ensures m' == Keyed(names, values, k + 1)
  {
  }

  /** What each timeframe's analysis reports, in timeframe order. */
  function Outcomes(histories: seq<History>): (r: seq<Option<TimeframeView>>)
    ensures |r| == |histories| && forall k :: 0 <= k < |histories| ==> r[k] == OutcomeOf(histories[k])
  {
    seq(|histories|, k requires 0 <= k < |histories| => OutcomeOf(histories[k]))
  }

  function OutcomeOf(h: History): (r: Option<TimeframeView>)
    ensures r.Some? <==> |h.bars| >= 20
  {
    if |h.bars| >= 20 then Some(ViewOf(h)) else None
  }

  /** The present entries among the first `k` of `values`, keyed by the matching name. */
  function Keyed<V>(names: seq<string>, values: seq<Option<V>>, k: nat): map<string, V>
    requires k <= |values| <= |names|
  {
    if k == 0 then map[]
    else if values[k - 1].Some? then Keyed(names, values, k - 1)[names[k - 1] := values[k - 1].value]
    else Keyed(names, values, k - 1)
  }

  predicate Distinct(names: seq<string>) {
    forall i, j :: 0 <= i < j < |names| ==> names[i] != names[j]
  }

  lemma TimeframeNamesDistinct()
    ensures Distinct(TimeframeNames)
  {
    assert |TimeframeNames[0]| == 10 && |TimeframeNames[1]| == 11 && |TimeframeNames[2]| == 9;
  }

  /** Under distinct names, a name is a key exactly when its entry is present, and maps to it. */
  lemma {:induction false} KeyedContents<V>(names: seq<string>, values: seq<Option<V>>, k: nat)
    requires k <= |values| <= |names| && Distinct(names)
    ensures forall name :: name in Keyed(names, values, k) ==> name in names[..k]
    ensures forall m :: 0 <= m < k ==> (names[m] in Keyed(names, values, k) <==> values[m].Some?)
    ensures forall m :: 0 <= m < k && values[m].Some? ==> Keyed(names, values, k)[names[m]] == values[m].value
  {
    if k > 0 {
      KeyedContents(names, values, k - 1);
      var last := names[k - 1];
      assert names[..k] == names[..k - 1] + [last];
      forall m | 0 <= m < k - 1
        ensures names[m] != last
      {
        assert names[m] != names[k - 1];
      }
    }
  }

  /**
   * A strict uptrend with every other reading neutral and MACD level with its signal
   * line emits only STRONG_UPTREND and scores 3, which is a BUY.
   */
  lemma StrictUptrendFlatMacdScoresThree()
    ensures var s := Snapshot(110.0, Some(108.0), Some(106.0), Some(104.0), Some(100.0), Some(50.0),
                              0.0, 0.0, 0.0, Some(0.5), false, Some(50.0), Some(50.0), 1.0, Some(-50.0), Some(0.0));
            Tags(s) == [StrongUptrend] && StrengthScore(s) == 3 && Classify(StrengthScore(s)) == Buy
  {
  }

  /** The same uptrend with MACD below its signal line also tags MACD_BEARISH and scores 3 - 1 = 2, still a BUY. */
  lemma StrictUptrendAloneIsBuy()
    ensures var s := Snapshot(110.0, Some(108.0), Some(106.0), Some(104.0), Some(100.0), Some(50.0),
                              0.0, 1.0, -1.0, Some(0.5), false, Some(50.0), Some(50.0), 1.0, Some(-50.0), Some(0.0));
            Tags(s) == [StrongUptrend, MacdBearish] && StrengthScore(s) == 2 && Classify(StrengthScore(s)) == Buy
  {
  }
}
