/** The two backtest engines: trading around earnings reports, and a one-position technical state machine. */
module Backtesting {
  import opened Common
  import opened Technical
  import opened Earnings
  import opened Trading

  /** The totals both engines report over all their trades; `trades` keeps only the latest few. */
  datatype Report<T> = Report(
    ticker: string,
    strategy: string,
    totalTrades: nat,
    winRate: real,
    totalReturnPct: real,
    avgReturnPct: real,
    bestTradePct: real,
    worstTradePct: real,
    trades: seq<T>)

  function ReportOf<T>(ticker: string, strategy: string, trades: seq<T>, pnls: seq<real>, keep: nat): Report<T>
    requires |pnls| == |trades| && pnls != []
  {
    Report(ticker, strategy, |trades|, WinRate(|Filter(pnls, IsGain)|, |pnls|),
           Sum(pnls), Sum(pnls) / |pnls| as real, MaxOf(pnls), MinOf(pnls), LastN(trades, keep))
  }

  /** The totals cover every trade: the worst ≤ the average ≤ the best, and the win rate is the share of gains. */
  lemma ReportFacts<T>(ticker: string, strategy: string, trades: seq<T>, pnls: seq<real>, keep: nat)
    requires |pnls| == |trades| && pnls != []
    ensures var r := ReportOf(ticker, strategy, trades, pnls, keep);
      && r.totalTrades == |pnls|
      && r.totalReturnPct == Sum(pnls)
      && r.worstTradePct <= r.avgReturnPct <= r.bestTradePct
      && r.bestTradePct in pnls && r.worstTradePct in pnls
      && (forall i :: 0 <= i < |pnls| ==> r.worstTradePct <= pnls[i] <= r.bestTradePct)
      && 0.0 <= r.winRate <= 1.0
      && r.winRate == WinRate(|Filter(pnls, IsGain)|, |pnls|)
      && r.trades == LastN(trades, keep)
  {
    MeanWithinMinMax(pnls);
  }

  // ---------------------------------------------------------------------------
  // Earnings strategy

  datatype EarningsTrade = EarningsTrade(
    date: int,
    entryPrice: real,
    exitPrice: real,
    position: int,
    pnlPct: real,
    signal: string)

  function SignalName(s: SurpriseSignal): string
  {
    match s
    case StrongBuy => "STRONG_BUY"
    case WeakBuy => "WEAK_BUY"
    case Sell => "SELL"
    case Hold => "HOLD"
  }

  /** `prices.loc[prices.index <= d].iloc[-1]`: the last bar, below position `k`, dated on or before `d`. */
  function LastAtOrBefore(bars: seq<Bar>, d: int, k: nat): (r: Option<nat>)
    requires k <= |bars|
    ensures r.Some? ==> r.value < k && bars[r.value].date <= d
    ensures r.Some? ==> forall j :: r.value < j < k ==> bars[j].date > d
    ensures r.None? ==> forall j :: 0 <= j < k ==> bars[j].date > d
  {
    if k == 0 then None
    else if bars[k - 1].date <= d then Some(k - 1)
    else LastAtOrBefore(bars, d, k - 1)
  }

  /** `event.eps_surprise_pct or 0`. */
  function SurpriseOrZero(x: Option<real>): real
  {
    if Truthy(x) then x.value else 0.0
  }

  /** The direction a strategy takes on an event: +1 long, -1 short, 0 no trade. */
  function PositionFor(strategy: string, e: EarningsEvent): int
  {
    if strategy == "surprise" then
      var s := SurpriseSignalOf(e);
      if s == StrongBuy || s == WeakBuy then 1 else if s == Sell then -1 else 0
    else if strategy == "always_long" then 1
    else if strategy == "volatility" then (if Abs(SurpriseOrZero(e.epsSurprisePct)) > 2.0 then 1 else 0)
    else 0
  }

  lemma PositionRules(strategy: string, e: EarningsEvent)
    ensures strategy == "surprise" ==>
      && (PositionFor(strategy, e) == 1 <==> SurpriseSignalOf(e) in {StrongBuy, WeakBuy})
      && (PositionFor(strategy, e) == -1 <==> SurpriseSignalOf(e) == Sell)
      && (PositionFor(strategy, e) == 0 <==> SurpriseSignalOf(e) == Hold)
    ensures strategy == "always_long" ==> PositionFor(strategy, e) == 1
    ensures strategy == "volatility" ==>
      (PositionFor(strategy, e) == 1 <==> e.epsSurprisePct.Some? && Abs(e.epsSurprisePct.value) > 2.0)
    ensures strategy == "volatility" ==> PositionFor(strategy, e) in {0, 1}
    ensures strategy !in {"surprise", "always_long", "volatility"} ==> PositionFor(strategy, e) == 0
  {
  }

  /** `position * ((exit - entry) / entry) * 100`. */
  function Pnl(position: int, entry: real, exit: real): (r: real)
    requires entry > 0.0 && (position == 1 || position == -1)
    ensures r > 0.0 <==> (position == 1 && exit > entry) || (position == -1 && exit < entry)
    ensures r == 0.0 <==> exit == entry
  {
    PctChangeSign(entry, exit);
    position as real * PctChange(entry, exit)
  }

  /** The trade an event produces, if it has an entry bar before it, an exit bar after it and a direction. */
  function TradeFor(bars: seq<Bar>, strategy: string, e: EarningsEvent): Option<EarningsTrade>
    requires ValidBars(bars)
  {
    var entryAt := LastAtOrBefore(bars, e.reportDate - 1, |bars|);
    var exitAt := FirstAtOrAfter(bars, e.reportDate + 1, 0);
    if entryAt.None? || exitAt.None? then None
    else
      var position := PositionFor(strategy, e);
      if position == 0 then None
      else
        var entry := bars[entryAt.value].close;
        var exit := bars[exitAt.value].close;
        Some(EarningsTrade(e.reportDate, entry, exit, position, Pnl(position, entry, exit),
                           if strategy == "surprise" then SignalName(SurpriseSignalOf(e)) else strategy))
  }

  /** Entry is the last close at least a day before the report, exit the first close at least a day after it. */
  lemma TradeForFacts(bars: seq<Bar>, strategy: string, e: EarningsEvent)
    requires ValidBars(bars)
    ensures TradeFor(bars, strategy, e).Some? <==>
      && (exists i :: 0 <= i < |bars| && bars[i].date <= e.reportDate - 1)
      && (exists i :: 0 <= i < |bars| && bars[i].date >= e.reportDate + 1)
      && PositionFor(strategy, e) != 0
    ensures TradeFor(bars, strategy, e).Some? ==>
      var t := TradeFor(bars, strategy, e).value;
      && t.date == e.reportDate
      && t.position == PositionFor(strategy, e)
      && (exists i :: 0 <= i < |bars| && bars[i].date <= e.reportDate - 1 && t.entryPrice == bars[i].close
                      && forall j :: i < j < |bars| ==> bars[j].date > e.reportDate - 1)
      && (exists i :: 0 <= i < |bars| && bars[i].date >= e.reportDate + 1 && t.exitPrice == bars[i].close
                      && forall j :: 0 <= j < i ==> bars[j].date < e.reportDate + 1)
      && (t.pnlPct > 0.0 <==> (t.position == 1 && t.exitPrice > t.entryPrice) ||
                              (t.position == -1 && t.exitPrice < t.entryPrice))
  {
    var entryAt := LastAtOrBefore(bars, e.reportDate - 1, |bars|);
    var exitAt := FirstAtOrAfter(bars, e.reportDate + 1, 0);
    if entryAt.None? {
      assert forall i :: 0 <= i < |bars| ==> bars[i].date > e.reportDate - 1;
    }
    if exitAt.None? {
      assert forall i :: 0 <= i < |bars| ==> bars[i].date < e.reportDate + 1;
    }
    if entryAt.Some? && exitAt.Some? {
      assert bars[entryAt.value].date <= e.reportDate - 1;
      assert bars[exitAt.value].date >= e.reportDate + 1;
    }
  }

  function EarningsTrades(bars: seq<Bar>, strategy: string, events: seq<EarningsEvent>): (r: seq<EarningsTrade>)
    requires ValidBars(bars)
    ensures |r| <= |events|
  {
    if events == [] then []
    else
      var init := EarningsTrades(bars, strategy, events[..|events| - 1]);
      var t := TradeFor(bars, strategy, events[|events| - 1]);
      if t.Some? then init + [t.value] else init
  }

  function EarningsPnls(trades: seq<EarningsTrade>): (r: seq<real>)
    ensures |r| == |trades| && forall i :: 0 <= i < |trades| ==> r[i] == trades[i].pnlPct
  {
    seq(|trades|, i requires 0 <= i < |trades| => trades[i].pnlPct)
  }

  /** Appending one P&L extends the running total by it and the win count by one exactly on a gain. */
  lemma RunningTotals(pnls: seq<real>, x: real)
    ensures Sum(pnls + [x]) == Sum(pnls) + x
    ensures |Filter(pnls + [x], IsGain)| == |Filter(pnls, IsGain)| + (if x > 0.0 then 1 else 0)
  {
    SumAppend(pnls, [x]);
    FilterAppend(pnls, [x], IsGain);
    assert [x][1..] == [];
  }

  /** The loop body for one event: look up the entry and exit bars, pick the direction, record the trade. */
  method VisitEvent(bars: seq<Bar>, strategy: string, e: EarningsEvent,
                    trades: seq<EarningsTrade>, totalReturn: real, winCount: nat)
    returns (trades': seq<EarningsTrade>, totalReturn': real, winCount': nat)
    requires ValidBars(bars)
    requires totalReturn == Sum(EarningsPnls(trades)) && winCount == |Filter(EarningsPnls(trades), IsGain)|
    ensures trades' == trades + (var t := TradeFor(bars, strategy, e); if t.Some? then [t.value] else [])
    ensures totalReturn' == Sum(EarningsPnls(trades')) && winCount' == |Filter(EarningsPnls(trades'), IsGain)|
  {
    trades', totalReturn', winCount' := trades, totalReturn, winCount;
    var entryAt := LastAtOrBefore(bars, e.reportDate - 1, |bars|);
    var exitAt := FirstAtOrAfter(bars, e.reportDate + 1, 0);
    if entryAt.Some? && exitAt.Some? {
      var entryPrice := bars[entryAt.value].close;
      var exitPrice := bars[exitAt.value].close;
      var position := PositionFor(strategy, e);
      if position != 0 {
        var pnl := Pnl(position, entryPrice, exitPrice);
        var trade := EarningsTrade(e.reportDate, entryPrice, exitPrice, position, pnl,
                                   if strategy == "surprise" then SignalName(SurpriseSignalOf(e)) else strategy);
        RunningTotals(EarningsPnls(trades), pnl);
        assert EarningsPnls(trades) + [pnl] == EarningsPnls(trades + [trade]);
        totalReturn' := totalReturn + pnl;
        if pnl > 0.0 {
          winCount' := winCount + 1;
        }
        trades' := trades + [trade];
      }
    }
  }

  /** The trades of one more event are those before it and that event's trade, if any. */
  lemma EarningsTradesStep(bars: seq<Bar>, strategy: string, events: seq<EarningsEvent>, k: nat)
    requires ValidBars(bars) && k < |events|
    ensures EarningsTrades(bars, strategy, events[..k + 1]) == EarningsTrades(bars, strategy, events[..k]) +
      (var t := TradeFor(bars, strategy, events[k]); if t.Some? then [t.value] else [])
  {
    assert events[..k + 1][..k] == events[..k];
  }

  /** The loop of `backtest_earnings_strategy` over every event, keeping the running totals. */
  method VisitEvents(bars: seq<Bar>, strategy: string, events: seq<EarningsEvent>)
    returns (trades: seq<EarningsTrade>, totalReturn: real, winCount: nat)
    requires ValidBars(bars)
    ensures trades == EarningsTrades(bars, strategy, events)
    ensures totalReturn == Sum(EarningsPnls(trades)) && winCount == |Filter(EarningsPnls(trades), IsGain)|
  {
    trades, totalReturn, winCount := [], 0.0, 0;
    for k := 0 to |events|
      invariant trades == EarningsTrades(bars, strategy, events[..k])
      invariant totalReturn == Sum(EarningsPnls(trades))
      invariant winCount == |Filter(EarningsPnls(trades), IsGain)|
    {
      EarningsTradesStep(bars, strategy, events, k);
      trades, totalReturn, winCount := VisitEvent(bars, strategy, events[k], trades, totalReturn, winCount);
    }
    assert events[..|events|] == events;
  }

  /** `backtest_earnings_strategy` on the provider's events and the price history since the lookback start. */
  method BacktestEarningsStrategy(ticker: string, strategy: string, events: seq<EarningsEvent>, bars: seq<Bar>)
    returns (r: Result<Report<EarningsTrade>>)
    requires ValidBars(bars)
    ensures events == [] ==> r == Err("No earnings events found")
    ensures events != [] && bars == [] ==> r == Err("No price data")
    ensures events != [] && bars != [] ==>
      var trades := EarningsTrades(bars, strategy, events);
      && (trades == [] ==> r == Err("No valid trades found"))
      && (trades != [] ==> r == Ok(ReportOf(Upper(ticker), strategy, trades, EarningsPnls(trades), 10)))
  {
    if events == [] {
      return Err("No earnings events found");
    }
    if bars == [] {
      return Err("No price data");
    }
    var trades, totalReturn, winCount := VisitEvents(bars, strategy, events);
    if trades == [] {
      return Err("No valid trades found");
    }
    var pnls := EarningsPnls(trades);
    var n := |trades|;
    r := Ok(Report(Upper(ticker), strategy, n, WinRate(winCount, n), totalReturn, totalReturn / n as real,
                   MaxOf(pnls), MinOf(pnls), LastN(trades, 10)));
  }

  // ---------------------------------------------------------------------------
  // Technical strategy

  datatype TechTrade = TechTrade(entryDate: int, exitDate: int, entryPrice: real, exitPrice: real, pnlPct: real)

  /** The machine's state: `position` 0 (flat) or 1 (long), the last entry price and the closed trades. */
  datatype Machine = Machine(position: int, entryPrice: real, trades: seq<TechTrade>)

  const Flat := Machine(0, 0.0, [])

  /** The first bar the machine looks at, once the 50-bar average exists. */
  const FirstBar := 50

  predicate MachineOk(m: Machine) {
    (m.position == 0 || m.position == 1) && (m.position == 1 ==> m.entryPrice > 0.0)
  }

  /** The entry rule at bar `i`: RSI below 30, or the 20-bar average crossing strictly above the 50-bar one. */
  predicate EntrySignal(closes: seq<real>, strategy: string, i: nat)
    requires FirstBar <= i < |closes|
  {
    || (strategy == "rsi_oversold" && Lt(RsiAt(closes, 14, i), Some(30.0)))
    || (strategy == "ma_crossover" && Gt(SmaAt(closes, 20, i), SmaAt(closes, 50, i))
                                   && Le(SmaAt(closes, 20, i - 1), SmaAt(closes, 50, i - 1)))
  }

  /** The 5% stop-loss: `price / entry - 1 < -0.05`. */
  predicate StopLossHit(price: real, entry: real)
    requires entry > 0.0
  {
    price / entry - 1.0 < -0.05
  }

  lemma StopLossIsBelow95Percent(price: real, entry: real)
    requires entry > 0.0
    ensures StopLossHit(price, entry) <==> price < 0.95 * entry
  {
    assert price / entry * entry == price;
  }

  /** One iteration of the loop body at bar `i`. */
  function Step(bars: seq<Bar>, strategy: string, m: Machine, i: nat): (r: Machine)
    requires ValidBars(bars) && FirstBar <= i < |bars| && MachineOk(m)
    ensures MachineOk(r)
  {
    var price := bars[i].close;
    if m.position == 0 then
      if EntrySignal(Closes(bars), strategy, i) then Machine(1, price, m.trades) else m
    else if i >= |bars| - 1 || StopLossHit(price, m.entryPrice) then
      var trade := TechTrade(bars[i - 5].date, bars[i].date, m.entryPrice, price, PctChange(m.entryPrice, price));
      Machine(0, m.entryPrice, m.trades + [trade])
    else m
  }

  /** The state after the loop has visited bars `FirstBar .. k-1`. */
  function Run(bars: seq<Bar>, strategy: string, k: nat): (r: Machine)
    requires ValidBars(bars) && k <= |bars|
    ensures MachineOk(r)
  {
    if k <= FirstBar then Flat else Step(bars, strategy, Run(bars, strategy, k - 1), k - 1)
  }

  /**
   * The transitions: a flat machine enters exactly on the entry rule and records nothing on that bar;
   * a long machine exits exactly on the final bar or on the stop-loss, recording one trade whose
   * entry date is the bar five before the exit; otherwise nothing changes.
   */
  lemma StepRules(bars: seq<Bar>, strategy: string, m: Machine, i: nat)
    requires ValidBars(bars) && FirstBar <= i < |bars| && MachineOk(m)
    ensures var r := Step(bars, strategy, m, i);
      && (m.position == 0 ==> r.trades == m.trades)
      && (m.position == 0 ==> (r.position == 1 <==> EntrySignal(Closes(bars), strategy, i)))
      && (m.position == 0 && r.position == 1 ==> r.entryPrice == bars[i].close)
      && (m.position == 0 && r.position == 0 ==> r == m)
      && (m.position == 1 ==> (r.position == 0 <==> i == |bars| - 1 || StopLossHit(bars[i].close, m.entryPrice)))
      && (m.position == 1 && r.position == 1 ==> r == m)
      && (m.position == 1 && r.position == 0 ==>
            && |r.trades| == |m.trades| + 1 && r.trades[..|m.trades|] == m.trades
            && var t := r.trades[|m.trades|];
            && t.entryDate == bars[i - 5].date && t.exitDate == bars[i].date
            && t.entryPrice == m.entryPrice && t.exitPrice == bars[i].close
            && t.pnlPct * t.entryPrice == (t.exitPrice - t.entryPrice) * 100.0)
  {
    var r := Step(bars, strategy, m, i);
    if m.position == 1 && r.position == 0 {
      assert r.trades[..|m.trades|] == m.trades;
    }
  }

  /** Trade `t` was closed at bar `i`, on the final bar or on the stop-loss, and is dated from bar `i - 5`. */
  ghost predicate ClosedAt(bars: seq<Bar>, t: TechTrade, i: int) {
    5 <= i < |bars| && t.exitDate == bars[i].date && t.entryDate == bars[i - 5].date &&
    t.exitPrice == bars[i].close && t.entryPrice > 0.0 &&
    (i == |bars| - 1 || StopLossHit(t.exitPrice, t.entryPrice))
  }

  /** Every recorded trade closed at some bar `i > FirstBar`, on the final bar or on the stop-loss, dated from bar `i - 5`. */
  lemma {:induction false} RunTrades(bars: seq<Bar>, strategy: string, k: nat)
    requires ValidBars(bars) && k <= |bars|
    ensures forall t :: t in Run(bars, strategy, k).trades ==> exists i :: FirstBar < i < k && ClosedAt(bars, t, i)
  {
    if k > FirstBar {
      var m := Run(bars, strategy, k - 1);
      RunTrades(bars, strategy, k - 1);
      var r := Step(bars, strategy, m, k - 1);
      assert Run(bars, strategy, k) == r;
      StepRules(bars, strategy, m, k - 1);
      if m.position == 0 {
        assert r.trades == m.trades;
      } else if r.position == 0 {
        var t := r.trades[|m.trades|];
        assert r.trades == m.trades + [t];
        assert ClosedAt(bars, t, k - 1);
        forall u | u in r.trades
          ensures exists i :: FirstBar < i < k && ClosedAt(bars, u, i)
        {
          if u != t {
            assert u in m.trades;
          }
        }
      } else {
        assert r == m;
      }
    }
  }

  function TechPnls(trades: seq<TechTrade>): (r: seq<real>)
    ensures |r| == |trades| && forall i :: 0 <= i < |trades| ==> r[i] == trades[i].pnlPct
  {
    seq(|trades|, i requires 0 <= i < |trades| => trades[i].pnlPct)
  }

  /** Visiting bar `i` is one step of the machine. */
  lemma RunNext(bars: seq<Bar>, strategy: string, i: nat)
    requires ValidBars(bars) && FirstBar <= i < |bars|
    ensures Run(bars, strategy, i + 1) == Step(bars, strategy, Run(bars, strategy, i), i)
  {
  }

  /** `backtest_technical_strategy` on the price history since the lookback start. */
  method BacktestTechnicalStrategy(ticker: string, strategy: string, bars: seq<Bar>)
    returns (r: Result<Report<TechTrade>>)
    requires ValidBars(bars)
    ensures bars == [] ==> r == Err("No price data")
    ensures bars != [] ==>
      var trades := Run(bars, strategy, |bars|).trades;
      && (trades == [] ==> r == Err("No trades generated"))
      && (trades != [] ==> r == Ok(ReportOf(Upper(ticker), strategy, trades, TechPnls(trades), 5)))
  {
    if bars == [] {
      return Err("No price data");
    }
    var close := Closes(bars);
    var trades: seq<TechTrade> := [];
    var position := 0;
    var entryPrice := 0.0;
    var i := FirstBar;
    while i < |bars|
      invariant FirstBar <= i && (i > |bars| ==> i == FirstBar)
      invariant Machine(position, entryPrice, trades) == Run(bars, strategy, Min(i, |bars|))
    {
      assert Min(i, |bars|) == i;
      position, entryPrice, trades := VisitBar(bars, close, strategy, position, entryPrice, trades, i);
      RunNext(bars, strategy, i);
      i := i + 1;
    }
    if trades == [] {
      return Err("No trades generated");
    }
    r := Ok(ReportOf(Upper(ticker), strategy, trades, TechPnls(trades), 5));
  }

  /** The loop body at bar `i`: enter when flat, exit when long. */
  method VisitBar(bars: seq<Bar>, close: seq<real>, strategy: string,
                  position: int, entryPrice: real, trades: seq<TechTrade>, i: nat)
    returns (position': int, entryPrice': real, trades': seq<TechTrade>)
    requires ValidBars(bars) && close == Closes(bars) && FirstBar <= i < |bars|
    requires MachineOk(Machine(position, entryPrice, trades))
    ensures Machine(position', entryPrice', trades') == Step(bars, strategy, Machine(position, entryPrice, trades), i)
  {
    position', entryPrice', trades' := position, entryPrice, trades;
    var currentPrice := close[i];
    var currentRsi := RsiAt(close, 14, i);
    var currentMa20 := SmaAt(close, 20, i);
    var currentMa50 := SmaAt(close, 50, i);
    if position == 0 {
      if strategy == "rsi_oversold" && Lt(currentRsi, Some(30.0)) {
        position' := 1;
        entryPrice' := currentPrice;
      } else if strategy == "ma_crossover" && Gt(currentMa20, currentMa50)
                && Le(SmaAt(close, 20, i - 1), SmaAt(close, 50, i - 1)) {
        position' := 1;
        entryPrice' := currentPrice;
      }
    } else if position == 1 {
      var daysHeld := 5;
      if i >= |bars| - 1 || currentPrice / entryPrice - 1.0 < -0.05 {
        var pnl := PctChange(entryPrice, currentPrice);
        trades' := trades + [TechTrade(bars[i - daysHeld].date, bars[i].date, entryPrice, currentPrice, pnl)];
        position' := 0;
      }
    }
  }
}
