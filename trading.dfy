/** Trading helpers built on the earnings reaction: surprise signals, risk metrics, alerts and the export table. */
module Trading {
  import opened Common
  import opened Earnings

  // ---------------------------------------------------------------------------
  // Surprise signal

  datatype SurpriseSignal = StrongBuy | WeakBuy | Sell | Hold

  /** A beat needs a truthy surprise above zero; a missing or zero surprise is no beat. */
  predicate Beat(surprise: Option<real>) {
    Truthy(surprise) && surprise.value > 0.0
  }

  function SurpriseSignalOf(e: EarningsEvent): (r: SurpriseSignal)
    ensures r == StrongBuy <==> Beat(e.epsSurprisePct) && Beat(e.revenueSurprisePct)
    ensures r == WeakBuy <==> Beat(e.epsSurprisePct) != Beat(e.revenueSurprisePct)
    ensures r == Sell <==>
      !Beat(e.epsSurprisePct) && !Beat(e.revenueSurprisePct) && Lt(e.epsSurprisePct, Some(-5.0))
    ensures r == Hold <==>
      !Beat(e.epsSurprisePct) && !Beat(e.revenueSurprisePct) && !Lt(e.epsSurprisePct, Some(-5.0))
  {
    var epsBeat := Beat(e.epsSurprisePct);
    var revBeat := Beat(e.revenueSurprisePct);
    if epsBeat && revBeat then StrongBuy
    else if epsBeat || revBeat then WeakBuy
    else if Truthy(e.epsSurprisePct) && e.epsSurprisePct.value < -5.0 then Sell
    else Hold
  }

  // ---------------------------------------------------------------------------
  // Risk metrics

  /**
   * Position-sizing metrics over the absolute next-day moves. `variance` stands for the
   * `volatility` figure, which the service reports as its square root.
   */
  datatype RiskMetrics = RiskMetrics(avgMove: real, maxMove: real, variance: real, winRate: real, sampleSize: Option<nat>)

  /** The payload for no items or no valid moves: every figure 0 and no sample size. */
  const NoRisk := RiskMetrics(0.0, 0.0, 0.0, 0.0, None)

  function Squares(xs: seq<real>, m: real): (r: seq<real>)
    ensures |r| == |xs|
    ensures forall i :: 0 <= i < |xs| ==> r[i] == (xs[i] - m) * (xs[i] - m)
  {
    seq(|xs|, i requires 0 <= i < |xs| => (xs[i] - m) * (xs[i] - m))
  }

  /** Population variance, the square of `np.std`. */
  function Variance(xs: seq<real>): real
    requires |xs| > 0
  {
    Mean(Squares(xs, Mean(xs)))
  }

  predicate IsGain(x: real) { x > 0.0 }

  /** The metrics for a non-empty list of signed next-day returns. */
  function MetricsOfMoves(signed: seq<real>): RiskMetrics
    requires signed != []
  {
    var moves := AbsAll(signed);
    var positive := Filter(signed, IsGain);
    RiskMetrics(Mean(moves), MaxOf(moves), Variance(moves),
                WinRate(|positive|, |signed|), Some(|moves|))
  }

  function RiskMetricsOf(items: seq<ReactionItem>): RiskMetrics
  {
    if items == [] then NoRisk
    else if ValidMoves(items) == [] then NoRisk
    else MetricsOfMoves(ValidMoves(items))
  }

  /** `gains / n`, the share of winning moves. */
  function WinRate(gains: nat, n: nat): (r: real)
    requires 0 < n && gains <= n
    ensures 0.0 <= r <= 1.0
    ensures r * n as real == gains as real
  {
    gains as real / n as real
  }

  lemma RiskMetricsFacts(items: seq<ReactionItem>)
    ensures var r := RiskMetricsOf(items); var moves := ValidMoves(items);
      && (r.sampleSize.None? <==> moves == [])
      && (r.sampleSize.None? ==> r == NoRisk)
      && (moves != [] ==> r == MetricsOfMoves(moves))
  {
    if items == [] {
      assert ValidMoves(items) == [];
    }
  }

  /** Over a non-empty list of signed returns: 0 ≤ average ≤ maximum absolute move, variance ≥ 0, win rate in [0, 1]. */
  lemma MetricsOfMovesFacts(moves: seq<real>)
    requires moves != []
    ensures var r := MetricsOfMoves(moves);
      && r.sampleSize == Some(|moves|)
      && 0.0 <= r.avgMove <= r.maxMove
      && r.maxMove in AbsAll(moves)
      && (forall i :: 0 <= i < |moves| ==> Abs(moves[i]) <= r.maxMove)
      && r.variance >= 0.0
      && 0.0 <= r.winRate <= 1.0
      && r.winRate == WinRate(|Filter(moves, IsGain)|, |moves|)
  {
    var r := MetricsOfMoves(moves);
    var abs := AbsAll(moves);
    assert 0.0 <= r.avgMove <= r.maxMove && r.variance >= 0.0 by {
      MoveStats(abs);
    }
  }

  lemma MoveStats(abs: seq<real>)
    requires |abs| > 0
    requires forall i :: 0 <= i < |abs| ==> abs[i] >= 0.0
    ensures 0.0 <= Mean(abs) <= MaxOf(abs)
    ensures Variance(abs) >= 0.0
  {
    MeanWithinMinMax(abs);
    MeanNonNegative(abs);
    SquaresNonNegative(abs, Mean(abs));
    MeanNonNegative(Squares(abs, Mean(abs)));
  }

  lemma SquaresNonNegative(xs: seq<real>, m: real)
    ensures forall i :: 0 <= i < |xs| ==> Squares(xs, m)[i] >= 0.0
  {
    forall i | 0 <= i < |xs|
      ensures Squares(xs, m)[i] >= 0.0
    {
      SquareNonNegative(xs[i] - m);
    }
  }

  lemma SquareNonNegative(d: real)
    ensures d * d >= 0.0
  {
    if d < 0.0 {
      assert d * d == (-d) * (-d);
    }
  }

  // ---------------------------------------------------------------------------
  // Alerts

  datatype AlertKind = ValueOpportunity | HighVolatility | EarningsSoon
  datatype Alert = Alert(ticker: string, kind: AlertKind)

  /** What the service fetches for one ticker: profile ratios, newest-first events and the reaction items. */
  datatype TickerData = TickerData(
    ticker: string,
    pe: Option<real>,
    profitMargin: Option<real>,
    events: seq<EarningsEvent>,
    reaction: seq<ReactionItem>)

  /** A truthy P/E below 15 together with a truthy profit margin above 20%. */
  predicate IsValueOpportunity(pe: Option<real>, profitMargin: Option<real>) {
    Truthy(pe) && pe.value < 15.0 && Truthy(profitMargin) && profitMargin.value > 0.2
  }

  predicate IsHighVolatility(m: RiskMetrics) {
    m.avgMove > 8.0
  }

  /** The newest report falls between today and five days from now, both ends included. */
  predicate IsEarningsSoon(events: seq<EarningsEvent>, today: int) {
    events != [] && 0 <= events[0].reportDate - today <= 5
  }

  /** The alerts for one ticker, in the order the checks run. */
  function TickerAlerts(w: TickerData, today: int): seq<Alert>
  {
    (if IsValueOpportunity(w.pe, w.profitMargin) then [Alert(w.ticker, ValueOpportunity)] else [])
    + (if IsHighVolatility(RiskMetricsOf(w.reaction)) then [Alert(w.ticker, HighVolatility)] else [])
    + (if IsEarningsSoon(w.events, today) then [Alert(w.ticker, EarningsSoon)] else [])
  }

  function AllAlerts(watchlist: seq<TickerData>, today: int): seq<Alert>
  {
    if watchlist == [] then []
    else AllAlerts(watchlist[..|watchlist| - 1], today) + TickerAlerts(watchlist[|watchlist| - 1], today)
  }

  /** Each kind of alert is raised for a ticker exactly when its rule holds, and carries that ticker. */
  lemma TickerAlertRules(w: TickerData, today: int)
    ensures forall a :: a in TickerAlerts(w, today) ==> a.ticker == w.ticker
    ensures Alert(w.ticker, ValueOpportunity) in TickerAlerts(w, today) <==> IsValueOpportunity(w.pe, w.profitMargin)
    ensures Alert(w.ticker, HighVolatility) in TickerAlerts(w, today) <==> IsHighVolatility(RiskMetricsOf(w.reaction))
    ensures Alert(w.ticker, EarningsSoon) in TickerAlerts(w, today) <==> IsEarningsSoon(w.events, today)
    ensures |TickerAlerts(w, today)| <= 3
  {
  }

  /** An alert is in the list iff some watched ticker raised it. */
  lemma {:induction false} AllAlertsMembers(watchlist: seq<TickerData>, today: int)
    ensures forall i, a :: 0 <= i < |watchlist| && a in TickerAlerts(watchlist[i], today) ==>
      a in AllAlerts(watchlist, today)
    ensures forall a :: a in AllAlerts(watchlist, today) ==>
      exists i :: 0 <= i < |watchlist| && a in TickerAlerts(watchlist[i], today)
  {
    if watchlist != [] {
      var n := |watchlist| - 1;
      var init := watchlist[..n];
      var last := TickerAlerts(watchlist[n], today);
      AllAlertsMembers(init, today);
      assert AllAlerts(watchlist, today) == AllAlerts(init, today) + last;
      forall i, a | 0 <= i < |watchlist| && a in TickerAlerts(watchlist[i], today)
        ensures a in AllAlerts(watchlist, today)
      {
        if i < n {
          assert init[i] == watchlist[i];
        }
      }
      forall a | a in AllAlerts(watchlist, today)
        ensures exists i :: 0 <= i < |watchlist| && a in TickerAlerts(watchlist[i], today)
      {
        if a in AllAlerts(init, today) {
          var j :| 0 <= j < n && a in TickerAlerts(init[j], today);
          assert init[j] == watchlist[j];
        } else {
          assert a in TickerAlerts(watchlist[n], today);
        }
      }
    }
  }

  /** The three checks for one ticker, appending in order. */
  method CheckTicker(w: TickerData, today: int) returns (alerts: seq<Alert>)
    ensures alerts == TickerAlerts(w, today)
  {
    alerts := [];
    if Truthy(w.pe) && w.pe.value < 15.0 && Truthy(w.profitMargin) && w.profitMargin.value > 0.2 {
      alerts := alerts + [Alert(w.ticker, ValueOpportunity)];
    }
    ghost var first := alerts;
    assert first == (if IsValueOpportunity(w.pe, w.profitMargin) then [Alert(w.ticker, ValueOpportunity)] else []);
    var risk := RiskMetricsOf(w.reaction);
    if risk.avgMove > 8.0 {
      alerts := alerts + [Alert(w.ticker, HighVolatility)];
    }
    ghost var second := alerts;
    assert second == first + (if IsHighVolatility(risk) then [Alert(w.ticker, HighVolatility)] else []);
    if w.events != [] {
      var daysToEarnings := w.events[0].reportDate - today;
      if 0 <= daysToEarnings <= 5 {
        alerts := alerts + [Alert(w.ticker, EarningsSoon)];
      }
    }
    assert alerts == second + (if IsEarningsSoon(w.events, today) then [Alert(w.ticker, EarningsSoon)] else []);
  }

  /** `check_trading_alerts` over already-fetched ticker data; `today` is a day number. */
  method CheckTradingAlerts(watchlist: seq<TickerData>, today: int) returns (alerts: seq<Alert>)
    ensures alerts == AllAlerts(watchlist, today)
  {
    alerts := [];
    for k := 0 to |watchlist|
      invariant alerts == AllAlerts(watchlist[..k], today)
    {
      assert watchlist[..k + 1][..k] == watchlist[..k];
      var found := CheckTicker(watchlist[k], today);
      alerts := alerts + found;
    }
    assert watchlist[..|watchlist|] == watchlist;
  }

  // ---------------------------------------------------------------------------
  // Export table

  datatype ExportRow = ExportRow(
    ticker: string,
    date: int,
    epsActual: Option<real>,
    epsEstimate: Option<real>,
    epsSurprisePct: Option<real>,
    revenueActual: Option<real>,
    revenueEstimate: Option<real>,
    revenueSurprisePct: Option<real>,
    nextDayReturnPct: Option<real>,
    fiveDayReturnPct: Option<real>,
    signal: SurpriseSignal,
    avgVolatility: real,
    winRate: real)

  /** `next(r for r in items if r.report_date == d)`: the first item of that date, if any. */
  function MatchingItem(items: seq<ReactionItem>, d: int): (r: Option<ReactionItem>)
    ensures r.None? <==> forall k :: 0 <= k < |items| ==> items[k].reportDate != d
    ensures forall k :: (0 <= k < |items| && items[k].reportDate == d &&
                         (forall j :: 0 <= j < k ==> items[j].reportDate != d)) ==> r == Some(items[k])
  {
    if items == [] then None
    else if items[0].reportDate == d then Some(items[0])
    else
      var rest := MatchingItem(items[1..], d);
      assert forall j :: 1 <= j < |items| ==> items[j] == items[1..][j - 1];
      rest
  }

  function RowFor(ticker: string, e: EarningsEvent, items: seq<ReactionItem>, risk: RiskMetrics): ExportRow
  {
    var item := MatchingItem(items, e.reportDate);
    ExportRow(ticker, e.reportDate, e.epsActual, e.epsEstimate, e.epsSurprisePct,
              e.revenueActual, e.revenueEstimate, e.revenueSurprisePct,
              if item.Some? then item.value.nextDayReturnPct else None,
              if item.Some? then item.value.fiveDayReturnPct else None,
              SurpriseSignalOf(e), risk.avgMove, risk.winRate)
  }

  function TickerRows(w: TickerData): (r: seq<ExportRow>)
    ensures |r| == |w.events|
    ensures forall k :: 0 <= k < |r| ==> r[k] == RowFor(w.ticker, w.events[k], w.reaction, RiskMetricsOf(w.reaction))
  {
    var risk := RiskMetricsOf(w.reaction);
    seq(|w.events|, k requires 0 <= k < |w.events| => RowFor(w.ticker, w.events[k], w.reaction, risk))
  }

  function AllRows(watchlist: seq<TickerData>): seq<ExportRow>
  {
    if watchlist == [] then []
    else AllRows(watchlist[..|watchlist| - 1]) + TickerRows(watchlist[|watchlist| - 1])
  }

  function EventCount(watchlist: seq<TickerData>): nat
  {
    if watchlist == [] then 0
    else EventCount(watchlist[..|watchlist| - 1]) + |watchlist[|watchlist| - 1].events|
  }

  /** One row per event of every ticker. */
  lemma {:induction false} AllRowsCount(watchlist: seq<TickerData>)
    ensures |AllRows(watchlist)| == EventCount(watchlist)
  {
    if watchlist != [] {
      AllRowsCount(watchlist[..|watchlist| - 1]);
    }
  }

  /** A row copies its event and takes its returns from the first reaction item of the same date, or none. */
  lemma RowContents(ticker: string, e: EarningsEvent, items: seq<ReactionItem>, risk: RiskMetrics)
    ensures var row := RowFor(ticker, e, items, risk);
      && row.date == e.reportDate && row.epsSurprisePct == e.epsSurprisePct
      && row.signal == SurpriseSignalOf(e)
      && ((forall k :: 0 <= k < |items| ==> items[k].reportDate != e.reportDate) ==>
            row.nextDayReturnPct.None? && row.fiveDayReturnPct.None?)
      && (forall k :: (0 <= k < |items| && items[k].reportDate == e.reportDate &&
                       (forall j :: 0 <= j < k ==> items[j].reportDate != e.reportDate)) ==>
            row.nextDayReturnPct == items[k].nextDayReturnPct && row.fiveDayReturnPct == items[k].fiveDayReturnPct)
  {
  }

  method ExportTicker(w: TickerData) returns (rows: seq<ExportRow>)
    ensures rows == TickerRows(w)
  {
    var risk := RiskMetricsOf(w.reaction);
    rows := [];
    for k := 0 to |w.events|
      invariant rows == TickerRows(w)[..k]
    {
      var e := w.events[k];
      var item := MatchingItem(w.reaction, e.reportDate);
      rows := rows + [ExportRow(w.ticker, e.reportDate, e.epsActual, e.epsEstimate, e.epsSurprisePct,
                                e.revenueActual, e.revenueEstimate, e.revenueSurprisePct,
                                if item.Some? then item.value.nextDayReturnPct else None,
                                if item.Some? then item.value.fiveDayReturnPct else None,
                                SurpriseSignalOf(e), risk.avgMove, risk.winRate)];
    }
  }

  /** `export_trading_data` over already-fetched ticker data: one row per event, ticker by ticker. */
  method ExportTradingData(watchlist: seq<TickerData>) returns (rows: seq<ExportRow>)
    ensures rows == AllRows(watchlist)
    ensures |rows| == EventCount(watchlist)
  {
    rows := [];
    for i := 0 to |watchlist|
      invariant rows == AllRows(watchlist[..i])
    {
      assert watchlist[..i + 1][..i] == watchlist[..i];
      var tickerRows := ExportTicker(watchlist[i]);
      rows := rows + tickerRows;
    }
    assert watchlist[..|watchlist|] == watchlist;
    AllRowsCount(watchlist);
  }
}
