/**
 * The earnings calendar and the sector comparison: which upcoming reports fall in
 * a date window, ordered by how soon they come, and how a ticker's earnings risk
 * compares with the average of its peers.
 *
 * Dates are day numbers and `today` is a parameter. What the data feeds return for
 * a ticker (its earnings events and its risk metrics) is a map entry; a ticker with
 * no entry is one whose fetch raised, which the source skips.
 */
module Calendar {
  import opened Common
  import opened Earnings
  import opened Trading

  // ------------------------------------------------------------ stable sorting

  /** `xs` is ordered by `key`, smallest first. */
  ghost predicate SortedBy<T>(xs: seq<T>, key: T -> real) {
    forall i, j :: 0 <= i < j < |xs| ==> key(xs[i]) <= key(xs[j])
  }

  /** The elements of `xs` whose key is `k`, in their order in `xs`. */
  function WithKey<T>(xs: seq<T>, key: T -> real, k: real): seq<T> {
    Filter(xs, x => key(x) == k)
  }

  /** Inserts `x` after every element whose key is at most its own. */
  function InsertBy<T>(x: T, s: seq<T>, key: T -> real): (r: seq<T>)
    ensures |r| == |s| + 1
    ensures multiset(r) == multiset(s) + multiset{x}
  {
    if s == [] then [x]
    else if key(x) < key(s[0]) then [x] + s
    else
      assert s == [s[0]] + s[1..];
      [s[0]] + InsertBy(x, s[1..], key)
  }

  /**
   * Python's `list.sort(key=...)`: a stable sort. Each element is inserted, in
   * order, behind the ones already placed with an equal key.
   */
  function SortBy<T>(xs: seq<T>, key: T -> real): (r: seq<T>)
    ensures |r| == |xs|
    ensures multiset(r) == multiset(xs)
  {
    if xs == [] then []
    else
      assert xs == xs[..|xs| - 1] + [xs[|xs| - 1]];
      InsertBy(xs[|xs| - 1], SortBy(xs[..|xs| - 1], key), key)
  }

  /** A bound below every key of `s` and below `x` stays below every key after the insertion. */
  lemma {:induction false} InsertLowerBound<T>(x: T, s: seq<T>, key: T -> real, b: real)
    requires b <= key(x) && forall j :: 0 <= j < |s| ==> b <= key(s[j])
    ensures forall j :: 0 <= j < |s| + 1 ==> b <= key(InsertBy(x, s, key)[j])
  {
    if s != [] && key(x) >= key(s[0]) {
      InsertLowerBound(x, s[1..], key, b);
    }
  }

  lemma {:induction false} InsertSorted<T>(x: T, s: seq<T>, key: T -> real)
    requires SortedBy(s, key)
    ensures SortedBy(InsertBy(x, s, key), key)
  {
    if s != [] && key(x) >= key(s[0]) {
      InsertSorted(x, s[1..], key);
      InsertLowerBound(x, s[1..], key, key(s[0]));
    }
  }

  lemma {:induction false} WithKeyNone<T>(s: seq<T>, key: T -> real, k: real)
    requires forall j :: 0 <= j < |s| ==> key(s[j]) != k
    ensures WithKey(s, key, k) == []
  {
    if s != [] {
      WithKeyNone(s[1..], key, k);
    }
  }

  /** Inserting into a sorted sequence puts `x` last among the elements with its key. */
  lemma {:induction false} InsertWithKey<T>(x: T, s: seq<T>, key: T -> real, k: real)
    requires SortedBy(s, key)
    ensures WithKey(InsertBy(x, s, key), key, k) == WithKey(s, key, k) + WithKey([x], key, k)
  {
    if s == [] {
    } else if key(x) < key(s[0]) {
      if key(x) == k {
        WithKeyNone(s, key, k);
      }
      assert ([x] + s)[1..] == s;
    } else {
      InsertWithKey(x, s[1..], key, k);
      assert ([s[0]] + InsertBy(x, s[1..], key))[1..] == InsertBy(x, s[1..], key);
    }
  }

  /** The sort orders by key, keeps every element and keeps equal keys in input order. */
  lemma {:induction false} SortByFacts<T>(xs: seq<T>, key: T -> real)
    ensures SortedBy(SortBy(xs, key), key)
    ensures forall k :: WithKey(SortBy(xs, key), key, k) == WithKey(xs, key, k)
  {
    if xs != [] {
      var init := xs[..|xs| - 1];
      var x := xs[|xs| - 1];
      SortByFacts(init, key);
      InsertSorted(x, SortBy(init, key), key);
      assert xs == init + [x];
      forall k
        ensures WithKey(SortBy(xs, key), key, k) == WithKey(xs, key, k)
      {
        InsertWithKey(x, SortBy(init, key), key, k);
        FilterAppend(init, [x], y => key(y) == k);
      }
    }
  }

  // ------------------------------------------------------------ earnings calendar

  /** What the data feeds give for one ticker: its earnings events and risk metrics. */
  datatype Feed = Feed(events: seq<EarningsEvent>, risk: RiskMetrics)

  const DefaultWatchlist: seq<string> :=
    ["AAPL", "MSFT", "GOOGL", "AMZN", "TSLA", "META", "NVDA", "NFLX", "CRM", "ORCL"]

  function TickersOr(tickers: Option<seq<string>>): seq<string> {
    if tickers.Some? then tickers.value else DefaultWatchlist
  }

  datatype CalendarEvent = CalendarEvent(ticker: string, reportDate: int, daysUntil: int,
                                         epsEstimate: Option<real>, revenueEstimate: Option<real>,
                                         avgMovePct: real, maxMovePct: real, winRate: real,
                                         volatility: real)

  /** Whether a report date lies between today and the cutoff date, both included. */
  predicate InWindow(d: int, today: int, daysAhead: int) {
    today <= d <= today + daysAhead
  }

  function EventRow(ticker: string, e: EarningsEvent, risk: RiskMetrics, today: int): CalendarEvent {
    CalendarEvent(ticker, e.reportDate, e.reportDate - today, e.epsEstimate, e.revenueEstimate,
                  risk.avgMove, risk.maxMove, risk.winRate, risk.variance)
  }

  /** The rows one ticker contributes: its events inside the window, in feed order. */
  function Upcoming(ticker: string, f: Feed, today: int, daysAhead: int, n: nat): (r: seq<CalendarEvent>)
    requires n <= |f.events|
    ensures |r| <= n
    ensures forall k :: 0 <= k < |r| ==>
      r[k].ticker == ticker && 0 <= r[k].daysUntil <= daysAhead && r[k].reportDate == today + r[k].daysUntil
  {
    if n == 0 then []
    else
      var e := f.events[n - 1];
      Upcoming(ticker, f, today, daysAhead, n - 1) +
        (if InWindow(e.reportDate, today, daysAhead) then [EventRow(ticker, e, f.risk, today)] else [])
  }

  /** An event row is among a ticker's rows iff it comes from one of its in-window events. */
  lemma {:induction false} UpcomingMembers(ticker: string, f: Feed, today: int, daysAhead: int, n: nat)
    requires n <= |f.events|
    ensures forall i :: 0 <= i < n && InWindow(f.events[i].reportDate, today, daysAhead) ==>
      EventRow(ticker, f.events[i], f.risk, today) in Upcoming(ticker, f, today, daysAhead, n)
    ensures forall c :: c in Upcoming(ticker, f, today, daysAhead, n) ==>
      exists i :: 0 <= i < n && InWindow(f.events[i].reportDate, today, daysAhead) &&
        c == EventRow(ticker, f.events[i], f.risk, today)
  {
    if n > 0 {
      UpcomingMembers(ticker, f, today, daysAhead, n - 1);
    }
  }

  /** The rows of the listed tickers, ticker by ticker, before sorting. */
  function Collected(data: map<string, Feed>, tickers: seq<string>, today: int, daysAhead: int): (r: seq<CalendarEvent>)
    ensures forall k :: 0 <= k < |r| ==> 0 <= r[k].daysUntil <= daysAhead && r[k].reportDate == today + r[k].daysUntil
  {
    if tickers == [] then []
    else
      var t := tickers[|tickers| - 1];
      Collected(data, tickers[..|tickers| - 1], today, daysAhead) +
        (if t in data then Upcoming(t, data[t], today, daysAhead, |data[t].events|) else [])
  }

  /** A row is collected iff it is an in-window event of a listed ticker the feeds answered for. */
  lemma {:induction false} CollectedMembers(data: map<string, Feed>, tickers: seq<string>, today: int, daysAhead: int)
    ensures forall t, i :: (t in tickers && t in data && 0 <= i < |data[t].events| &&
      InWindow(data[t].events[i].reportDate, today, daysAhead)) ==>
      EventRow(t, data[t].events[i], data[t].risk, today) in Collected(data, tickers, today, daysAhead)
    ensures forall c :: c in Collected(data, tickers, today, daysAhead) ==>
      c.ticker in tickers && c.ticker in data &&
      exists i :: 0 <= i < |data[c.ticker].events| &&
        InWindow(data[c.ticker].events[i].reportDate, today, daysAhead) &&
        c == EventRow(c.ticker, data[c.ticker].events[i], data[c.ticker].risk, today)
  {
    if tickers != [] {
      var init := tickers[..|tickers| - 1];
      var t := tickers[|tickers| - 1];
      CollectedMembers(data, init, today, daysAhead);
      if t in data {
        UpcomingMembers(t, data[t], today, daysAhead, |data[t].events|);
      }
      assert forall u :: u in tickers <==> u in init || u == t by {
        assert tickers == init + [t];
      }
    }
  }

  function DaysKey(c: CalendarEvent): real {
    c.daysUntil as real
  }

  /** The inner loop of `get_earnings_calendar` over one ticker's events. */
  method UpcomingEvents(ticker: string, f: Feed, today: int, daysAhead: int) returns (rows: seq<CalendarEvent>)
    ensures rows == Upcoming(ticker, f, today, daysAhead, |f.events|)
  {
    var cutoff := today + daysAhead;
    rows := [];
    for i := 0 to |f.events|
      invariant rows == Upcoming(ticker, f, today, daysAhead, i)
    {
      var e := f.events[i];
      if today <= e.reportDate <= cutoff {
        rows := rows + [EventRow(ticker, e, f.risk, today)];
      }
    }
  }

  /** `get_earnings_calendar`: the in-window events of every ticker, soonest first. */
  method GetEarningsCalendar(data: map<string, Feed>, tickers: Option<seq<string>>, today: int, daysAhead: int)
    returns (events: seq<CalendarEvent>)
    ensures events == SortBy(Collected(data, TickersOr(tickers), today, daysAhead), DaysKey)
  {
    var list := TickersOr(tickers);
    var collected: seq<CalendarEvent> := [];
    for i := 0 to |list|
      invariant collected == Collected(data, list[..i], today, daysAhead)
    {
      assert list[..i + 1][..i] == list[..i];
      var t := list[i];
      if t in data {
        var rows := UpcomingEvents(t, data[t], today, daysAhead);
        collected := collected + rows;
      }
    }
    assert list[..|list|] == list;
    events := SortBy(collected, DaysKey);
  }

  /**
   * The calendar holds exactly the in-window events, each `daysUntil` in
   * `[0, daysAhead]`, soonest first, with events due the same day in feed order.
   */
  lemma CalendarFacts(data: map<string, Feed>, tickers: Option<seq<string>>, today: int, daysAhead: int)
    ensures var c := Collected(data, TickersOr(tickers), today, daysAhead);
      var r := SortBy(c, DaysKey);
      multiset(r) == multiset(c) &&
      (forall i, j :: 0 <= i < j < |r| ==> r[i].daysUntil <= r[j].daysUntil) &&
      (forall k :: WithKey(r, DaysKey, k) == WithKey(c, DaysKey, k)) &&
      (forall k :: 0 <= k < |r| ==> 0 <= r[k].daysUntil <= daysAhead)
  {
    var c := Collected(data, TickersOr(tickers), today, daysAhead);
    var r := SortBy(c, DaysKey);
    SortByFacts(c, DaysKey);
    forall i, j | 0 <= i < j < |r|
      ensures r[i].daysUntil <= r[j].daysUntil
    {
      assert DaysKey(r[i]) <= DaysKey(r[j]);
    }
    forall k | 0 <= k < |r|
      ensures 0 <= r[k].daysUntil <= daysAhead
    {
      assert r[k] in multiset(c);
      var m :| 0 <= m < |c| && c[m] == r[k];
    }
  }

  // ------------------------------------------------------------ high-volatility calendar

  function MoveKey(c: CalendarEvent): real {
    -c.avgMovePct
  }

  /** `get_high_volatility_calendar`: the calendar events moving at least `minAvgMove`, largest first. */
  method GetHighVolatilityCalendar(data: map<string, Feed>, today: int, minAvgMove: real, daysAhead: int)
    returns (events: seq<CalendarEvent>)
    ensures var calendar := SortBy(Collected(data, DefaultWatchlist, today, daysAhead), DaysKey);
      events == SortBy(Filter(calendar, (c: CalendarEvent) => c.avgMovePct >= minAvgMove), MoveKey)
  {
    var calendar := GetEarningsCalendar(data, None, today, daysAhead);
    var high := Filter(calendar, (c: CalendarEvent) => c.avgMovePct >= minAvgMove);
    events := SortBy(high, MoveKey);
  }

  /**
   * The high-volatility list keeps exactly the calendar events with a big enough
   * average move, in descending order of it, ties in calendar order.
   */
  lemma HighVolatilityFacts(calendar: seq<CalendarEvent>, minAvgMove: real)
    ensures var high := Filter(calendar, (c: CalendarEvent) => c.avgMovePct >= minAvgMove);
      var r := SortBy(high, MoveKey);
      (forall c :: c in r <==> c in calendar && c.avgMovePct >= minAvgMove) &&
      (forall i, j :: 0 <= i < j < |r| ==> r[i].avgMovePct >= r[j].avgMovePct) &&
      (forall k :: WithKey(r, MoveKey, k) == WithKey(high, MoveKey, k))
  {
    var high := Filter(calendar, (c: CalendarEvent) => c.avgMovePct >= minAvgMove);
    FilterMembers(calendar, (c: CalendarEvent) => c.avgMovePct >= minAvgMove);
    SortByMembers(high, MoveKey);
    SortByFacts(high, MoveKey);
    var r := SortBy(high, MoveKey);
    forall i, j | 0 <= i < j < |r|
      ensures r[i].avgMovePct >= r[j].avgMovePct
    {
      assert MoveKey(r[i]) <= MoveKey(r[j]);
    }
  }

  lemma SortByMembers<T>(xs: seq<T>, key: T -> real)
    ensures forall x :: x in SortBy(xs, key) <==> x in xs
  {
    var r := SortBy(xs, key);
    assert forall x :: x in r <==> x in multiset(r);
    assert forall x :: x in xs <==> x in multiset(xs);
  }

  // ------------------------------------------------------------ sector comparison

  const SectorMap: map<string, seq<string>> := map[
    "AAPL" := ["MSFT", "GOOGL", "META", "AMZN"],
    "MSFT" := ["AAPL", "GOOGL", "META", "ORCL"],
    "GOOGL" := ["AAPL", "MSFT", "META", "AMZN"],
    "TSLA" := ["F", "GM", "RIVN", "LCID"],
    "NVDA" := ["AMD", "INTC", "QCOM", "AVGO"]]

  /** The peers to compare with: the given list, else the sector map's, else the S&P 500 ETF. */
  function PeersOr(ticker: string, sectorTickers: Option<seq<string>>): seq<string> {
    if sectorTickers.Some? then sectorTickers.value
    else if Upper(ticker) in SectorMap then SectorMap[Upper(ticker)]
    else ["SPY"]
  }

  datatype ComparisonRow = ComparisonRow(ticker: string, isTarget: bool, avgMovePct: real,
                                         maxMovePct: real, winRate: real, volatility: real,
                                         sampleSize: nat, nextEarnings: Option<int>)

  /** The first listed report date, unless it has already passed. */
  function NextEarnings(events: seq<EarningsEvent>, today: int): (r: Option<int>)
    ensures r.None? <==> events == [] || events[0].reportDate < today
    ensures r.Some? ==> r.value == events[0].reportDate && r.value >= today
  {
    if events == [] then None
    else if events[0].reportDate < today then None
    else Some(events[0].reportDate)
  }

  function RowOf(t: string, target: string, f: Feed, today: int): ComparisonRow {
    ComparisonRow(Upper(t), Upper(t) == Upper(target), f.risk.avgMove, f.risk.maxMove,
                  f.risk.winRate, f.risk.variance,
                  if f.risk.sampleSize.Some? then f.risk.sampleSize.value else 0,
                  NextEarnings(f.events, today))
  }

  /** One row per listed ticker the feeds answered for, in list order. */
  function ComparisonRows(data: map<string, Feed>, tickers: seq<string>, target: string, today: int)
    : (r: seq<ComparisonRow>)
    ensures |r| <= |tickers|
    ensures forall k :: 0 <= k < |r| ==> (r[k].isTarget <==> r[k].ticker == Upper(target))
  {
    if tickers == [] then []
    else
      var t := tickers[|tickers| - 1];
      ComparisonRows(data, tickers[..|tickers| - 1], target, today) +
        (if t in data then [RowOf(t, target, data[t], today)] else [])
  }

  /** No rows at all iff the feeds answered for none of the tickers. */
  lemma {:induction false} ComparisonRowsEmpty(data: map<string, Feed>, tickers: seq<string>, target: string, today: int)
    ensures ComparisonRows(data, tickers, target, today) == [] <==> forall i :: 0 <= i < |tickers| ==> tickers[i] !in data
  {
    if tickers != [] {
      ComparisonRowsEmpty(data, tickers[..|tickers| - 1], target, today);
    }
  }

  predicate IsPeer(r: ComparisonRow) {
    !r.isTarget
  }

  function AvgMoveOf(r: ComparisonRow): real { r.avgMovePct }
  function MaxMoveOf(r: ComparisonRow): real { r.maxMovePct }
  function WinRateOf(r: ComparisonRow): real { r.winRate }
  function VolatilityOf(r: ComparisonRow): real { r.volatility }

  function Column(rows: seq<ComparisonRow>, f: ComparisonRow -> real): (r: seq<real>)
    ensures |r| == |rows|
    ensures forall i :: 0 <= i < |rows| ==> r[i] == f(rows[i])
  {
    seq(|rows|, i requires 0 <= i < |rows| => f(rows[i]))
  }

  datatype SectorAverages = SectorAverages(avgMovePct: real, maxMovePct: real, winRate: real, volatility: real)

  /** The four column means over the peers; all zero when there are none. */
  function Averages(peers: seq<ComparisonRow>): SectorAverages {
    if peers == [] then SectorAverages(0.0, 0.0, 0.0, 0.0)
    else SectorAverages(Mean(Column(peers, AvgMoveOf)), Mean(Column(peers, MaxMoveOf)),
                        Mean(Column(peers, WinRateOf)), Mean(Column(peers, VolatilityOf)))
  }

  datatype Comparison = Comparison(targetTicker: string, rows: seq<ComparisonRow>,
                                   averages: SectorAverages, peerCount: nat)

  /** `get_sector_comparison`: the target's row first, then each peer's, then the peer averages. */
  method GetSectorComparison(ticker: string, sectorTickers: Option<seq<string>>, data: map<string, Feed>, today: int)
    returns (r: Result<Comparison>)
    ensures var rows := ComparisonRows(data, [ticker] + PeersOr(ticker, sectorTickers), ticker, today);
      (rows == [] ==> r == Err("No comparison data available")) &&
      (rows != [] ==> r == Ok(Comparison(Upper(ticker), rows, Averages(Filter(rows, IsPeer)),
                                         |Filter(rows, IsPeer)|)))
  {
    var all := [ticker] + PeersOr(ticker, sectorTickers);
    var rows: seq<ComparisonRow> := [];
    for i := 0 to |all|
      invariant rows == ComparisonRows(data, all[..i], ticker, today)
    {
      assert all[..i + 1][..i] == all[..i];
      var t := all[i];
      if t in data {
        rows := rows + [RowOf(t, ticker, data[t], today)];
      }
    }
    assert all[..|all|] == all;
    if rows == [] {
      return Err("No comparison data available");
    }
    var peers := Filter(rows, IsPeer);
    return Ok(Comparison(Upper(ticker), rows, Averages(peers), |peers|));
  }

  predicate IsTargetRow(r: ComparisonRow) {
    r.isTarget
  }

  /** The peers are exactly the rows of tickers other than the target, listed twice or not. */
  lemma PeersExcludeTarget(rows: seq<ComparisonRow>, target: string)
    requires forall k :: 0 <= k < |rows| ==> (rows[k].isTarget <==> rows[k].ticker == Upper(target))
    ensures forall p :: p in Filter(rows, IsPeer) <==> p in rows && p.ticker != Upper(target)
  {
    FilterMembers(rows, IsPeer);
    assert forall p :: p in rows ==> (p.isTarget <==> p.ticker == Upper(target));
  }

  /** The peer count and the target rows together account for every row. */
  lemma {:induction false} PeerCount(rows: seq<ComparisonRow>)
    ensures |Filter(rows, IsPeer)| + |Filter(rows, IsTargetRow)| == |rows|
  {
    if rows != [] {
      PeerCount(rows[1..]);
    }
  }

  /** Each sector average lies between the smallest and largest peer value; all are 0 without peers. */
  lemma AveragesFacts(peers: seq<ComparisonRow>)
    ensures var a := Averages(peers);
      (peers == [] ==> a == SectorAverages(0.0, 0.0, 0.0, 0.0)) &&
      (peers != [] ==>
        MinOf(Column(peers, AvgMoveOf)) <= a.avgMovePct <= MaxOf(Column(peers, AvgMoveOf)) &&
        MinOf(Column(peers, MaxMoveOf)) <= a.maxMovePct <= MaxOf(Column(peers, MaxMoveOf)) &&
        MinOf(Column(peers, WinRateOf)) <= a.winRate <= MaxOf(Column(peers, WinRateOf)) &&
        MinOf(Column(peers, VolatilityOf)) <= a.volatility <= MaxOf(Column(peers, VolatilityOf)))
  {
    if peers != [] {
      MeanWithinMinMax(Column(peers, AvgMoveOf));
      MeanWithinMinMax(Column(peers, MaxMoveOf));
      MeanWithinMinMax(Column(peers, WinRateOf));
      MeanWithinMinMax(Column(peers, VolatilityOf));
    }
  }
}
