/** Price reactions around earnings report dates, and their summary. */
module Earnings {
  import opened Common

  /** One reported quarter, as the earnings provider lists it; dates are day numbers. */
  datatype EarningsEvent = EarningsEvent(
    fiscalQuarter: Option<string>,
    reportDate: int,
    epsActual: Option<real>,
    epsEstimate: Option<real>,
    epsSurprisePct: Option<real>,
    revenueActual: Option<real>,
    revenueEstimate: Option<real>,
    revenueSurprisePct: Option<real>)

  datatype ReactionItem = ReactionItem(
    reportDate: int,
    nextDayReturnPct: Option<real>,
    fiveDayReturnPct: Option<real>,
    baselineVolatilityPct: Option<real>)

  datatype ReactionSummary = ReactionSummary(
    averageUpsidePct: Option<real>,
    averageDownsidePct: Option<real>,
    averageAbsMovePct: Option<real>,
    beatsCount: Option<int>,
    missesCount: Option<int>)

  const EmptySummary := ReactionSummary(None, None, None, None, None)

  datatype ReactionResponse = ReactionResponse(ticker: string, items: seq<ReactionItem>, summary: ReactionSummary)

  // ---------------------------------------------------------------------------
  // Aligning a report date with the price index

  /** `index.get_loc(d)`: the bar dated exactly `d`, searching from `i`. */
  function IndexOf(bars: seq<Bar>, d: int, i: nat): (r: Option<nat>)
    requires i <= |bars|
    ensures r.Some? ==> i <= r.value < |bars| && bars[r.value].date == d
    ensures r.None? ==> forall j :: i <= j < |bars| ==> bars[j].date != d
    decreases |bars| - i
  {
    if i == |bars| then None
    else if bars[i].date == d then Some(i)
    else IndexOf(bars, d, i + 1)
  }

  /** `index[index >= d][0]`: the first bar dated on or after `d`, searching from `i`. */
  function FirstAtOrAfter(bars: seq<Bar>, d: int, i: nat): (r: Option<nat>)
    requires i <= |bars|
    ensures r.Some? ==> i <= r.value < |bars| && bars[r.value].date >= d
    ensures r.Some? ==> forall j :: i <= j < r.value ==> bars[j].date < d
    ensures r.None? ==> forall j :: i <= j < |bars| ==> bars[j].date < d
    decreases |bars| - i
  {
    if i == |bars| then None
    else if bars[i].date >= d then Some(i)
    else FirstAtOrAfter(bars, d, i + 1)
  }

  /** The bar a report date is read at: the bar of that date, else the next one; none when the date is past the last bar. */
  function AlignIndex(bars: seq<Bar>, d: int): (r: Option<nat>)
    ensures r.Some? ==> r.value < |bars| && bars[r.value].date >= d
    ensures r.None? <==> forall j :: 0 <= j < |bars| ==> bars[j].date < d
  {
    var exact := IndexOf(bars, d, 0);
    if exact.Some? then exact else FirstAtOrAfter(bars, d, 0)
  }

  /** On an ascending index both lookups agree: a date is read at the first bar on or after it. */
  lemma AlignIndexIsFirstAtOrAfter(bars: seq<Bar>, d: int)
    requires ValidBars(bars)
    ensures AlignIndex(bars, d) == FirstAtOrAfter(bars, d, 0)
    ensures AlignIndex(bars, d).Some? ==>
      forall j :: 0 <= j < AlignIndex(bars, d).value ==> bars[j].date < d
  {
    var exact := IndexOf(bars, d, 0);
    if exact.Some? {
      var i := exact.value;
      var f := FirstAtOrAfter(bars, d, 0);
      assert f.Some? && f.value <= i;
    }
  }

  // ---------------------------------------------------------------------------
  // Returns around one aligned bar

  /** What the reaction loop records for the bar at `idx`; `vol` is the annualised rolling volatility in percent. */
  datatype Returns = Returns(nextDay: Option<real>, fiveDay: Option<real>, baseline: Option<real>)

  function ReturnsAt(bars: seq<Bar>, vol: seq<Option<real>>, idx: nat): (r: Returns)
    requires ValidBars(bars) && |vol| == |bars| && idx < |bars|
    ensures r.nextDay.Some? <==> idx + 1 < |bars|
    ensures r.nextDay.Some? ==>
      r.nextDay.value * bars[idx].close == (bars[idx + 1].close - bars[idx].close) * 100.0
    ensures r.fiveDay.Some? <==> idx + 5 < |bars|
    ensures r.fiveDay.Some? ==>
      r.fiveDay.value * bars[idx].close == (bars[idx + 5].close - bars[idx].close) * 100.0
    ensures r.baseline == vol[if idx == 0 then 0 else idx - 1]
  {
    Returns(
      if idx + 1 < |bars| then Some(PctChange(bars[idx].close, bars[idx + 1].close)) else None,
      if idx + 5 < |bars| then Some(PctChange(bars[idx].close, bars[idx + 5].close)) else None,
      vol[if idx >= 1 then idx - 1 else 0])
  }

  /** The entries recorded for `dates`, in order; a date past the last bar records nothing. */
  function AlignedReturns(bars: seq<Bar>, vol: seq<Option<real>>, dates: seq<int>): (r: seq<Returns>)
    requires ValidBars(bars) && |vol| == |bars|
    ensures |r| <= |dates|
  {
    if dates == [] then []
    else
      var init := AlignedReturns(bars, vol, dates[..|dates| - 1]);
      var loc := AlignIndex(bars, dates[|dates| - 1]);
      if loc.None? then init else init + [ReturnsAt(bars, vol, loc.value)]
  }

  /** When every date has a bar on or after it, entry `j` belongs to `dates[j]`. */
  lemma {:induction false} AlignedReturnsAllKept(bars: seq<Bar>, vol: seq<Option<real>>, dates: seq<int>)
    requires ValidBars(bars) && |vol| == |bars|
    requires forall j :: 0 <= j < |dates| ==> AlignIndex(bars, dates[j]).Some?
    ensures |AlignedReturns(bars, vol, dates)| == |dates|
    ensures forall j :: 0 <= j < |dates| ==>
      AlignedReturns(bars, vol, dates)[j] == ReturnsAt(bars, vol, AlignIndex(bars, dates[j]).value)
  {
    if dates != [] {
      var n := |dates| - 1;
      var init := dates[..n];
      assert forall j :: 0 <= j < |init| ==> init[j] == dates[j];
      AlignedReturnsAllKept(bars, vol, init);
      var loc := AlignIndex(bars, dates[n]);
      assert loc.Some?;
      var last := ReturnsAt(bars, vol, loc.value);
      assert AlignedReturns(bars, vol, dates) == AlignedReturns(bars, vol, init) + [last];
    }
  }

  /** One more date adds its entry when it aligns, and nothing otherwise. */
  lemma AlignedReturnsStep(bars: seq<Bar>, vol: seq<Option<real>>, dates: seq<int>, k: nat)
    requires ValidBars(bars) && |vol| == |bars| && k < |dates|
    ensures var loc := AlignIndex(bars, dates[k]);
      AlignedReturns(bars, vol, dates[..k + 1]) == AlignedReturns(bars, vol, dates[..k]) +
        (if loc.Some? then [ReturnsAt(bars, vol, loc.value)] else [])
  {
    assert dates[..k + 1][..k] == dates[..k];
  }

  /** The loop body for a date aligned to bar `idx`: append its next-day and five-day returns and its baseline. */
  method RecordReturns(bars: seq<Bar>, vol: seq<Option<real>>, idx: nat,
                       nextDay: seq<Option<real>>, fiveDay: seq<Option<real>>, baseline: seq<Option<real>>)
    returns (nextDay': seq<Option<real>>, fiveDay': seq<Option<real>>, baseline': seq<Option<real>>)
    requires ValidBars(bars) && |vol| == |bars| && idx < |bars|
    ensures var r := ReturnsAt(bars, vol, idx);
      nextDay' == nextDay + [r.nextDay] && fiveDay' == fiveDay + [r.fiveDay] && baseline' == baseline + [r.baseline]
  {
    var c0 := bars[idx].close;
    if idx + 1 < |bars| {
      nextDay' := nextDay + [Some(PctChange(c0, bars[idx + 1].close))];
    } else {
      nextDay' := nextDay + [None];
    }
    if idx + 5 < |bars| {
      fiveDay' := fiveDay + [Some(PctChange(c0, bars[idx + 5].close))];
    } else {
      fiveDay' := fiveDay + [None];
    }
    baseline' := baseline + [vol[if idx >= 1 then idx - 1 else 0]];
  }

  /** `_returns_around_dates`: one pass over the dates, appending to three parallel lists. */
  method ReturnsAroundDates(bars: seq<Bar>, vol: seq<Option<real>>, dates: seq<int>)
    returns (nextDay: seq<Option<real>>, fiveDay: seq<Option<real>>, baseline: seq<Option<real>>)
    requires ValidBars(bars) && |vol| == |bars|
    ensures var rs := AlignedReturns(bars, vol, dates);
      && |nextDay| == |rs| && |fiveDay| == |rs| && |baseline| == |rs|
      && forall k :: 0 <= k < |rs| ==>
           nextDay[k] == rs[k].nextDay && fiveDay[k] == rs[k].fiveDay && baseline[k] == rs[k].baseline
  {
    nextDay, fiveDay, baseline := [], [], [];
    var k := 0;
    while k < |dates|
      invariant k <= |dates|
      invariant var rs := AlignedReturns(bars, vol, dates[..k]);
        && |nextDay| == |rs| && |fiveDay| == |rs| && |baseline| == |rs|
        && forall j :: 0 <= j < |rs| ==>
             nextDay[j] == rs[j].nextDay && fiveDay[j] == rs[j].fiveDay && baseline[j] == rs[j].baseline
    {
      AlignedReturnsStep(bars, vol, dates, k);
      var loc := AlignIndex(bars, dates[k]);
      if loc.Some? {
        nextDay, fiveDay, baseline := RecordReturns(bars, vol, loc.value, nextDay, fiveDay, baseline);
      }
      k := k + 1;
    }
    assert dates[..k] == dates;
  }

  // ---------------------------------------------------------------------------
  // The distinct report dates, ascending

  ghost predicate StrictlyAscending(xs: seq<int>) {
    forall i, j :: 0 <= i < j < |xs| ==> xs[i] < xs[j]
  }

  lemma ConsAscending(h: int, t: seq<int>)
    requires StrictlyAscending(t) && forall y :: y in t ==> h < y
    ensures StrictlyAscending([h] + t)
  {
    var r := [h] + t;
    forall i, j | 0 <= i < j < |r|
      ensures r[i] < r[j]
    {
      assert r[j] == t[j - 1] && t[j - 1] in t;
      if i > 0 {
        assert r[i] == t[i - 1];
      }
    }
  }

  lemma TailAscending(s: seq<int>)
    requires StrictlyAscending(s) && s != []
    ensures StrictlyAscending(s[1..]) && forall y :: y in s[1..] ==> s[0] < y
    ensures s == [s[0]] + s[1..]
  {
    var tail := s[1..];
    forall i | 0 <= i < |tail|
      ensures tail[i] == s[i + 1] && s[0] < tail[i]
    {
    }
  }

  function Insert(x: int, s: seq<int>): (r: seq<int>)
    requires StrictlyAscending(s)
    ensures StrictlyAscending(r)
    ensures forall y :: y in r <==> y == x || y in s
  {
    if s == [] then [x]
    else if x < s[0] then
      TailAscending(s);
      ConsAscending(x, s);
      [x] + s
    else if x == s[0] then s
    else
      TailAscending(s);
      var t := Insert(x, s[1..]);
      ConsAscending(s[0], t);
      [s[0]] + t
  }

  /** `sorted({...})`: the distinct values, ascending. */
  function SortedDistinct(xs: seq<int>): (r: seq<int>)
    ensures StrictlyAscending(r)
    ensures forall y :: y in r <==> y in xs
  {
    if xs == [] then [] else Insert(xs[0], SortedDistinct(xs[1..]))
  }

  /** There is only one strictly ascending listing of a set of dates. */
  lemma {:induction false} AscendingListingUnique(a: seq<int>, b: seq<int>)
    requires StrictlyAscending(a) && StrictlyAscending(b)
    requires forall y :: y in a <==> y in b
    ensures a == b
  {
    assert a != [] ==> a[0] in a;
    assert b != [] ==> b[0] in b;
    if a != [] && b != [] {
      assert a[0] == b[0];
      forall y
        ensures y in a[1..] <==> y in b[1..]
      {
        assert y in a[1..] <==> y in a && y != a[0];
        assert y in b[1..] <==> y in b && y != b[0];
      }
      AscendingListingUnique(a[1..], b[1..]);
      assert a == [a[0]] + a[1..] && b == [b[0]] + b[1..];
    }
  }

  function ReportDates(events: seq<EarningsEvent>): (r: seq<int>)
    ensures |r| == |events|
    ensures forall i :: 0 <= i < |events| ==> r[i] == events[i].reportDate
  {
    seq(|events|, i requires 0 <= i < |events| => events[i].reportDate)
  }

  /** The provider's order: newest report first, one event per date. */
  ghost predicate NewestFirst(events: seq<EarningsEvent>) {
    forall i, j :: 0 <= i < j < |events| ==> events[i].reportDate > events[j].reportDate
  }

  /** Newest-first distinct events give, once sorted, exactly their dates reversed. */
  lemma SortedDatesOfNewestFirst(events: seq<EarningsEvent>)
    requires NewestFirst(events)
    ensures SortedDistinct(ReportDates(events)) == Reverse(ReportDates(events))
  {
    var ds := ReportDates(events);
    var rev := Reverse(ds);
    assert StrictlyAscending(rev);
    forall y
      ensures y in rev <==> y in ds
    {
      if y in ds {
        var i :| 0 <= i < |ds| && ds[i] == y;
        assert rev[|ds| - 1 - i] == y;
      }
    }
    AscendingListingUnique(SortedDistinct(ds), rev);
  }

  // ---------------------------------------------------------------------------
  // Items and summary

  /** `zip(events, nd[::-1], fd[::-1], base[::-1])`: event `k` is paired with the `k`-th entry from the end. */
  function PairedItems(events: seq<EarningsEvent>, rs: seq<Returns>): (r: seq<ReactionItem>)
    ensures |r| == Min(|events|, |rs|)
    ensures forall k :: 0 <= k < |r| ==>
      var e := rs[|rs| - 1 - k];
      r[k] == ReactionItem(events[k].reportDate, e.nextDay, e.fiveDay, e.baseline)
  {
    seq(Min(|events|, |rs|), k requires 0 <= k < Min(|events|, |rs|) =>
      var e := rs[|rs| - 1 - k];
      ReactionItem(events[k].reportDate, e.nextDay, e.fiveDay, e.baseline))
  }

  /** One item per event with only its report date, when there are no prices. */
  function BareItems(events: seq<EarningsEvent>): (r: seq<ReactionItem>)
    ensures |r| == |events|
    ensures forall k :: 0 <= k < |r| ==> r[k] == ReactionItem(events[k].reportDate, None, None, None)
  {
    seq(|events|, k requires 0 <= k < |events| => ReactionItem(events[k].reportDate, None, None, None))
  }

  /** The next-day returns that are present, in item order. */
  function ValidMoves(items: seq<ReactionItem>): (r: seq<real>)
    ensures |r| <= |items|
  {
    if items == [] then []
    else
      var rest := ValidMoves(items[1..]);
      if items[0].nextDayReturnPct.Some? then [items[0].nextDayReturnPct.value] + rest else rest
  }

  lemma {:induction false} ValidMovesMembers(items: seq<ReactionItem>)
    ensures forall x :: x in ValidMoves(items) <==> exists k :: 0 <= k < |items| && items[k].nextDayReturnPct == Some(x)
    ensures |ValidMoves(items)| == 0 <==> forall k :: 0 <= k < |items| ==> items[k].nextDayReturnPct.None?
  {
    if items != [] {
      ValidMovesMembers(items[1..]);
      forall x
        ensures (exists k :: 0 <= k < |items| && items[k].nextDayReturnPct == Some(x)) <==>
          items[0].nextDayReturnPct == Some(x) ||
          exists k :: 0 <= k < |items[1..]| && items[1..][k].nextDayReturnPct == Some(x)
      {
        if exists k :: 0 <= k < |items| && items[k].nextDayReturnPct == Some(x) {
          var k :| 0 <= k < |items| && items[k].nextDayReturnPct == Some(x);
          if k > 0 {
            assert items[1..][k - 1] == items[k];
          }
        }
        if exists k :: 0 <= k < |items[1..]| && items[1..][k].nextDayReturnPct == Some(x) {
          var k :| 0 <= k < |items[1..]| && items[1..][k].nextDayReturnPct == Some(x);
          assert items[k + 1] == items[1..][k];
        }
      }
      if items[0].nextDayReturnPct.None? {
        forall k | 0 <= k < |items[1..]|
          ensures items[k + 1] == items[1..][k]
        {
        }
      }
    }
  }

  predicate IsUp(x: real) { x >= 0.0 }
  predicate IsDown(x: real) { x < 0.0 }
  predicate IsBeat(e: EarningsEvent) { Gt(e.epsSurprisePct, Some(0.0)) }
  predicate IsMiss(e: EarningsEvent) { Lt(e.epsSurprisePct, Some(0.0)) }

  /** `float(np.mean(xs)) if xs else None`. */
  function MeanOrNone(xs: seq<real>): (r: Option<real>)
    ensures r.Some? <==> xs != []
  {
    if xs == [] then None else Some(Mean(xs))
  }

  /** `count or None`: a zero count is reported as missing. */
  function CountOrNone(n: nat): (r: Option<int>)
    ensures r.None? <==> n == 0
    ensures r.Some? ==> r.value == n
  {
    if n == 0 then None else Some(n)
  }

  function Summarize(events: seq<EarningsEvent>, items: seq<ReactionItem>): ReactionSummary
  {
    var moves := ValidMoves(items);
    ReactionSummary(
      MeanOrNone(Filter(moves, IsUp)),
      MeanOrNone(Filter(moves, IsDown)),
      MeanOrNone(AbsAll(moves)),
      CountOrNone(|Filter(events, IsBeat)|),
      CountOrNone(|Filter(events, IsMiss)|))
  }

  /** Every valid move is counted in exactly one of the up and down groups. */
  lemma MovesPartition(items: seq<ReactionItem>)
    ensures multiset(Filter(ValidMoves(items), IsUp)) + multiset(Filter(ValidMoves(items), IsDown))
      == multiset(ValidMoves(items))
  {
    UpDownPartition(ValidMoves(items));
  }

  lemma {:induction false} UpDownPartition(xs: seq<real>)
    ensures multiset(Filter(xs, IsUp)) + multiset(Filter(xs, IsDown)) == multiset(xs)
  {
    if xs != [] {
      var x, rest := xs[0], xs[1..];
      var up, down := Filter(rest, IsUp), Filter(rest, IsDown);
      UpDownPartition(rest);
      assert multiset(xs) == multiset{x} + multiset(rest) by {
        assert xs == [x] + rest;
      }
      if IsUp(x) {
        assert Filter(xs, IsUp) == [x] + up;
        assert multiset([x] + up) == multiset{x} + multiset(up);
      } else {
        assert Filter(xs, IsDown) == [x] + down;
        assert multiset([x] + down) == multiset{x} + multiset(down);
      }
    }
  }

  /** The group averages: present iff the group has a member, upside ≥ 0, downside < 0, the absolute move ≥ 0. */
  lemma SummaryAverages(events: seq<EarningsEvent>, items: seq<ReactionItem>)
    ensures var s := Summarize(events, items); var moves := ValidMoves(items);
      && (s.averageUpsidePct.Some? <==> exists x :: x in moves && x >= 0.0)
      && (s.averageDownsidePct.Some? <==> exists x :: x in moves && x < 0.0)
      && (s.averageAbsMovePct.Some? <==> moves != [])
      && (s.averageUpsidePct.Some? ==> s.averageUpsidePct.value >= 0.0)
      && (s.averageDownsidePct.Some? ==> s.averageDownsidePct.value < 0.0)
      && (s.averageAbsMovePct.Some? ==> s.averageAbsMovePct.value >= 0.0)
  {
    var moves := ValidMoves(items);
    var up := Filter(moves, IsUp);
    var down := Filter(moves, IsDown);
    FilterMembers(moves, IsUp);
    FilterMembers(moves, IsDown);
    if up != [] {
      MeanWithinMinMax(up);
      assert MinOf(up) in up;
    }
    if down != [] {
      MeanWithinMinMax(down);
      assert MaxOf(down) in down;
    }
    if moves != [] {
      MeanNonNegative(AbsAll(moves));
    }
  }

  /** The beat and miss counts: positive or missing, and never more than the events between them. */
  lemma SummaryCounts(events: seq<EarningsEvent>, items: seq<ReactionItem>)
    ensures var s := Summarize(events, items);
      && (s.beatsCount.None? <==> forall k :: 0 <= k < |events| ==> !IsBeat(events[k]))
      && (s.missesCount.None? <==> forall k :: 0 <= k < |events| ==> !IsMiss(events[k]))
      && (s.beatsCount.Some? ==> s.beatsCount.value > 0)
      && (s.missesCount.Some? ==> s.missesCount.value > 0)
      && (if s.beatsCount.Some? then s.beatsCount.value else 0)
         + (if s.missesCount.Some? then s.missesCount.value else 0) <= |events|
  {
    FilterEmpty(events, IsBeat);
    FilterEmpty(events, IsMiss);
    BeatsAndMisses(events);
  }

  lemma {:induction false} BeatsAndMisses(events: seq<EarningsEvent>)
    ensures |Filter(events, IsBeat)| + |Filter(events, IsMiss)| <= |events|
  {
    if events != [] {
      BeatsAndMisses(events[1..]);
    }
  }

  /** An event whose surprise is missing or zero changes neither count. */
  lemma NeutralSurpriseCountsNowhere(events: seq<EarningsEvent>, e: EarningsEvent)
    requires e.epsSurprisePct.None? || e.epsSurprisePct.value == 0.0
    ensures Summarize(events + [e], []).beatsCount == Summarize(events, []).beatsCount
    ensures Summarize(events + [e], []).missesCount == Summarize(events, []).missesCount
  {
    FilterAppend(events, [e], IsBeat);
    FilterAppend(events, [e], IsMiss);
  }

  // ---------------------------------------------------------------------------
  // The reaction report

  /** The `zip` loop of `earnings_reaction`: event `k` takes the `k`-th returns counted from the end. */
  method ZipItems(events: seq<EarningsEvent>, nd: seq<Option<real>>, fd: seq<Option<real>>,
                  base: seq<Option<real>>, ghost rs: seq<Returns>)
    returns (items: seq<ReactionItem>)
    requires |nd| == |rs| && |fd| == |rs| && |base| == |rs|
    requires forall k :: 0 <= k < |rs| ==>
      nd[k] == rs[k].nextDay && fd[k] == rs[k].fiveDay && base[k] == rs[k].baseline
    ensures items == PairedItems(events, rs)
  {
    var n := Min(|events|, |nd|);
    items := [];
    var k := 0;
    while k < n
      invariant k <= n && |items| == k
      invariant forall j :: 0 <= j < k ==>
        var m := |nd| - 1 - j;
        items[j] == ReactionItem(events[j].reportDate, nd[m], fd[m], base[m])
    {
      var m := |nd| - 1 - k;
      items := items + [ReactionItem(events[k].reportDate, nd[m], fd[m], base[m])];
      k := k + 1;
    }
    ghost var paired := PairedItems(events, rs);
    assert |items| == |paired|;
    forall j | 0 <= j < |items|
      ensures items[j] == paired[j]
    {
      var m := |nd| - 1 - j;
      assert nd[m] == rs[m].nextDay && fd[m] == rs[m].fiveDay && base[m] == rs[m].baseline;
    }
  }

  /** `earnings_reaction` on the provider's events and price history (`bars`, with its rolling volatility `vol`). */
  method EarningsReaction(ticker: string, events: seq<EarningsEvent>, bars: seq<Bar>, vol: seq<Option<real>>)
    returns (resp: ReactionResponse)
    requires ValidBars(bars) && |vol| == |bars|
    ensures resp.ticker == Upper(ticker)
    ensures events == [] ==> resp.items == [] && resp.summary == EmptySummary
    ensures events != [] && bars == [] ==> resp.items == BareItems(events) && resp.summary == EmptySummary
    ensures events != [] && bars != [] ==>
      var paired := PairedItems(events, AlignedReturns(bars, vol, SortedDistinct(ReportDates(events))));
      resp.items == Reverse(paired) && resp.summary == Summarize(events, paired)
  {
    if events == [] {
      return ReactionResponse(Upper(ticker), [], EmptySummary);
    }
    var dates := SortedDistinct(ReportDates(events));
    if bars == [] {
      return ReactionResponse(Upper(ticker), BareItems(events), EmptySummary);
    }
    var nd, fd, base := ReturnsAroundDates(bars, vol, dates);
    ghost var rs := AlignedReturns(bars, vol, dates);
    var items := ZipItems(events, nd, fd, base, rs);
    resp := ReactionResponse(Upper(ticker), Reverse(items), Summarize(events, items));
  }

  /** Distinct newest-first events that all have a bar on or after them get the returns of their own date. */
  lemma ItemsMatchEventsWhenAligned(events: seq<EarningsEvent>, bars: seq<Bar>, vol: seq<Option<real>>)
    requires ValidBars(bars) && |vol| == |bars| && bars != []
    requires NewestFirst(events)
    requires forall k :: 0 <= k < |events| ==> events[k].reportDate <= bars[|bars| - 1].date
    ensures var paired := PairedItems(events, AlignedReturns(bars, vol, SortedDistinct(ReportDates(events))));
      && |paired| == |events|
      && forall k :: 0 <= k < |events| ==>
           var r := ReturnsAt(bars, vol, AlignIndex(bars, events[k].reportDate).value);
           paired[k] == ReactionItem(events[k].reportDate, r.nextDay, r.fiveDay, r.baseline)
  {
    var ds := ReportDates(events);
    SortedDatesOfNewestFirst(events);
    var dates := Reverse(ds);
    forall j | 0 <= j < |dates|
      ensures AlignIndex(bars, dates[j]).Some?
    {
      assert dates[j] == events[|ds| - 1 - j].reportDate;
    }
    AlignedReturnsAllKept(bars, vol, dates);
    var rs := AlignedReturns(bars, vol, dates);
    var paired := PairedItems(events, rs);
    assert |rs| == |events| == |paired|;
    forall k | 0 <= k < |events|
      ensures var r := ReturnsAt(bars, vol, AlignIndex(bars, events[k].reportDate).value);
        paired[k] == ReactionItem(events[k].reportDate, r.nextDay, r.fiveDay, r.baseline)
    {
      var m := |rs| - 1 - k;
      assert dates[m] == ds[k] == events[k].reportDate;
      assert rs[m] == ReturnsAt(bars, vol, AlignIndex(bars, dates[m]).value);
    }
  }

  /**
   * A date past the last bar is dropped and the zip shifts the remaining returns onto the wrong event:
   * here the newest event (day 30) is reported with the 10% move that followed the day-10 report,
   * and the day-10 event gets no item.
   */
  lemma DroppedDateShiftsItems()
    ensures var e30 := EarningsEvent(None, 30, None, None, None, None, None, None);
      var e10 := EarningsEvent(None, 10, None, None, None, None, None, None);
      var bars := [Bar(10, 100.0, 100.0, 100.0, 1.0), Bar(11, 110.0, 110.0, 110.0, 1.0)];
      var vol := [None, None];
      PairedItems([e30, e10], AlignedReturns(bars, vol, SortedDistinct(ReportDates([e30, e10]))))
        == [ReactionItem(30, Some(10.0), None, None)]
  {
    var e30 := EarningsEvent(None, 30, None, None, None, None, None, None);
    var e10 := EarningsEvent(None, 10, None, None, None, None, None, None);
    var bars := [Bar(10, 100.0, 100.0, 100.0, 1.0), Bar(11, 110.0, 110.0, 110.0, 1.0)];
    var vol: seq<Option<real>> := [None, None];
    assert ReportDates([e30, e10]) == [30, 10];
    assert SortedDistinct([10]) == [10];
    assert SortedDistinct([30, 10]) == [10, 30];
    assert AlignIndex(bars, 10) == Some(0);
    assert AlignIndex(bars, 30) == None;
    assert [10, 30][..1] == [10];
    assert AlignedReturns(bars, vol, [10]) == [Returns(Some(10.0), None, None)];
    assert AlignedReturns(bars, vol, [10, 30]) == [Returns(Some(10.0), None, None)];
  }
}
