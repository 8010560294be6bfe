/**
 * The paper-trading ledger: a cash balance and the open positions, bought at an
 * average cost, sold in full or in part, and revalued against market quotes.
 *
 * Python's `dict` keeps insertion order, so the positions are an ordered sequence
 * with distinct tickers; a merge or partial sale updates an entry in place and a
 * full sale deletes it. Market quotes (`get_last_price_from_history`), the clock
 * and the technical signal of each holding are parameters.
 */
module Portfolio {
  import opened Common

  datatype Position = Position(ticker: string, shares: real, entryPrice: real, entryDate: string,
                               currentPrice: real, unrealizedPnl: real, unrealizedPnlPct: real)

  /** `Position.__init__`: the ticker is upper-cased, the market fields start at zero. */
  function NewPosition(ticker: string, shares: real, price: real, date: string): Position
  {
    Position(Upper(ticker), shares, price, date, 0.0, 0.0, 0.0)
  }

  /** The ledger invariant: every key is upper-case and no ticker is held twice. */
  ghost predicate Keyed(ps: seq<Position>) {
    (forall i :: 0 <= i < |ps| ==> ps[i].ticker == Upper(ps[i].ticker)) &&
    (forall i, j :: 0 <= i < j < |ps| ==> ps[i].ticker != ps[j].ticker)
  }

  /** The dictionary lookup `ticker in self.positions`: the first entry holding `t`. */
  function Find(ps: seq<Position>, t: string): (r: Option<nat>)
    ensures r.Some? ==> r.value < |ps| && ps[r.value].ticker == t
    ensures r.Some? ==> forall j :: 0 <= j < r.value ==> ps[j].ticker != t
    ensures r.None? <==> forall j :: 0 <= j < |ps| ==> ps[j].ticker != t
  {
    if ps == [] then None
    else if ps[0].ticker == t then Some(0)
    else match Find(ps[1..], t)
      case None => None
      case Some(k) => Some(k + 1)
  }

  lemma FindKeyed(ps: seq<Position>, t: string, i: nat)
    requires Keyed(ps) && i < |ps| && ps[i].ticker == t
    ensures Find(ps, t) == Some(i)
  {
  }

  datatype Ledger = Ledger(positions: seq<Position>, cash: real)

  /** The way an operation ends; the last two are exceptions the source lets escape. */
  datatype Outcome = Success | InsufficientCash | NoPosition | ZeroTotalShares | ZeroEntryPrice

  datatype Step = Step(outcome: Outcome, ledger: Ledger)

  /** The average-cost merge of `cost` for `shares` more shares into `e`. */
  function Merge(e: Position, shares: real, cost: real): (p: Position)
    requires e.shares + shares != 0.0
    ensures p.shares == e.shares + shares
    ensures p.shares * p.entryPrice == e.shares * e.entryPrice + cost
    ensures p == e.(shares := p.shares, entryPrice := p.entryPrice)
  {
    var total := e.shares + shares;
    e.(shares := total, entryPrice := Quotient(e.shares * e.entryPrice + cost, total))
  }

  /** `Portfolio.add_position` on the ledger `l`. */
  function Add(l: Ledger, ticker: string, shares: real, price: real, date: string): (r: Step)
    ensures r.outcome == InsufficientCash <==> shares * price > l.cash
    ensures r.outcome == ZeroTotalShares <==>
      (shares * price <= l.cash && Find(l.positions, Upper(ticker)).Some? &&
       l.positions[Find(l.positions, Upper(ticker)).value].shares + shares == 0.0)
    ensures r.outcome == Success || r.outcome == InsufficientCash || r.outcome == ZeroTotalShares
    ensures r.outcome != Success ==> r.ledger == l
    ensures r.outcome == Success ==> r.ledger.cash == l.cash - shares * price && r.ledger.cash >= 0.0
    ensures r.outcome == Success && Find(l.positions, Upper(ticker)).None? ==>
      r.ledger.positions == l.positions + [NewPosition(Upper(ticker), shares, price, date)]
    ensures r.outcome == Success && Find(l.positions, Upper(ticker)).Some? ==>
      var i := Find(l.positions, Upper(ticker)).value;
      r.ledger.positions == l.positions[i := Merge(l.positions[i], shares, shares * price)]
  {
    var cost := shares * price;
    if cost > l.cash then Step(InsufficientCash, l)
    else
      var key := Upper(ticker);
      match Find(l.positions, key)
      case None =>
        Step(Success, Ledger(l.positions + [NewPosition(key, shares, price, date)], l.cash - cost))
      case Some(i) =>
        var e := l.positions[i];
        if e.shares + shares == 0.0 then Step(ZeroTotalShares, l)
        else Step(Success, Ledger(l.positions[i := Merge(e, shares, cost)], l.cash - cost))
  }

  /** The sale price: the last quote, or the entry price when the quote is missing or zero. */
  function SalePrice(p: Position, lastPrice: Option<real>): (r: real)
    ensures Truthy(lastPrice) ==> r == lastPrice.value
    ensures !Truthy(lastPrice) ==> r == p.entryPrice
  {
    if Truthy(lastPrice) then lastPrice.value else p.entryPrice
  }

  /** Whether `remove_position` with `shares` sells the whole of `p`. */
  predicate SellsAll(p: Position, shares: Option<real>) {
    shares.None? || shares.value >= p.shares
  }

  /** `Portfolio.remove_position` on the ledger `l`, with `lastPrice` the quote for the ticker. */
  function Remove(l: Ledger, ticker: string, shares: Option<real>, lastPrice: Option<real>): (r: Step)
    ensures r.outcome == NoPosition <==> Find(l.positions, Upper(ticker)).None?
    ensures r.outcome == Success || r.outcome == NoPosition
    ensures r.outcome == NoPosition ==> r.ledger == l
    ensures r.outcome == Success ==>
      var i := Find(l.positions, Upper(ticker)).value;
      var p := l.positions[i];
      var price := SalePrice(p, lastPrice);
      if SellsAll(p, shares) then
        r.ledger.positions == l.positions[..i] + l.positions[i + 1..] &&
        r.ledger.cash == l.cash + p.shares * price
      else
        r.ledger.positions == l.positions[i := p.(shares := p.shares - shares.value)] &&
        r.ledger.positions[i].shares > 0.0 &&
        r.ledger.cash == l.cash + shares.value * price
  {
    var key := Upper(ticker);
    match Find(l.positions, key)
    case None => Step(NoPosition, l)
    case Some(i) =>
      var p := l.positions[i];
      var price := SalePrice(p, lastPrice);
      if SellsAll(p, shares) then
        Step(Success, Ledger(l.positions[..i] + l.positions[i + 1..], l.cash + p.shares * price))
      else
        Step(Success, Ledger(l.positions[i := p.(shares := p.shares - shares.value)],
                             l.cash + shares.value * price))
  }

  /** The ledger step of a sale once the ticker is found at index `i`. */
  lemma RemoveFound(l: Ledger, ticker: string, shares: Option<real>, lastPrice: Option<real>, i: nat)
    requires Find(l.positions, Upper(ticker)) == Some(i)
    ensures var p := l.positions[i];
      var price := SalePrice(p, lastPrice);
      Remove(l, ticker, shares, lastPrice) == Step(Success,
        if SellsAll(p, shares) then Ledger(l.positions[..i] + l.positions[i + 1..], l.cash + p.shares * price)
        else Ledger(l.positions[i := p.(shares := p.shares - shares.value)], l.cash + shares.value * price))
  {
  }

  /** The quote for `t`; a ticker missing from `prices` has none. */
  function Quote(prices: map<string, real>, t: string): Option<real> {
    if t in prices then Some(prices[t]) else None
  }

  /** Revaluing `p` would divide by a zero entry price. */
  predicate Raises(p: Position, prices: map<string, real>) {
    Truthy(Quote(prices, p.ticker)) && p.entryPrice == 0.0
  }

  /** Whether the unrealised PnL of `p` is its price move times its shares. */
  predicate Marked(p: Position) {
    p.unrealizedPnl == (p.currentPrice - p.entryPrice) * p.shares
  }

  /**
   * The first two writes of a revaluation step: the quote becomes the current price
   * and the unrealised PnL follows it. These happen before the percentage is divided
   * out, so they stay even when that division raises.
   */
  function MarkPrice(p: Position, prices: map<string, real>): (r: Position)
    requires Truthy(Quote(prices, p.ticker))
    ensures r.currentPrice == prices[p.ticker] && Marked(r)
    ensures r == p.(currentPrice := r.currentPrice, unrealizedPnl := r.unrealizedPnl)
  {
    var q := prices[p.ticker];
    p.(currentPrice := q, unrealizedPnl := (q - p.entryPrice) * p.shares)
  }

  /** One step of `update_positions`: a position with a non-zero quote is marked to it. */
  function Refresh(p: Position, prices: map<string, real>): (r: Position)
    requires !Raises(p, prices)
    ensures !Truthy(Quote(prices, p.ticker)) ==> r == p
    ensures Truthy(Quote(prices, p.ticker)) ==>
      r.currentPrice == prices[p.ticker] && Marked(r) &&
      r.unrealizedPnlPct * p.entryPrice == (r.currentPrice - p.entryPrice) * 100.0
    ensures r == p.(currentPrice := r.currentPrice, unrealizedPnl := r.unrealizedPnl,
                    unrealizedPnlPct := r.unrealizedPnlPct)
  {
    if Truthy(Quote(prices, p.ticker)) then
      var m := MarkPrice(p, prices);
      m.(unrealizedPnlPct := Quotient(m.currentPrice - m.entryPrice, m.entryPrice) * 100.0)
    else p
  }

  /** The index where `update_positions` stops with a ZeroDivisionError, or `|ps|`. */
  function FirstRaise(ps: seq<Position>, prices: map<string, real>): (r: nat)
    ensures r <= |ps|
    ensures forall j :: 0 <= j < r ==> !Raises(ps[j], prices)
    ensures r < |ps| ==> Raises(ps[r], prices)
  {
    if ps == [] then 0
    else if Raises(ps[0], prices) then 0
    else 1 + FirstRaise(ps[1..], prices)
  }

  /** `ps` with its first `k` positions refreshed. */
  function Refreshed(ps: seq<Position>, prices: map<string, real>, k: nat): (r: seq<Position>)
    requires k <= |ps|
    requires forall j :: 0 <= j < k ==> !Raises(ps[j], prices)
    ensures |r| == |ps|
    ensures forall j :: 0 <= j < k ==> r[j] == Refresh(ps[j], prices)
    ensures forall j :: k <= j < |ps| ==> r[j] == ps[j]
  {
    if k == 0 then ps
    else Refreshed(ps, prices, k - 1)[k - 1 := Refresh(ps[k - 1], prices)]
  }

  /**
   * `Portfolio.update_positions`: the outcome and the revalued positions. When a
   * position with a quote has a zero entry price, the positions before it are
   * revalued, it has its price and PnL written but keeps its old percentage, and the
   * positions after it are untouched.
   */
  function Update(ps: seq<Position>, prices: map<string, real>): (r: (Outcome, seq<Position>))
    ensures r.0 == Success <==> forall j :: 0 <= j < |ps| ==> !Raises(ps[j], prices)
    ensures r.0 == Success || r.0 == ZeroEntryPrice
    ensures r.0 == Success ==> r.1 == Refreshed(ps, prices, |ps|)
    ensures |r.1| == |ps|
    ensures r.0 == ZeroEntryPrice ==>
      var f := FirstRaise(ps, prices);
      f < |ps| && ps[f].entryPrice == 0.0 &&
      (forall j :: 0 <= j < f ==> r.1[j] == Refresh(ps[j], prices)) &&
      r.1[f].currentPrice == prices[ps[f].ticker] && Marked(r.1[f]) &&
      r.1[f] == ps[f].(currentPrice := r.1[f].currentPrice, unrealizedPnl := r.1[f].unrealizedPnl) &&
      (forall j :: f < j < |ps| ==> r.1[j] == ps[j])
  {
    var f := FirstRaise(ps, prices);
    if f == |ps| then (Success, Refreshed(ps, prices, f))
    else (ZeroEntryPrice, Refreshed(ps, prices, f)[f := MarkPrice(ps[f], prices)])
  }

  /** `Update` stops at the first position whose revaluation raises. */
  lemma UpdateStopsAt(ps: seq<Position>, prices: map<string, real>, i: nat)
    requires i < |ps| && Raises(ps[i], prices)
    requires forall j :: 0 <= j < i ==> !Raises(ps[j], prices)
    ensures Update(ps, prices) == (ZeroEntryPrice, Refreshed(ps, prices, i)[i := MarkPrice(ps[i], prices)])
  {
    assert FirstRaise(ps, prices) == i;
  }

  /** `Update` succeeds when no position's revaluation raises. */
  lemma UpdateCompletes(ps: seq<Position>, prices: map<string, real>)
    requires forall j :: 0 <= j < |ps| ==> !Raises(ps[j], prices)
    ensures Update(ps, prices) == (Success, Refreshed(ps, prices, |ps|))
  {
    assert FirstRaise(ps, prices) == |ps|;
  }

  /** One row of `positions_data`. */
  datatype Holding = Holding(ticker: string, shares: real, entryPrice: real, currentPrice: real,
                             marketValue: real, unrealizedPnl: real, unrealizedPnlPct: real,
                             entryDate: string, signal: string)

  datatype Summary = Summary(cash: real, totalPositionValue: real, totalPortfolioValue: real,
                             totalUnrealizedPnl: real, totalUnrealizedPnlPct: real,
                             positions: seq<Holding>, positionCount: nat)

  /** The technical signal of `t`; a failed analysis reads as "HOLD". */
  function SignalFor(signals: map<string, string>, t: string): string {
    if t in signals then signals[t] else "HOLD"
  }

  function HoldingOf(p: Position, signals: map<string, string>): Holding {
    Holding(p.ticker, p.shares, p.entryPrice, p.currentPrice, MarketValue(p),
            p.unrealizedPnl, p.unrealizedPnlPct, p.entryDate, SignalFor(signals, p.ticker))
  }

  function Holdings(ps: seq<Position>, signals: map<string, string>): (r: seq<Holding>)
    ensures |r| == |ps|
    ensures forall i :: 0 <= i < |ps| ==> r[i] == HoldingOf(ps[i], signals)
  {
    seq(|ps|, i requires 0 <= i < |ps| => HoldingOf(ps[i], signals))
  }

  function MarketValue(p: Position): real {
    p.currentPrice * p.shares
  }

  /** What was paid for a position: its shares times its average entry price. */
  function Cost(p: Position): real {
    p.shares * p.entryPrice
  }

  function MarketValues(ps: seq<Position>): (r: seq<real>)
    ensures |r| == |ps|
    ensures forall i :: 0 <= i < |ps| ==> r[i] == MarketValue(ps[i])
  {
    seq(|ps|, i requires 0 <= i < |ps| => MarketValue(ps[i]))
  }

  function Pnls(ps: seq<Position>): (r: seq<real>)
    ensures |r| == |ps|
    ensures forall i :: 0 <= i < |ps| ==> r[i] == ps[i].unrealizedPnl
  {
    seq(|ps|, i requires 0 <= i < |ps| => ps[i].unrealizedPnl)
  }

  function Basis(ps: seq<Position>): (r: seq<real>)
    ensures |r| == |ps|
    ensures forall i :: 0 <= i < |ps| ==> r[i] == Cost(ps[i])
  {
    seq(|ps|, i requires 0 <= i < |ps| => Cost(ps[i]))
  }

  function CostBasis(ps: seq<Position>): real {
    Sum(Basis(ps))
  }

  /** Cash plus cost basis: what the ledger is worth at the prices it paid. */
  function Book(l: Ledger): real {
    l.cash + CostBasis(l.positions)
  }

  /** The unrealised PnL as a percentage of the rest of the portfolio value; 0 when that is 0. */
  function PnlPct(totalValue: real, unrealized: real): (r: real)
    ensures totalValue != unrealized ==> r * (totalValue - unrealized) == unrealized * 100.0
    ensures totalValue == unrealized ==> r == 0.0
  {
    if totalValue != unrealized then Quotient(unrealized, totalValue - unrealized) * 100.0 else 0.0
  }

  /** The figures `get_portfolio_summary` reports for `positions` once they are revalued. */
  function SummaryOf(cash: real, ps: seq<Position>, signals: map<string, string>): (s: Summary)
    ensures s.cash == cash && s.positionCount == |ps| == |s.positions|
    ensures s.totalPositionValue == Sum(MarketValues(ps))
    ensures s.totalPortfolioValue == cash + s.totalPositionValue
    ensures s.totalUnrealizedPnl == Sum(Pnls(ps))
    ensures s.totalPortfolioValue != s.totalUnrealizedPnl ==>
      s.totalUnrealizedPnlPct * (s.totalPortfolioValue - s.totalUnrealizedPnl) == s.totalUnrealizedPnl * 100.0
    ensures s.totalPortfolioValue == s.totalUnrealizedPnl ==> s.totalUnrealizedPnlPct == 0.0
    ensures forall i :: 0 <= i < |ps| ==>
      s.positions[i].ticker == ps[i].ticker &&
      s.positions[i].marketValue == MarketValue(ps[i]) &&
      s.positions[i].signal == SignalFor(signals, ps[i].ticker)
  {
    var value := Sum(MarketValues(ps));
    var unrealized := Sum(Pnls(ps));
    Summary(cash, value, cash + value, unrealized, PnlPct(cash + value, unrealized),
            Holdings(ps, signals), |ps|)
  }

  /** The `positions_data` loop of `get_portfolio_summary`: one row per position, in order. */
  method HoldingRows(ps: seq<Position>, signals: map<string, string>) returns (rows: seq<Holding>)
    ensures rows == Holdings(ps, signals)
  {
    rows := [];
    var i := 0;
    while i < |ps|
      invariant 0 <= i <= |ps|
      invariant rows == Holdings(ps[..i], signals)
    {
      rows := rows + [HoldingOf(ps[i], signals)];
      i := i + 1;
    }
    assert ps[..i] == ps;
  }

  class Portfolio {
    var positions: seq<Position>
    var cash: real
    var totalValue: real

    function State(): Ledger
      reads this
    {
      Ledger(positions, cash)
    }

    /** The dictionary invariant: tickers are upper-case and each names one position. */
    ghost predicate Valid()
      reads this
    {
      Keyed(positions)
    }

    /** A fresh ledger: no positions and $100,000 in cash. */
    constructor ()
      ensures positions == [] && cash == 100000.0 && totalValue == 100000.0
      ensures Valid()
    {
      positions := [];
      cash := 100000.0;
      totalValue := 100000.0;
    }

    method AddPosition(ticker: string, shares: real, price: real, date: string) returns (outcome: Outcome)
      requires Valid()
      modifies this
      ensures Step(outcome, State()) == Add(old(State()), ticker, shares, price, date)
      ensures totalValue == old(totalValue)
      ensures Valid()
    {
      AddKeepsKeyed(State(), ticker, shares, price, date);
      var cost := shares * price;
      if cost > cash {
        return InsufficientCash;
      }
      var key := Upper(ticker);
      var found := Find(positions, key);
      if found.Some? {
        var existing := positions[found.value];
        var totalShares := existing.shares + shares;
        if totalShares == 0.0 {
          return ZeroTotalShares;
        }
        positions := positions[found.value := Merge(existing, shares, cost)];
      } else {
        positions := positions + [NewPosition(key, shares, price, date)];
      }
      cash := cash - cost;
      return Success;
    }

    method RemovePosition(ticker: string, shares: Option<real>, lastPrice: Option<real>)
      returns (outcome: Outcome)
      requires Valid()
      modifies this
      ensures Step(outcome, State()) == Remove(old(State()), ticker, shares, lastPrice)
      ensures totalValue == old(totalValue)
      ensures Valid()
    {
      RemoveKeepsKeyed(State(), ticker, shares, lastPrice);
      ghost var l := State();
      var key := Upper(ticker);
      var found := Find(positions, key);
      if found.None? {
        return NoPosition;
      }
      var i := found.value;
      var position := positions[i];
      var price := SalePrice(position, lastPrice);
      RemoveFound(l, ticker, shares, lastPrice, i);
      if SellsAll(position, shares) {
        assert Remove(l, ticker, shares, lastPrice).ledger ==
          Ledger(l.positions[..i] + l.positions[i + 1..], l.cash + position.shares * price);
        cash := cash + position.shares * price;
        positions := positions[..i] + positions[i + 1..];
      } else {
        assert Remove(l, ticker, shares, lastPrice).ledger ==
          Ledger(l.positions[i := position.(shares := position.shares - shares.value)], l.cash + shares.value * price);
        cash := cash + shares.value * price;
        positions := positions[i := position.(shares := position.shares - shares.value)];
      }
      return Success;
    }

    /**
     * The body of the loop in `update_positions` for the position at `i`: with a
     * non-zero quote, write the price, then the PnL, then the percentage, which
     * raises on a zero entry price after the first two writes.
     */
    method RevalueAt(i: nat, prices: map<string, real>) returns (raised: bool)
      requires i < |positions|
      modifies this
      ensures raised <==> Raises(old(positions)[i], prices)
      ensures raised ==> positions == old(positions)[i := MarkPrice(old(positions)[i], prices)]
      ensures !raised ==> positions == old(positions)[i := Refresh(old(positions)[i], prices)]
      ensures cash == old(cash) && totalValue == old(totalValue)
    {
      var position := positions[i];
      var q := Quote(prices, position.ticker);
      if Truthy(q) {
        position := position.(currentPrice := q.value);
        position := position.(unrealizedPnl := (q.value - position.entryPrice) * position.shares);
        assert position == MarkPrice(old(positions)[i], prices);
        positions := positions[i := position];
        if position.entryPrice == 0.0 {
          return true;
        }
        position := position.(unrealizedPnlPct := (q.value - position.entryPrice) / position.entryPrice * 100.0);
        assert position == Refresh(old(positions)[i], prices);
        positions := positions[i := position];
      }
      return false;
    }

    method UpdatePositions(prices: map<string, real>) returns (outcome: Outcome)
      modifies this
      ensures (outcome, positions) == Update(old(positions), prices)
      ensures cash == old(cash) && totalValue == old(totalValue)
      ensures old(Valid()) ==> Valid()
    {
      ghost var start := positions;
      var i := 0;
      while i < |positions|
        invariant 0 <= i <= |positions| == |start|
        invariant forall j :: 0 <= j < i ==> !Raises(start[j], prices)
        invariant positions == Refreshed(start, prices, i)
        invariant cash == old(cash) && totalValue == old(totalValue)
      {
        var raised := RevalueAt(i, prices);
        if raised {
          UpdateStopsAt(start, prices, i);
          if Keyed(start) { UpdateKeepsKeyed(start, prices); }
          return ZeroEntryPrice;
        }
        i := i + 1;
      }
      UpdateCompletes(start, prices);
      if Keyed(start) { UpdateKeepsKeyed(start, prices); }
      return Success;
    }

    /**
     * `get_portfolio_summary`: revalue, then report. A zero entry price with a quote
     * makes the revaluation raise, and the summary fails with it.
     */
    method GetPortfolioSummary(prices: map<string, real>, signals: map<string, string>)
      returns (r: Result<Summary>)
      requires Valid()
      modifies this
      ensures positions == Update(old(positions), prices).1 && cash == old(cash)
      ensures Valid()
      ensures r.Ok? <==> Update(old(positions), prices).0 == Success
      ensures r.Ok? ==> r.value == SummaryOf(cash, positions, signals) && totalValue == r.value.totalPortfolioValue
      ensures r.Err? ==> totalValue == old(totalValue)
    {
      var outcome := UpdatePositions(prices);
      if outcome != Success {
        return Err("float division by zero");
      }
      var unrealized := Sum(Pnls(positions));
      var value := Sum(MarketValues(positions));
      totalValue := cash + value;
      var rows := HoldingRows(positions, signals);
      return Ok(Summary(cash, value, totalValue, unrealized, PnlPct(totalValue, unrealized),
                        rows, |positions|));
    }
  }

  // ---------------------------------------------------------------- properties

  /** Every operation keeps tickers upper-case and distinct. */
  lemma AddKeepsKeyed(l: Ledger, ticker: string, shares: real, price: real, date: string)
    requires Keyed(l.positions)
    ensures Keyed(Add(l, ticker, shares, price, date).ledger.positions)
  {
    UpperIdempotent(ticker);
  }

  lemma RemoveKeepsKeyed(l: Ledger, ticker: string, shares: Option<real>, lastPrice: Option<real>)
    requires Keyed(l.positions)
    ensures Keyed(Remove(l, ticker, shares, lastPrice).ledger.positions)
  {
    match Find(l.positions, Upper(ticker))
    case None =>
    case Some(i) =>
      RemoveFound(l, ticker, shares, lastPrice, i);
      var p := l.positions[i];
      if SellsAll(p, shares) {
        KeyedDelete(l.positions, i);
      } else {
        KeyedReplace(l.positions, i, p.(shares := p.shares - shares.value));
      }
  }

  lemma KeyedDelete(ps: seq<Position>, i: nat)
    requires i < |ps| && Keyed(ps)
    ensures Keyed(ps[..i] + ps[i + 1..])
  {
    var qs := ps[..i] + ps[i + 1..];
    assert forall j :: 0 <= j < |qs| ==> qs[j] == ps[if j < i then j else j + 1];
  }

  lemma KeyedReplace(ps: seq<Position>, i: nat, p: Position)
    requires i < |ps| && Keyed(ps) && p.ticker == ps[i].ticker
    ensures Keyed(ps[i := p])
  {
  }

  lemma UpdateKeepsKeyed(ps: seq<Position>, prices: map<string, real>)
    requires Keyed(ps)
    ensures Keyed(Update(ps, prices).1)
  {
  }

  lemma BasisUpdate(ps: seq<Position>, i: nat, p: Position)
    requires i < |ps|
    ensures CostBasis(ps[i := p]) == CostBasis(ps) - Cost(ps[i]) + Cost(p)
  {
    assert Basis(ps[i := p]) == Basis(ps)[i := Cost(p)];
    SumUpdate(Basis(ps), i, Cost(p));
  }

  lemma BasisDelete(ps: seq<Position>, i: nat)
    requires i < |ps|
    ensures CostBasis(ps[..i] + ps[i + 1..]) == CostBasis(ps) - Cost(ps[i])
  {
    var qs := ps[..i] + ps[i + 1..];
    assert forall j :: 0 <= j < |qs| ==> qs[j] == ps[if j < i then j else j + 1];
    assert Basis(qs) == Basis(ps)[..i] + Basis(ps)[i + 1..];
    SumDelete(Basis(ps), i);
  }

  /**
   * A purchase moves its cost from cash into the cost basis: cash plus cost basis
   * is the same before and after, whether the ticker is new or merged.
   */
  lemma AddConservesBook(l: Ledger, ticker: string, shares: real, price: real, date: string)
    requires Add(l, ticker, shares, price, date).outcome == Success
    ensures var r := Add(l, ticker, shares, price, date).ledger;
      CostBasis(r.positions) == CostBasis(l.positions) + shares * price &&
      r.cash + CostBasis(r.positions) == l.cash + CostBasis(l.positions)
  {
    var r := Add(l, ticker, shares, price, date).ledger;
    var cost := shares * price;
    assert r.cash == l.cash - cost;
    match Find(l.positions, Upper(ticker))
    case None =>
      var p := NewPosition(Upper(ticker), shares, price, date);
      assert r.positions == l.positions + [p];
      assert Cost(p) == cost;
      assert Basis(r.positions) == Basis(l.positions) + [Cost(p)];
      SumAppend(Basis(l.positions), [Cost(p)]);
      assert CostBasis(r.positions) == CostBasis(l.positions) + cost;
    case Some(i) =>
      var m := Merge(l.positions[i], shares, cost);
      assert r.positions == l.positions[i := m];
      assert Cost(m) == Cost(l.positions[i]) + cost;
      BasisUpdate(l.positions, i, m);
      assert CostBasis(r.positions) == CostBasis(l.positions) + cost;
  }

  /** The PnL a sale of `sold` shares of `p` at `price` realises. */
  function Realized(p: Position, sold: real, price: real): real {
    (price - p.entryPrice) * sold
  }

  /** Selling all of position `i` at `price`: proceeds in, its cost out. */
  lemma SellAllBook(l: Ledger, i: nat, price: real, r: Ledger)
    requires i < |l.positions|
    requires r.positions == l.positions[..i] + l.positions[i + 1..]
    requires r.cash == l.cash + l.positions[i].shares * price
    ensures Book(r) == Book(l) + Realized(l.positions[i], l.positions[i].shares, price)
  {
    BasisDelete(l.positions, i);
    var p := l.positions[i];
    assert p.shares * price - Cost(p) == Realized(p, p.shares, price);
  }

  /** Selling `s` shares of position `i` at `price`: proceeds in, their entry cost out. */
  lemma SellSomeBook(l: Ledger, i: nat, s: real, price: real, r: Ledger)
    requires i < |l.positions|
    requires r.positions == l.positions[i := l.positions[i].(shares := l.positions[i].shares - s)]
    requires r.cash == l.cash + s * price
    ensures Book(r) == Book(l) + Realized(l.positions[i], s, price)
  {
    var p := l.positions[i];
    BasisUpdate(l.positions, i, p.(shares := p.shares - s));
    assert Cost(p.(shares := p.shares - s)) == Cost(p) - s * p.entryPrice;
    assert s * price - s * p.entryPrice == Realized(p, s, price);
  }

  /**
   * A sale moves its proceeds into cash and the entry cost of the sold shares out of
   * the cost basis, so the book value changes by exactly the realised PnL.
   */
  lemma RemoveRealizesPnl(l: Ledger, ticker: string, shares: Option<real>, lastPrice: Option<real>, i: nat)
    requires Find(l.positions, Upper(ticker)) == Some(i)
    ensures i < |l.positions|
    ensures var r := Remove(l, ticker, shares, lastPrice);
      var p := l.positions[i];
      r.outcome == Success &&
      Book(r.ledger) ==
        Book(l) + Realized(p, if SellsAll(p, shares) then p.shares else shares.value, SalePrice(p, lastPrice))
  {
    if SellsAll(l.positions[i], shares) {
      SellAllStep(l, ticker, shares, lastPrice, i);
    } else {
      SellSomeStep(l, ticker, shares, lastPrice, i);
    }
  }

  lemma SellAllStep(l: Ledger, ticker: string, shares: Option<real>, lastPrice: Option<real>, i: nat)
    requires Find(l.positions, Upper(ticker)) == Some(i) && SellsAll(l.positions[i], shares)
    ensures var p := l.positions[i];
      Book(Remove(l, ticker, shares, lastPrice).ledger) == Book(l) + Realized(p, p.shares, SalePrice(p, lastPrice))
  {
    var p := l.positions[i];
    var price := SalePrice(p, lastPrice);
    var r := Remove(l, ticker, shares, lastPrice).ledger;
    SellAllBook(l, i, price, r);
  }

  lemma SellSomeStep(l: Ledger, ticker: string, shares: Option<real>, lastPrice: Option<real>, i: nat)
    requires Find(l.positions, Upper(ticker)) == Some(i) && !SellsAll(l.positions[i], shares)
    ensures var p := l.positions[i];
      Book(Remove(l, ticker, shares, lastPrice).ledger) == Book(l) + Realized(p, shares.value, SalePrice(p, lastPrice))
  {
    var p := l.positions[i];
    var price := SalePrice(p, lastPrice);
    var s := shares.value;
    var r := Remove(l, ticker, shares, lastPrice).ledger;
    SellSomeBook(l, i, s, price, r);
  }

  /** For marked positions, market value minus unrealised PnL is the cost basis. */
  lemma {:induction false} MarkedValueIsBasis(ps: seq<Position>)
    requires forall i :: 0 <= i < |ps| ==> Marked(ps[i])
    ensures Sum(MarketValues(ps)) - Sum(Pnls(ps)) == CostBasis(ps)
  {
    if ps != [] {
      assert MarketValues(ps)[1..] == MarketValues(ps[1..]);
      assert Pnls(ps)[1..] == Pnls(ps[1..]);
      assert Basis(ps)[1..] == Basis(ps[1..]);
      MarkedValueIsBasis(ps[1..]);
      var p := ps[0];
      assert MarketValue(p) - p.unrealizedPnl == Cost(p);
    }
  }

  /** Revaluation leaves shares and entry prices, hence the cost basis, alone. */
  lemma RefreshKeepsBasis(ps: seq<Position>, prices: map<string, real>)
    requires forall j :: 0 <= j < |ps| ==> !Raises(ps[j], prices)
    ensures CostBasis(Refreshed(ps, prices, |ps|)) == CostBasis(ps)
  {
    var qs := Refreshed(ps, prices, |ps|);
    assert forall j :: 0 <= j < |ps| ==> Cost(qs[j]) == Cost(ps[j]);
    assert Basis(qs) == Basis(ps);
  }

  /**
   * When every holding has a quote and a non-zero entry price, the summary's
   * percentage is the unrealised PnL over cash plus cost basis.
   */
  lemma SummaryPctOverBook(cash: real, ps: seq<Position>, prices: map<string, real>,
                           signals: map<string, string>)
    requires forall j :: 0 <= j < |ps| ==> Truthy(Quote(prices, ps[j].ticker)) && ps[j].entryPrice != 0.0
    ensures Update(ps, prices).0 == Success
    ensures var s := SummaryOf(cash, Update(ps, prices).1, signals);
      s.totalPortfolioValue - s.totalUnrealizedPnl == cash + CostBasis(ps)
  {
    var qs := Refreshed(ps, prices, |ps|);
    assert forall j :: 0 <= j < |ps| ==> Marked(qs[j]);
    MarkedValueIsBasis(qs);
    RefreshKeepsBasis(ps, prices);
  }

  /** Tickers are matched ignoring case on both add and remove. */
  lemma TickerCaseIgnored(l: Ledger, ticker: string, shares: real, price: real, date: string,
                          sold: Option<real>, lastPrice: Option<real>)
    ensures Add(l, Upper(ticker), shares, price, date) == Add(l, ticker, shares, price, date)
    ensures Remove(l, Upper(ticker), sold, lastPrice) == Remove(l, ticker, sold, lastPrice)
  {
    UpperIdempotent(ticker);
    AddSameKey(l, Upper(ticker), ticker, shares, price, date);
    RemoveSameKey(l, Upper(ticker), ticker, sold, lastPrice);
  }

  /** A purchase depends on the ticker only through its upper-case form. */
  lemma AddSameKey(l: Ledger, t1: string, t2: string, shares: real, price: real, date: string)
    requires Upper(t1) == Upper(t2)
    ensures Add(l, t1, shares, price, date) == Add(l, t2, shares, price, date)
  {
    assert NewPosition(Upper(t1), shares, price, date) == NewPosition(Upper(t2), shares, price, date);
  }

  /** A sale depends on the ticker only through its upper-case form. */
  lemma RemoveSameKey(l: Ledger, t1: string, t2: string, sold: Option<real>, lastPrice: Option<real>)
    requires Upper(t1) == Upper(t2)
    ensures Remove(l, t1, sold, lastPrice) == Remove(l, t2, sold, lastPrice)
  {
    assert Find(l.positions, Upper(t1)) == Find(l.positions, Upper(t2));
  }

  /**
   * Buying a ticker not yet held and selling it all again with no quote (so at its
   * entry price) gives back the ledger exactly.
   */
  lemma AddThenRemoveRestores(l: Ledger, ticker: string, shares: real, price: real, date: string)
    requires Find(l.positions, Upper(ticker)).None? && shares * price <= l.cash
    ensures var a := Add(l, ticker, shares, price, date);
      a.outcome == Success && Remove(a.ledger, ticker, None, None) == Step(Success, l)
  {
    var a := Add(l, ticker, shares, price, date);
    var n := |l.positions|;
    var ps := a.ledger.positions;
    UpperIdempotent(ticker);
    assert ps[n].ticker == Upper(ticker);
    assert Find(ps, Upper(ticker)) == Some(n);
    assert ps[..n] + ps[n + 1..] == l.positions;
  }
}
