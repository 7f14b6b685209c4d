/** The trades of a run: every sale sells exactly what one purchase on an earlier trading date bought. */
module RoundTrips {
  import opened Common
  import opened Sorting
  import opened Costs
  import opened Simulator
  import opened Ledger
  import opened EventLoop
  import opened OrderBook
  import opened RunSafety
  import opened RiskGate
  import opened RunAccounting
  import opened Metrics
  import opened Returns

  predicate Traded(f: Fill, s: Symbol) {
    f.symbol == s && f.quantity != 0
  }

  /** The index of the last trade in a symbol, or -1. */
  function LastTrade(fills: seq<Fill>, s: Symbol): (i: int)
    ensures -1 <= i < |fills|
    ensures i >= 0 ==> Traded(fills[i], s)
    ensures forall j | i < j < |fills| :: !Traded(fills[j], s)
  {
    if fills == [] then -1
    else if Traded(fills[|fills| - 1], s) then |fills| - 1
    else LastTrade(fills[..|fills| - 1], s)
  }

  /** A purchase follows a sale of its symbol, or no trade; a sale follows the purchase of exactly its shares, of an
      earlier date. */
  ghost predicate FollowsOn(before: seq<Fill>, f: Fill) {
    var i := LastTrade(before, f.symbol);
    match f.side
    case Buy => i >= 0 ==> before[i].side == Sell
    case Sell =>
      i >= 0 && before[i].side == Buy && before[i].quantity == f.quantity && before[i].executionDate < f.executionDate
  }

  ghost predicate FollowsOnAt(fills: seq<Fill>, j: nat)
    requires j < |fills|
  {
    fills[j].quantity != 0 ==> FollowsOn(fills[..j], fills[j])
  }

  /** In every symbol purchases and sales take turns. */
  ghost predicate Alternate(fills: seq<Fill>) {
    forall j: nat | j < |fills| :: FollowsOnAt(fills, j)
  }

  /** A position is what the last trade in its symbol bought. */
  ghost predicate Standing(ps: seq<LedgerPosition>, fills: seq<Fill>, s: Symbol) {
    var i := LastTrade(fills, s);
    match Find(ps, s)
    case None => i >= 0 ==> fills[i].side == Sell
    case Some(p) => i >= 0 && fills[i].side == Buy && fills[i].quantity == p.quantity
  }

  ghost predicate Settles(ps: seq<LedgerPosition>, fills: seq<Fill>) {
    Alternate(fills) && forall s :: Standing(ps, fills, s)
  }

  /** The pending sales are of purchases before `date`. */
  ghost predicate SalesLater(fills: seq<Fill>, os: seq<Order>, date: Date) {
    forall o | o in os && o.side == Sell :: BoughtBefore(fills, o.symbol, date)
  }

  ghost predicate BoughtBefore(fills: seq<Fill>, s: Symbol, date: Date) {
    var i := LastTrade(fills, s);
    i >= 0 ==> fills[i].executionDate < date
  }

  lemma LastTradeSnoc(fills: seq<Fill>, f: Fill, s: Symbol)
    ensures LastTrade(fills + [f], s) == if Traded(f, s) then |fills| else LastTrade(fills, s)
  {
    assert (fills + [f])[..|fills|] == fills;
  }

  lemma {:induction false} AlternateSnoc(fills: seq<Fill>, f: Fill)
    requires Alternate(fills) && (f.quantity != 0 ==> FollowsOn(fills, f))
    ensures Alternate(fills + [f])
  {
    hide FollowsOn;
    var next := fills + [f];
    forall j: nat | j < |next| ensures FollowsOnAt(next, j) {
      if j < |fills| {
        assert FollowsOnAt(fills, j) && next[..j] == fills[..j] && next[j] == fills[j];
      } else {
        assert next[..j] == fills;
      }
    }
  }

  // ----- one order

  lemma {:induction false} UnfilledSettles(ps: seq<LedgerPosition>, fills: seq<Fill>, f: Fill)
    requires Settles(ps, fills) && f.quantity == 0
    ensures Settles(ps, fills + [f])
  {
    AlternateSnoc(fills, f);
    hide Alternate, Find, LastTrade;
    forall s ensures Standing(ps, fills + [f], s) {
      assert Standing(ps, fills, s);
      LastTradeSnoc(fills, f, s);
    }
  }

  lemma {:induction false} TradeSettles(b: Book, r: Book, o: Order, f: Fill)
    requires Valid(b.ledger) && Fits(b.ledger.positions, o) && Settles(b.ledger.positions, b.fills)
    requires Applied(b, r, o, f) && (o.side == Sell ==> BoughtBefore(b.fills, o.symbol, f.executionDate))
    ensures Settles(r.ledger.positions, r.fills)
  {
    hide Find, AfterFill, Notional, LastTrade, FeesOf;
    assert Standing(b.ledger.positions, b.fills, o.symbol);
    AlternateSnoc(b.fills, f);
    hide Alternate;
    forall s ensures Standing(r.ledger.positions, r.fills, s) {
      assert Standing(b.ledger.positions, b.fills, s);
      LastTradeSnoc(b.fills, f, s);
      FillFinds(b.ledger, o, f.execution.value.price, FeesOf(f), s);
    }
  }

  lemma {:induction false} OrderSettles(costs: CostModel, date: Date, index: int, day: map<Symbol, MarketBar>, o: Order,
                                        b: Book)
    requires Valid(b.ledger) && Fits(b.ledger.positions, o) && Settles(b.ledger.positions, b.fills)
    requires o.side == Sell ==> BoughtBefore(b.fills, o.symbol, date)
    requires ExecuteOrder(costs, date, index, day, o, b).Ok?
    ensures var r := ExecuteOrder(costs, date, index, day, o, b).value;
            && Settles(r.ledger.positions, r.fills)
            && (forall s | s != o.symbol :: LastTrade(r.fills, s) == LastTrade(b.fills, s))
            && |b.fills| <= |r.fills| && r.fills[..|b.fills|] == b.fills
  {
    OrderOutcome(costs, date, index, day, o, b);
    OneNewFill(costs, date, index, day, o, b);
    hide ExecuteOrder, Settles, Applied, Find, BoughtBefore, LastTrade, Fits;
    var r := ExecuteOrder(costs, date, index, day, o, b).value;
    if f :| r.ledger == b.ledger && r.fills == b.fills + [f] && f.quantity == 0 {
      UnfilledSettles(b.ledger.positions, b.fills, f);
      OtherTradesStay(b.fills, f, o.symbol);
    } else if f :| Applied(b, r, o, f) {
      AppliedShape(b, r, o, f);
      assert r.fills[|b.fills|..] == [f] && f in r.fills[|b.fills|..];
      TradeSettles(b, r, o, f);
      OtherTradesStay(b.fills, f, o.symbol);
    }
  }

  lemma AppliedShape(b: Book, r: Book, o: Order, f: Fill)
    requires Valid(b.ledger) && Applied(b, r, o, f)
    ensures r.fills == b.fills + [f] && f.symbol == o.symbol
  {
    hide AfterFill;
  }

  lemma OtherTradesStay(fills: seq<Fill>, f: Fill, s: Symbol)
    requires f.quantity == 0 || f.symbol == s
    ensures forall x | x != s :: LastTrade(fills + [f], x) == LastTrade(fills, x)
  {
    hide LastTrade;
    forall x | x != s ensures LastTrade(fills + [f], x) == LastTrade(fills, x) {
      LastTradeSnoc(fills, f, x);
    }
  }

  // ----- days

  lemma {:induction false} DaySettles(costs: CostModel, date: Date, index: int, day: map<Symbol, MarketBar>,
                                      os: seq<Order>, b: Book)
    requires Valid(b.ledger) && Ready(b, os) && Settles(b.ledger.positions, b.fills) && SalesLater(b.fills, os, date)
    requires ExecuteAll(costs, date, index, day, os, b).Ok?
    ensures var r := ExecuteAll(costs, date, index, day, os, b).value;
            Settles(r.ledger.positions, r.fills)
    decreases os
  {
    if os == [] {
    } else {
      assert Fits(b.ledger.positions, os[0]) && os[0] in os;
      OrderKeepsReady(costs, date, index, day, os, b);
      OrderSettles(costs, date, index, day, os[0], b);
      var next := ExecuteOrder(costs, date, index, day, os[0], b).value;
      LaterSales(b.fills, next.fills, os, date);
      hide ExecuteOrder, Settles, SalesLater, Ready;
      DaySettles(costs, date, index, day, os[1..], next);
    }
  }

  lemma {:induction false} LaterSales(before: seq<Fill>, after: seq<Fill>, os: seq<Order>, date: Date)
    requires os != [] && DistinctOrders(os) && SalesLater(before, os, date)
    requires |before| <= |after| && after[..|before|] == before
    requires forall s | s != os[0].symbol :: LastTrade(after, s) == LastTrade(before, s)
    ensures SalesLater(after, os[1..], date)
  {
    hide LastTrade;
    forall o | o in os[1..] && o.side == Sell ensures BoughtBefore(after, o.symbol, date) {
      assert o.symbol in SymbolsOf(os[1..]) && o in os;
      assert BoughtBefore(before, o.symbol, date);
      var i := LastTrade(before, o.symbol);
      if i >= 0 { assert after[i] == after[..|before|][i]; }
    }
  }

  lemma {:induction false} NextDaySettles(m: Market, index: nat, st: RunState)
    requires index < |m.dates| && Orderly(m, st) && NextDay(m, index, st).Ok?
    requires Settles(st.ledger.positions, st.fills) && forall f | f in st.fills :: f.executionDate < m.dates[index]
    ensures var r := NextDay(m, index, st).value; Settles(r.ledger.positions, r.fills)
  {
    hide NextDay, AllFit, Buys, ExecuteAll, BarsOn, Settles, LastTrade, Ready;
    DayOutcome(m, index, st);
    SettledIsReady(m, st);
    SettlementSettles(st);
    EarlierTrades(st.fills, Sort(OrderOrder, st.pending), m.dates[index]);
    DaySettles(m.x.costs, m.dates[index], index, BarsOn(m.bars, m.dates[index]), Sort(OrderOrder, st.pending),
               Book(AfterSettle(st.ledger), st.entries, st.fills, st.skipped));
  }

  lemma EarlierTrades(fills: seq<Fill>, os: seq<Order>, date: Date)
    requires forall f | f in fills :: f.executionDate < date
    ensures SalesLater(fills, os, date)
  {
    hide LastTrade;
  }

  lemma {:induction false} SettlementSettles(st: RunState)
    requires Valid(st.ledger) && Settles(st.ledger.positions, st.fills)
    ensures Settles(AfterSettle(st.ledger).positions, st.fills)
  {
    hide Find, LastTrade, Alternate;
    forall s ensures Standing(Settled(st.ledger.positions), st.fills, s) {
      assert Standing(st.ledger.positions, st.fills, s);
      FindSettled(st.ledger.positions, s);
    }
  }

  // ----- runs

  ghost predicate DatedIn(fills: seq<Fill>, dates: seq<Date>) {
    forall f | f in fills :: f.executionDate in dates
  }

  lemma {:induction false} FillsInDates(m: Market, index: nat, st: RunState)
    requires index < |m.dates| && Orderly(m, st) && NextDay(m, index, st).Ok? && DatedIn(st.fills, m.dates[..index])
    ensures DatedIn(NextDay(m, index, st).value.fills, m.dates[..index + 1])
  {
    hide NextDay, AllFit, Buys;
    FillsOfDay(m, index, st);
    var r := NextDay(m, index, st).value;
    assert r.fills == st.fills + r.fills[|st.fills|..];
    assert m.dates[..index + 1] == m.dates[..index] + [m.dates[index]];
  }

  lemma {:induction false} RunSettles(x: Inputs, k: nat)
    requires x.initialEquity > 0.0 && k <= |MarketOf(x).dates| && RunTo(MarketOf(x), k).Ok?
    ensures var st := RunTo(MarketOf(x), k).value;
            Settles(st.ledger.positions, st.fills) && DatedIn(st.fills, MarketOf(x).dates[..k])
  {
    hide MarketOf, NextDay, AllFit, Settles;
    var m := MarketOf(x);
    if k == 0 {
      NothingTraded();
    } else {
      var st := RunTo(m, k - 1).value;
      RunSettles(x, k - 1);
      RunIsOrderly(x, k - 1);
      DatesAscend(x);
      forall f | f in st.fills ensures f.executionDate < m.dates[k - 1] {
        assert f.executionDate in m.dates[..k - 1];
      }
      NextDaySettles(m, k - 1, st);
      FillsInDates(m, k - 1, st);
    }
  }

  lemma NothingTraded()
    ensures Settles([], [])
  {
  }

  /** Settlement on the next day, told from a run's fills alone: purchases and sales of a symbol take turns, and each
      sale sells exactly the shares that the purchase before it bought on an earlier date. All dates are trading dates
      of the run, and what is held is what the last purchase bought. */
  lemma {:induction false} RunsRoundTrip(x: Inputs, k: nat)
    requires x.initialEquity > 0.0 && k <= |MarketOf(x).dates| && RunTo(MarketOf(x), k).Ok?
    ensures var st := RunTo(MarketOf(x), k).value;
            && Alternate(st.fills)
            && (forall s :: Standing(st.ledger.positions, st.fills, s))
            && (forall f | f in st.fills :: f.executionDate in MarketOf(x).dates[..k])
  {
    hide MarketOf, RunTo, Alternate, Standing;
    RunSettles(x, k);
  }

  /** The strategy's curve of a completed run, by date. */
  function CurveOf(m: Market, st: RunState): seq<Point>
    requires |st.snapshots| == |m.dates|
  {
    seq(|m.dates|, i requires 0 <= i < |m.dates| => Point(m.dates[i], st.snapshots[i].equity))
  }

  /** So every fill of a completed run counts in exactly one segment, or in none if it lies in the gap. */
  lemma {:induction false} FillsCountOnce(x: Inputs, f: Fill, trainingEnd: Date, validationEnd: Date, oosStart: Date)
    requires EventLoop.Run(x).Ok? && f in EventLoop.Run(x).value.fills
    requires trainingEnd <= validationEnd < oosStart
    ensures |EventLoop.Run(x).value.snapshots| == |MarketOf(x).dates|
    ensures var points := CurveOf(MarketOf(x), EventLoop.Run(x).value);
            Train(points, trainingEnd) != [] ==>
              SegmentsReporting(points, trainingEnd, validationEnd, oosStart, f.executionDate)
              == if validationEnd < f.executionDate < oosStart then 0 else 1
  {
    hide MarketOf, RunTo, SegmentsReporting, Train, Alternate;
    var m, n := MarketOf(x), |MarketOf(x).dates|;
    RunsRoundTrip(x, n);
    MonitorFollowsSnapshots(m, n);
    assert m.dates[..n] == m.dates;
    var points := CurveOf(m, EventLoop.Run(x).value);
    if Train(points, trainingEnd) != [] {
      var i :| 0 <= i < n && m.dates[i] == f.executionDate;
      assert points[i] in points && points[i].date == f.executionDate;
      FillInOneSegment(points, trainingEnd, validationEnd, oosStart, f.executionDate);
    }
  }
}
