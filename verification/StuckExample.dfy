/** A run that gets stuck: it has spent all its cash on one share, and the minimum commission of selling it is
    more than the share still brings in. */
module StuckExample {
  import opened Common
  import opened Sorting
  import opened Costs
  import opened Simulator
  import opened Ledger
  import opened Drawdown
  import opened Allocation
  import opened Strategy
  import opened EventLoop
  import opened OrderBook
  import opened RunSafety
  import opened RunTheorems
  import opened Progress
  import opened NoLookAhead
  import opened Quotes
  import opened FirstPurchase

  /** Stock 2 rises to 10 and falls to 1 in the course of day 4; benchmark 1 stands still. */
  function Close(s: Symbol, d: Date): real {
    if s == 1 then 5.0 else if d <= 1 then 8.0 else if d == 2 then 9.0 else if d == 3 then 10.0 else 1.0
  }

  function Open(s: Symbol, d: Date): real {
    if s == 2 && d == 4 then 10.0 else Close(s, d)
  }

  function Both(d: Date): seq<Symbol> {
    [1, 2]
  }

  function Quote(s: Symbol, d: Date): MarketBar {
    MarketBar(s, d, Some(Open(s, d)), Some(Close(s, d)), Some(Open(s, d)), Some(Close(s, d)), false, false, false, true,
              Some(false), None, Some(1.0), Some(0), false, false, None, Some(s != 1))
  }

  /** Every commission is at least 5. */
  function Example(): Inputs {
    Inputs(3, 5, 15.0, 1, None, Daily(Quote, Both, 5), [3, 4, 5], Cutoff(0, 5),
           MovingAverageTrend(4, 2, 20, 2, 3, false),
           AllocationLimits(1.0, 4, 100.0, 1.0, 1.0, 0.01, 1),
           CostModel(0.0, 5.0, 0.0, 0.0, 0.0, 0.0, true, true, 0.0, 0.0), Thresholds(0.06, 0.08), false, map[])
  }

  lemma Facts()
    ensures var x := Example();
            && x.start == 3 && x.end == 5 && x.initialEquity == 15.0 && x.benchmark == 1 && x.secondaryBenchmark == None
            && x.bars == Daily(Quote, Both, 5) && x.tradingDates == [3, 4, 5] && x.cutoff == Cutoff(0, 5)
            && x.strategy == MovingAverageTrend(4, 2, 20, 2, 3, false)
            && x.limits == AllocationLimits(1.0, 4, 100.0, 1.0, 1.0, 0.01, 1)
            && x.costs == CostModel(0.0, 5.0, 0.0, 0.0, 0.0, 0.0, true, true, 0.0, 0.0) && Sane(x.costs)
            && x.thresholds.Ordered()
  {
    hide Daily, Quote;
  }

  lemma QuotesAreRegular()
    ensures Regular(Quote) && Ordered(Both)
  {
    hide Open, Close, Daily;
  }

  lemma QuotedAt(s: Symbol, d: Date)
    ensures Quote(s, d).close == Some(Close(s, d)) && Quote(s, d).symbol == s && Priced(Quote(s, d))
    ensures Quote(s, d).universeEligible == Some(s != 1)
  {
  }

  // ----- the market

  lemma {:induction false} MarketIs()
    ensures var m := MarketOf(Example());
            m.x == Example() && m.bars == Daily(Quote, Both, 5) && m.dates == [3, 4, 5] && m.symbols == [2]
  {
    Facts();
    hide Example, Quote, Daily, Sorted, SortedUnique, EverEligible, Ascending;
    QuotesAreRegular();
    DailyIsSorted(Quote, Both, 5);
    var x, bars := Example(), Daily(Quote, Both, 5);
    AllAdmitted(bars, 5, Cutoff(0, 5));
    SortOfSorted(BarOrder, bars);
    ThreeDates();
    SymbolsAre(x);
  }

  lemma ThreeDates()
    ensures SortedUnique(Within([3, 4, 5], 3, 5)) == [3, 4, 5]
  {
    assert [3, 4, 5][1..] == [4, 5] && [4, 5][1..] == [5];
    assert Within([5], 3, 5) == [5] && Within([4, 5], 3, 5) == [4, 5];
    assert SortedUnique([5]) == [5] && SortedUnique([4, 5]) == [4, 5];
  }

  lemma {:induction false} SymbolsAre(x: Inputs)
    requires x.benchmark == 1 && x.secondaryBenchmark == None
    ensures SortedUnique(EverEligible(x, Daily(Quote, Both, 5))) == [2]
  {
    hide Daily, Quote, EverEligible, SortedUnique, Sorted;
    var bars := Daily(Quote, Both, 5);
    QuotesAreRegular();
    DailyIsSorted(Quote, Both, 5);
    QuotedOn(Quote, Both, 5, 2, 5);
    QuotedAt(2, 5);
    EligibleAreOf(x, bars);
    forall s ensures s in [2] <==> s in EverEligible(x, bars) {
      if s in EverEligible(x, bars) {
        var b :| b in bars && b.symbol == s && !IsBenchmark(x, s) && b.universeEligible == Some(true);
        QuotedAt(1, b.date);
        QuotedAt(2, b.date);
      }
    }
    FollowedAre(x, bars, [2]);
  }

  lemma {:induction false} BarsArePriced()
    ensures AllPriced(Daily(Quote, Both, 5))
    ensures forall b | b in Daily(Quote, Both, 5) :: b.universeEligible.Some?
  {
    hide Daily, Quote, Priced, Sorted;
    QuotesAreRegular();
    DailyIsSorted(Quote, Both, 5);
    forall b | b in Daily(Quote, Both, 5) ensures Priced(b) && b.universeEligible.Some? {
      QuotedAt(1, b.date);
      QuotedAt(2, b.date);
    }
  }

  lemma {:induction false} DayOf(date: nat)
    requires 0 < date <= 5
    ensures BarsOn(Daily(Quote, Both, 5), date) == map[1 := Quote(1, date), 2 := Quote(2, date)]
  {
    hide Daily, Quote, BarsOn;
    QuotesAreRegular();
    BarsOfDaily(Quote, Both, 5, date);
  }

  lemma {:induction false} Prepared()
    ensures Prepare(Example()) == Ok(MarketOf(Example()))
  {
    hide Daily, Quote, BarsOn, MarketOf, AllPriced, Example;
    Facts();
    MarketIs();
    BarsArePriced();
    forall d | d in [3, 4, 5]
      ensures 1 in BarsOn(Daily(Quote, Both, 5), d) && BarsOn(Daily(Quote, Both, 5), d)[1].close.Some?
    {
      DayOf(d);
      QuotedAt(1, d);
    }
  }

  // ----- what the closes of days 3 and 4 show

  /** The closes of a symbol through a date. */
  lemma {:induction false} HistoryIs(s: Symbol, date: nat)
    requires (s == 1 || s == 2) && 0 < date <= 5
    ensures Regular(Quote) && History(Daily(Quote, Both, 5), s, date, Cutoff(0, 5)) == Days(Quote, s, date)
    ensures forall i | 0 <= i < date :: Closes(Days(Quote, s, date))[i] == Close(s, i + 1)
    ensures BarOn(Days(Quote, s, date), date) == Some(ToDaily(Quote(s, date)))
  {
    hide Quote, Closes, History, Close, Daily;
    QuotesAreRegular();
    HistoryOfDaily(Quote, Both, 5, s, date, Cutoff(0, 5));
    ColumnsOfDays(Quote, s, date);
    assert Days(Quote, s, date)[date - 1] == ToDaily(Quote(s, date));
    forall i | 0 <= i < date ensures Closes(Days(Quote, s, date))[i] == Close(s, i + 1) {
      QuotedAt(s, i + 1);
    }
  }

  lemma SumOfTwo(a: real, b: real)
    ensures Sum([a, b]) == a + b
  {
    assert [a, b][1..] == [b] && [b][1..] == [];
    assert Sum([b]) == b;
  }

  lemma SumOfThree(a: real, b: real, c: real)
    ensures Sum([a, b, c]) == a + b + c
  {
    assert [a, b, c][1..] == [b, c];
    SumOfTwo(b, c);
  }

  lemma {:induction false} MeansOf(closes: seq<real>)
    requires |closes| >= 3
    ensures var n := |closes|;
            && TailMean(closes, 2) == Some((closes[n - 2] + closes[n - 1]) / 2.0)
            && TailMean(closes, 3) == Some((closes[n - 3] + closes[n - 2] + closes[n - 1]) / 3.0)
  {
    var n := |closes|;
    assert closes[n - 2..] == [closes[n - 2], closes[n - 1]];
    assert closes[n - 3..] == [closes[n - 3], closes[n - 2], closes[n - 1]];
    SumOfTwo(closes[n - 2], closes[n - 1]);
    SumOfThree(closes[n - 3], closes[n - 2], closes[n - 1]);
  }

  lemma {:induction false} ShownOf(s: Symbol, date: nat)
    ensures var b := ToDaily(Quote(s, date));
            b.close == Close(s, date) && b.availableAt == Some(0) && b.industry == None
            && !b.suspended && !b.st && !b.delisted && !b.limitUp
  {
    hide Close, Open;
  }

  /** Stock 2 is a candidate on day 3, and below its short mean on day 4. */
  lemma {:induction false} FeatureOfStock(date: nat)
    requires date == 3 || date == 4
    ensures var x := Example();
            var r := FeatureOf(x.strategy, Daily(Quote, Both, 5), 1, 2, date, x.cutoff);
            && r.Ok? && r.value.TrendFeature? && r.value.close == Some(Close(2, date)) && r.value.industry == None
            && (date == 3 ==> IsCandidate(x.strategy, r.value, x.cutoff))
            && (date == 4 ==> r.value.shortMean == Some(5.5))
  {
    hide Example, Quote, Daily, Days, History, Closes, TailMean, BarOn, ToDaily;
    Facts();
    HistoryIs(2, date);
    HistoryIs(1, date);
    ShownOf(2, date);
    ShownOf(1, date);
    MeansOf(Closes(Days(Quote, 2, date)));
    MeansOf(Closes(Days(Quote, 1, date)));
  }

  // ----- the run

  lemma {:induction false} SizeOfFirst(m: Market)
    requires m.x == Example()
    ensures Quantity(FirstRequest(m, 2, 10.0)) == 1
    ensures BuyTotal(m.x.costs, 10.0, 1) == 15.0 && ExecutionPrice(m.x.costs, Buy, 10.0) == 10.0
  {
    hide Example, NotionalCap, Blocked, Quantity;
    Facts();
    CapOfFirst(m);
    var r := FirstRequest(m, 2, 10.0);
    assert MaxShares(r) == 1;
    SizeAtOnce(r, 1);
  }

  lemma {:induction false} CapOfFirst(m: Market)
    requires m.x == Example()
    ensures var r := FirstRequest(m, 2, 10.0);
            !Blocked(r) && NotionalCap(r) == 15.0 && r.price == 10.0 && r.limits.lotSize == 1 && r.cash == 15.0
  {
    hide Example;
    Facts();
  }

  lemma {:induction false} Fillable()
    ensures var bar := Quote(2, 4);
            && bar.open == Some(10.0) && bar.availableQuantity.None? && bar.symbol == 2 && !bar.suspended
            && bar.low == Some(1.0) && bar.high == Some(10.0) && bar.limitStatusKnown && !bar.limitUp
  {
  }

  /** After day 4 all cash has gone into one share. */
  lemma {:induction false} BoughtOnDayFour()
    ensures |MarketOf(Example()).dates| == 3 && Example().initialEquity > 0.0
    ensures RunTo(MarketOf(Example()), 2).Ok?
    ensures var l := RunTo(MarketOf(Example()), 2).value.ledger;
            l.cash == 0.0 && l.positions == [LedgerPosition(2, 1, 15.0, 0)]
  {
    hide Example, MarketOf, RunTo, Quote, Daily, SignalsOn, Quantity, BuyTotal, ExecutionPrice, BarsOn, FeatureOf,
      IsCandidate,
      AllPriced, OnlyCandidate;
    var m := MarketOf(Example());
    Facts();
    MarketIs();
    BarsArePriced();
    SignalsCompute(m, 3);
    SignalsCompute(m, 4);
    FeatureOfStock(3);
    DayOf(3);
    DayOf(4);
    QuotedAt(1, 3);
    QuotedAt(2, 3);
    assert EligibleOn(m.x, BarsOn(m.bars, 3)) == {2};
    assert Keep([2], {2}) == [2] by { assert [2][1..] == []; }
    SoleCandidate(m, 3, 2, 10.0);
    SizeOfFirst(m);
    Fillable();
    HeldAfterTwo(m, 2, 10.0, Quote(2, 4));
  }

  lemma SecondOrder(os: seq<Order>)
    requires |os| > 1
    ensures os[0] in os && os[1] in os && os[1].symbol in SymbolsOf(os[1..])
  {
    assert os[1] == os[1..][0] && os[1] in os[1..];
  }

  /** Orders for one symbol alone are one order. */
  lemma OneSymbolOneOrder(os: seq<Order>, s: Symbol)
    requires DistinctOrders(os) && forall o | o in os :: o.symbol == s
    ensures |os| <= 1
  {
    if |os| > 1 { SecondOrder(os); }
  }

  /** The close of day 4 queues the sale of that share. */
  lemma {:induction false} QueuedOnDayFour()
    ensures |MarketOf(Example()).dates| == 3 && Example().initialEquity > 0.0
    ensures RunTo(MarketOf(Example()), 2).Ok?
    ensures var os := RunTo(MarketOf(Example()), 2).value.pending;
            |os| == 1 && os[0].side == Sell && os[0].symbol == 2 && os[0].quantity == 1
  {
    hide Example, MarketOf, NextDay, Quote, Daily, SignalsOn, FeatureOf, Mark, Trade, Queue, Ready;
    var x, m := Example(), MarketOf(Example());
    Facts();
    MarketIs();
    BoughtOnDayFour();
    var before, st := RunTo(m, 1).value, RunTo(m, 2).value;
    EndsQueueing(m, 1, before);
    var closed := Mark(m, 1, before, Trade(m, 1, before).value);
    RunIsOrderly(x, 1);
    RunIsOrderly(x, 2);
    MarkKeepsOrderly(m, 1, before);
    var signals := SignalsOn(m, 4).value;
    PositionsAreSeen(m, 4, closed);
    QueueChangesOrders(m, 1, closed, signals);
    SeenOnDayFour(signals);
    SaleQueued(m, closed, signals);
    forall o | o in st.pending ensures o.symbol == 2 {
    }
    OneSymbolOneOrder(st.pending, 2);
  }

  lemma {:induction false} SeenOnDayFour(signals: Signals)
    requires SignalsOn(MarketOf(Example()), 4) == Ok(signals)
    ensures var f := Lookup(signals.features, 2);
            f.Some? && f.value.TrendFeature? && f.value.close == Some(1.0) && f.value.shortMean == Some(5.5)
  {
    hide Example, MarketOf, Quote, Daily, FeatureOf, RankCandidates, Features, BarsOn, Restrict;
    MarketIs();
    Facts();
    FeatureOfStock(4);
    LookupIsFeature(MarketOf(Example()), [2], 4, 2);
  }

  /** A close below the short mean queues the sale of the only position first. */
  lemma {:induction false} SaleQueued(m: Market, closed: RunState, signals: Signals)
    requires m.x.strategy.MovingAverageTrend? && Valid(closed.ledger) && closed.snapshots != []
    requires closed.ledger.positions == [LedgerPosition(2, 1, 15.0, 0)] && 2 in closed.entries
    requires var f := Lookup(signals.features, 2);
             f.Some? && f.value.TrendFeature? && f.value.close == Some(1.0) && f.value.shortMean == Some(5.5)
    ensures var os := Queue(m, 1, closed, signals).pending;
            os != [] && os[0].side == Sell && os[0].symbol == 2 && os[0].quantity == 1
  {
    hide Lookup, PlanAll, FirstPlan, MarketSeen, NextStreak;
    var p := closed.ledger.positions[0];
    var streak := NextStreak(m.x.strategy, MarketSeen(signals.features), closed.streak);
    var reasons := ExitReasons(m.x.strategy, signals, Lookup(signals.features, 2).value, closed.entries[2], 1, streak);
    assert reasons[0] == CloseBelowShortMean;
    assert closed.ledger.positions[1..] == [];
    assert Exits(m.x.strategy, signals, closed.entries, 1, streak, closed.ledger.positions)
        == ExitOrder(m.x.strategy, signals, closed.entries, 1, streak, p) + [];
  }

  lemma {:induction false} SaleAtOne(costs: CostModel, o: Order, b: Book, day: map<Symbol, MarketBar>)
    requires costs == CostModel(0.0, 5.0, 0.0, 0.0, 0.0, 0.0, true, true, 0.0, 0.0)
    requires o.side == Sell && o.symbol == 2 && o.quantity == 1 && b.ledger.cash == 0.0
    requires 2 in day && day[2] == Quote(2, 5)
    ensures Unpayable(costs, 5, day, o, b)
  {
  }

  /** The inputs are accepted, all their prices are positive, and the run stops at the sale on day 5. */
  lemma {:induction false} RunCanStick()
    ensures Sane(Example().costs) && AllPriced(Example().bars) && Prepare(Example()).Ok?
    ensures EventLoop.Run(Example()) == Err(FillRefused(SaleMakesCashNegative))
  {
    hide Example, MarketOf, NextDay, Quote, Daily, AllPriced, Orderly, ExecuteAll, Unpayable, BarsOn, RunTo;
    var x, m := Example(), MarketOf(Example());
    Facts();
    MarketIs();
    Prepared();
    BarsArePriced();
    BoughtOnDayFour();
    QueuedOnDayFour();
    RunIsOrderly(x, 2);
    StuckOnDayFive(RunTo(m, 2).value);
    assert StopsAfter(x, 2);
    RunSticksIff(x, 3);
    RunNeverStuck(x, 3);
  }

  lemma {:induction false} StuckOnDayFive(st: RunState)
    requires |MarketOf(Example()).dates| == 3 && Orderly(MarketOf(Example()), st) && st.ledger.cash == 0.0
    requires |st.pending| == 1 && st.pending[0].side == Sell && st.pending[0].symbol == 2 && st.pending[0].quantity == 1
    ensures UnpayableSaleOn(MarketOf(Example()), 2, st)
  {
    hide Example, MarketOf, Quote, Daily, Unpayable, BarsOn, Ready;
    var x, m, o := Example(), MarketOf(Example()), st.pending[0];
    Facts();
    MarketIs();
    DayOf(5);
    SettledIsReady(m, st);
    var b := Book(AfterSettle(st.ledger), st.entries, st.fills, st.skipped);
    var os := Sort(OrderOrder, st.pending);
    assert os == [o] by { assert st.pending[1..] == [] && Sort(OrderOrder, st.pending[1..]) == []; }
    SaleAtOne(x.costs, o, b, BarsOn(m.bars, 5));
    assert os[..0] == [];
    assert SticksAt(m.x.costs, m.dates[2], 2, BarsOn(m.bars, m.dates[2]), os, b, 0);
  }
}
