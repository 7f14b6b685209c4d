/** The day loop never gets stuck on sane prices, unless the fees of a sale exceed all cash there is. */
module Progress {
  import opened Common
  import opened Sorting
  import opened Costs
  import opened Simulator
  import opened Ledger
  import opened Strategy
  import opened EventLoop
  import opened OrderBook
  import opened Planning
  import opened RunSafety

  /** Positive opens and closes, and no negative availability. */
  predicate Priced(b: MarketBar) {
    && (b.open.Some? ==> b.open.value > 0.0)
    && (b.close.Some? ==> b.close.value > 0.0)
    && (b.availableQuantity.Some? ==> b.availableQuantity.value >= 0)
  }

  ghost predicate AllPriced(bars: seq<MarketBar>) {
    forall b | b in bars :: Priced(b)
  }

  // ----- signals

  lemma {:induction false} HistoryIsPositive(bars: seq<MarketBar>, s: Symbol, date: Date, cutoff: Cutoff)
    requires AllPriced(bars)
    ensures AllPositive(Closes(History(bars, s, date, cutoff)))
  {
    if bars == [] {
    } else {
      assert Priced(bars[0]);
      HistoryIsPositive(bars[1..], s, date, cutoff);
      var rest := History(bars[1..], s, date, cutoff);
      var h := History(bars, s, date, cutoff);
      if h != rest {
        assert h[1..] == rest;
      }
    }
  }

  lemma {:induction false} SumPositive(xs: seq<real>)
    requires xs != [] && AllPositive(xs)
    ensures Sum(xs) > 0.0
  {
    if |xs| > 1 { SumPositive(xs[1..]); }
  }

  lemma TailMeanPositive(xs: seq<real>, n: int)
    requires n > 0 && AllPositive(xs)
    ensures TailMean(xs, n).Some? ==> TailMean(xs, n).value > 0.0
  {
    if |xs| >= n {
      SumPositive(xs[|xs| - n..]);
      var total := Sum(xs[|xs| - n..]);
      assert total / n as real * n as real == total;
    }
  }

  /** With positive closes every feature can be computed, and its averages are positive. */
  lemma FeatureComputes(m: Market, s: Symbol, date: Date)
    requires AllPriced(m.bars)
    ensures var r := FeatureOf(m.x.strategy, m.bars, m.x.benchmark, s, date, m.x.cutoff);
            r.Ok? && (Averaged(r.value) ==> r.value.shortMean.value > 0.0 && r.value.longMean.value > 0.0)
  {
    HistoryIsPositive(m.bars, s, date, m.x.cutoff);
    var closes := Closes(History(m.bars, s, date, m.x.cutoff));
    match m.x.strategy {
      case StrongTrend(_, _, _, _, _, _, _, _) =>
        assert TailReturn(closes, 5).Ok? && TailReturn(closes, 20).Ok?;
      case MovingAverageTrend(_, _, _, short, long, _) =>
        TailMeanPositive(closes, short);
        TailMeanPositive(closes, long);
    }
  }

  ghost predicate PositiveMeans(f: Feature) {
    Averaged(f) ==> f.shortMean.value > 0.0 && f.longMean.value > 0.0
  }

  lemma {:induction false} FeaturesCompute(m: Market, symbols: seq<Symbol>, date: Date)
    requires AllPriced(m.bars)
    ensures Features(m, symbols, date).Ok?
    ensures forall f | f in Features(m, symbols, date).value :: PositiveMeans(f)
  {
    if symbols == [] {
    } else {
      FeatureComputes(m, symbols[0], date);
      FeaturesCompute(m, symbols[1..], date);
    }
  }

  lemma {:induction false} TrendSignalsCompute(fs: seq<Feature>)
    requires forall f | f in fs :: Averaged(f) && PositiveMeans(f)
    ensures TrendSignals(fs).Ok?
  {
    if fs == [] {
    } else {
      assert Averaged(fs[0]) && PositiveMeans(fs[0]);
      TrendSignalsCompute(fs[1..]);
    }
  }

  lemma SignalsCompute(m: Market, date: Date)
    requires AllPriced(m.bars)
    ensures SignalsOn(m, date).Ok?
  {
    FeaturesCompute(m, m.symbols, date);
    var fs := Features(m, m.symbols, date).value;
    var pool := EligibleOn(m.x, BarsOn(m.bars, date));
    RestrictInPool(fs, pool);
    var candidates := Candidates(m.x.strategy, Restrict(fs, pool), m.x.cutoff);
    if m.x.strategy.MovingAverageTrend? {
      forall f | f in candidates ensures Averaged(f) && PositiveMeans(f) {
        assert IsCandidate(m.x.strategy, f, m.x.cutoff);
      }
      TrendSignalsCompute(candidates);
    }
  }

  // ----- orders

  /** At least one lot is at stake. */
  ghost predicate Lots(os: seq<Order>, lot: int) {
    forall o | o in os :: o.quantity >= lot
  }

  /** Any sale of a lot or more at this bar brings in at least its own fees. */
  ghost predicate SaleCovered(costs: CostModel, b: MarketBar, lot: int) {
    b.open.Some? ==>
      var price := ExecutionPrice(costs, Sell, b.open.value);
      price >= 0.0 ==>
        forall q: int {:trigger Notional(price, q)} | q >= lot && q >= 0 ::
          Calculate(costs, Sell, q, price).Total() <= Notional(price, q)
  }

  /** A sale the simulator fills, whose fees exceed cash and notional together. */
  ghost predicate Unpayable(costs: CostModel, date: Date, day: map<Symbol, MarketBar>, o: Order, b: Book) {
    && o.side == Sell && o.symbol in day
    && var r := Execute(costs, o, FullOrNone, day[o.symbol], date);
    && r.Ok? && r.value.execution.Some?
    && var price, fees := r.value.execution.value.price, r.value.execution.value.costs.Total();
       b.ledger.cash + (Notional(price, o.quantity) - fees) < 0.0
  }

  /** Executing an order gets stuck exactly when it is an unpayable sale. */
  lemma OrderSticksIff(costs: CostModel, date: Date, index: int, day: map<Symbol, MarketBar>, os: seq<Order>, b: Book)
    requires Sane(costs) && Valid(b.ledger) && os != [] && Ready(b, os)
    requires os[0].symbol in day ==> Priced(day[os[0].symbol])
    ensures ExecuteOrder(costs, date, index, day, os[0], b).Err? <==> Unpayable(costs, date, day, os[0], b)
    ensures Unpayable(costs, date, day, os[0], b) ==>
              ExecuteOrder(costs, date, index, day, os[0], b) == Err(FillRefused(SaleMakesCashNegative))
  {
    var o := os[0];
    assert Fits(b.ledger.positions, o);
    if o.symbol in day && day[o.symbol].open.Some? {
      var bar := day[o.symbol];
      PricesStayPositive(costs, o.side, bar.open.value);
      FeesAreNonNegative(costs, o.side, o.quantity, ExecutionPrice(costs, o.side, bar.open.value));
      var r := Execute(costs, o, FullOrNone, bar, date);
      if r.Ok? && !r.value.status.Unfilled? {
        hide Notional, ExecutionPrice, Calculate, AfterFill, Execute;
        EffectErrors(b.ledger, o, r.value.execution.value.price, r.value.execution.value.costs.Total());
      }
    }
  }

  lemma EffectErrors(l: LedgerState, o: Order, price: real, fees: real)
    requires Valid(l) && Fits(l.positions, o) && price > 0.0 && fees >= 0.0
    requires o.side == Sell ==> Find(l.positions, o.symbol).value.available == o.quantity
    ensures o.side == Buy ==>
              (FillEffect(l, o.side, o.symbol, o.quantity, price, fees).Err?
               <==> Notional(price, o.quantity) + fees > l.cash)
    ensures o.side == Sell ==>
              (FillEffect(l, o.side, o.symbol, o.quantity, price, fees).Err?
               <==> l.cash + (Notional(price, o.quantity) - fees) < 0.0)
    ensures o.side == Sell && FillEffect(l, o.side, o.symbol, o.quantity, price, fees).Err? ==>
              FillEffect(l, o.side, o.symbol, o.quantity, price, fees) == Err(SaleMakesCashNegative)
  {
    hide Notional, ReducedCost, Find;
  }

  lemma CoveredIsPayable(costs: CostModel, date: Date, day: map<Symbol, MarketBar>, o: Order, b: Book, lot: int)
    requires Valid(b.ledger) && o.quantity >= lot && o.quantity > 0
    requires o.symbol in day ==> SaleCovered(costs, day[o.symbol], lot)
    ensures !Unpayable(costs, date, day, o, b)
  {
    hide Notional, ExecutionPrice, Calculate;
    if o.side == Sell && o.symbol in day {
      var r := Execute(costs, o, FullOrNone, day[o.symbol], date);
      if r.Ok? && r.value.execution.Some? {
        var price := r.value.execution.value.price;
        assert Calculate(costs, Sell, o.quantity, price).Total() <= Notional(price, o.quantity);
      }
    }
  }

  ghost predicate DayPriced(day: map<Symbol, MarketBar>) {
    forall s | s in day :: Priced(day[s])
  }

  ghost predicate DayCovered(costs: CostModel, day: map<Symbol, MarketBar>, lot: int) {
    forall s | s in day :: SaleCovered(costs, day[s], lot)
  }

  /** A day's execution can only stop at an unpayable sale, and completes when sales cover their fees. */
  lemma {:induction false} DayProgresses(costs: CostModel, date: Date, index: int, day: map<Symbol, MarketBar>,
                                         os: seq<Order>, b: Book, lot: int)
    requires Sane(costs) && Valid(b.ledger) && Ready(b, os) && Lots(os, lot) && DayPriced(day)
    ensures ExecuteAll(costs, date, index, day, os, b).Err? ==>
              ExecuteAll(costs, date, index, day, os, b) == Err(FillRefused(SaleMakesCashNegative))
    ensures DayCovered(costs, day, lot) ==> ExecuteAll(costs, date, index, day, os, b).Ok?
    decreases os
  {
    if os == [] {
    } else {
      assert os[0] in os;
      assert Fits(b.ledger.positions, os[0]);
      OrderSticksIff(costs, date, index, day, os, b);
      if DayCovered(costs, day, lot) {
        CoveredIsPayable(costs, date, day, os[0], b, lot);
      }
      hide ExecuteOrder, Unpayable;
      var r := ExecuteOrder(costs, date, index, day, os[0], b);
      if r.Ok? {
        OrderKeepsReady(costs, date, index, day, os, b);
        DayProgresses(costs, date, index, day, os[1..], r.value, lot);
      }
    }
  }

  /** After the first `n` of the orders the next one is an unpayable sale. */
  ghost predicate SticksAt(costs: CostModel, date: Date, index: int, day: map<Symbol, MarketBar>, os: seq<Order>,
                           b: Book, n: nat)
    requires Valid(b.ledger) && n < |os|
  {
    var r := ExecuteAll(costs, date, index, day, os[..n], b);
    r.Ok? && Unpayable(costs, date, day, os[n], r.value)
  }

  lemma {:induction false} SticksLater(costs: CostModel, date: Date, index: int, day: map<Symbol, MarketBar>,
                                       os: seq<Order>, b: Book, n: nat)
    requires Valid(b.ledger) && n + 1 < |os| && ExecuteOrder(costs, date, index, day, os[0], b).Ok?
    ensures SticksAt(costs, date, index, day, os, b, n + 1)
       <==> SticksAt(costs, date, index, day, os[1..], ExecuteOrder(costs, date, index, day, os[0], b).value, n)
  {
    hide ExecuteOrder, Unpayable;
    assert os[..n + 1][0] == os[0] && os[..n + 1][1..] == os[1..][..n];
  }

  /** A day's execution gets stuck exactly when it comes to an unpayable sale. */
  lemma {:induction false} DaySticksIff(costs: CostModel, date: Date, index: int, day: map<Symbol, MarketBar>,
                                        os: seq<Order>, b: Book)
    requires Sane(costs) && Valid(b.ledger) && Ready(b, os) && DayPriced(day)
    ensures ExecuteAll(costs, date, index, day, os, b).Err?
       <==> exists n: nat | n < |os| :: SticksAt(costs, date, index, day, os, b, n)
    decreases os
  {
    if os == [] {
    } else {
      OrderSticksIff(costs, date, index, day, os, b);
      hide ExecuteOrder, Unpayable, Ready;
      assert os[..0] == [] && SticksAt(costs, date, index, day, os, b, 0) == Unpayable(costs, date, day, os[0], b);
      var r := ExecuteOrder(costs, date, index, day, os[0], b);
      if r.Ok? {
        OrderKeepsReady(costs, date, index, day, os, b);
        DaySticksIff(costs, date, index, day, os[1..], r.value);
        LaterSticks(costs, date, index, day, os, b);
      }
    }
  }

  lemma {:induction false} LaterSticks(costs: CostModel, date: Date, index: int, day: map<Symbol, MarketBar>,
                                       os: seq<Order>, b: Book)
    requires Valid(b.ledger) && os != [] && ExecuteOrder(costs, date, index, day, os[0], b).Ok?
    requires !SticksAt(costs, date, index, day, os, b, 0)
    ensures (exists n: nat | n < |os| :: SticksAt(costs, date, index, day, os, b, n))
       <==> (exists n: nat | n < |os[1..]| ::
               SticksAt(costs, date, index, day, os[1..], ExecuteOrder(costs, date, index, day, os[0], b).value, n))
  {
    hide ExecuteOrder, SticksAt;
    var next := ExecuteOrder(costs, date, index, day, os[0], b).value;
    if n: nat :| n < |os| && SticksAt(costs, date, index, day, os, b, n) {
      SticksLater(costs, date, index, day, os, b, n - 1);
      assert SticksAt(costs, date, index, day, os[1..], next, n - 1);
    }
    if n: nat :| n < |os[1..]| && SticksAt(costs, date, index, day, os[1..], next, n) {
      SticksLater(costs, date, index, day, os, b, n);
      assert SticksAt(costs, date, index, day, os, b, n + 1);
    }
  }

  // ----- runs

  /** Every position holds at least one lot. */
  ghost predicate LotPositions(ps: seq<LedgerPosition>, lot: int) {
    forall s | Find(ps, s).Some? :: Find(ps, s).value.quantity >= lot
  }

  lemma OrderKeepsLots(costs: CostModel, date: Date, index: int, day: map<Symbol, MarketBar>, o: Order, b: Book,
                       lot: int)
    requires Valid(b.ledger) && Fits(b.ledger.positions, o) && o.quantity >= lot
               && LotPositions(b.ledger.positions, lot)
    requires ExecuteOrder(costs, date, index, day, o, b).Ok?
    ensures LotPositions(ExecuteOrder(costs, date, index, day, o, b).value.ledger.positions, lot)
  {
    var r := ExecuteOrder(costs, date, index, day, o, b).value;
    if r.ledger != b.ledger {
      var execution := Execute(costs, o, FullOrNone, day[o.symbol], date).value.execution.value;
      hide Find, AfterFill, Notional;
      forall s | Find(r.ledger.positions, s).Some? ensures Find(r.ledger.positions, s).value.quantity >= lot {
        FillFinds(b.ledger, o, execution.price, execution.costs.Total(), s);
      }
    }
  }

  lemma {:induction false} DayKeepsLots(costs: CostModel, date: Date, index: int, day: map<Symbol, MarketBar>,
                                        os: seq<Order>, b: Book, lot: int)
    requires Valid(b.ledger) && Ready(b, os) && Lots(os, lot) && LotPositions(b.ledger.positions, lot)
    requires ExecuteAll(costs, date, index, day, os, b).Ok?
    ensures LotPositions(ExecuteAll(costs, date, index, day, os, b).value.ledger.positions, lot)
    decreases os
  {
    if os == [] {
    } else {
      assert os[0] in os && Fits(b.ledger.positions, os[0]);
      OrderKeepsReady(costs, date, index, day, os, b);
      OrderKeepsLots(costs, date, index, day, os[0], b, lot);
      hide ExecuteOrder;
      DayKeepsLots(costs, date, index, day, os[1..], ExecuteOrder(costs, date, index, day, os[0], b).value, lot);
    }
  }

  /** Positions and pending orders are of at least a lot. */
  ghost predicate WholeLots(m: Market, st: RunState) {
    LotPositions(st.ledger.positions, m.x.limits.lotSize) && Lots(st.pending, m.x.limits.lotSize)
  }

  lemma TradeKeepsLots(m: Market, index: nat, st: RunState)
    requires index < |m.dates| && Orderly(m, st) && WholeLots(m, st) && Trade(m, index, st).Ok?
    ensures LotPositions(Trade(m, index, st).value.ledger.positions, m.x.limits.lotSize)
  {
    var lot := m.x.limits.lotSize;
    SettledIsReady(m, st);
    forall s | Find(Settled(st.ledger.positions), s).Some?
      ensures Find(Settled(st.ledger.positions), s).value.quantity >= lot
    {
      FindSettled(st.ledger.positions, s);
    }
    DayKeepsLots(m.x.costs, m.dates[index], index, BarsOn(m.bars, m.dates[index]), Sort(OrderOrder, st.pending),
                 Book(AfterSettle(st.ledger), st.entries, st.fills, st.skipped), lot);
  }

  lemma QueueKeepsLots(m: Market, index: int, st: RunState, signals: Signals)
    requires Valid(st.ledger) && st.snapshots != [] && LotPositions(st.ledger.positions, m.x.limits.lotSize)
    ensures WholeLots(m, Queue(m, index, st, signals))
  {
    var next := Queue(m, index, st, signals);
    QueuedOrders(m, index, st, signals);
    hide Exits, PlanAll, FirstPlan, SoundCaps, SoundCounts;
    forall o | o in next.pending ensures o.quantity >= m.x.limits.lotSize {
      assert Fits(st.ledger.positions, o);
    }
  }

  lemma NextDayKeepsLots(m: Market, index: nat, st: RunState)
    requires index < |m.dates| && Orderly(m, st) && WholeLots(m, st) && NextDay(m, index, st).Ok?
    ensures WholeLots(m, NextDay(m, index, st).value)
  {
    TradeKeepsLots(m, index, st);
    var closed := Mark(m, index, st, Trade(m, index, st).value);
    if index != |m.dates| - 1 {
      hide Queue, SignalsOn, Trade;
      QueueKeepsLots(m, index, closed, SignalsOn(m, m.dates[index]).value);
    }
  }

  ghost predicate AllCovered(x: Inputs) {
    forall b | b in x.bars :: SaleCovered(x.costs, b, x.limits.lotSize)
  }

  lemma {:induction false} AdmittedAreBars(bars: seq<MarketBar>, end: Date, cutoff: Cutoff)
    ensures forall b | b in Admitted(bars, end, cutoff) :: b in bars
  {
    if bars == [] {
    } else {
      AdmittedAreBars(bars[1..], end, cutoff);
    }
  }

  lemma MarketBarsAreBars(x: Inputs)
    ensures forall b | b in MarketOf(x).bars :: b in x.bars
  {
    AdmittedAreBars(x.bars, x.end, x.cutoff);
    SortKeepsElements(BarOrder, Admitted(x.bars, x.end, x.cutoff));
  }

  /** One day completes, or stops at an unpayable sale; with covered sales it completes. */
  lemma NextDayProgresses(x: Inputs, index: nat, st: RunState)
    requires Sane(x.costs) && AllPriced(x.bars)
    requires index < |MarketOf(x).dates| && Orderly(MarketOf(x), st) && WholeLots(MarketOf(x), st)
    ensures NextDay(MarketOf(x), index, st).Err? ==>
              NextDay(MarketOf(x), index, st) == Err(FillRefused(SaleMakesCashNegative))
    ensures AllCovered(x) ==> NextDay(MarketOf(x), index, st).Ok?
  {
    var m := MarketOf(x);
    var date := m.dates[index];
    var day := BarsOn(m.bars, date);
    MarketBarsAreBars(x);
    assert AllPriced(m.bars);
    SignalsCompute(m, date);
    SettledIsReady(m, st);
    BarsOnAreBars(m.bars, date);
    assert DayPriced(day);
    assert AllCovered(x) ==> DayCovered(x.costs, day, x.limits.lotSize);
    assert Lots(Sort(OrderOrder, st.pending), x.limits.lotSize);
    hide MarketOf, ExecuteAll, Queue, SignalsOn, Mark, Ready, SaleCovered;
    DayProgresses(x.costs, date, index, day, Sort(OrderOrder, st.pending),
                  Book(AfterSettle(st.ledger), st.entries, st.fills, st.skipped), x.limits.lotSize);
  }

  /** Positive prices and a sane cost model let every run complete unless the fees of some sale exceed the
      cash and its notional together; when every sale of a lot or more covers its own fees, no run is
      ever stuck, and cash is never negative. */
  lemma {:induction false} RunNeverStuck(x: Inputs, k: nat)
    requires x.initialEquity > 0.0 && Sane(x.costs) && AllPriced(x.bars)
    requires k <= |MarketOf(x).dates|
    ensures RunTo(MarketOf(x), k).Err? ==> RunTo(MarketOf(x), k) == Err(FillRefused(SaleMakesCashNegative))
    ensures AllCovered(x) ==> RunTo(MarketOf(x), k).Ok?
    ensures RunTo(MarketOf(x), k).Ok? ==>
              WholeLots(MarketOf(x), RunTo(MarketOf(x), k).value) && RunTo(MarketOf(x), k).value.ledger.cash >= 0.0
  {
    hide MarketOf, NextDay, AllCovered;
    if k == 0 {
    } else {
      RunNeverStuck(x, k - 1);
      if RunTo(MarketOf(x), k - 1).Ok? {
        var st := RunTo(MarketOf(x), k - 1).value;
        RunIsOrderly(x, k - 1);
        NextDayProgresses(x, k - 1, st);
        if NextDay(MarketOf(x), k - 1, st).Ok? { NextDayKeepsLots(MarketOf(x), k - 1, st); }
      }
    }
  }

  /** One of the orders pending at the open of day `index` is an unpayable sale when its turn comes. */
  ghost predicate UnpayableSaleOn(m: Market, index: nat, st: RunState)
    requires index < |m.dates| && Orderly(m, st)
  {
    SettledIsReady(m, st);
    var os := Sort(OrderOrder, st.pending);
    exists n: nat | n < |os| ::
      SticksAt(m.x.costs, m.dates[index], index, BarsOn(m.bars, m.dates[index]), os,
               Book(AfterSettle(st.ledger), st.entries, st.fills, st.skipped), n)
  }

  lemma {:induction false} TradeSticksIff(m: Market, index: nat, st: RunState)
    requires Sane(m.x.costs) && AllPriced(m.bars) && index < |m.dates| && Orderly(m, st)
    ensures Trade(m, index, st).Err? <==> UnpayableSaleOn(m, index, st)
  {
    hide ExecuteAll, SticksAt, AllFit, Buys, Sort, Ready;
    SettledIsReady(m, st);
    BarsOnAreBars(m.bars, m.dates[index]);
    DaySticksIff(m.x.costs, m.dates[index], index, BarsOn(m.bars, m.dates[index]), Sort(OrderOrder, st.pending),
                 Book(AfterSettle(st.ledger), st.entries, st.fills, st.skipped));
  }

  lemma {:induction false} NextDaySticksIff(x: Inputs, index: nat, st: RunState)
    requires Sane(x.costs) && AllPriced(x.bars) && index < |MarketOf(x).dates| && Orderly(MarketOf(x), st)
    ensures NextDay(MarketOf(x), index, st).Err? <==> UnpayableSaleOn(MarketOf(x), index, st)
  {
    hide MarketOf, Trade, SignalsOn, Mark, Queue, UnpayableSaleOn, AllFit, Buys;
    MarketBarsAreBars(x);
    SignalsCompute(MarketOf(x), MarketOf(x).dates[index]);
    TradeSticksIff(MarketOf(x), index, st);
  }

  /** After `i` days the run comes to an unpayable sale on the next. */
  ghost predicate StopsAfter(x: Inputs, i: nat)
    requires x.initialEquity > 0.0 && i < |MarketOf(x).dates|
  {
    var r := RunTo(MarketOf(x), i);
    r.Ok? && (RunIsOrderly(x, i); UnpayableSaleOn(MarketOf(x), i, r.value))
  }

  /** Over positive prices and with a sane cost model, a run gets stuck exactly when it comes to a sale that the
      simulator fills and whose fees exceed cash and notional together. */
  lemma {:induction false} RunSticksIff(x: Inputs, k: nat)
    requires x.initialEquity > 0.0 && Sane(x.costs) && AllPriced(x.bars) && k <= |MarketOf(x).dates|
    ensures RunTo(MarketOf(x), k).Err? <==> exists i: nat | i < k :: StopsAfter(x, i)
  {
    hide MarketOf, NextDay, UnpayableSaleOn, AllFit, AllPriced;
    if k == 0 {
    } else {
      RunSticksIff(x, k - 1);
      if RunTo(MarketOf(x), k - 1).Ok? {
        RunIsOrderly(x, k - 1);
        NextDaySticksIff(x, k - 1, RunTo(MarketOf(x), k - 1).value);
        assert RunTo(MarketOf(x), k).Err? <==> StopsAfter(x, k - 1);
      }
    }
  }

  /** No sale of the whole day loop is unpayable. */
  ghost predicate SalesPayable(x: Inputs) {
    x.initialEquity > 0.0 ==> forall i: nat | i < |MarketOf(x).dates| :: !StopsAfter(x, i)
  }

  /** Sales of a lot or more that cover their fees are payable. */
  lemma {:induction false} CoveredSalesPayable(x: Inputs)
    requires Sane(x.costs) && AllPriced(x.bars) && AllCovered(x)
    ensures SalesPayable(x)
  {
    hide MarketOf, StopsAfter, AllCovered, AllPriced;
    if x.initialEquity > 0.0 {
      RunNeverStuck(x, |MarketOf(x).dates|);
      RunSticksIff(x, |MarketOf(x).dates|);
    }
  }

  /** Rates that add up to at most one, and a minimum commission that one lot at the lowest price can
      bear, cover every sale. */
  lemma CoveredByOneLot(costs: CostModel, b: MarketBar, lot: int)
    requires Sane(costs) && lot > 0 && b.open.Some? && b.open.value > 0.0
    requires costs.commissionRate + OtherRates(costs) <= 1.0
    requires costs.minimumCommission
          <= Notional(ExecutionPrice(costs, Sell, b.open.value), lot) * (1.0 - OtherRates(costs))
    ensures SaleCovered(costs, b, lot)
  {
    var price := ExecutionPrice(costs, Sell, b.open.value);
    PricesStayPositive(costs, Sell, b.open.value);
    hide ExecutionPrice, Notional, OtherRates;
    forall q: int {:trigger Notional(price, q)} | q >= lot && q >= 0
      ensures Calculate(costs, Sell, q, price).Total() <= Notional(price, q)
    {
      LotsAreCovered(costs, lot, q, price);
    }
  }

  lemma LotsAreCovered(costs: CostModel, lot: int, q: int, price: real)
    requires 0 < lot <= q && price >= 0.0
    requires costs.commissionRate + OtherRates(costs) <= 1.0
    requires costs.minimumCommission <= Notional(price, lot) * (1.0 - OtherRates(costs))
    requires 0.0 <= costs.commissionRate
    ensures Calculate(costs, Sell, q, price).Total() <= Notional(price, q)
  {
    MulMonotone(lot as real, q as real, price);
    var n := Notional(price, q);
    assert Notional(price, lot) <= n;
    MulMonotone(Notional(price, lot), n, 1.0 - OtherRates(costs));
    MulMonotone(costs.commissionRate + OtherRates(costs), 1.0, n);
    FeesAdd(costs, q, price);
    SplitRates(n, costs.commissionRate, OtherRates(costs));
  }

  function OtherRates(costs: CostModel): real {
    costs.sellStampDutyRate + costs.transferFeeRate
    + (if costs.commissionIncludesRegulatory then 0.0 else costs.regulatoryFeeRate)
    + (if costs.commissionIncludesHandling then 0.0 else costs.handlingFeeRate)
  }

  lemma FeesAdd(costs: CostModel, q: int, price: real)
    requires q >= 0 && price >= 0.0
    ensures Calculate(costs, Sell, q, price).Total() ==
            Max(Fee(Notional(price, q), costs.commissionRate), costs.minimumCommission)
                + Fee(Notional(price, q), OtherRates(costs))
  {
    var n := Notional(price, q);
    var regulatory := if costs.commissionIncludesRegulatory then 0.0 else costs.regulatoryFeeRate;
    var handling := if costs.commissionIncludesHandling then 0.0 else costs.handlingFeeRate;
    FeesDistribute(n, costs.sellStampDutyRate, costs.transferFeeRate, regulatory, handling);
    hide Notional, Max, Fee;
    assert costs.sellStampDutyRate + costs.transferFeeRate + regulatory + handling == OtherRates(costs);
  }

  lemma FeesDistribute(n: real, a: real, b: real, c: real, d: real)
    ensures Fee(n, a + b + c + d) == Fee(n, a) + Fee(n, b) + Fee(n, c) + Fee(n, d)
    ensures Fee(n, 0.0) == 0.0
  {
  }

  lemma SplitRates(n: real, a: real, b: real)
    ensures n * (a + b) == n * a + n * b
    ensures n * (1.0 - b) == n - n * b
  {
  }
}
