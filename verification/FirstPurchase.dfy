/** The first two days of a run that has one candidate at its first close: it is bought at the next open. */
module FirstPurchase {
  import opened Common
  import opened Sorting
  import opened Costs
  import opened Simulator
  import opened Ledger
  import opened Drawdown
  import opened Allocation
  import opened Selection
  import opened Strategy
  import opened EventLoop
  import opened OrderBook
  import opened RunSafety
  import opened Ranking
  import opened RunExits
  import opened NoLookAhead

  /** What sizing is asked for a first candidate. */
  function FirstRequest(m: Market, s: Symbol, price: real): Request {
    Request(price, m.x.initialEquity, m.x.initialEquity, [], None, m.x.limits, None, s, m.x.costs, Normal)
  }

  function FirstOrder(m: Market, s: Symbol, quantity: int): Order
    requires m.dates != []
  {
    Order(Buy, s, quantity, m.dates[0], None, [EntrySignalled])
  }

  /** The state after a first day that has queued one purchase. */
  ghost predicate QueuedOne(m: Market, st: RunState, s: Symbol, quantity: int)
    requires m.dates != []
  {
    && st.ledger == LedgerState(m.x.initialEquity, [], [], m.x.initialEquity)
    && st.entries == map[] && st.fills == [] && st.skipped == []
    && st.monitor.state == Normal && st.monitor.highWaterMark > 0.0
    && st.pending == [FirstOrder(m, s, quantity)]
  }

  /** The one candidate of a close, and what a share of it costs. */
  ghost predicate OnlyCandidate(signals: Signals, s: Symbol, price: real) {
    && |signals.ranked| == 1 && signals.ranked[0].symbol == s && signals.ranked[0].industry == None
    && Lookup(signals.features, s).Some? && Lookup(signals.features, s).value.close == Some(price) && price > 0.0
  }

  lemma SelectOne(ranked: seq<EntrySignal>, maxPositions: int, maxPerIndustry: int)
    requires |ranked| == 1 && maxPositions >= 1 && maxPerIndustry >= 1
    ensures Select(ranked, maxPositions, maxPerIndustry) == [ranked[0].(rank := 1)]
  {
    assert Select([], maxPositions, maxPerIndustry) == [] && ranked[..0] == [];
  }

  lemma PlanOne(d: Desk, cash: real, signal: EntrySignal, price: real)
    requires Reference(d, signal) == Some(price) && signal.symbol !in d.exiting && signal.industry == None
               && price > 0.0
    requires Quantity(RequestFor(d, Plan(cash, [], map[], []), signal, price)) > 0
    ensures var q := Quantity(RequestFor(d, Plan(cash, [], map[], []), signal, price));
            PlanAll(d, Plan(cash, [], map[], []), [signal]).orders
            == [Order(Buy, signal.symbol, q, d.signals.date, None, [EntrySignalled])]
  {
    hide Quantity, BuyTotal, Notional;
    var plan := Plan(cash, [], map[], []);
    var next := PlanEntry(d, plan, signal);
    assert PlanAll(d, plan, [signal]) == PlanAll(d, next, [signal][1..]);
    assert [signal][1..] == [];
  }

  /** The close of a first day on which nothing was traded. */
  lemma FirstClose(m: Market, b: Book)
    requires m.dates != [] && m.x.initialEquity > 0.0 && m.x.thresholds.Ordered()
    requires b == Book(LedgerState(m.x.initialEquity, [], [], m.x.initialEquity), map[], [], [])
    ensures var st := Mark(m, 0, Opening(m.x), b);
            && st.ledger == b.ledger && st.entries == map[] && st.fills == [] && st.skipped == []
            && |st.snapshots| == 1 && st.snapshots[0].equity == m.x.initialEquity
            && st.monitor.state == Normal && st.monitor.highWaterMark == m.x.initialEquity
  {
    hide ClosesOf, BarsOn;
  }

  lemma FirstTrade(m: Market)
    requires m.dates != [] && m.x.initialEquity > 0.0
    ensures Trade(m, 0, Opening(m.x)) == Ok(Book(LedgerState(m.x.initialEquity, [], [], m.x.initialEquity), map[], [],
                                                 []))
  {
    assert Sort(OrderOrder, []) == [] && Settled([]) == [];
  }

  lemma FirstQueue(m: Market, st: RunState, signals: Signals, s: Symbol, price: real)
    requires m.dates != [] && signals.date == m.dates[0] && OnlyCandidate(signals, s, price)
    requires st.ledger == LedgerState(m.x.initialEquity, [], [], m.x.initialEquity) && st.entries == map[]
    requires |st.snapshots| == 1 && st.snapshots[0].equity == m.x.initialEquity && st.monitor.state == Normal
    requires Quantity(FirstRequest(m, s, price)) > 0
    ensures Queue(m, 0, st, signals).pending == [FirstOrder(m, s, Quantity(FirstRequest(m, s, price)))]
  {
    hide Quantity, Select, PlanAll, MarketSeen, NextStreak, Lookup;
    var streak := NextStreak(m.x.strategy, MarketSeen(signals.features), st.streak);
    var exits := Exits(m.x.strategy, signals, st.entries, 0, streak, st.ledger.positions);
    assert exits == [];
    var d := DeskOf(m, signals, exits, st);
    assert d.exiting == {};
    SelectOne(signals.ranked, m.x.strategy.maxPositions, m.x.strategy.maxPerIndustry);
    var signal := signals.ranked[0].(rank := 1);
    assert FirstPlan(d, st) == Plan(m.x.initialEquity, [], map[], []);
    PlanOne(d, m.x.initialEquity, signal, price);
  }

  /** A run's first day queues its only candidate. */
  lemma FirstDayQueues(m: Market, s: Symbol, price: real)
    requires |m.dates| > 1 && m.x.initialEquity > 0.0 && m.x.thresholds.Ordered()
    requires SignalsOn(m, m.dates[0]).Ok? && OnlyCandidate(SignalsOn(m, m.dates[0]).value, s, price)
    requires Quantity(FirstRequest(m, s, price)) > 0
    ensures RunTo(m, 1).Ok? && QueuedOne(m, RunTo(m, 1).value, s, Quantity(FirstRequest(m, s, price)))
  {
    var signals := SignalsOn(m, m.dates[0]).value;
    SignalsAreDated(m, m.dates[0]);
    FirstTrade(m);
    hide Trade, SignalsOn, Queue, Quantity, Mark, OnlyCandidate;
    var b := Trade(m, 0, Opening(m.x)).value;
    FirstClose(m, b);
    var closed := Mark(m, 0, Opening(m.x), b);
    assert RunTo(m, 0) == Ok(Opening(m.x));
    assert RunTo(m, 1) == NextDay(m, 0, Opening(m.x)) == Ok(Queue(m, 0, closed, signals));
    FirstQueue(m, closed, signals, s, price);
    QueueKeepsRest(m, closed, signals);
  }

  lemma QueueKeepsRest(m: Market, st: RunState, signals: Signals)
    requires st.ledger.positions == [] && st.snapshots != []
    ensures var r := Queue(m, 0, st, signals); r == st.(streak := r.streak, pending := r.pending)
  {
    hide PlanAll, Select;
  }

  /** A purchase within its bar and the cash is filled and opens the only position. */
  lemma SecondTrade(m: Market, st: RunState, s: Symbol, quantity: int, bar: MarketBar)
    requires |m.dates| > 1 && QueuedOne(m, st, s, quantity) && quantity > 0 && m.x.initialEquity > 0.0
               && Sane(m.x.costs)
    requires s in BarsOn(m.bars, m.dates[1]) && BarsOn(m.bars, m.dates[1])[s] == bar
    requires bar.open.Some? && bar.open.value > 0.0 && bar.availableQuantity.None?
    requires Tradeable(FirstOrder(m, s, quantity), bar, ExecutionPrice(m.x.costs, Buy, bar.open.value))
    requires ExecutionPrice(m.x.costs, Buy, bar.open.value) >= 0.0
    requires BuyTotal(m.x.costs, ExecutionPrice(m.x.costs, Buy, bar.open.value), quantity) <= m.x.initialEquity
    ensures Trade(m, 1, st).Ok?
    ensures var total := BuyTotal(m.x.costs, ExecutionPrice(m.x.costs, Buy, bar.open.value), quantity);
            var l := Trade(m, 1, st).value.ledger;
            l.positions == [LedgerPosition(s, quantity, total, 0)] && l.cash == m.x.initialEquity - total
    ensures Trade(m, 1, st).value.entries
         == map[s := EntryState(ExecutionPrice(m.x.costs, Buy, bar.open.value), m.dates[1], 1, None)]
  {
    var o := FirstOrder(m, s, quantity);
    var price := ExecutionPrice(m.x.costs, Buy, bar.open.value);
    var day, date := BarsOn(m.bars, m.dates[1]), m.dates[1];
    var b := Book(AfterSettle(st.ledger), st.entries, st.fills, st.skipped);
    assert AfterSettle(st.ledger) == st.ledger;
    assert Sort(OrderOrder, [o]) == [o] by { assert [o][1..] == [] && Sort(OrderOrder, [o][1..]) == []; }
    FilledIff(m.x.costs, o, bar, date);
    PricesStayPositive(m.x.costs, Buy, bar.open.value);
    FeesAreNonNegative(m.x.costs, Buy, quantity, price);
    hide ExecutionPrice, Calculate, Notional, Tradeable, BarsOn, Execute;
    var fill := Execute(m.x.costs, o, FullOrNone, bar, date).value;
    var total := Notional(price, quantity) + Calculate(m.x.costs, Buy, quantity, price).Total();
    assert fill.execution.value.price == price && fill.quantity == quantity;
    var next := AfterFill(st.ledger, Buy, s, quantity, price, fill.execution.value.costs.Total());
    OpensOnly(st.ledger, s, quantity, price, fill.execution.value.costs.Total());
    assert ExecuteOrder(m.x.costs, date, 1, day, o, b).Ok?;
    assert ExecuteOrder(m.x.costs, date, 1, day, o, b).value.ledger == next.value;
    var r := ExecuteOrder(m.x.costs, date, 1, day, o, b).value;
    hide ExecuteOrder, AfterFill;
    assert [o][1..] == [];
    assert ExecuteAll(m.x.costs, date, 1, day, [o], b) == ExecuteAll(m.x.costs, date, 1, day, [o][1..], r) == Ok(r);
  }

  lemma OpensOnly(l: LedgerState, s: Symbol, quantity: int, price: real, fees: real)
    requires l.cash >= 0.0 && l.positions == [] && quantity > 0 && price > 0.0 && fees >= 0.0
    requires Notional(price, quantity) + fees <= l.cash
    ensures var r := AfterFill(l, Buy, s, quantity, price, fees);
            && r.Ok? && r.value.cash == l.cash - (Notional(price, quantity) + fees)
            && r.value.positions == [LedgerPosition(s, quantity, Notional(price, quantity) + fees, 0)]
  {
    hide Notional;
    assert Find([], s) == None;
  }

  /** A size that fits the cash at once. */
  lemma SizeAtOnce(r: Request, quantity: int)
    requires r.limits.lotSize > 0 && !Blocked(r) && quantity >= 0
    requires LotFloor(MaxShares(r), r.limits.lotSize) == quantity && BuyTotal(r.costs, r.price, quantity) <= r.cash
    ensures Quantity(r) == quantity
  {
    assert r.price > 0.0;
    hide MaxShares, LotFloor, BuyTotal, Blocked;
  }

  // ----- the only candidate

  lemma NumberOne(p: StrategyConfig, fs: seq<Feature>, f: Feature, cutoff: Cutoff)
    requires fs == [f] && IsCandidate(p, f, cutoff) && RankCandidates(p, fs, cutoff).Ok?
    ensures var r := RankCandidates(p, fs, cutoff).value;
            |r| == 1 && r[0].symbol == f.symbol && r[0].industry == f.industry
  {
    hide StrongScore, IsCandidate, TrendScore;
    assert fs[1..] == [];
    assert Candidates(p, fs, cutoff) == [f] + Candidates(p, fs[1..], cutoff) == [f];
    var signals := Scored(p, [f], cutoff).value;
    assert |signals| == 1 && signals[0].symbol == f.symbol && signals[0].industry == f.industry;
    assert Sort(ByScore, signals) == signals by { assert signals[1..] == [] && Sort(ByScore, signals[1..]) == []; }
  }

  lemma {:induction false} OneFeature(m: Market, s: Symbol, date: Date)
    requires Features(m, [s], date).Ok?
    ensures FeatureOf(m.x.strategy, m.bars, m.x.benchmark, s, date, m.x.cutoff).Ok?
    ensures Features(m, [s], date).value == [FeatureOf(m.x.strategy, m.bars, m.x.benchmark, s, date, m.x.cutoff).value]
  {
    hide FeatureOf;
    assert [s][1..] == [];
  }

  /** A pool of one symbol with the feature of a candidate leaves one candidate. */
  lemma {:induction false} SoleCandidate(m: Market, date: Date, s: Symbol, price: real)
    requires SignalsOn(m, date).Ok? && s in m.symbols
    requires EligibleOn(m.x, BarsOn(m.bars, date)) == {s} && Keep(m.symbols, {s}) == [s]
    requires var r := FeatureOf(m.x.strategy, m.bars, m.x.benchmark, s, date, m.x.cutoff);
             && r.Ok? && IsCandidate(m.x.strategy, r.value, m.x.cutoff)
             && r.value.close == Some(price) && price > 0.0 && r.value.industry == None
    ensures OnlyCandidate(SignalsOn(m, date).value, s, price)
  {
    hide FeatureOf, IsCandidate, EligibleOn, RankCandidates;
    var f := FeatureOf(m.x.strategy, m.bars, m.x.benchmark, s, date, m.x.cutoff).value;
    RestrictIsKeep(m, m.symbols, date, {s});
    OneFeature(m, s, date);
    LookupIsFeature(m, m.symbols, date, s);
    NumberOne(m.x.strategy, Restrict(Features(m, m.symbols, date).value, {s}), f, m.x.cutoff);
  }

  // ----- after the second day

  /** The first candidate is held after the second day. */
  lemma {:induction false} HeldAfterTwo(m: Market, s: Symbol, price: real, bar: MarketBar)
    requires |m.dates| > 2 && m.x.initialEquity > 0.0 && m.x.thresholds.Ordered() && Sane(m.x.costs)
    requires SignalsOn(m, m.dates[0]).Ok? && OnlyCandidate(SignalsOn(m, m.dates[0]).value, s, price)
    requires SignalsOn(m, m.dates[1]).Ok?
    requires Quantity(FirstRequest(m, s, price)) > 0
    requires s in BarsOn(m.bars, m.dates[1]) && BarsOn(m.bars, m.dates[1])[s] == bar
    requires bar.open.Some? && bar.open.value > 0.0 && bar.availableQuantity.None?
    requires ExecutionPrice(m.x.costs, Buy, bar.open.value) >= 0.0
    requires Tradeable(FirstOrder(m, s, Quantity(FirstRequest(m, s, price))), bar,
                       ExecutionPrice(m.x.costs, Buy, bar.open.value))
    requires BuyTotal(m.x.costs, ExecutionPrice(m.x.costs, Buy, bar.open.value), Quantity(FirstRequest(m, s, price)))
             <= m.x.initialEquity
    ensures RunTo(m, 2).Ok?
    ensures var quantity := Quantity(FirstRequest(m, s, price));
            var total := BuyTotal(m.x.costs, ExecutionPrice(m.x.costs, Buy, bar.open.value), quantity);
            var l := RunTo(m, 2).value.ledger;
            l.positions == [LedgerPosition(s, quantity, total, 0)] && l.cash == m.x.initialEquity - total
    ensures RunTo(m, 2).value.entries
         == map[s := EntryState(ExecutionPrice(m.x.costs, Buy, bar.open.value), m.dates[1], 1, None)]
  {
    hide Quantity, ExecutionPrice, BuyTotal, Tradeable, OnlyCandidate, Trade, BarsOn, SignalsOn, NextDay;
    FirstDayQueues(m, s, price);
    var st := RunTo(m, 1).value;
    SecondTrade(m, st, s, Quantity(FirstRequest(m, s, price)), bar);
    hide QueuedOne;
    QueuesIfSignalled(m, 1, st);
    DayOutcome(m, 1, st);
    assert RunTo(m, 2) == NextDay(m, 1, st);
  }

  lemma {:induction false} QueuesIfSignalled(m: Market, index: nat, st: RunState)
    requires index < |m.dates| - 1 && Healthy(st) && Trade(m, index, st).Ok? && SignalsOn(m, m.dates[index]).Ok?
    ensures NextDay(m, index, st).Ok?
  {
    hide Trade, SignalsOn, Mark, Exits, PlanAll, FirstPlan;
  }

  // ----- a held symbol that cannot be sold

  /** The symbol is held, on this entry. */
  ghost predicate HeldOn(ps: seq<LedgerPosition>, entries: map<Symbol, EntryState>, s: Symbol, entry: EntryState) {
    Find(ps, s).Some? && s in entries && entries[s] == entry
  }

  /** Orders at a limit-down open leave a held symbol held. */
  lemma {:induction false} StaysHeld(costs: CostModel, date: Date, index: int, day: map<Symbol, MarketBar>,
                                     os: seq<Order>, b: Book, s: Symbol, entry: EntryState)
    requires Valid(b.ledger) && Ready(b, os) && HeldOn(b.ledger.positions, b.entries, s, entry)
    requires s in day ==> day[s].limitDown
    requires ExecuteAll(costs, date, index, day, os, b).Ok?
    ensures var r := ExecuteAll(costs, date, index, day, os, b).value;
            HeldOn(r.ledger.positions, r.entries, s, entry)
    decreases os
  {
    if os == [] {
    } else {
      assert Fits(b.ledger.positions, os[0]);
      OneStaysHeld(costs, date, index, day, os[0], b, s, entry);
      OrderKeepsReady(costs, date, index, day, os, b);
      hide ExecuteOrder, Ready, HeldOn;
      StaysHeld(costs, date, index, day, os[1..], ExecuteOrder(costs, date, index, day, os[0], b).value, s, entry);
    }
  }

  lemma {:induction false} OneStaysHeld(costs: CostModel, date: Date, index: int, day: map<Symbol, MarketBar>, o: Order,
                                        b: Book, s: Symbol, entry: EntryState)
    requires Valid(b.ledger) && Fits(b.ledger.positions, o) && HeldOn(b.ledger.positions, b.entries, s, entry)
    requires s in day ==> day[s].limitDown
    requires ExecuteOrder(costs, date, index, day, o, b).Ok?
    ensures var r := ExecuteOrder(costs, date, index, day, o, b).value;
            HeldOn(r.ledger.positions, r.entries, s, entry)
  {
    hide Find, AfterFill, Notional, Calculate, ExecutionPrice;
    var r := ExecuteOrder(costs, date, index, day, o, b).value;
    if r.ledger != b.ledger {
      var fill := Execute(costs, o, FullOrNone, day[o.symbol], date).value;
      assert o.symbol != s;
      FillFinds(b.ledger, o, fill.execution.value.price, fill.execution.value.costs.Total(), s);
    }
  }

  lemma {:induction false} TradeAtLimitDown(m: Market, index: nat, st: RunState, s: Symbol, entry: EntryState)
    requires index < |m.dates| && Orderly(m, st) && Trade(m, index, st).Ok?
    requires HeldOn(st.ledger.positions, st.entries, s, entry)
    requires s in BarsOn(m.bars, m.dates[index]) ==> BarsOn(m.bars, m.dates[index])[s].limitDown
    ensures HeldOn(Trade(m, index, st).value.ledger.positions, Trade(m, index, st).value.entries, s, entry)
  {
    hide ExecuteAll, Ready, BarsOn, Sort, Buys, Held, AllFit, Find;
    SettledIsReady(m, st);
    FindSettled(st.ledger.positions, s);
    StaysHeld(m.x.costs, m.dates[index], index, BarsOn(m.bars, m.dates[index]), Sort(OrderOrder, st.pending),
              Book(AfterSettle(st.ledger), st.entries, st.fills, st.skipped), s, entry);
  }

  /** A symbol held after a day is held after the next, if it stands at limit-down there. */
  lemma {:induction false} HeldAtLimitDown(m: Market, index: nat, st: RunState, s: Symbol, entry: EntryState)
    requires index < |m.dates| && Orderly(m, st) && NextDay(m, index, st).Ok?
    requires HeldOn(st.ledger.positions, st.entries, s, entry)
    requires s in BarsOn(m.bars, m.dates[index]) ==> BarsOn(m.bars, m.dates[index])[s].limitDown
    ensures HeldOn(NextDay(m, index, st).value.ledger.positions, NextDay(m, index, st).value.entries, s, entry)
  {
    hide NextDay, Trade, BarsOn, AllFit, Buys, Held, HeldOn;
    DayOutcome(m, index, st);
    TradeAtLimitDown(m, index, st, s, entry);
  }

  // ----- two like candidates

  /** Of two candidates with the same figures the one with the lower symbol is first. */
  lemma {:induction false} NumberTwo(p: StrategyConfig, fs: seq<Feature>, f: Feature, g: Feature, cutoff: Cutoff)
    requires p.StrongTrend? && fs == [f, g] && IsCandidate(p, f, cutoff) && IsCandidate(p, g, cutoff)
    requires f.symbol < g.symbol && f.return5 == g.return5 && f.return20 == g.return20 && f.amountRatio == g.amountRatio
    ensures RankCandidates(p, fs, cutoff).Ok?
    ensures var r := RankCandidates(p, fs, cutoff).value; |r| == 2 && RankOf(r, f.symbol) == Some(1)
  {
    hide IsCandidate, TrendScore, Rank, Column;
    assert fs[1..] == [g] && [g][1..] == [];
    assert Candidates(p, [], cutoff) == [];
    assert Candidates(p, [g], cutoff) == [g] + Candidates(p, [], cutoff) == [g];
    assert Candidates(p, fs, cutoff) == [f] + Candidates(p, [g], cutoff) == fs;
    var signals := StrongSignals(fs, fs);
    assert signals[0].score == signals[1].score;
    assert signals == [signals[0], signals[1]];
    hide StrongSignals, StrongScore;
    assert Sort(ByScore, [signals[1]]) == [signals[1]] by {
      assert [signals[1]][1..] == [] && Sort(ByScore, [signals[1]][1..]) == [];
    }
    assert signals[1..] == [signals[1]];
    assert Sort(ByScore, signals) == signals;
    var r := Number(signals);
    assert r[..1][0] == r[0];
  }

  lemma {:induction false} TwoFeatures(m: Market, s: Symbol, u: Symbol, date: Date)
    requires Features(m, [s, u], date).Ok?
    ensures FeatureOf(m.x.strategy, m.bars, m.x.benchmark, s, date, m.x.cutoff).Ok?
    ensures FeatureOf(m.x.strategy, m.bars, m.x.benchmark, u, date, m.x.cutoff).Ok?
    ensures var f := FeatureOf(m.x.strategy, m.bars, m.x.benchmark, s, date, m.x.cutoff).value;
            var g := FeatureOf(m.x.strategy, m.bars, m.x.benchmark, u, date, m.x.cutoff).value;
            Features(m, [s, u], date).value == [f, g]
  {
    hide FeatureOf;
    assert [s, u][1..] == [u];
    OneFeature(m, u, date);
  }

  /** Where the pool is two like candidates, the one with the lower symbol is in its better half. */
  lemma {:induction false} FirstOfTwo(m: Market, date: Date, s: Symbol, u: Symbol)
    requires m.x.strategy.StrongTrend? && SignalsOn(m, date).Ok? && s in m.symbols && u in m.symbols && s < u
    requires EligibleOn(m.x, BarsOn(m.bars, date)) == {s, u} && Keep(m.symbols, {s, u}) == [s, u]
    requires var f := FeatureOf(m.x.strategy, m.bars, m.x.benchmark, s, date, m.x.cutoff);
             var g := FeatureOf(m.x.strategy, m.bars, m.x.benchmark, u, date, m.x.cutoff);
             && f.Ok? && IsCandidate(m.x.strategy, f.value, m.x.cutoff)
             && g.Ok? && IsCandidate(m.x.strategy, g.value, m.x.cutoff)
             && f.value.return5 == g.value.return5 && f.value.return20 == g.value.return20
             && f.value.amountRatio == g.value.amountRatio
    ensures InBetterHalf(SignalsOn(m, date).value, s)
  {
    hide FeatureOf, IsCandidate, EligibleOn, RankCandidates;
    var f := FeatureOf(m.x.strategy, m.bars, m.x.benchmark, s, date, m.x.cutoff).value;
    var g := FeatureOf(m.x.strategy, m.bars, m.x.benchmark, u, date, m.x.cutoff).value;
    RestrictIsKeep(m, m.symbols, date, {s, u});
    TwoFeatures(m, s, u, date);
    NumberTwo(m.x.strategy, Restrict(Features(m, m.symbols, date).value, {s, u}), f, g, m.x.cutoff);
  }
}
