/** What holds after every day of every run. */
module RunSafety {
  import opened Common
  import opened Sorting
  import opened Simulator
  import opened Ledger
  import opened Drawdown
  import opened Selection
  import opened Strategy
  import opened EventLoop
  import opened OrderBook
  import opened Planning

  // ----- where planned symbols come from

  ghost predicate From(xs: seq<EntrySignal>, pool: set<Symbol>) {
    forall x | x in xs :: x.symbol in pool
  }

  lemma {:induction false} RestrictInPool(fs: seq<Feature>, pool: set<Symbol>)
    ensures forall f | f in Restrict(fs, pool) :: f in fs && f.symbol in pool
  {
    if fs == [] {
    } else {
      RestrictInPool(fs[1..], pool);
    }
  }

  lemma RankedFrom(p: StrategyConfig, fs: seq<Feature>, cutoff: Cutoff, pool: set<Symbol>)
    requires RankCandidates(p, fs, cutoff).Ok? && forall f | f in fs :: f.symbol in pool
    ensures From(RankCandidates(p, fs, cutoff).value, pool)
  {
    var candidates := Candidates(p, fs, cutoff);
    var signals := Scored(p, candidates, cutoff).value;
    assert |signals| == |candidates| && forall i | 0 <= i < |signals| :: signals[i].symbol == candidates[i].symbol;
    SortKeepsElements(ByScore, signals);
    var sorted := Sort(ByScore, signals);
    var ranked := Number(sorted);
    forall x | x in ranked ensures x.symbol in pool {
      var i :| 0 <= i < |ranked| && ranked[i] == x;
      assert sorted[i] in signals;
    }
  }

  lemma {:induction false} SelectedFrom(ranked: seq<EntrySignal>, maxPositions: int, maxPerIndustry: int,
                                        pool: set<Symbol>)
    requires From(ranked, pool)
    ensures From(Select(ranked, maxPositions, maxPerIndustry), pool)
  {
    if ranked == [] {
    } else {
      assert ranked[|ranked| - 1] in ranked;
      SelectedFrom(ranked[..|ranked| - 1], maxPositions, maxPerIndustry, pool);
    }
  }

  lemma {:induction false} PlannedFrom(d: Desk, plan: Plan, signals: seq<EntrySignal>, pool: set<Symbol>)
    requires From(signals, pool) && SymbolsOf(plan.orders) <= pool
    ensures SymbolsOf(PlanAll(d, plan, signals).orders) <= pool
    decreases signals
  {
    if signals == [] {
    } else {
      assert signals[0] in signals;
      var next := PlanEntry(d, plan, signals[0]);
      if next != plan { EntryIsPurchase(d, plan, signals[0]); }
      hide PlanEntry;
      PlannedFrom(d, next, signals[1..], pool);
    }
  }

  lemma {:induction false} BarsOnAreBars(bars: seq<MarketBar>, date: Date)
    ensures forall s | s in BarsOn(bars, date) :: BarsOn(bars, date)[s] in bars && BarsOn(bars, date)[s].symbol == s
  {
    if bars == [] {
    } else {
      BarsOnAreBars(bars[1..], date);
    }
  }

  lemma {:induction false} BarsOnSnoc(bars: seq<MarketBar>, b: MarketBar, date: Date)
    ensures BarsOn(bars + [b], date) == if b.date == date then BarsOn(bars, date)[b.symbol := b] else BarsOn(bars, date)
  {
    if bars == [] {
      assert bars + [b] == [b];
    } else {
      assert (bars + [b])[1..] == bars[1..] + [b];
      BarsOnSnoc(bars[1..], b, date);
    }
  }

  lemma {:induction false} EverEligibleHas(x: Inputs, bars: seq<MarketBar>, b: MarketBar)
    requires b in bars && !IsBenchmark(x, b.symbol) && b.universeEligible == Some(true)
    ensures b.symbol in EverEligible(x, bars)
  {
    if b != bars[0] { EverEligibleHas(x, bars[1..], b); }
  }

  /** The stock pool of a day is part of the symbols the run follows. */
  lemma PoolIsFollowed(x: Inputs, date: Date)
    ensures forall s | s in EligibleOn(x, BarsOn(MarketOf(x).bars, date)) :: s in MarketOf(x).symbols
  {
    var m := MarketOf(x);
    var day := BarsOn(m.bars, date);
    BarsOnAreBars(m.bars, date);
    forall s | s in EligibleOn(x, day) ensures s in m.symbols {
      EverEligibleHas(x, m.bars, day[s]);
      SortedUniqueElements(EverEligible(x, m.bars));
    }
  }

  // ----- the invariant

  ghost function Cap(x: Inputs): int {
    if x.limits.maxPositions >= 0 then x.limits.maxPositions else 0
  }

  /** Entries and orders match the positions, positions and purchases stay under the position limit,
      nothing is bought once the monitor has left NORMAL, and only followed symbols are traded. */
  ghost predicate Orderly(m: Market, st: RunState) {
    && Healthy(st)
    && st.entries.Keys == Held(st.ledger.positions)
    && AllFit(st.ledger.positions, st.pending)
    && |st.ledger.positions| + Buys(st.pending) <= Cap(m.x)
    && (st.monitor.state != Normal ==> Buys(st.pending) == 0)
    && st.monitor.highWaterMark <= st.ledger.highWaterMark
    && (forall s | s in Held(st.ledger.positions) :: s in m.symbols)
    && (forall o | o in st.pending :: o.symbol in m.symbols)
  }

  lemma {:induction false} SettledIsSellable(ps: seq<LedgerPosition>)
    ensures Sellable(Settled(ps))
  {
    if ps == [] {
    } else {
      SettledIsSellable(ps[1..]);
    }
  }

  /** Settlement makes the pending orders ready to execute. */
  lemma SettledIsReady(m: Market, st: RunState)
    requires Orderly(m, st)
    ensures Valid(AfterSettle(st.ledger))
    ensures Ready(Book(AfterSettle(st.ledger), st.entries, st.fills, st.skipped), Sort(OrderOrder, st.pending))
    ensures Buys(Sort(OrderOrder, st.pending)) == Buys(st.pending)
    ensures forall o :: o in Sort(OrderOrder, st.pending) <==> o in st.pending
    ensures Held(Settled(st.ledger.positions)) == Held(st.ledger.positions)
    ensures |Settled(st.ledger.positions)| == |st.ledger.positions|
  {
    var ps := st.ledger.positions;
    SettledShape(ps);
    SettledIsSellable(ps);
    SortOrders(st.pending);
    SortKeepsElements(OrderOrder, st.pending);
    forall o | o in Sort(OrderOrder, st.pending) ensures Fits(Settled(ps), o) {
      assert Fits(ps, o);
      FindSettled(ps, o.symbol);
    }
  }

  lemma TradeKeepsOrderly(m: Market, index: nat, st: RunState)
    requires index < |m.dates| && Orderly(m, st) && Trade(m, index, st).Ok?
    ensures var b := Trade(m, index, st).value;
            && Tidy(b, [])
            && |b.ledger.positions| <= Cap(m.x)
            && st.ledger.highWaterMark <= b.ledger.highWaterMark
            && forall s | s in Held(b.ledger.positions) :: s in m.symbols
  {
    var date := m.dates[index];
    var book := Book(AfterSettle(st.ledger), st.entries, st.fills, st.skipped);
    SettledIsReady(m, st);
    DayKeepsTidy(m.x.costs, date, index, BarsOn(m.bars, date), Sort(OrderOrder, st.pending), book);
  }

  lemma MarkKeepsOrderly(m: Market, index: nat, st: RunState)
    requires index < |m.dates| && Orderly(m, st) && Trade(m, index, st).Ok?
    ensures Orderly(m, Mark(m, index, st, Trade(m, index, st).value))
  {
    hide Trade, PositionsValue;
    TradeKeepsOrderly(m, index, st);
  }

  lemma {:induction false} AllBuys(os: seq<Order>)
    requires forall o | o in os :: o.side == Buy
    ensures Buys(os) == |os|
  {
    if os == [] {
    } else {
      AllBuys(os[1..]);
    }
  }

  /** The orders queued at a close: sales of whole positions, then purchases that together keep the caps. */
  lemma QueuedOrders(m: Market, index: int, st: RunState, signals: Signals)
    requires Valid(st.ledger) && st.snapshots != []
    ensures var streak := NextStreak(m.x.strategy, MarketSeen(signals.features), st.streak);
            var exits := Exits(m.x.strategy, signals, st.entries, index, streak, st.ledger.positions);
            var d := DeskOf(m, signals, exits, st);
            var buys := PlanAll(d, FirstPlan(d, st),
                                Select(signals.ranked, m.x.strategy.maxPositions, m.x.strategy.maxPerIndustry)).orders;
            && Queue(m, index, st, signals).pending == exits + buys
            && AllFit(st.ledger.positions, exits + buys)
            && (forall o | o in exits :: o.side == Sell)
            && SymbolsOf(exits) <= Held(st.ledger.positions)
            && Buys(exits + buys) == |buys|
            && Sound(d, st.ledger.positions, FirstPlan(d, st),
                     PlanAll(d, FirstPlan(d, st),
                             Select(signals.ranked, m.x.strategy.maxPositions, m.x.strategy.maxPerIndustry)))
  {
    var ps := st.ledger.positions;
    var streak := NextStreak(m.x.strategy, MarketSeen(signals.features), st.streak);
    var exits := Exits(m.x.strategy, signals, st.entries, index, streak, ps);
    var d := DeskOf(m, signals, exits, st);
    var start := FirstPlan(d, st);
    var selected := Select(signals.ranked, m.x.strategy.maxPositions, m.x.strategy.maxPerIndustry);
    ExitsFit(m.x.strategy, signals, st.entries, index, streak, ps);
    FirstPlanSound(d, st);
    hide FirstPlan, SoundCaps, SoundCounts, Exits, Select;
    PlanKeepsSound(d, ps, start, start, selected);
    var buys := PlanAll(d, start, selected).orders;
    assert SymbolsOf(buys) !! Held(ps) by {
      assert forall o | o in buys :: Purchase(d, ps, o);
    }
    JoinOrders(exits, buys);
    AllBuys(buys);
    forall o | o in exits + buys ensures Fits(ps, o) {
      if o in buys {
        assert Purchase(d, ps, o);
        FindIsHeld(ps, o.symbol);
      }
    }
  }

  lemma {:induction false} QueueKeepsOrderly(x: Inputs, index: int, st: RunState, signals: Signals)
    requires Orderly(MarketOf(x), st) && st.snapshots != [] && Buys(st.pending) == 0
    requires From(signals.ranked, set s | s in MarketOf(x).symbols)
    ensures Orderly(MarketOf(x), Queue(MarketOf(x), index, st, signals))
  {
    hide MarketOf, Projected, IndustryCounts, Exits, Select, PlanAll, SoundCounts, MarketSeen, NextStreak,
      EstimatedCost;
    var m := MarketOf(x);
    var ps := st.ledger.positions;
    var streak := NextStreak(m.x.strategy, MarketSeen(signals.features), st.streak);
    var exits := Exits(m.x.strategy, signals, st.entries, index, streak, ps);
    var d := DeskOf(m, signals, exits, st);
    var selected := Select(signals.ranked, m.x.strategy.maxPositions, m.x.strategy.maxPerIndustry);
    QueuedOrders(m, index, st, signals);
    var followed := set s | s in m.symbols;
    SelectedFrom(signals.ranked, m.x.strategy.maxPositions, m.x.strategy.maxPerIndustry, followed);
    PlannedFrom(d, FirstPlan(d, st), selected, followed);
    var buys := PlanAll(d, FirstPlan(d, st), selected).orders;
    forall o: Order | o in exits + buys ensures o.symbol in m.symbols {
      assert o in exits ==> o.symbol in SymbolsOf(exits);
      assert o in buys ==> o.symbol in SymbolsOf(buys);
    }
    if buys == [] {
    } else {
      assert Purchase(d, ps, buys[0]);
    }
  }

  lemma SignalsAreFollowed(x: Inputs, date: Date)
    requires SignalsOn(MarketOf(x), date).Ok?
    ensures From(SignalsOn(MarketOf(x), date).value.ranked, set s | s in MarketOf(x).symbols)
  {
    var m := MarketOf(x);
    var pool := EligibleOn(m.x, BarsOn(m.bars, date));
    var features := Features(m, m.symbols, date).value;
    PoolIsFollowed(x, date);
    RestrictInPool(features, pool);
    RankedFrom(m.x.strategy, Restrict(features, pool), m.x.cutoff, set s | s in m.symbols);
  }

  lemma SignalsAreDated(m: Market, date: Date)
    requires SignalsOn(m, date).Ok?
    ensures SignalsOn(m, date).value.date == date
  {
    hide Features, RankCandidates;
  }

  lemma NextDayKeepsOrderly(x: Inputs, index: nat, st: RunState)
    requires index < |MarketOf(x).dates| && Orderly(MarketOf(x), st) && NextDay(MarketOf(x), index, st).Ok?
    ensures Orderly(MarketOf(x), NextDay(MarketOf(x), index, st).value)
  {
    var m := MarketOf(x);
    MarkKeepsOrderly(m, index, st);
    var closed := Mark(m, index, st, Trade(m, index, st).value);
    if index != |m.dates| - 1 {
      SignalsAreFollowed(x, m.dates[index]);
      QueueKeepsOrderly(x, index, closed, SignalsOn(m, m.dates[index]).value);
    }
  }

  /** Whatever a day queues, its other outcome is the marked book of its trades. */
  lemma DayOutcome(m: Market, index: nat, st: RunState)
    requires index < |m.dates| && Healthy(st) && NextDay(m, index, st).Ok?
    ensures Trade(m, index, st).Ok?
    ensures var r := NextDay(m, index, st).value;
            r == Mark(m, index, st, Trade(m, index, st).value).(streak := r.streak, pending := r.pending)
  {
    hide Trade, Mark, Exits, PlanAll, FirstPlan, SignalsOn;
  }

  /** The invariant of every run. */
  lemma {:induction false} RunIsOrderly(x: Inputs, k: nat)
    requires x.initialEquity > 0.0 && k <= |MarketOf(x).dates| && RunTo(MarketOf(x), k).Ok?
    ensures Orderly(MarketOf(x), RunTo(MarketOf(x), k).value)
  {
    hide MarketOf, NextDay;
    if k == 0 {
    } else {
      RunIsOrderly(x, k - 1);
      NextDayKeepsOrderly(x, k - 1, RunTo(MarketOf(x), k - 1).value);
    }
  }
}
