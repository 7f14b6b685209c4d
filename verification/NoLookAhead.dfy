/** No look-ahead: what a run does through a date depends only on bars through that date. */
module NoLookAhead {
  import opened BarLists
  import opened Common
  import opened Sorting
  import opened Costs
  import opened Simulator
  import opened Ledger
  import opened Drawdown
  import opened Allocation
  import opened Selection
  import opened Strategy
  import opened StrategyProofs
  import opened EventLoop
  import opened OrderBook
  import opened RunSafety

  /** Two runs that differ in their bars only, and only after `t`. */
  ghost predicate AgreeThrough(x: Inputs, y: Inputs, t: Date) {
    y == x.(bars := y.bars) && SameBars(UpTo(x.bars, t), UpTo(y.bars, t))
  }

  lemma MarketsAgree(x: Inputs, y: Inputs, t: Date)
    requires AgreeThrough(x, y, t)
    ensures UpTo(MarketOf(x).bars, t) == UpTo(MarketOf(y).bars, t)
    ensures MarketOf(x).dates == MarketOf(y).dates
    ensures y == x.(bars := y.bars)
  {
    SortUpTo(Admitted(x.bars, x.end, x.cutoff), t);
    SortUpTo(Admitted(y.bars, y.end, y.cutoff), t);
    AdmittedUpTo(x.bars, x.end, x.cutoff, t);
    AdmittedUpTo(y.bars, y.end, y.cutoff, t);
    SameBarsPrepared(UpTo(x.bars, t), UpTo(y.bars, t), x.end, x.cutoff);
    hide SameBars, Sort, Admitted, UpTo;
  }

  // ----- what a day reads

  lemma {:induction false} BarsOnUpTo(bars: seq<MarketBar>, date: Date, t: Date)
    requires date <= t
    ensures BarsOn(UpTo(bars, t), date) == BarsOn(bars, date)
  {
    if bars == [] {
    } else {
      BarsOnUpTo(bars[1..], date, t);
      assert ([bars[0]] + UpTo(bars[1..], t))[1..] == UpTo(bars[1..], t);
    }
  }

  lemma {:induction false} HistoryUpTo(bars: seq<MarketBar>, s: Symbol, date: Date, cutoff: Cutoff, t: Date)
    requires date <= t
    ensures History(UpTo(bars, t), s, date, cutoff) == History(bars, s, date, cutoff)
  {
    if bars == [] {
    } else {
      HistoryUpTo(bars[1..], s, date, cutoff, t);
      assert ([bars[0]] + UpTo(bars[1..], t))[1..] == UpTo(bars[1..], t);
    }
  }

  /** The two runs' markets, seen through `t`. */
  ghost predicate Alike(m: Market, n: Market, t: Date) {
    && UpTo(m.bars, t) == UpTo(n.bars, t)
    && m.dates == n.dates
    && n.x == m.x.(bars := n.x.bars)
  }

  lemma DayReadsAlike(m: Market, n: Market, date: Date, t: Date)
    requires Alike(m, n, t) && date <= t
    ensures BarsOn(m.bars, date) == BarsOn(n.bars, date)
    ensures EligibleOn(m.x, BarsOn(m.bars, date)) == EligibleOn(n.x, BarsOn(n.bars, date))
  {
    BarsOnUpTo(m.bars, date, t);
    BarsOnUpTo(n.bars, date, t);
  }

  lemma FeatureAlike(m: Market, n: Market, s: Symbol, date: Date, t: Date)
    requires Alike(m, n, t) && date <= t
    ensures FeatureOf(m.x.strategy, m.bars, m.x.benchmark, s, date, m.x.cutoff)
         == FeatureOf(n.x.strategy, n.bars, n.x.benchmark, s, date, n.x.cutoff)
  {
    HistoryUpTo(m.bars, s, date, m.x.cutoff, t);
    HistoryUpTo(n.bars, s, date, n.x.cutoff, t);
    HistoryUpTo(m.bars, m.x.benchmark, date, m.x.cutoff, t);
    HistoryUpTo(n.bars, n.x.benchmark, date, n.x.cutoff, t);
  }

  lemma {:induction false} FeaturesAlike(m: Market, n: Market, symbols: seq<Symbol>, date: Date, t: Date)
    requires Alike(m, n, t) && date <= t
    ensures Features(m, symbols, date) == Features(n, symbols, date)
  {
    if symbols == [] {
    } else {
      FeatureAlike(m, n, symbols[0], date, t);
      hide FeatureOf;
      FeaturesAlike(m, n, symbols[1..], date, t);
    }
  }

  // ----- symbols that only one of the runs follows do not matter

  lemma {:induction false} RestrictIsKeep(m: Market, symbols: seq<Symbol>, date: Date, pool: set<Symbol>)
    requires Features(m, symbols, date).Ok?
    ensures Features(m, Keep(symbols, pool), date) == Ok(Restrict(Features(m, symbols, date).value, pool))
  {
    hide FeatureOf;
    if symbols == [] {
    } else {
      RestrictIsKeep(m, symbols[1..], date, pool);
      var rest := Keep(symbols[1..], pool);
      assert ([symbols[0]] + rest)[1..] == rest;
    }
  }

  lemma {:induction false} KeepAscends(xs: seq<int>, pool: set<int>)
    requires Ascending(xs)
    ensures Ascending(Keep(xs, pool))
    ensures forall x :: x in Keep(xs, pool) <==> x in xs && x in pool
  {
    if xs == [] {
    } else {
      KeepAscends(xs[1..], pool);
      var rest := Keep(xs[1..], pool);
      assert forall x :: x in xs <==> x == xs[0] || x in xs[1..];
      assert forall j | 0 <= j < |rest| :: rest[j] in rest;
    }
  }

  lemma {:induction false} LookupIsFeature(m: Market, symbols: seq<Symbol>, date: Date, s: Symbol)
    requires Features(m, symbols, date).Ok? && s in symbols
    ensures FeatureOf(m.x.strategy, m.bars, m.x.benchmark, s, date, m.x.cutoff).Ok?
    ensures Lookup(Features(m, symbols, date).value, s)
         == Some(FeatureOf(m.x.strategy, m.bars, m.x.benchmark, s, date, m.x.cutoff).value)
  {
    hide FeatureOf;
    if symbols[0] != s {
      LookupIsFeature(m, symbols[1..], date, s);
    }
  }

  /** Signals of the two runs on a day, which may follow different further symbols. */
  ghost predicate SignalsAlike(a: Signals, b: Signals, common: set<Symbol>) {
    && a.date == b.date && a.pool == b.pool && a.ranked == b.ranked
    && forall s | s in common :: Lookup(a.features, s) == Lookup(b.features, s)
  }

  lemma SignalsOnAlike(x: Inputs, y: Inputs, date: Date, t: Date)
    requires AgreeThrough(x, y, t) && date <= t
    requires SignalsOn(MarketOf(x), date).Ok? && SignalsOn(MarketOf(y), date).Ok?
    ensures SignalsAlike(SignalsOn(MarketOf(x), date).value, SignalsOn(MarketOf(y), date).value,
                         set s | s in MarketOf(x).symbols && s in MarketOf(y).symbols)
  {
    MarketsAgree(x, y, t);
    PoolIsFollowed(x, date);
    PoolIsFollowed(y, date);
    SortedUniqueAscends(EverEligible(x, MarketOf(x).bars));
    SortedUniqueAscends(EverEligible(y, MarketOf(y).bars));
    var m, n := MarketOf(x), MarketOf(y);
    assert Ascending(m.symbols) && Ascending(n.symbols);
    hide MarketOf, FeatureOf;
    DayReadsAlike(m, n, date, t);
    var pool := EligibleOn(m.x, BarsOn(m.bars, date));
    KeepAscends(m.symbols, pool);
    KeepAscends(n.symbols, pool);
    AscendingIsUnique(Keep(m.symbols, pool), Keep(n.symbols, pool));
    RestrictIsKeep(m, m.symbols, date, pool);
    RestrictIsKeep(n, n.symbols, date, pool);
    FeaturesAlike(m, n, Keep(m.symbols, pool), date, t);
    forall s | s in m.symbols && s in n.symbols
      ensures Lookup(Features(m, m.symbols, date).value, s) == Lookup(Features(n, n.symbols, date).value, s)
    {
      LookupIsFeature(m, m.symbols, date, s);
      LookupIsFeature(n, n.symbols, date, s);
      FeatureAlike(m, n, s, date, t);
    }
  }

  // ----- which orders are queued

  /** Two counts of closed days that mean the same to the exit rules. */
  predicate SwitchAlike(strategy: StrategyConfig, s: nat, t: nat) {
    strategy.StrongTrend? ==> (s >= 2 <==> t >= 2)
  }

  lemma {:induction false} ExitsAlike(strategy: StrategyConfig, a: Signals, b: Signals,
                                      entries: map<Symbol, EntryState>,
                                      index: int, s: nat, t: nat, ps: seq<LedgerPosition>, common: set<Symbol>)
    requires SignalsAlike(a, b, common) && Held(ps) <= common
    requires ps != [] ==> SwitchAlike(strategy, s, t)
    ensures Exits(strategy, a, entries, index, s, ps) == Exits(strategy, b, entries, index, t, ps)
  {
    hide ExitOrder, SignalsAlike, SwitchAlike;
    if ps == [] {
    } else {
      HeldSplit(ps);
      ExitAlike(strategy, a, b, entries, index, s, t, ps[0], common);
      ExitsAlike(strategy, a, b, entries, index, s, t, ps[1..], common);
    }
  }

  lemma ExitAlike(strategy: StrategyConfig, a: Signals, b: Signals, entries: map<Symbol, EntryState>,
                  index: int, s: nat, t: nat, p: LedgerPosition, common: set<Symbol>)
    requires SignalsAlike(a, b, common) && p.symbol in common && SwitchAlike(strategy, s, t)
    ensures ExitOrder(strategy, a, entries, index, s, p) == ExitOrder(strategy, b, entries, index, t, p)
  {
    hide TrendExit, When, ExitPrice;
  }

  ghost predicate DesksAlike(d: Desk, e: Desk, common: set<Symbol>) {
    && SignalsAlike(d.signals, e.signals, common)
    && e.x == d.x.(bars := e.x.bars)
    && d.equity == e.equity && d.state == e.state && d.exiting == e.exiting
  }

  lemma EntryAlike(d: Desk, e: Desk, plan: Plan, signal: EntrySignal, common: set<Symbol>)
    requires DesksAlike(d, e, common) && signal.symbol in common
    ensures PlanEntry(d, plan, signal) == PlanEntry(e, plan, signal)
  {
    hide Quantity, BuyTotal, Notional, Increment, Holds;
  }

  lemma {:induction false} PlansAlike(d: Desk, e: Desk, plan: Plan, signals: seq<EntrySignal>, common: set<Symbol>)
    requires DesksAlike(d, e, common) && From(signals, common)
    ensures PlanAll(d, plan, signals) == PlanAll(e, plan, signals)
    decreases signals
  {
    hide PlanEntry, DesksAlike;
    if signals == [] {
    } else {
      assert signals[0] in signals;
      EntryAlike(d, e, plan, signals[0], common);
      PlansAlike(d, e, PlanEntry(d, plan, signals[0]), signals[1..], common);
    }
  }

  /** A state without the count of closed days, which a run keeps to itself. */
  function Uncounted(st: RunState): RunState {
    st.(streak := 0)
  }

  /** Where the two counts mean the same, or nothing is held, the same orders are queued. */
  lemma {:induction false} QueuesAlike(m: Market, n: Market, index: int, st: RunState, su: RunState,
                                       a: Signals, b: Signals, common: set<Symbol>)
    requires n.x == m.x.(bars := n.x.bars) && SignalsAlike(a, b, common) && Uncounted(st) == Uncounted(su)
    requires Valid(st.ledger) && st.snapshots != [] && Held(st.ledger.positions) <= common && From(a.ranked, common)
    requires st.ledger.positions != [] ==>
               SwitchAlike(m.x.strategy, Queue(m, index, st, a).streak, Queue(n, index, su, b).streak)
    ensures Uncounted(Queue(m, index, st, a)) == Uncounted(Queue(n, index, su, b))
  {
    var strategy := m.x.strategy;
    var s, t := Queue(m, index, st, a).streak, Queue(n, index, su, b).streak;
    ExitsAlike(strategy, a, b, st.entries, index, s, t, st.ledger.positions, common);
    var exits := Exits(strategy, a, st.entries, index, s, st.ledger.positions);
    SelectedFrom(a.ranked, strategy.maxPositions, strategy.maxPerIndustry, common);
    var d, e := DeskOf(m, a, exits, st), DeskOf(n, b, exits, su);
    hide Exits, Select, Projected, IndustryCounts, SwitchAlike;
    PlansAlike(d, e, FirstPlan(d, st), Select(a.ranked, strategy.maxPositions, strategy.maxPerIndustry), common);
  }

  // ----- which orders name the market switch

  /** Some order is there because the market filter has been closed. */
  ghost predicate SwitchedOff(os: seq<Order>) {
    exists o | o in os :: MarketSwitchOff in o.reasons
  }

  lemma {:induction false} ExitsSwitchedOff(strategy: StrategyConfig, a: Signals, entries: map<Symbol, EntryState>,
                                            index: int, s: nat, ps: seq<LedgerPosition>)
    requires strategy.StrongTrend?
    requires forall p | p in ps :: Lookup(a.features, p.symbol).Some? && p.symbol in entries
    ensures SwitchedOff(Exits(strategy, a, entries, index, s, ps)) <==> ps != [] && s >= 2
  {
    if ps == [] {
    } else {
      assert ps[0] in ps;
      ExitSwitchedOff(strategy, a, entries, index, s, ps[0]);
      ExitsSwitchedOff(strategy, a, entries, index, s, ps[1..]);
      hide ExitOrder;
      SwitchedOffJoined(ExitOrder(strategy, a, entries, index, s, ps[0]),
                        Exits(strategy, a, entries, index, s, ps[1..]));
    }
  }

  lemma ExitSwitchedOff(strategy: StrategyConfig, a: Signals, entries: map<Symbol, EntryState>,
                        index: int, s: nat, p: LedgerPosition)
    requires strategy.StrongTrend? && Lookup(a.features, p.symbol).Some? && p.symbol in entries
    ensures SwitchedOff(ExitOrder(strategy, a, entries, index, s, p)) <==> s >= 2
  {
    var f := Lookup(a.features, p.symbol).value;
    var reasons := ExitReasons(strategy, a, f, entries[p.symbol], index, s);
    var rank := RankOf(a.ranked, p.symbol);
    StrongExitIff(strategy.drawdownExit, strategy.maxHoldingDays, f.close, entries[p.symbol].price,
                  index - entries[p.symbol].index + 1,
                  if rank.Some? then rank.value else |a.ranked| + 1, |a.ranked|, s, p.symbol in a.pool && rank.Some?);
    assert MarketSwitchOff in reasons <==> s >= 2;
    hide ExitReasons;
    if reasons != [] {
      assert ExitOrder(strategy, a, entries, index, s, p)[0].reasons == reasons;
    }
  }

  lemma SwitchedOffJoined(a: seq<Order>, b: seq<Order>)
    ensures SwitchedOff(a + b) <==> SwitchedOff(a) || SwitchedOff(b)
  {
  }

  lemma {:induction false} PurchasesNotSwitchedOff(d: Desk, plan: Plan, signals: seq<EntrySignal>)
    requires !SwitchedOff(plan.orders)
    ensures !SwitchedOff(PlanAll(d, plan, signals).orders)
    decreases signals
  {
    if signals == [] {
    } else {
      var next := PlanEntry(d, plan, signals[0]);
      hide Quantity, BuyTotal, Notional, Increment, Holds, Reference;
      PurchasesNotSwitchedOff(d, next, signals[1..]);
    }
  }

  /** A close queues an order that names the market switch exactly when something is held and the filter has
      been closed for two days or more. */
  lemma {:induction false} QueueSwitchedOff(m: Market, index: int, st: RunState, a: Signals)
    requires m.x.strategy.StrongTrend? && Valid(st.ledger) && st.snapshots != []
    requires forall p | p in st.ledger.positions :: Lookup(a.features, p.symbol).Some? && p.symbol in st.entries
    ensures var r := Queue(m, index, st, a);
            SwitchedOff(r.pending) <==> st.ledger.positions != [] && r.streak >= 2
  {
    var strategy := m.x.strategy;
    var s := NextStreak(strategy, MarketSeen(a.features), st.streak);
    var exits := Exits(strategy, a, st.entries, index, s, st.ledger.positions);
    var d := DeskOf(m, a, exits, st);
    var selected := Select(a.ranked, strategy.maxPositions, strategy.maxPerIndustry);
    hide Exits, Select, PlanAll, Projected, IndustryCounts, SymbolsOf;
    ExitsSwitchedOff(strategy, a, st.entries, index, s, st.ledger.positions);
    PurchasesNotSwitchedOff(d, FirstPlan(d, st), selected);
    SwitchedOffJoined(exits, PlanAll(d, FirstPlan(d, st), selected).orders);
  }

  // ----- days

  /** What the first followed symbol lets a run see of the market filter on a date. */
  function SeenOn(m: Market, date: Date): Option<bool> {
    match Features(m, m.symbols, date)
    case Ok(features) => MarketSeen(features)
    case Err(_) => None
  }

  /** Two runs in states that differ in their counts alone: the next day they trade and report alike, and they
      queue the same orders exactly when nothing is held at the close or the counts mean the same. */
  lemma {:induction false} NextDaysAlike(x: Inputs, y: Inputs, t: Date, index: nat, st: RunState, su: RunState)
    requires AgreeThrough(x, y, t) && Uncounted(st) == Uncounted(su)
    requires index < |MarketOf(x).dates| && index < |MarketOf(y).dates| && MarketOf(x).dates[index] <= t
    requires Orderly(MarketOf(x), st) && Orderly(MarketOf(y), su)
    requires NextDay(MarketOf(x), index, st).Ok? && NextDay(MarketOf(y), index, su).Ok?
    ensures var r, s := NextDay(MarketOf(x), index, st).value, NextDay(MarketOf(y), index, su).value;
            && Uncounted(r).(pending := []) == Uncounted(s).(pending := [])
            && (r.pending == s.pending <==>
                  (index < |MarketOf(x).dates| - 1 && r.ledger.positions != [] ==>
                     SwitchAlike(x.strategy, r.streak, s.streak)))
  {
    hide MarketOf, Queue, AllFit, BarsOn, SnapshotOf, AfterSnapshot, Observed, ExecuteAll, Features, Sort, EligibleOn,
      RankCandidates, Restrict, Valid;
    var m, n := MarketOf(x), MarketOf(y);
    var date := m.dates[index];
    MarketsAgree(x, y, t);
    DayReadsAlike(m, n, date, t);
    MarkKeepsOrderly(m, index, st);
    MarkKeepsOrderly(n, index, su);
    var closed, shut := Mark(m, index, st, Trade(m, index, st).value), Mark(n, index, su, Trade(n, index, su).value);
    assert Uncounted(closed) == Uncounted(shut);
    if index < |m.dates| - 1 {
      ClosesAlike(x, y, t, index, closed, shut);
    }
  }

  /** The close of a day that is not the last. */
  lemma {:induction false} ClosesAlike(x: Inputs, y: Inputs, t: Date, index: nat, closed: RunState, shut: RunState)
    requires AgreeThrough(x, y, t) && Uncounted(closed) == Uncounted(shut) && closed.snapshots != []
    requires index < |MarketOf(x).dates| && MarketOf(x).dates[index] <= t
    requires Orderly(MarketOf(x), closed) && Orderly(MarketOf(y), shut)
    requires SignalsOn(MarketOf(x), MarketOf(x).dates[index]).Ok?
               && SignalsOn(MarketOf(y), MarketOf(x).dates[index]).Ok?
    ensures var a := SignalsOn(MarketOf(x), MarketOf(x).dates[index]).value;
            var b := SignalsOn(MarketOf(y), MarketOf(x).dates[index]).value;
            var r, s := Queue(MarketOf(x), index, closed, a), Queue(MarketOf(y), index, shut, b);
            && r.ledger == closed.ledger
            && Uncounted(r).(pending := []) == Uncounted(s).(pending := [])
            && (r.pending == s.pending <==>
                  (closed.ledger.positions != [] ==> SwitchAlike(x.strategy, r.streak, s.streak)))
  {
    hide MarketOf, Queue, SignalsOn, AllFit, SwitchedOff, SignalsAlike;
    var m, n := MarketOf(x), MarketOf(y);
    var date := m.dates[index];
    var common := set s | s in m.symbols && s in n.symbols;
    SignalsOnAlike(x, y, date, t);
    SignalsAreFollowed(x, date);
    SignalsAreFollowed(y, date);
    PositionsAreSeen(m, date, closed);
    PositionsAreSeen(n, date, shut);
    var a, b := SignalsOn(m, date).value, SignalsOn(n, date).value;
    assert From(a.ranked, common) by { SameRanked(a, b, common); }
    var r, s := Queue(m, index, closed, a), Queue(n, index, shut, b);
    QueueChangesOrders(m, index, closed, a);
    QueueChangesOrders(n, index, shut, b);
    if closed.ledger.positions != [] ==> SwitchAlike(x.strategy, r.streak, s.streak) {
      QueuesAlike(m, n, index, closed, shut, a, b, common);
    } else {
      QueueSwitchedOff(m, index, closed, a);
      QueueSwitchedOff(n, index, shut, b);
    }
  }

  lemma SameRanked(a: Signals, b: Signals, common: set<Symbol>)
    requires SignalsAlike(a, b, common)
    ensures a.ranked == b.ranked
  {
  }

  lemma QueueChangesOrders(m: Market, index: int, st: RunState, a: Signals)
    requires AllOpen(st.ledger.positions) && st.snapshots != []
    ensures var r := Queue(m, index, st, a);
            r == st.(streak := r.streak, pending := r.pending)
  {
  }

  lemma {:induction false} TrendDayCountsNothing(m: Market, index: nat, st: RunState)
    requires m.x.strategy.MovingAverageTrend? && index < |m.dates| && Healthy(st) && NextDay(m, index, st).Ok?
    ensures NextDay(m, index, st).value.streak == st.streak
  {
    hide Trade, SignalsOn, Exits, PlanAll, FirstPlan, SnapshotOf, AfterSnapshot, Observed, Select, MarketSeen, Valid;
  }

  /** The moving-average strategy never counts a closed day. */
  lemma {:induction false} TrendCountsNothing(m: Market, k: nat)
    requires m.x.initialEquity > 0.0 && m.x.strategy.MovingAverageTrend? && k <= |m.dates| && RunTo(m, k).Ok?
    ensures RunTo(m, k).value.streak == 0
  {
    hide NextDay;
    if k == 0 {
    } else {
      TrendCountsNothing(m, k - 1);
      TrendDayCountsNothing(m, k - 1, RunTo(m, k - 1).value);
    }
  }

  /** Every held symbol has a feature and an entry. */
  lemma {:induction false} PositionsAreSeen(m: Market, date: Date, st: RunState)
    requires Orderly(m, st) && SignalsOn(m, date).Ok?
    ensures forall p | p in st.ledger.positions ::
              Lookup(SignalsOn(m, date).value.features, p.symbol).Some? && p.symbol in st.entries
  {
    hide FeatureOf, RankCandidates, AllFit;
    forall p | p in st.ledger.positions
      ensures Lookup(SignalsOn(m, date).value.features, p.symbol).Some? && p.symbol in st.entries
    {
      assert p.symbol in Held(st.ledger.positions);
      LookupIsFeature(m, m.symbols, date, p.symbol);
    }
  }

  // ----- runs

  lemma {:induction false} OkBefore(m: Market, j: nat, k: nat)
    requires m.x.initialEquity > 0.0 && j <= k <= |m.dates| && RunTo(m, k).Ok?
    ensures RunTo(m, j).Ok?
    decreases k
  {
    hide NextDay;
    if j == k {
    } else {
      OkBefore(m, j, k - 1);
    }
  }

  /** The closed-market streak before day `i`, from what the first followed symbol has shown. */
  function StreakBefore(m: Market, i: nat): nat
    requires i <= |m.dates|
  {
    if i == 0 then 0 else NextStreak(m.x.strategy, SeenOn(m, m.dates[i - 1]), StreakBefore(m, i - 1))
  }

  lemma QueuedStreak(m: Market, i: nat)
    requires m.x.initialEquity > 0.0 && i < |m.dates| - 1 && RunTo(m, i + 1).Ok?
    ensures RunTo(m, i).Ok?
    ensures RunTo(m, i + 1).value.streak == NextStreak(m.x.strategy, SeenOn(m, m.dates[i]), RunTo(m, i).value.streak)
  {
    hide Trade, Exits, PlanAll, FirstPlan, Features;
  }

  lemma {:induction false} StreakOfRun(m: Market, i: nat)
    requires m.x.initialEquity > 0.0 && i < |m.dates| && RunTo(m, i).Ok?
    ensures RunTo(m, i).value.streak == StreakBefore(m, i)
  {
    hide NextDay, SeenOn;
    if i == 0 {
    } else {
      QueuedStreak(m, i - 1);
      StreakOfRun(m, i - 1);
    }
  }

  /** What a run reports through a day, and the orders it has queued. */
  datatype Report = Report(snapshots: seq<LedgerSnapshot>, fills: seq<Fill>, skipped: seq<SkippedOrder>,
                           queued: seq<Order>)

  function ReportOf(st: RunState): Report {
    Report(st.snapshots, st.fills, st.skipped, st.pending)
  }

  /** The two runs report alike after each of the first `k` days. */
  ghost predicate ReportsAlike(x: Inputs, y: Inputs, k: nat)
    requires x.initialEquity > 0.0 && y.initialEquity > 0.0
    requires k <= |MarketOf(x).dates| && k <= |MarketOf(y).dates|
    requires RunTo(MarketOf(x), k).Ok? && RunTo(MarketOf(y), k).Ok?
  {
    forall j: nat | j <= k :: SameReport(x, y, j)
  }

  ghost predicate SameReport(x: Inputs, y: Inputs, j: nat)
    requires x.initialEquity > 0.0 && y.initialEquity > 0.0
    requires j <= |MarketOf(x).dates| && j <= |MarketOf(y).dates|
  {
    var a, b := RunTo(MarketOf(x), j), RunTo(MarketOf(y), j);
    a.Ok? && b.Ok? ==> ReportOf(a.value) == ReportOf(b.value)
  }

  /** If the first run holds anything at the close of day `i`, both have by then seen the filter closed for two
      days or more, or neither has. */
  ghost predicate SwitchesAlike(x: Inputs, y: Inputs, i: nat)
    requires x.initialEquity > 0.0 && i < |MarketOf(x).dates| && i < |MarketOf(y).dates|
  {
    var a := RunTo(MarketOf(x), i + 1);
    a.Ok? && a.value.ledger.positions != [] ==>
      SwitchAlike(x.strategy, StreakBefore(MarketOf(x), i + 1), StreakBefore(MarketOf(y), i + 1))
  }

  /** One day of two runs whose states differ in their counts alone. */
  lemma {:induction false} DayOfRunsAlike(x: Inputs, y: Inputs, t: Date, i: nat)
    requires x.initialEquity > 0.0 && AgreeThrough(x, y, t)
    requires i < |MarketOf(x).dates| == |MarketOf(y).dates| && MarketOf(x).dates[i] <= t
    requires RunTo(MarketOf(x), i + 1).Ok? && RunTo(MarketOf(y), i + 1).Ok?
    requires RunTo(MarketOf(x), i).Ok? && RunTo(MarketOf(y), i).Ok?
    requires Uncounted(RunTo(MarketOf(x), i).value) == Uncounted(RunTo(MarketOf(y), i).value)
    ensures var r, s := RunTo(MarketOf(x), i + 1).value, RunTo(MarketOf(y), i + 1).value;
            && Uncounted(r).(pending := []) == Uncounted(s).(pending := [])
            && (r.pending == s.pending <==> (i < |MarketOf(x).dates| - 1 ==> SwitchesAlike(x, y, i)))
  {
    hide MarketOf, NextDay, AllFit, SwitchAlike, AgreeThrough, StreakBefore, Orderly;
    MarketsAgree(x, y, t);
    RunIsOrderly(x, i);
    RunIsOrderly(y, i);
    NextDaysAlike(x, y, t, i, RunTo(MarketOf(x), i).value, RunTo(MarketOf(y), i).value);
    if i < |MarketOf(x).dates| - 1 {
      StreakOfRun(MarketOf(x), i + 1);
      StreakOfRun(MarketOf(y), i + 1);
    }
  }

  /** Runs whose counts have meant the same wherever something was held differ in their counts alone. */
  lemma {:induction false} RunsDifferInCounts(x: Inputs, y: Inputs, t: Date, k: nat)
    requires x.initialEquity > 0.0 && AgreeThrough(x, y, t)
    requires k <= |MarketOf(x).dates| == |MarketOf(y).dates|
    requires forall i | 0 <= i < k :: MarketOf(x).dates[i] <= t
    requires RunTo(MarketOf(x), k).Ok? && RunTo(MarketOf(y), k).Ok?
    requires forall i: nat | i < k && i < |MarketOf(x).dates| - 1 :: SwitchesAlike(x, y, i)
    ensures Uncounted(RunTo(MarketOf(x), k).value) == Uncounted(RunTo(MarketOf(y), k).value)
  {
    hide MarketOf, NextDay, SwitchesAlike;
    if k == 0 {
    } else {
      RunsDifferInCounts(x, y, t, k - 1);
      DayOfRunsAlike(x, y, t, k - 1);
    }
  }

  /** Runs that have reported alike have had counts that meant the same wherever something was held. */
  lemma {:induction false} ReportsNeedSwitches(x: Inputs, y: Inputs, t: Date, k: nat)
    requires x.initialEquity > 0.0 && AgreeThrough(x, y, t)
    requires k <= |MarketOf(x).dates| == |MarketOf(y).dates|
    requires forall i | 0 <= i < k :: MarketOf(x).dates[i] <= t
    requires RunTo(MarketOf(x), k).Ok? && RunTo(MarketOf(y), k).Ok?
    requires forall j: nat | j <= k :: SameReport(x, y, j)
    ensures forall i: nat | i < k && i < |MarketOf(x).dates| - 1 :: SwitchesAlike(x, y, i)
  {
    hide MarketOf, NextDay, SwitchesAlike;
    if k == 0 {
    } else {
      OkBefore(MarketOf(x), k - 1, k);
      OkBefore(MarketOf(y), k - 1, k);
      ReportsNeedSwitches(x, y, t, k - 1);
      RunsDifferInCounts(x, y, t, k - 1);
      DayOfRunsAlike(x, y, t, k - 1);
      assert SameReport(x, y, k);
    }
  }

  /** When a run looks ahead. Two completed runs whose bars agree through `t` report the same snapshots, fills,
      skipped orders and queued orders after every day through `t` exactly when, at every close before the last
      at which the first of them holds anything, both have seen the market filter closed for two days or more,
      or neither has. */
  lemma {:induction false} LooksAheadIff(x: Inputs, y: Inputs, t: Date, k: nat)
    requires x.initialEquity > 0.0 && AgreeThrough(x, y, t)
    requires k <= |MarketOf(x).dates| == |MarketOf(y).dates|
    requires forall i | 0 <= i < k :: MarketOf(x).dates[i] <= t
    requires RunTo(MarketOf(x), k).Ok? && RunTo(MarketOf(y), k).Ok?
    ensures ReportsAlike(x, y, k) <==> forall i: nat | i < k && i < |MarketOf(x).dates| - 1 :: SwitchesAlike(x, y, i)
  {
    hide MarketOf, NextDay, RunTo, SwitchesAlike;
    if ReportsAlike(x, y, k) {
      ReportsNeedSwitches(x, y, t, k);
    }
    if forall i: nat | i < k && i < |MarketOf(x).dates| - 1 :: SwitchesAlike(x, y, i) {
      forall j: nat | j <= k ensures SameReport(x, y, j) {
        OkBefore(MarketOf(x), j, k);
        OkBefore(MarketOf(y), j, k);
        RunsDifferInCounts(x, y, t, j);
      }
    }
  }

  /** The moving-average strategy never looks ahead. */
  lemma {:induction false} TrendNeverLooksAhead(x: Inputs, y: Inputs, t: Date, k: nat)
    requires x.initialEquity > 0.0 && x.strategy.MovingAverageTrend? && AgreeThrough(x, y, t)
    requires k <= |MarketOf(x).dates| == |MarketOf(y).dates|
    requires forall i | 0 <= i < k :: MarketOf(x).dates[i] <= t
    requires RunTo(MarketOf(x), k).Ok? && RunTo(MarketOf(y), k).Ok?
    ensures RunTo(MarketOf(x), k) == RunTo(MarketOf(y), k)
    ensures ReportsAlike(x, y, k)
  {
    hide MarketOf, NextDay, RunTo;
    TrendCountsNothing(MarketOf(x), k);
    TrendCountsNothing(MarketOf(y), k);
    assert forall i: nat | i < k && i < |MarketOf(x).dates| - 1 :: SwitchesAlike(x, y, i);
    RunsDifferInCounts(x, y, t, k);
    LooksAheadIff(x, y, t, k);
  }

  /** Strong-trend runs that follow the same symbols do not look ahead either. */
  lemma {:induction false} SameSymbolsNoLookAhead(x: Inputs, y: Inputs, t: Date, k: nat)
    requires x.initialEquity > 0.0 && AgreeThrough(x, y, t)
    requires k <= |MarketOf(x).dates| == |MarketOf(y).dates|
    requires forall i | 0 <= i < k :: MarketOf(x).dates[i] <= t
    requires RunTo(MarketOf(x), k).Ok? && RunTo(MarketOf(y), k).Ok?
    requires MarketOf(x).symbols == MarketOf(y).symbols
    ensures RunTo(MarketOf(x), k) == RunTo(MarketOf(y), k)
    ensures ReportsAlike(x, y, k)
  {
    hide MarketOf, NextDay, RunTo, ReportsAlike, AgreeThrough, StreakBefore, Uncounted;
    forall i: nat | i < k && i < |MarketOf(x).dates| - 1 ensures SwitchesAlike(x, y, i) {
      SameStreaks(x, y, t, i + 1);
    }
    LooksAheadIff(x, y, t, k);
    RunsDifferInCounts(x, y, t, k);
    MarketsAgree(x, y, t);
    StreakThroughout(MarketOf(x), k);
    StreakThroughout(MarketOf(y), k);
    var last := if k < |MarketOf(x).dates| then k else k - 1;
    if k > 0 { SameStreaks(x, y, t, last); } else { SameStreaks(x, y, t, 0); }
    assert RunTo(MarketOf(x), k).value.streak == RunTo(MarketOf(y), k).value.streak;
    CountedAndUncounted(RunTo(MarketOf(x), k).value, RunTo(MarketOf(y), k).value);
  }

  lemma CountedAndUncounted(st: RunState, su: RunState)
    requires Uncounted(st) == Uncounted(su) && st.streak == su.streak
    ensures st == su
  {
  }

  /** The last day counts no closed day. */
  lemma {:induction false} StreakThroughout(m: Market, k: nat)
    requires m.x.initialEquity > 0.0 && k <= |m.dates| && RunTo(m, k).Ok?
    ensures k == 0 ==> RunTo(m, k).value.streak == 0
    ensures 0 < k ==> RunTo(m, k).value.streak == StreakBefore(m, if k < |m.dates| then k else k - 1)
  {
    hide NextDay, StreakBefore, SeenOn;
    if k == 0 {
    } else if k < |m.dates| {
      StreakOfRun(m, k);
    } else {
      StreakOfRun(m, k - 1);
      LastDayCountsNothing(m, RunTo(m, k - 1).value);
    }
  }

  lemma {:induction false} LastDayCountsNothing(m: Market, st: RunState)
    requires m.dates != [] && Healthy(st) && NextDay(m, |m.dates| - 1, st).Ok?
    ensures NextDay(m, |m.dates| - 1, st).value.streak == st.streak
  {
    hide Trade, SnapshotOf, AfterSnapshot, Observed, Valid;
  }

  lemma SeenAlike(x: Inputs, y: Inputs, t: Date, date: Date)
    requires AgreeThrough(x, y, t) && MarketOf(x).symbols == MarketOf(y).symbols && date <= t
    ensures SeenOn(MarketOf(x), date) == SeenOn(MarketOf(y), date)
  {
    hide MarketOf, AgreeThrough, Features;
    MarketsAgree(x, y, t);
    MarketIsOf(x);
    MarketIsOf(y);
    FeaturesAlike(MarketOf(x), MarketOf(y), MarketOf(x).symbols, date, t);
  }

  lemma MarketIsOf(x: Inputs)
    ensures MarketOf(x).x == x
  {
  }

  lemma {:induction false} SameStreaks(x: Inputs, y: Inputs, t: Date, i: nat)
    requires AgreeThrough(x, y, t) && MarketOf(x).symbols == MarketOf(y).symbols
    requires i <= |MarketOf(x).dates| == |MarketOf(y).dates|
    requires forall j | 0 <= j < i :: MarketOf(x).dates[j] <= t
    ensures StreakBefore(MarketOf(x), i) == StreakBefore(MarketOf(y), i)
  {
    hide MarketOf, AgreeThrough, SeenOn;
    MarketsAgree(x, y, t);
    if i == 0 {
    } else {
      SeenAlike(x, y, t, MarketOf(x).dates[i - 1]);
      SameStreaks(x, y, t, i - 1);
    }
  }
}
