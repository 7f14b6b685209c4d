/** Which positions a run sells: after every close, what the queued sales say about prices, ranks and days. */
module RunExits {
  import opened Common
  import opened Simulator
  import opened Ledger
  import opened Strategy
  import opened Selection
  import opened EventLoop
  import opened OrderBook
  import opened Planning
  import opened RunSafety
  import opened RunTheorems
  import opened NoLookAhead

  /** The symbol's bar of a day, as the strategies see it. */
  function Today(m: Market, s: Symbol, date: Date): Option<DailyBar> {
    BarOn(History(m.bars, s, date, m.x.cutoff), date)
  }

  function MeanOf(m: Market, s: Symbol, date: Date, n: int): Option<real>
    requires n > 0
  {
    TailMean(Closes(History(m.bars, s, date, m.x.cutoff)), n)
  }

  /** The symbol is in the day's pool and among the better half of its ranked candidates. */
  predicate InBetterHalf(signals: Signals, s: Symbol) {
    s in signals.pool
    && var rank := RankOf(signals.ranked, s);
       rank.Some? && 2 * rank.value <= |signals.ranked|
  }

  /** What makes a strategy give up a position entered on day `entry.index`, at the close of day `index`. */
  predicate GivenUp(m: Market, signals: Signals, s: Symbol, entry: EntryState, index: int, streak: nat) {
    var today := Today(m, s, signals.date);
    || index - entry.index + 1 >= m.x.strategy.maxHoldingDays
    || match m.x.strategy
       case StrongTrend(_, _, _, _, _, _, _, drawdownExit) =>
         || !InBetterHalf(signals, s)
         || (today.Some? && today.value.close <= ExitPrice(entry.price, drawdownExit))
         || streak >= 2
       case MovingAverageTrend(_, _, _, short, _, _) =>
         var mean := MeanOf(m, s, signals.date, short);
         today.Some? && mean.Some? && today.value.close < mean.value
  }

  lemma RankedAreSome(ranked: seq<EntrySignal>, s: Symbol)
    requires RankOf(ranked, s).Some?
    ensures ranked != []
  {
  }

  lemma FeatureShows(m: Market, s: Symbol, date: Date)
    requires FeatureOf(m.x.strategy, m.bars, m.x.benchmark, s, date, m.x.cutoff).Ok?
    ensures var f := FeatureOf(m.x.strategy, m.bars, m.x.benchmark, s, date, m.x.cutoff).value;
            var today := Today(m, s, date);
            && f.symbol == s
            && f.close == (if today.Some? then Some(today.value.close) else None)
            && (m.x.strategy.MovingAverageTrend? && today.Some? ==>
                  f.TrendFeature? && f.shortMean == MeanOf(m, s, date, m.x.strategy.shortWindow))
  {
    hide TailMean, TailReturn, AmountRatio, MarketCloseOn, History, BarOn, Closes, Amounts;
  }

  lemma StrongReasonsIff(m: Market, signals: Signals, f: Feature, entry: EntryState, index: int, streak: nat)
    requires m.x.strategy.StrongTrend?
    requires FeatureOf(m.x.strategy, m.bars, m.x.benchmark, f.symbol, signals.date, m.x.cutoff) == Ok(f)
    ensures ExitReasons(m.x.strategy, signals, f, entry, index, streak) != []
       <==> GivenUp(m, signals, f.symbol, entry, index, streak)
  {
    FeatureShows(m, f.symbol, signals.date);
    hide FeatureOf, Today, ExitPrice;
    if RankOf(signals.ranked, f.symbol).Some? { RankedAreSome(signals.ranked, f.symbol); }
    hide RankOf;
  }

  lemma TrendReasonsIff(m: Market, signals: Signals, f: Feature, entry: EntryState, index: int, streak: nat)
    requires m.x.strategy.MovingAverageTrend?
    requires FeatureOf(m.x.strategy, m.bars, m.x.benchmark, f.symbol, signals.date, m.x.cutoff) == Ok(f)
    ensures ExitReasons(m.x.strategy, signals, f, entry, index, streak) != []
       <==> GivenUp(m, signals, f.symbol, entry, index, streak)
  {
    FeatureShows(m, f.symbol, signals.date);
    hide FeatureOf, Today, MeanOf;
  }

  lemma {:induction false} ExitsHave(strategy: StrategyConfig, signals: Signals, entries: map<Symbol, EntryState>,
                                     index: int, streak: nat, ps: seq<LedgerPosition>, s: Symbol)
    requires Distinct(ps) && Find(ps, s).Some?
    ensures s in SymbolsOf(Exits(strategy, signals, entries, index, streak, ps))
       <==> ExitOrder(strategy, signals, entries, index, streak, Find(ps, s).value) != []
  {
    var first := ExitOrder(strategy, signals, entries, index, streak, ps[0]);
    var rest := Exits(strategy, signals, entries, index, streak, ps[1..]);
    assert forall o | o in first :: o.symbol == ps[0].symbol;
    assert forall o :: o in first + rest <==> o in first || o in rest;
    HeldSplit(ps);
    if ps[0].symbol == s {
      ExitsAreHeld(strategy, signals, entries, index, streak, ps[1..]);
      hide ExitOrder;
      if first != [] { assert first[0] in first; }
    } else {
      hide ExitOrder;
      ExitsHave(strategy, signals, entries, index, streak, ps[1..], s);
    }
  }

  lemma {:induction false} ExitsAreHeld(strategy: StrategyConfig, signals: Signals, entries: map<Symbol, EntryState>,
                                        index: int, streak: nat, ps: seq<LedgerPosition>)
    ensures SymbolsOf(Exits(strategy, signals, entries, index, streak, ps)) <= Held(ps)
  {
    if ps == [] {
    } else {
      HeldSplit(ps);
      assert SymbolsOf(ExitOrder(strategy, signals, entries, index, streak, ps[0])) <= {ps[0].symbol};
      hide ExitOrder;
      ExitsAreHeld(strategy, signals, entries, index, streak, ps[1..]);
    }
  }

  /** A sale of the whole position in `s`. */
  ghost predicate SoldWhole(st: RunState, s: Symbol) {
    exists o | o in st.pending ::
      && o.side == Sell && o.symbol == s
      && Find(st.ledger.positions, s).Some? && o.quantity == Find(st.ledger.positions, s).value.quantity
  }

  /** At a close the sale of a held symbol is queued exactly when its one exit order is not empty. */
  lemma {:induction false} QueueSellsIff(m: Market, index: int, st: RunState, signals: Signals, s: Symbol)
    requires Valid(st.ledger) && st.snapshots != [] && Find(st.ledger.positions, s).Some?
    ensures SoldWhole(Queue(m, index, st, signals), s)
       <==> ExitOrder(m.x.strategy, signals, st.entries, index, Queue(m, index, st, signals).streak,
                      Find(st.ledger.positions, s).value) != []
  {
    hide Select, PlanAll, FirstPlan, DeskOf, Sound, ExitOrder, Exits, NextStreak, MarketSeen, AllFit, SymbolsOf;
    var r := Queue(m, index, st, signals);
    QueueChangesOrders(m, index, st, signals);
    QueuedOrders(m, index, st, signals);
    var exits := Exits(m.x.strategy, signals, st.entries, index, r.streak, st.ledger.positions);
    var d := DeskOf(m, signals, exits, st);
    var selected := Select(signals.ranked, m.x.strategy.maxPositions, m.x.strategy.maxPerIndustry);
    var plan := PlanAll(d, FirstPlan(d, st), selected);
    PlannedAreBuys(d, st.ledger.positions, FirstPlan(d, st), plan);
    ExitsHave(m.x.strategy, signals, st.entries, index, r.streak, st.ledger.positions, s);
    FittingSales(st.ledger.positions, exits, plan.orders, s);
  }

  /** Of orders that fit the positions, those for a held symbol sell all of it. */
  lemma {:induction false} FittingSales(ps: seq<LedgerPosition>, exits: seq<Order>, buys: seq<Order>, s: Symbol)
    requires AllFit(ps, exits + buys) && Find(ps, s).Some? && forall o | o in buys :: o.side == Buy
    ensures (exists o | o in exits + buys ::
               o.side == Sell && o.symbol == s && o.quantity == Find(ps, s).value.quantity)
       <==> s in SymbolsOf(exits)
  {
    hide Find;
    forall o | o in exits && o.symbol == s ensures o.side == Sell && o.quantity == Find(ps, s).value.quantity {
      assert o in exits + buys;
      assert Fits(ps, o);
    }
    if s in SymbolsOf(exits) {
      var o :| o in exits && o.symbol == s;
      assert o in exits + buys;
    }
  }

  /** After every close but the last, a held symbol's sale, of all its shares, is queued exactly when the strategy
      gives it up: it has been held long enough; or, for the strong-trend strategy, it is not in the better half of
      the day's ranked pool, or has fallen from its entry price, or the market filter has been closed for two days;
      or, for the moving-average strategy, it has closed below its short mean. */
  lemma {:induction false} SaleQueuedIff(x: Inputs, k: nat, s: Symbol)
    requires x.initialEquity > 0.0 && 0 < k < |MarketOf(x).dates| && RunTo(MarketOf(x), k).Ok?
    requires s in RunTo(MarketOf(x), k).value.entries
    ensures SignalsOn(MarketOf(x), MarketOf(x).dates[k - 1]).Ok?
    ensures SoldWhole(RunTo(MarketOf(x), k).value, s)
       <==> GivenUp(MarketOf(x), SignalsOn(MarketOf(x), MarketOf(x).dates[k - 1]).value, s,
                    RunTo(MarketOf(x), k).value.entries[s], k - 1, StreakBefore(MarketOf(x), k))
  {
    hide MarketOf, Queue, SignalsOn, Trade, NextDay, GivenUp, SoldWhole, ExitOrder, StreakBefore, AllFit;
    var m := MarketOf(x);
    var before := RunTo(m, k - 1).value;
    RunIsOrderly(x, k - 1);
    EndsQueueing(m, k - 1, before);
    MarkKeepsOrderly(m, k - 1, before);
    var closed := Mark(m, k - 1, before, Trade(m, k - 1, before).value);
    var signals := SignalsOn(m, m.dates[k - 1]).value;
    QueueChangesOrders(m, k - 1, closed, signals);
    StreakOfRun(m, k);
    FindIsHeld(closed.ledger.positions, s);
    QueueSellsIff(m, k - 1, closed, signals, s);
    GivenUpIff(m, m.dates[k - 1], closed, Find(closed.ledger.positions, s).value, k - 1, StreakBefore(m, k));
  }

  lemma {:induction false} GivenUpIff(m: Market, date: Date, st: RunState, p: LedgerPosition, index: int, streak: nat)
    requires SignalsOn(m, date).Ok? && Orderly(m, st) && p in st.ledger.positions
    ensures p.symbol in st.entries
    ensures ExitOrder(m.x.strategy, SignalsOn(m, date).value, st.entries, index, streak, p) != []
       <==> GivenUp(m, SignalsOn(m, date).value, p.symbol, st.entries[p.symbol], index, streak)
  {
    hide FeatureOf, GivenUp, ExitReasons, AllFit, RankCandidates, Restrict, EligibleOn;
    var signals := SignalsOn(m, date).value;
    PositionsAreSeen(m, date, st);
    assert p.symbol in Held(st.ledger.positions);
    LookupIsFeature(m, m.symbols, date, p.symbol);
    var f := Lookup(signals.features, p.symbol).value;
    LookupFinds(signals.features, p.symbol);
    if m.x.strategy.StrongTrend? {
      StrongReasonsIff(m, signals, f, st.entries[p.symbol], index, streak);
    } else {
      TrendReasonsIff(m, signals, f, st.entries[p.symbol], index, streak);
    }
  }

  lemma {:induction false} LookupFinds(fs: seq<Feature>, s: Symbol)
    requires Lookup(fs, s).Some?
    ensures Lookup(fs, s).value.symbol == s
  {
    if fs[0].symbol == s {
    } else {
      LookupFinds(fs[1..], s);
    }
  }
}
