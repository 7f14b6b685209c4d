/** The sales a run queues at a close: for whom, of what, and for which reasons; told from bars, ranks and entries. */
module SaleReasons {
  import opened Common
  import opened Simulator
  import opened Ledger
  import opened Selection
  import opened Strategy
  import opened EventLoop
  import opened OrderBook
  import opened Planning
  import opened RunSafety
  import opened RunTheorems
  import opened NoLookAhead
  import opened RunExits
  import opened EntrySignals
  import opened RankedOrder

  // ----- the market filter, day by day

  /** The close tells about the market: the first followed symbol and the benchmark have a bar. */
  predicate Witnessed(m: Market, date: Date) {
    m.symbols != [] && Current(HistoryIn(m, m.symbols[0], date), date)
        && Current(HistoryIn(m, m.x.benchmark, date), date)
  }

  predicate MarketOpen(m: Market, date: Date) {
    Witnessed(m, date) && AboveMean(HistoryIn(m, m.x.benchmark, date), 20)
  }

  predicate MarketShut(m: Market, date: Date) {
    Witnessed(m, date) && !AboveMean(HistoryIn(m, m.x.benchmark, date), 20)
  }

  /** Of the run's first `k` days, those that showed the market shut since one last showed it open. */
  function ShutSince(m: Market, k: nat): set<nat>
    requires k <= |m.dates|
  {
    set i: nat | i < k && MarketShut(m, m.dates[i]) && forall j | i < j < k :: !MarketOpen(m, m.dates[j])
  }

  lemma {:induction false} FirstShows(x: Inputs, s: Symbol, date: Date, f: Feature)
    requires x.strategy.StrongTrend?
    requires FeatureOf(x.strategy, MarketOf(x).bars, x.benchmark, s, date, x.cutoff) == Ok(f)
    ensures var m := MarketOf(x);
            var g := HistoryIn(m, x.benchmark, date);
            if Current(HistoryIn(m, s, date), date) && Current(g, date)
            then && f.marketClose.Some?
                 && (AboveMean(g, 20) <==> f.marketMean.Some? && f.marketClose.value > f.marketMean.value)
            else f.marketClose.None?
  {
    hide MarketOf, History, TailMean, TailReturn, AmountRatio, AboveMean, InOrder, BarOn;
    var m := MarketOf(x);
    HistoriesInOrder(x, s, date);
    HistoriesInOrder(x, x.benchmark, date);
    var h, g := HistoryIn(m, s, date), HistoryIn(m, x.benchmark, date);
    InOrderMeans(h, date, x.cutoff);
    LastOfDated(h, date);
    MarketClose(g, date, x.cutoff);
    if Current(g, date) { MeanAbove(g, 20); }
  }

  lemma {:induction false} SeenIs(x: Inputs, date: Date)
    requires x.strategy.StrongTrend? && Features(MarketOf(x), MarketOf(x).symbols, date).Ok?
    ensures var m := MarketOf(x);
            SeenOn(m, date) == if Witnessed(m, date) then Some(MarketOpen(m, date)) else None
  {
    hide MarketOf, FeatureOf, HistoryIn, AboveMean;
    var m := MarketOf(x);
    MarketIsOf(x);
    if m.symbols != [] {
      LookupIsFeature(m, m.symbols, date, m.symbols[0]);
      var features := Features(m, m.symbols, date).value;
      FirstFeature(m, m.symbols, date);
      FirstShows(x, m.symbols[0], date, features[0]);
    }
  }

  lemma FirstFeature(m: Market, symbols: seq<Symbol>, date: Date)
    requires symbols != [] && Features(m, symbols, date).Ok?
    ensures FeatureOf(m.x.strategy, m.bars, m.x.benchmark, symbols[0], date, m.x.cutoff)
         == Ok(Features(m, symbols, date).value[0])
  {
    hide FeatureOf;
  }

  lemma {:induction false} OneMoreDay(m: Market, k: nat)
    requires k < |m.dates|
    ensures ShutSince(m, k + 1)
         == if MarketOpen(m, m.dates[k]) then {}
            else ShutSince(m, k) + if MarketShut(m, m.dates[k]) then {k} else {}
  {
    hide Witnessed, AboveMean;
    var before, after := ShutSince(m, k), ShutSince(m, k + 1);
    if MarketOpen(m, m.dates[k]) {
      assert forall i: nat | i < k + 1 :: i !in after;
    } else {
      forall i: nat ensures i in after <==> i in before || (i == k && MarketShut(m, m.dates[k])) {
      }
    }
  }

  lemma {:induction false} CountsShutDays(x: Inputs, k: nat)
    requires x.strategy.StrongTrend? && k <= |MarketOf(x).dates|
    requires forall j | 0 <= j < k :: Features(MarketOf(x), MarketOf(x).symbols, MarketOf(x).dates[j]).Ok?
    ensures StreakBefore(MarketOf(x), k) == |ShutSince(MarketOf(x), k)|
  {
    hide MarketOf, Features, Witnessed, AboveMean, SeenOn;
    var m := MarketOf(x);
    MarketIsOf(x);
    if k == 0 {
      assert ShutSince(m, 0) == {};
    } else {
      CountsShutDays(x, k - 1);
      SeenIs(x, m.dates[k - 1]);
      OneMoreDay(m, k - 1);
      hide MarketOpen, MarketShut;
      assert k - 1 !in ShutSince(m, k - 1);
    }
  }

  lemma {:induction false} ShownEveryDay(x: Inputs, k: nat)
    requires x.initialEquity > 0.0 && k < |MarketOf(x).dates| && RunTo(MarketOf(x), k).Ok?
    ensures forall j | 0 <= j < k :: Features(MarketOf(x), MarketOf(x).symbols, MarketOf(x).dates[j]).Ok?
  {
    hide MarketOf, NextDay, Features;
    var m := MarketOf(x);
    forall j | 0 <= j < k ensures Features(m, m.symbols, m.dates[j]).Ok? {
      MarketIsOf(x);
      OkBefore(m, j + 1, k);
      OkBefore(m, j, k);
      EndsQueueing(m, j, RunTo(m, j).value);
    }
  }

  /** The strong-trend strategy's count is the number of days that showed the market shut since one showed it open. */
  lemma {:induction false} StreakCounts(x: Inputs, k: nat)
    requires x.initialEquity > 0.0 && x.strategy.StrongTrend?
    requires k < |MarketOf(x).dates| && RunTo(MarketOf(x), k).Ok?
    ensures RunTo(MarketOf(x), k).value.streak == |ShutSince(MarketOf(x), k)|
  {
    hide MarketOf, RunTo, StreakBefore, ShutSince;
    MarketIsOf(x);
    ShownEveryDay(x, k);
    CountsShutDays(x, k);
    StreakOfRun(MarketOf(x), k);
  }

  // ----- reasons to sell

  /** The symbol is ranked in the lower half. */
  ghost predicate InLowerHalf(ranked: seq<EntrySignal>, s: Symbol) {
    exists i :: 0 <= i < |ranked| && ranked[i].symbol == s && 2 * (i + 1) > |ranked|
  }

  /** The day's close of the symbol is no more than what `part` of the entry price leaves. */
  predicate FallenBy(m: Market, s: Symbol, date: Date, entryPrice: real, part: real) {
    var h := HistoryIn(m, s, date);
    Current(h, date) && h[|h| - 1].close <= entryPrice - part * entryPrice
  }

  /** The day's close of the symbol is below the mean of its last `n`. */
  predicate BelowMean(m: Market, s: Symbol, date: Date, n: nat) {
    var h := HistoryIn(m, s, date);
    Current(h, date) && |h| >= n > 0 && h[|h| - 1].close * n as real < Sum(LastCloses(h, n))
  }

  /** At the close of the `k`-th day, what speaks for selling a position entered as `entry`. */
  ghost predicate Speaks(m: Market, k: nat, ranked: seq<EntrySignal>, s: Symbol, entry: EntryState, r: Reason)
    requires 0 < k <= |m.dates|
  {
    var date := m.dates[k - 1];
    match m.x.strategy
    case StrongTrend(_, _, maxHoldingDays, _, _, _, _, drawdownExit) =>
      (match r
       case MaxHoldingDays => k - entry.index >= maxHoldingDays
       case NotEligible => !Qualifies(m, s, date)
       case RankOutOfPool => InLowerHalf(ranked, s)
       case EntryDrawdown => FallenBy(m, s, date, entry.price, drawdownExit)
       case MarketSwitchOff => |ShutSince(m, k)| >= 2
       case _ => false)
    case MovingAverageTrend(_, _, maxHoldingDays, short, _, _) =>
      (match r
       case MaxHoldingDays => k - entry.index >= maxHoldingDays
       case CloseBelowShortMean => BelowMean(m, s, date, short)
       case _ => false)
  }

  /** The order in which reasons are listed. */
  function Place(p: StrategyConfig, r: Reason): nat {
    match r
    case MaxHoldingDays => if p.StrongTrend? then 0 else 5
    case NotEligible => 1
    case RankOutOfPool => 2
    case EntryDrawdown => 3
    case MarketSwitchOff => 4
    case CloseBelowShortMean => 1
    case EntrySignalled => 6
  }

  ghost predicate InPlace(p: StrategyConfig, rs: seq<Reason>) {
    forall i, j | 0 <= i < j < |rs| :: Place(p, rs[i]) < Place(p, rs[j])
  }

  /** The reasons are those that speak for the sale, each once. */
  ghost predicate AllThatSpeak(m: Market, k: nat, ranked: seq<EntrySignal>, s: Symbol, entry: EntryState,
                               rs: seq<Reason>)
    requires 0 < k <= |m.dates|
  {
    InPlace(m.x.strategy, rs) && forall r :: r in rs <==> Speaks(m, k, ranked, s, entry, r)
  }

  lemma {:induction false} RankIsPlace(ranked: seq<EntrySignal>, s: Symbol)
    requires forall i | 0 <= i < |ranked| :: ranked[i].rank == i + 1
    requires forall i, j | 0 <= i < j < |ranked| :: ranked[i].symbol != ranked[j].symbol
    ensures RankOf(ranked, s).Some? <==> Ranks(ranked, s)
    ensures InLowerHalf(ranked, s) <==> RankOf(ranked, s).Some? && 2 * RankOf(ranked, s).value > |ranked|
  {
    if k :| 0 <= k < |ranked| && ranked[k].symbol == s {
      assert ranked[k] in ranked;
      RankFound(ranked, s, k);
    } else {
      RankMissed(ranked, s);
      assert !Ranks(ranked, s);
    }
  }

  lemma {:induction false} RankFound(ranked: seq<EntrySignal>, s: Symbol, k: nat)
    requires k < |ranked| && ranked[k].symbol == s
    requires forall i, j | 0 <= i < j < |ranked| :: ranked[i].symbol != ranked[j].symbol
    ensures RankOf(ranked, s) == Some(ranked[k].rank)
  {
    if k < |ranked| - 1 { RankFound(ranked[..|ranked| - 1], s, k); }
  }

  lemma {:induction false} RankMissed(ranked: seq<EntrySignal>, s: Symbol)
    requires forall i | 0 <= i < |ranked| :: ranked[i].symbol != s
    ensures RankOf(ranked, s) == None
  {
    if ranked != [] { RankMissed(ranked[..|ranked| - 1], s); }
  }

  lemma Appended(p: StrategyConfig, rs: seq<Reason>, condition: bool, r: Reason)
    requires InPlace(p, rs) && forall q | q in rs :: Place(p, q) < Place(p, r)
    ensures InPlace(p, rs + When(condition, r))
    ensures forall q :: q in rs + When(condition, r) <==> q in rs || (condition && q == r)
  {
    hide Place;
  }

  function Listed(long: bool, eligible: bool, lower: bool, fallen: bool, shut: bool): seq<Reason> {
    When(long, MaxHoldingDays) + (if !eligible then [NotEligible] else When(lower, RankOutOfPool))
    + When(fallen, EntryDrawdown) + When(shut, MarketSwitchOff)
  }

  lemma ListedInPlace(p: StrategyConfig, long: bool, eligible: bool, lower: bool, fallen: bool, shut: bool)
    requires p.StrongTrend?
    ensures InPlace(p, Listed(long, eligible, lower, fallen, shut))
    ensures forall r :: r in Listed(long, eligible, lower, fallen, shut) <==>
              || (long && r == MaxHoldingDays) || (!eligible && r == NotEligible)
              || (eligible && lower && r == RankOutOfPool) || (fallen && r == EntryDrawdown)
                  || (shut && r == MarketSwitchOff)
  {
    hide InPlace, When;
    var first := When(long, MaxHoldingDays);
    assert InPlace(p, []) by { NothingInPlace(p); }
    Appended(p, [], long, MaxHoldingDays);
    assert [] + first == first;
    var r, second := if eligible then RankOutOfPool
        else NotEligible, When(!eligible || lower, if eligible then RankOutOfPool else NotEligible);
    Appended(p, first, !eligible || lower, r);
    assert second == if !eligible then [NotEligible] else When(lower, RankOutOfPool) by { WhenTrue(NotEligible); }
    Appended(p, first + second, fallen, EntryDrawdown);
    Appended(p, first + second + When(fallen, EntryDrawdown), shut, MarketSwitchOff);
  }

  lemma NothingInPlace(p: StrategyConfig)
    ensures InPlace(p, [])
  {
  }

  lemma WhenTrue(r: Reason)
    ensures When(true, r) == [r]
  {
  }

  lemma StrongExitIs(drawdownExit: real, maxHoldingDays: int, close: Option<real>, entryPrice: real, heldDays: int,
                     rank: nat, count: nat, streak: nat, eligible: bool)
    ensures StrongExit(drawdownExit, maxHoldingDays, close, entryPrice, heldDays, rank, count, streak, eligible)
         == Listed(heldDays >= maxHoldingDays, eligible, count > 0 && 2 * rank > count,
                   close.Some? && close.value <= entryPrice - drawdownExit * entryPrice, streak >= 2)
  {
    hide When;
    assert ExitPrice(entryPrice, drawdownExit) == entryPrice - drawdownExit * entryPrice;
    assert rank as real > count as real / 2.0 <==> 2 * rank > count;
  }

  lemma MeanAtMost(total: real, n: nat, c: real)
    requires n > 0
    ensures c < total / n as real <==> c * n as real < total
  {
    var mean := total / n as real;
    assert mean * n as real == total;
    assert (mean - c) * n as real == total - c * n as real;
    if c < mean {
      assert (mean - c) * n as real > 0.0;
    } else {
      MulMonotone(mean, c, n as real);
    }
  }

  lemma {:induction false} BelowMeanIs(h: seq<DailyBar>, n: nat)
    requires n > 0 && h != []
    ensures TailMean(Closes(h), n).Some? <==> |h| >= n
    ensures |h| >= n ==> (h[|h| - 1].close < TailMean(Closes(h), n).value
                          <==> h[|h| - 1].close * n as real < Sum(LastCloses(h, n)))
  {
    hide Closes, LastCloses, Sum, TailMean;
    TailMeanIs(h, n);
    if |h| >= n {
      MeanAtMost(Sum(LastCloses(h, n)), n, h[|h| - 1].close);
    }
  }

  lemma TrendExitIs(p: StrategyConfig, maxHoldingDays: int, close: Option<real>, shortMean: Option<real>, heldDays: int)
    requires p.MovingAverageTrend?
    ensures var rs := TrendExit(maxHoldingDays, close, shortMean, heldDays);
            && InPlace(p, rs)
            && (MaxHoldingDays in rs <==> heldDays >= maxHoldingDays)
            && (CloseBelowShortMean in rs <==> close.Some? && shortMean.Some? && close.value < shortMean.value)
            && forall r | r in rs :: r == MaxHoldingDays || r == CloseBelowShortMean
  {
  }

  /** The feature's close is the history's of the day. */
  lemma {:induction false} CloseIs(x: Inputs, s: Symbol, date: Date, f: Feature)
    requires FeatureOf(x.strategy, MarketOf(x).bars, x.benchmark, s, date, x.cutoff) == Ok(f)
    ensures var h := HistoryIn(MarketOf(x), s, date);
            f.symbol == s && f.close == if Current(h, date) then Some(h[|h| - 1].close) else None
  {
    hide MarketOf, FeatureOf, InOrder, History;
    MarketIsOf(x);
    HistoriesInOrder(x, s, date);
    var h := HistoryIn(MarketOf(x), s, date);
    InOrderMeans(h, date, x.cutoff);
    LastOfDated(h, date);
    FeatureShows(MarketOf(x), s, date);
  }

  /** Who is ranked is in the signals' pool. */
  lemma {:induction false} PoolOfSignals(x: Inputs, date: Date, s: Symbol)
    requires SignalsOn(MarketOf(x), date).Ok?
    ensures Qualifies(MarketOf(x), s, date) ==> s in SignalsOn(MarketOf(x), date).value.pool
  {
    hide MarketOf, Features, RankCandidates, Restrict, EligibleOn, Wanted, Pooled;
    MarketIsOf(x);
    PooledIff(MarketOf(x), s, date);
  }

  lemma {:induction false} RankedPlaces(x: Inputs, date: Date, s: Symbol)
    requires SignalsOn(MarketOf(x), date).Ok?
    ensures var ranked := SignalsOn(MarketOf(x), date).value.ranked;
            && (RankOf(ranked, s).Some? <==> Ranks(ranked, s))
            && (InLowerHalf(ranked, s) <==> RankOf(ranked, s).Some? && 2 * RankOf(ranked, s).value > |ranked|)
            && (Ranks(ranked, s) ==> ranked != [])
  {
    hide MarketOf, SignalsOn, RankOf, InLowerHalf, HistoryIn;
    RankedInOrder(x, date);
    RankIsPlace(SignalsOn(MarketOf(x), date).value.ranked, s);
  }

  lemma {:induction false} ReasonsSpeak(x: Inputs, k: nat, s: Symbol, entry: EntryState, f: Feature, streak: nat)
    requires 0 < k <= |MarketOf(x).dates| && SignalsOn(MarketOf(x), MarketOf(x).dates[k - 1]).Ok?
    requires FeatureOf(x.strategy, MarketOf(x).bars, x.benchmark, s, MarketOf(x).dates[k - 1], x.cutoff) == Ok(f)
    requires x.strategy.StrongTrend? ==> streak == |ShutSince(MarketOf(x), k)|
    ensures var m := MarketOf(x);
            var signals := SignalsOn(m, m.dates[k - 1]).value;
            AllThatSpeak(m, k, signals.ranked, s, entry, ExitReasons(x.strategy, signals, f, entry, k - 1, streak))
  {
    hide MarketOf, SignalsOn, FeatureOf, ShutSince, Qualifies, BestFirst, StrongExit, TrendExit, Listed, RankOf,
      InLowerHalf,
      Ranks, History, Closes, TailMean, Today, LastCloses, Sum, InOrder;
    var m := MarketOf(x);
    MarketIsOf(x);
    var date := m.dates[k - 1];
    var signals := SignalsOn(m, date).value;
    CloseIs(x, s, date, f);
    match x.strategy {
      case StrongTrend(_, _, maxHoldingDays, _, _, _, _, drawdownExit) =>
        RankedIff(x, date, s);
        PoolOfSignals(x, date, s);
        RankedPlaces(x, date, s);
        var rank := RankOf(signals.ranked, s);
        var place, count := if rank.Some? then rank.value else |signals.ranked| + 1, |signals.ranked|;
        StrongExitIs(drawdownExit, maxHoldingDays, f.close, entry.price, k - entry.index, place, count, streak,
                     s in signals.pool && rank.Some?);
        ListedInPlace(x.strategy, k - entry.index >= maxHoldingDays, s in signals.pool && rank.Some?,
                      count > 0 && 2 * place > count,
                      f.close.Some? && f.close.value <= entry.price - drawdownExit * entry.price, streak >= 2);
      case MovingAverageTrend(_, _, maxHoldingDays, short, _, _) =>
        FeatureShows(m, s, date);
        if f.close.Some? { BelowMeanIs(HistoryIn(m, s, date), short); }
        TrendExitIs(x.strategy, maxHoldingDays, f.close, if f.TrendFeature? then f.shortMean else None,
                    k - entry.index);
    }
  }

  // ----- the sales of a close

  /** The order sells all of a held symbol, for every reason that speaks for it. */
  ghost predicate SaleAt(m: Market, k: nat, ranked: seq<EntrySignal>, st: RunState, o: Order)
    requires 0 < k <= |m.dates|
  {
    && o.side == Sell && o.symbol in st.entries
    && Find(st.ledger.positions, o.symbol).Some? && o.quantity == Find(st.ledger.positions, o.symbol).value.quantity
    && o.signalDate == m.dates[k - 1] && o.industry == st.entries[o.symbol].industry
    && o.reasons != [] && AllThatSpeak(m, k, ranked, o.symbol, st.entries[o.symbol], o.reasons)
  }

  ghost predicate ToBeSold(os: seq<Order>, s: Symbol) {
    exists o :: o in os && o.side == Sell && o.symbol == s
  }

  ghost predicate SomethingSpeaks(m: Market, k: nat, ranked: seq<EntrySignal>, s: Symbol, entry: EntryState)
    requires 0 < k <= |m.dates|
  {
    exists r :: Speaks(m, k, ranked, s, entry, r)
  }

  /** What one position's exit order says. */
  ghost predicate ExitSays(m: Market, k: nat, ranked: seq<EntrySignal>, st: RunState, p: LedgerPosition, os: seq<Order>)
    requires 0 < k <= |m.dates| && p.symbol in st.entries
  {
    if SomethingSpeaks(m, k, ranked, p.symbol, st.entries[p.symbol])
    then |os| == 1 && os[0].symbol == p.symbol && SaleAt(m, k, ranked, st, os[0])
    else os == []
  }

  lemma {:induction false} ExitOrderSays(x: Inputs, k: nat, st: RunState, p: LedgerPosition, streak: nat)
    requires 0 < k <= |MarketOf(x).dates| && SignalsOn(MarketOf(x), MarketOf(x).dates[k - 1]).Ok?
    requires Orderly(MarketOf(x), st) && p in st.ledger.positions && p.symbol in st.entries
    requires Find(st.ledger.positions, p.symbol) == Some(p)
    requires x.strategy.StrongTrend? ==> streak == |ShutSince(MarketOf(x), k)|
    ensures var signals := SignalsOn(MarketOf(x), MarketOf(x).dates[k - 1]).value;
            ExitSays(MarketOf(x), k, signals.ranked, st, p,
                     ExitOrder(x.strategy, signals, st.entries, k - 1, streak, p))
  {
    hide MarketOf, ShutSince, FeatureOf, ExitReasons, Speaks, InPlace, AllFit, RankCandidates, Restrict, EligibleOn;
    var m := MarketOf(x);
    MarketIsOf(x);
    var date := m.dates[k - 1];
    var signals := SignalsOn(m, date).value;
    assert p.symbol in Held(st.ledger.positions);
    LookupIsFeature(m, m.symbols, date, p.symbol);
    var f := Lookup(signals.features, p.symbol).value;
    ReasonsSpeak(x, k, p.symbol, st.entries[p.symbol], f, streak);
    var rs := ExitReasons(x.strategy, signals, f, st.entries[p.symbol], k - 1, streak);
    if rs != [] { assert rs[0] in rs; }
  }

  lemma SaleSpeaks(m: Market, k: nat, ranked: seq<EntrySignal>, st: RunState, os: seq<Order>, s: Symbol)
    requires 0 < k <= |m.dates| && ToBeSold(os, s) && forall o | o in os :: SaleAt(m, k, ranked, st, o)
    ensures s in st.entries && SomethingSpeaks(m, k, ranked, s, st.entries[s])
  {
    hide Speaks, InPlace;
    var o :| o in os && o.side == Sell && o.symbol == s;
    assert o.reasons[0] in o.reasons;
  }

  lemma {:induction false} ExitsSay(m: Market, k: nat, signals: Signals, st: RunState, ps: seq<LedgerPosition>,
                                    streak: nat)
    requires 0 < k <= |m.dates| && forall p | p in ps :: p.symbol in st.entries
    requires forall p | p in ps ::
               ExitSays(m, k, signals.ranked, st, p, ExitOrder(m.x.strategy, signals, st.entries, k - 1, streak, p))
    ensures var os := Exits(m.x.strategy, signals, st.entries, k - 1, streak, ps);
            && (forall o | o in os :: SaleAt(m, k, signals.ranked, st, o))
            && forall p | p in ps :: (ToBeSold(os, p.symbol)
                                      <==> SomethingSpeaks(m, k, signals.ranked, p.symbol, st.entries[p.symbol]))
  {
    hide ExitOrder, SomethingSpeaks, SaleAt;
    if ps == [] {
    } else {
      assert forall p | p in ps[1..] :: p in ps;
      ExitsSay(m, k, signals, st, ps[1..], streak);
      var first := ExitOrder(m.x.strategy, signals, st.entries, k - 1, streak, ps[0]);
      var rest := Exits(m.x.strategy, signals, st.entries, k - 1, streak, ps[1..]);
      assert ps[0] in ps && forall p | p in ps :: p == ps[0] || p in ps[1..];
      assert ExitSays(m, k, signals.ranked, st, ps[0], first);
      assert forall o :: o in first + rest <==> o in first || o in rest;
      forall p | p in ps
        ensures ToBeSold(first + rest, p.symbol)
           <==> SomethingSpeaks(m, k, signals.ranked, p.symbol, st.entries[p.symbol])
      {
        if ToBeSold(first + rest, p.symbol) { SaleSpeaks(m, k, signals.ranked, st, first + rest, p.symbol); }
        if SomethingSpeaks(m, k, signals.ranked, p.symbol, st.entries[p.symbol]) {
          if p == ps[0] { FirstIsSold(m, k, signals.ranked, st, p, first); }
        }
      }
    }
  }

  lemma FirstIsSold(m: Market, k: nat, ranked: seq<EntrySignal>, st: RunState, p: LedgerPosition, os: seq<Order>)
    requires 0 < k <= |m.dates| && p.symbol in st.entries && ExitSays(m, k, ranked, st, p, os)
    requires SomethingSpeaks(m, k, ranked, p.symbol, st.entries[p.symbol])
    ensures ToBeSold(os, p.symbol)
  {
    hide AllThatSpeak, SomethingSpeaks;
    assert os[0] in os;
  }

  lemma {:induction false} QueueSays(x: Inputs, k: nat, st: RunState)
    requires 0 < k < |MarketOf(x).dates| && SignalsOn(MarketOf(x), MarketOf(x).dates[k - 1]).Ok?
    requires Orderly(MarketOf(x), st) && st.snapshots != []
    requires var m := MarketOf(x);
             x.strategy.StrongTrend? ==>
               Queue(m, k - 1, st, SignalsOn(m, m.dates[k - 1]).value).streak == |ShutSince(m, k)|
    ensures var m := MarketOf(x);
            var signals := SignalsOn(m, m.dates[k - 1]).value;
            var os := Queue(m, k - 1, st, signals).pending;
            && (forall o | o in os && o.side == Sell :: SaleAt(m, k, signals.ranked, st, o))
            && forall s | s in st.entries :: (ToBeSold(os, s)
                                              <==> SomethingSpeaks(m, k, signals.ranked, s, st.entries[s]))
  {
    hide MarketOf, SignalsOn, ShutSince, SaleAt, SomethingSpeaks, PlanAll, FirstPlan, DeskOf, Select, Sound, AllFit,
      ExitOrder, Exits, SymbolsOf, NextStreak, MarketSeen;
    var m := MarketOf(x);
    MarketIsOf(x);
    var signals := SignalsOn(m, m.dates[k - 1]).value;
    var r := Queue(m, k - 1, st, signals);
    QueueChangesOrders(m, k - 1, st, signals);
    QueuedOrders(m, k - 1, st, signals);
    var exits := Exits(m.x.strategy, signals, st.entries, k - 1, r.streak, st.ledger.positions);
    var d := DeskOf(m, signals, exits, st);
    var selected := Select(signals.ranked, m.x.strategy.maxPositions, m.x.strategy.maxPerIndustry);
    var plan := PlanAll(d, FirstPlan(d, st), selected);
    PlannedAreBuys(d, st.ledger.positions, FirstPlan(d, st), plan);
    PositionsSay(x, k, st, r.streak);
    ExitsSay(m, k, signals, st, st.ledger.positions, r.streak);
    forall s | s in st.entries ensures ToBeSold(r.pending, s)
        <==> SomethingSpeaks(m, k, signals.ranked, s, st.entries[s]) {
      FindIsHeld(st.ledger.positions, s);
      assert ToBeSold(r.pending, s) <==> ToBeSold(exits, s);
      var p :| p in st.ledger.positions && p.symbol == s;
    }
  }

  lemma {:induction false} PositionsSay(x: Inputs, k: nat, st: RunState, streak: nat)
    requires 0 < k <= |MarketOf(x).dates| && SignalsOn(MarketOf(x), MarketOf(x).dates[k - 1]).Ok?
    requires Orderly(MarketOf(x), st)
    requires x.strategy.StrongTrend? ==> streak == |ShutSince(MarketOf(x), k)|
    ensures forall p | p in st.ledger.positions :: p.symbol in st.entries
    ensures var signals := SignalsOn(MarketOf(x), MarketOf(x).dates[k - 1]).value;
            forall p | p in st.ledger.positions ::
              ExitSays(MarketOf(x), k, signals.ranked, st, p,
                       ExitOrder(x.strategy, signals, st.entries, k - 1, streak, p))
  {
    hide MarketOf, SignalsOn, ShutSince, ExitSays, ExitOrder, AllFit;
    var signals := SignalsOn(MarketOf(x), MarketOf(x).dates[k - 1]).value;
    forall p | p in st.ledger.positions
      ensures p.symbol in st.entries
      ensures ExitSays(MarketOf(x), k, signals.ranked, st, p,
                       ExitOrder(x.strategy, signals, st.entries, k - 1, streak, p))
    {
      assert p.symbol in Held(st.ledger.positions);
      FindOfDistinct(st.ledger.positions, p);
      ExitOrderSays(x, k, st, p, streak);
    }
  }

  lemma {:induction false} FindOfDistinct(ps: seq<LedgerPosition>, p: LedgerPosition)
    requires Distinct(ps) && p in ps
    ensures Find(ps, p.symbol) == Some(p)
  {
    if ps[0] != p {
      FindOfDistinct(ps[1..], p);
      var i :| 0 < i < |ps| && ps[i] == p;
    }
  }

  /** After every close but the last, a held symbol is to be sold exactly when something speaks for it, and a sale is of
      the whole position, carries the entry's industry, and lists all that speaks for it, once, in the strategy's order:
      for the strong-trend strategy the holding days, not qualifying today, the lower half of the ranks, the fall from
      the entry price and two days of a shut market; for the moving-average strategy the close below the short mean and
      the holding days. */
  lemma {:induction false} SalesAre(x: Inputs, k: nat)
    requires x.initialEquity > 0.0 && 0 < k < |MarketOf(x).dates| && RunTo(MarketOf(x), k).Ok?
    ensures SignalsOn(MarketOf(x), MarketOf(x).dates[k - 1]).Ok?
    ensures var m, st := MarketOf(x), RunTo(MarketOf(x), k).value;
            var ranked := SignalsOn(m, m.dates[k - 1]).value.ranked;
            && (forall o | o in st.pending && o.side == Sell :: SaleAt(m, k, ranked, st, o))
            && forall s | s in st.entries :: (ToBeSold(st.pending, s)
                                              <==> SomethingSpeaks(m, k, ranked, s, st.entries[s]))
  {
    hide MarketOf, Queue, SignalsOn, Trade, NextDay, SaleAt, SomethingSpeaks, ShutSince, AllFit;
    var m := MarketOf(x);
    MarketIsOf(x);
    var before := RunTo(m, k - 1).value;
    RunIsOrderly(x, k - 1);
    EndsQueueing(m, k - 1, before);
    MarkKeepsOrderly(m, k - 1, before);
    if x.strategy.StrongTrend? { StreakCounts(x, k); }
    var closed := Mark(m, k - 1, before, Trade(m, k - 1, before).value);
    QueueChangesOrders(m, k - 1, closed, SignalsOn(m, m.dates[k - 1]).value);
    QueueSays(x, k, closed);
    SameSales(m, k, SignalsOn(m, m.dates[k - 1]).value.ranked, closed, RunTo(m, k).value);
  }

  lemma SameSales(m: Market, k: nat, ranked: seq<EntrySignal>, st: RunState, r: RunState)
    requires 0 < k <= |m.dates| && r == st.(streak := r.streak, pending := r.pending)
    ensures forall o :: SaleAt(m, k, ranked, st, o) <==> SaleAt(m, k, ranked, r, o)
  {
    hide AllThatSpeak;
  }
}
