/** Look-ahead up to the reasons of orders: when two runs whose bars agree through a date trade differently. */
module TradesAlike {
  import opened Common
  import opened Ledger
  import opened Drawdown
  import opened Selection
  import opened Strategy
  import opened EventLoop
  import opened OrderBook
  import opened RunSafety
  import opened RunTheorems
  import opened RunExits
  import opened NoLookAhead
  import opened BareTrades

  // ----- one close

  /** The two counts make the strategy sell the position, or make it keep the position, alike. */
  ghost predicate SoldAlike(strategy: StrategyConfig, a: Signals, entries: map<Symbol, EntryState>, index: int,
                            s: nat, t: nat, p: LedgerPosition)
  {
    ExitOrder(strategy, a, entries, index, s, p) != [] <==> ExitOrder(strategy, a, entries, index, t, p) != []
  }

  lemma {:induction false} ExitBare(strategy: StrategyConfig, a: Signals, b: Signals, entries: map<Symbol, EntryState>,
                                    index: int, s: nat, t: nat, p: LedgerPosition, common: set<Symbol>)
    requires SignalsAlike(a, b, common) && p.symbol in common && SoldAlike(strategy, a, entries, index, s, t, p)
    ensures BareOrders(ExitOrder(strategy, a, entries, index, s, p))
         == BareOrders(ExitOrder(strategy, b, entries, index, t, p))
  {
    ExitAlike(strategy, a, b, entries, index, t, t, p, common);
    hide ExitReasons, Lookup;
  }

  lemma {:induction false} ExitsBare(strategy: StrategyConfig, a: Signals, b: Signals, entries: map<Symbol, EntryState>,
                                     index: int, s: nat, t: nat, ps: seq<LedgerPosition>, common: set<Symbol>)
    requires SignalsAlike(a, b, common) && Held(ps) <= common
    requires forall p | p in ps :: SoldAlike(strategy, a, entries, index, s, t, p)
    ensures BareOrders(Exits(strategy, a, entries, index, s, ps))
              == BareOrders(Exits(strategy, b, entries, index, t, ps))
  {
    hide ExitOrder, SignalsAlike, SoldAlike;
    if ps == [] {
    } else {
      HeldSplit(ps);
      ExitBare(strategy, a, b, entries, index, s, t, ps[0], common);
      ExitsBare(strategy, a, b, entries, index, s, t, ps[1..], common);
      BareJoined(ExitOrder(strategy, a, entries, index, s, ps[0]), Exits(strategy, a, entries, index, s, ps[1..]));
      BareJoined(ExitOrder(strategy, b, entries, index, t, ps[0]), Exits(strategy, b, entries, index, t, ps[1..]));
    }
  }

  /** States that differ in counts and reasons alone. */
  ghost predicate BareAlike(st: RunState, su: RunState) {
    BareState(st) == BareState(su)
  }

  lemma BareKeeps(st: RunState, su: RunState)
    requires BareAlike(st, su)
    ensures st.ledger == su.ledger && st.monitor == su.monitor && st.entries == su.entries
    ensures st.lastCloses == su.lastCloses && st.snapshots == su.snapshots && st.skipped == su.skipped
    ensures BareOrders(st.pending) == BareOrders(su.pending) && BareFills(st.fills) == BareFills(su.fills)
  {
    hide BareOrders, BareFills;
    assert BareState(st).ledger == BareState(su).ledger && BareState(st).monitor == BareState(su).monitor;
    assert BareState(st).entries == BareState(su).entries && BareState(st).lastCloses == BareState(su).lastCloses;
    assert BareState(st).snapshots == BareState(su).snapshots && BareState(st).skipped == BareState(su).skipped;
    assert BareState(st).pending == BareState(su).pending && BareState(st).fills == BareState(su).fills;
  }

  /** Where every position is sold or kept alike, the same orders are queued up to their reasons. */
  lemma {:induction false} QueuesBare(m: Market, n: Market, index: int, st: RunState, su: RunState,
                                      a: Signals, b: Signals, common: set<Symbol>)
    requires n.x == m.x.(bars := n.x.bars) && SignalsAlike(a, b, common) && BareAlike(st, su)
    requires Valid(st.ledger) && Valid(su.ledger) && st.snapshots != [] && su.snapshots != []
    requires Held(st.ledger.positions) <= common && From(a.ranked, common)
    requires forall p | p in st.ledger.positions ::
               SoldAlike(m.x.strategy, a, st.entries, index, Queue(m, index, st, a).streak,
                         Queue(n, index, su, b).streak, p)
    ensures BareOrders(Queue(m, index, st, a).pending) == BareOrders(Queue(n, index, su, b).pending)
  {
    BareKeeps(st, su);
    var strategy := m.x.strategy;
    var s, t := Queue(m, index, st, a).streak, Queue(n, index, su, b).streak;
    ExitsBare(strategy, a, b, st.entries, index, s, t, st.ledger.positions, common);
    var exits := Exits(strategy, a, st.entries, index, s, st.ledger.positions);
    var leaves := Exits(strategy, b, st.entries, index, t, st.ledger.positions);
    BareSymbols(exits);
    BareSymbols(leaves);
    SelectedFrom(a.ranked, strategy.maxPositions, strategy.maxPerIndustry, common);
    var d, e := DeskOf(m, a, exits, st), DeskOf(n, b, leaves, su);
    hide Exits, Select, Projected, IndustryCounts, SoldAlike, SymbolsOf, BareOrders;
    var selected := Select(a.ranked, strategy.maxPositions, strategy.maxPerIndustry);
    PlansAlike(d, e, FirstPlan(d, st), selected, common);
    BareJoined(exits, PlanAll(d, FirstPlan(d, st), selected).orders);
    BareJoined(leaves, PlanAll(e, FirstPlan(e, su), selected).orders);
  }

  /** A sale can be told from orders without their reasons. */
  lemma {:induction false} SoldBare(st: RunState, su: RunState, s: Symbol)
    requires st.ledger == su.ledger && BareOrders(st.pending) == BareOrders(su.pending)
    ensures SoldWhole(st, s) ==> SoldWhole(su, s)
  {
    hide Find;
    if SoldWhole(st, s) {
      var i :| 0 <= i < |st.pending| && st.pending[i].side == Sell && st.pending[i].symbol == s
               && Find(st.ledger.positions, s).Some?
               && st.pending[i].quantity == Find(st.ledger.positions, s).value.quantity;
      assert BareOrders(st.pending)[i] == BareOrders(su.pending)[i];
      assert Bare(st.pending[i]) == Bare(su.pending[i]);
      assert su.pending[i] in su.pending;
    }
  }

  /** A close queues the same orders up to their reasons exactly when every position is sold or kept alike. */
  lemma {:induction false} QueuesBareIff(m: Market, n: Market, index: int, st: RunState, su: RunState,
                                         a: Signals, b: Signals, common: set<Symbol>)
    requires n.x == m.x.(bars := n.x.bars) && SignalsAlike(a, b, common) && BareAlike(st, su)
    requires Valid(st.ledger) && Valid(su.ledger) && st.snapshots != [] && su.snapshots != []
    requires Held(st.ledger.positions) <= common && From(a.ranked, common)
    ensures BareOrders(Queue(m, index, st, a).pending) == BareOrders(Queue(n, index, su, b).pending)
       <==> forall p | p in st.ledger.positions ::
              SoldAlike(m.x.strategy, a, st.entries, index, Queue(m, index, st, a).streak,
                        Queue(n, index, su, b).streak, p)
  {
    hide Queue, SignalsAlike, BareOrders, SoldWhole, ExitOrder, BareAlike, Find;
    BareKeeps(st, su);
    var r, q := Queue(m, index, st, a), Queue(n, index, su, b);
    QueueChangesOrders(m, index, st, a);
    QueueChangesOrders(n, index, su, b);
    if BareOrders(r.pending) == BareOrders(q.pending) {
      forall p | p in st.ledger.positions ensures SoldAlike(m.x.strategy, a, st.entries, index, r.streak, q.streak, p) {
        FindsItself(st.ledger.positions, p);
        QueueSellsIff(m, index, st, a, p.symbol);
        QueueSellsIff(n, index, su, b, p.symbol);
        SoldBare(r, q, p.symbol);
        SoldBare(q, r, p.symbol);
        assert p.symbol in Held(st.ledger.positions);
        ExitAlike(m.x.strategy, a, b, st.entries, index, q.streak, q.streak, p, common);
      }
    }
    if forall p | p in st.ledger.positions :: SoldAlike(m.x.strategy, a, st.entries, index, r.streak, q.streak, p) {
      QueuesBare(m, n, index, st, su, a, b, common);
    }
  }

  lemma {:induction false} FindsItself(ps: seq<LedgerPosition>, p: LedgerPosition)
    requires Distinct(ps) && p in ps
    ensures Find(ps, p.symbol) == Some(p)
  {
    if ps[0] == p {
    } else {
      HeldSplit(ps);
      FindsItself(ps[1..], p);
      assert p.symbol in Held(ps[1..]);
    }
  }

  // ----- when the switch decides

  /** Some position is given up for no other reason than a closed market filter would be. */
  ghost predicate Undecided(m: Market, a: Signals, st: RunState, index: int) {
    exists p | p in st.ledger.positions ::
      p.symbol in st.entries && !GivenUp(m, a, p.symbol, st.entries[p.symbol], index, 0)
  }

  lemma SwitchDecides(m: Market, a: Signals, s: Symbol, entry: EntryState, index: int, streak: nat)
    ensures GivenUp(m, a, s, entry, index, streak)
       <==> GivenUp(m, a, s, entry, index, 0) || (m.x.strategy.StrongTrend? && streak >= 2)
  {
    hide Today, MeanOf, InBetterHalf, ExitPrice;
  }

  lemma {:induction false} SoldAlikeIff(m: Market, date: Date, st: RunState, p: LedgerPosition, index: int, s: nat,
                                        t: nat)
    requires SignalsOn(m, date).Ok? && Orderly(m, st) && p in st.ledger.positions
    ensures p.symbol in st.entries
    ensures var a := SignalsOn(m, date).value;
            SoldAlike(m.x.strategy, a, st.entries, index, s, t, p) <==>
              GivenUp(m, a, p.symbol, st.entries[p.symbol], index, 0) || SwitchAlike(m.x.strategy, s, t)
  {
    hide SignalsOn, GivenUp, ExitOrder, Orderly;
    GivenUpIff(m, date, st, p, index, s);
    GivenUpIff(m, date, st, p, index, t);
    SwitchDecides(m, SignalsOn(m, date).value, p.symbol, st.entries[p.symbol], index, s);
    SwitchDecides(m, SignalsOn(m, date).value, p.symbol, st.entries[p.symbol], index, t);
  }

  lemma {:induction false} AllSoldAlikeIff(m: Market, date: Date, st: RunState, index: int, s: nat, t: nat)
    requires SignalsOn(m, date).Ok? && Orderly(m, st)
    ensures var a := SignalsOn(m, date).value;
            (forall p | p in st.ledger.positions :: SoldAlike(m.x.strategy, a, st.entries, index, s, t, p)) <==>
              (Undecided(m, a, st, index) ==> SwitchAlike(m.x.strategy, s, t))
  {
    hide SignalsOn, GivenUp, ExitOrder, Orderly, SoldAlike, SwitchAlike;
    forall p | p in st.ledger.positions
      ensures p.symbol in st.entries
      ensures SoldAlike(m.x.strategy, SignalsOn(m, date).value, st.entries, index, s, t, p) <==>
                GivenUp(m, SignalsOn(m, date).value, p.symbol, st.entries[p.symbol], index, 0)
                || SwitchAlike(m.x.strategy, s, t)
    {
      SoldAlikeIff(m, date, st, p, index, s, t);
    }
  }

  // ----- days

  /** The close of a day that is not the last. */
  lemma {:induction false} ClosesBare(x: Inputs, y: Inputs, t: Date, index: nat, closed: RunState, shut: RunState)
    requires AgreeThrough(x, y, t) && BareAlike(closed, shut) && closed.snapshots != [] && shut.snapshots != []
    requires index < |MarketOf(x).dates| && MarketOf(x).dates[index] <= t
    requires Orderly(MarketOf(x), closed) && Orderly(MarketOf(y), shut)
    requires SignalsOn(MarketOf(x), MarketOf(x).dates[index]).Ok?
               && SignalsOn(MarketOf(y), MarketOf(x).dates[index]).Ok?
    ensures var a := SignalsOn(MarketOf(x), MarketOf(x).dates[index]).value;
            var b := SignalsOn(MarketOf(y), MarketOf(x).dates[index]).value;
            var r, q := Queue(MarketOf(x), index, closed, a), Queue(MarketOf(y), index, shut, b);
            && BareAlike(r.(pending := []), q.(pending := []))
            && (BareOrders(r.pending) == BareOrders(q.pending) <==>
                  (Undecided(MarketOf(x), a, closed, index) ==> SwitchAlike(x.strategy, r.streak, q.streak)))
  {
    hide MarketOf, Queue, SignalsOn, AllFit, SignalsAlike, SoldAlike, Undecided, SwitchAlike, BareOrders, BareFills;
    var m, n := MarketOf(x), MarketOf(y);
    var date := m.dates[index];
    var common := set s | s in m.symbols && s in n.symbols;
    MarketsAgree(x, y, t);
    MarketIsOf(x);
    MarketIsOf(y);
    SignalsOnAlike(x, y, date, t);
    SignalsAreFollowed(x, date);
    SignalsAreFollowed(y, date);
    BareKeeps(closed, shut);
    var a, b := SignalsOn(m, date).value, SignalsOn(n, date).value;
    assert From(a.ranked, common) by { SameRanked(a, b, common); }
    var r, q := Queue(m, index, closed, a), Queue(n, index, shut, b);
    QueueChangesOrders(m, index, closed, a);
    QueueChangesOrders(n, index, shut, b);
    QueuesBareIff(m, n, index, closed, shut, a, b, common);
    AllSoldAlikeIff(m, date, closed, index, r.streak, q.streak);
  }

  lemma {:induction false} MarksBare(x: Inputs, y: Inputs, t: Date, index: nat, st: RunState, su: RunState)
    requires AgreeThrough(x, y, t) && BareAlike(st, su) && Healthy(st) && Healthy(su)
    requires index < |MarketOf(x).dates| && index < |MarketOf(y).dates| && MarketOf(x).dates[index] <= t
    requires Trade(MarketOf(x), index, st).Ok? && Trade(MarketOf(y), index, su).Ok?
    ensures BareAlike(Mark(MarketOf(x), index, st, Trade(MarketOf(x), index, st).value),
                      Mark(MarketOf(y), index, su, Trade(MarketOf(y), index, su).value))
  {
    hide MarketOf, BarsOn, SnapshotOf, AfterSnapshot, Observed, ExecuteAll, Valid, EligibleOn, BareOrders, BareFills;
    var m, n := MarketOf(x), MarketOf(y);
    MarketsAgree(x, y, t);
    MarketIsOf(x);
    MarketIsOf(y);
    DayReadsAlike(m, n, m.dates[index], t);
    TradeBare(m, index, st);
    TradeBare(n, index, su);
    assert Trade(m, index, BareState(st)) == Trade(n, index, BareState(su));
    MarkBare(m, index, st, Trade(m, index, st).value);
    MarkBare(n, index, su, Trade(n, index, su).value);
  }

  /** Two runs in states that differ in counts and reasons alone: the next day they trade alike, and at its close
      they queue the same orders up to reasons exactly when every position's turn is decided alike. */
  lemma {:induction false} NextDaysBare(x: Inputs, y: Inputs, t: Date, index: nat, st: RunState, su: RunState)
    requires AgreeThrough(x, y, t) && BareAlike(st, su)
    requires index < |MarketOf(x).dates| - 1 && index < |MarketOf(y).dates| - 1 && MarketOf(x).dates[index] <= t
    requires Orderly(MarketOf(x), st) && Orderly(MarketOf(y), su)
    requires NextDay(MarketOf(x), index, st).Ok? && NextDay(MarketOf(y), index, su).Ok?
    ensures SignalsOn(MarketOf(x), MarketOf(x).dates[index]).Ok?
    ensures var r, q := NextDay(MarketOf(x), index, st).value, NextDay(MarketOf(y), index, su).value;
            && BareAlike(r.(pending := []), q.(pending := []))
            && (BareOrders(r.pending) == BareOrders(q.pending) <==>
                  (Undecided(MarketOf(x), SignalsOn(MarketOf(x), MarketOf(x).dates[index]).value, r, index) ==>
                     SwitchAlike(x.strategy, r.streak, q.streak)))
  {
    hide MarketOf, Queue, SignalsOn, Trade, NextDay, AllFit, Undecided, BareAlike, SwitchAlike, BareOrders;
    var m, n := MarketOf(x), MarketOf(y);
    MarketsAgree(x, y, t);
    EndsQueueing(m, index, st);
    EndsQueueing(n, index, su);
    MarkKeepsOrderly(m, index, st);
    MarkKeepsOrderly(n, index, su);
    MarksBare(x, y, t, index, st, su);
    var closed, shut := Mark(m, index, st, Trade(m, index, st).value), Mark(n, index, su, Trade(n, index, su).value);
    ClosesBare(x, y, t, index, closed, shut);
    var a := SignalsOn(m, m.dates[index]).value;
    QueueChangesOrders(m, index, closed, a);
    UndecidedByHoldings(m, a, closed, Queue(m, index, closed, a), index);
  }

  lemma UndecidedByHoldings(m: Market, a: Signals, st: RunState, su: RunState, index: int)
    requires st.ledger == su.ledger && st.entries == su.entries
    ensures Undecided(m, a, st, index) == Undecided(m, a, su, index)
  {
    hide GivenUp;
  }

  /** The last day queues nothing. */
  lemma {:induction false} LastDaysBare(x: Inputs, y: Inputs, t: Date, st: RunState, su: RunState)
    requires AgreeThrough(x, y, t) && BareAlike(st, su) && Healthy(st) && Healthy(su)
    requires 0 < |MarketOf(x).dates| == |MarketOf(y).dates| && MarketOf(x).dates[|MarketOf(x).dates| - 1] <= t
    requires NextDay(MarketOf(x), |MarketOf(x).dates| - 1, st).Ok?
               && NextDay(MarketOf(y), |MarketOf(x).dates| - 1, su).Ok?
    ensures BareAlike(NextDay(MarketOf(x), |MarketOf(x).dates| - 1, st).value,
                      NextDay(MarketOf(y), |MarketOf(x).dates| - 1, su).value)
  {
    hide MarketOf, Trade, Mark, BareAlike, Valid;
    MarksBare(x, y, t, |MarketOf(x).dates| - 1, st, su);
  }

  // ----- runs

  /** What a run reports through a day and has queued, without reasons. */
  function BareReport(st: RunState): Report {
    Report(st.snapshots, BareFills(st.fills), st.skipped, BareOrders(st.pending))
  }

  ghost predicate SameBareReport(x: Inputs, y: Inputs, j: nat)
    requires x.initialEquity > 0.0 && y.initialEquity > 0.0
    requires j <= |MarketOf(x).dates| && j <= |MarketOf(y).dates|
  {
    var a, b := RunTo(MarketOf(x), j), RunTo(MarketOf(y), j);
    a.Ok? && b.Ok? ==> BareReport(a.value) == BareReport(b.value)
  }

  /** If at the close of day `i` the first run holds a position that nothing else gives up, both runs have by then
      seen the filter closed for two days or more, or neither has. */
  ghost predicate TurnsAlike(x: Inputs, y: Inputs, i: nat)
    requires x.initialEquity > 0.0 && i < |MarketOf(x).dates| && i < |MarketOf(y).dates|
  {
    var r, a := RunTo(MarketOf(x), i + 1), SignalsOn(MarketOf(x), MarketOf(x).dates[i]);
    r.Ok? && a.Ok? && Undecided(MarketOf(x), a.value, r.value, i) ==>
      SwitchAlike(x.strategy, StreakBefore(MarketOf(x), i + 1), StreakBefore(MarketOf(y), i + 1))
  }

  lemma BareAgain(st: RunState, su: RunState)
    requires BareAlike(st.(pending := []), su.(pending := [])) && BareOrders(st.pending) == BareOrders(su.pending)
    ensures BareAlike(st, su)
  {
    hide BareOrders, BareFills;
    BareKeeps(st.(pending := []), su.(pending := []));
  }

  lemma BareReports(st: RunState, su: RunState)
    requires BareAlike(st, su)
    ensures BareReport(st) == BareReport(su)
  {
    hide BareOrders, BareFills;
    BareKeeps(st, su);
  }

  /** One day of two runs that have traded alike. */
  lemma {:induction false} DayOfRunsBare(x: Inputs, y: Inputs, t: Date, i: nat)
    requires x.initialEquity > 0.0 && AgreeThrough(x, y, t)
    requires i < |MarketOf(x).dates| == |MarketOf(y).dates| && MarketOf(x).dates[i] <= t
    requires RunTo(MarketOf(x), i + 1).Ok? && RunTo(MarketOf(y), i + 1).Ok?
    requires RunTo(MarketOf(x), i).Ok? && RunTo(MarketOf(y), i).Ok?
    requires BareAlike(RunTo(MarketOf(x), i).value, RunTo(MarketOf(y), i).value)
    ensures BareAlike(RunTo(MarketOf(x), i + 1).value, RunTo(MarketOf(y), i + 1).value)
       <==> (i < |MarketOf(x).dates| - 1 ==> TurnsAlike(x, y, i))
    ensures SameBareReport(x, y, i + 1) <==> (i < |MarketOf(x).dates| - 1 ==> TurnsAlike(x, y, i))
  {
    hide MarketOf, NextDay, AllFit, SwitchAlike, AgreeThrough, StreakBefore, BareAlike, BareOrders, BareFills,
      SignalsOn, Undecided;
    MarketsAgree(x, y, t);
    RunIsOrderly(x, i);
    RunIsOrderly(y, i);
    var r, q := RunTo(MarketOf(x), i + 1).value, RunTo(MarketOf(y), i + 1).value;
    if i < |MarketOf(x).dates| - 1 {
      NextDaysBare(x, y, t, i, RunTo(MarketOf(x), i).value, RunTo(MarketOf(y), i).value);
      StreakOfRun(MarketOf(x), i + 1);
      StreakOfRun(MarketOf(y), i + 1);
      if BareOrders(r.pending) == BareOrders(q.pending) { BareAgain(r, q); }
    } else {
      LastDaysBare(x, y, t, RunTo(MarketOf(x), i).value, RunTo(MarketOf(y), i).value);
    }
    if BareAlike(r, q) { BareReports(r, q); }
  }

  lemma OpeningsBare(x: Inputs, y: Inputs)
    requires x.initialEquity > 0.0 && y == x.(bars := y.bars)
    ensures RunTo(MarketOf(x), 0).Ok? && RunTo(MarketOf(y), 0).Ok?
    ensures BareAlike(RunTo(MarketOf(x), 0).value, RunTo(MarketOf(y), 0).value)
  {
  }

  lemma {:induction false} RunsBare(x: Inputs, y: Inputs, t: Date, k: nat)
    requires x.initialEquity > 0.0 && AgreeThrough(x, y, t)
    requires k <= |MarketOf(x).dates| == |MarketOf(y).dates|
    requires forall i | 0 <= i < k :: MarketOf(x).dates[i] <= t
    requires RunTo(MarketOf(x), k).Ok? && RunTo(MarketOf(y), k).Ok?
    requires forall i: nat | i < k && i < |MarketOf(x).dates| - 1 :: TurnsAlike(x, y, i)
    ensures BareAlike(RunTo(MarketOf(x), k).value, RunTo(MarketOf(y), k).value)
  {
    hide MarketOf, NextDay, TurnsAlike, BareAlike;
    MarketsAgree(x, y, t);
    if k == 0 {
      OpeningsBare(x, y);
    } else {
      RunsBare(x, y, t, k - 1);
      DayOfRunsBare(x, y, t, k - 1);
    }
  }

  lemma {:induction false} TradesNeedTurns(x: Inputs, y: Inputs, t: Date, k: nat)
    requires x.initialEquity > 0.0 && AgreeThrough(x, y, t)
    requires k <= |MarketOf(x).dates| == |MarketOf(y).dates|
    requires forall i | 0 <= i < k :: MarketOf(x).dates[i] <= t
    requires RunTo(MarketOf(x), k).Ok? && RunTo(MarketOf(y), k).Ok?
    requires forall j: nat | j <= k :: SameBareReport(x, y, j)
    ensures forall i: nat | i < k && i < |MarketOf(x).dates| - 1 :: TurnsAlike(x, y, i)
  {
    hide MarketOf, NextDay, TurnsAlike, SameBareReport, BareAlike;
    if k == 0 {
    } else {
      OkBefore(MarketOf(x), k - 1, k);
      OkBefore(MarketOf(y), k - 1, k);
      TradesNeedTurns(x, y, t, k - 1);
      RunsBare(x, y, t, k - 1);
      DayOfRunsBare(x, y, t, k - 1);
      assert SameBareReport(x, y, k);
    }
  }

  /** When looking ahead changes a trade. Two completed runs whose bars agree through `t` have the same snapshots,
      fills, skipped and queued orders, up to reasons, after every day through `t` exactly when, at every close before
      the last at which the first of them holds a position that nothing else gives up, both have seen the market
      filter closed for two days or more, or neither has. */
  lemma {:induction false} TradesAlikeIff(x: Inputs, y: Inputs, t: Date, k: nat)
    requires x.initialEquity > 0.0 && AgreeThrough(x, y, t)
    requires k <= |MarketOf(x).dates| == |MarketOf(y).dates|
    requires forall i | 0 <= i < k :: MarketOf(x).dates[i] <= t
    requires RunTo(MarketOf(x), k).Ok? && RunTo(MarketOf(y), k).Ok?
    ensures (forall j: nat | j <= k :: SameBareReport(x, y, j))
       <==> forall i: nat | i < k && i < |MarketOf(x).dates| - 1 :: TurnsAlike(x, y, i)
  {
    hide MarketOf, NextDay, RunTo, TurnsAlike, BareAlike;
    if forall j: nat | j <= k :: SameBareReport(x, y, j) {
      TradesNeedTurns(x, y, t, k);
    }
    if forall i: nat | i < k && i < |MarketOf(x).dates| - 1 :: TurnsAlike(x, y, i) {
      forall j: nat | j <= k ensures SameBareReport(x, y, j) {
        OkBefore(MarketOf(x), j, k);
        OkBefore(MarketOf(y), j, k);
        RunsBare(x, y, t, j);
        BareReports(RunTo(MarketOf(x), j).value, RunTo(MarketOf(y), j).value);
      }
    }
  }
}
