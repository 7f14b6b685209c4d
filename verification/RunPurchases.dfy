/** Which purchases a run queues at a close, and how large: told from its entries, its pending orders and the bars. */
module RunPurchases {
  import opened Common
  import opened Simulator
  import opened Ledger
  import opened Allocation
  import opened Sizing
  import opened Selection
  import opened Strategy
  import opened EventLoop
  import opened OrderBook
  import opened Planning
  import opened RunSafety
  import opened RunTheorems
  import opened NoLookAhead
  import opened Marking
  import opened EntrySignals
  import opened PurchasePlans

  // ----- the account of a close

  /** The day's close of a symbol, or zero. */
  function CloseToday(m: Market, date: Date): Symbol -> real {
    (s: Symbol) => var h := HistoryIn(m, s, date); if Current(h, date) then h[|h| - 1].close else 0.0
  }

  /** The held positions at their marks, in the industries they were entered in. */
  function HeldAt(ps: seq<LedgerPosition>, marks: seq<real>, entries: map<Symbol, EntryState>): (r: seq<Position>)
    requires |marks| == |ps|
    ensures |r| == |ps|
  {
    seq(|ps|, i requires 0 <= i < |ps| =>
          Position(ps[i].symbol, ps[i].quantity, Part(marks[i], ps[i].quantity as real),
                   if ps[i].symbol in entries then entries[ps[i].symbol].industry else None))
  }

  /** The symbols that are to be sold. */
  function Leaving(os: seq<Order>): set<Symbol> {
    set o | o in os && o.side == Sell :: o.symbol
  }

  /** The held symbols of an industry that are not to be sold. */
  function StayingIn(entries: map<Symbol, EntryState>, os: seq<Order>, c: Industry): set<Symbol> {
    set s | s in entries && entries[s].industry == Some(c) && s !in Leaving(os)
  }

  /** What sizing is asked for a signal after the purchases `before`. */
  function AskedAt(x: Inputs, st: RunState, marks: seq<real>, close: Symbol -> real, before: seq<Order>, e: EntrySignal)
    : Request
    requires |marks| == |st.ledger.positions| && st.snapshots != []
  {
    Request(close(e.symbol), st.ledger.cash - Spent(x.costs, close, before), st.snapshots[|st.snapshots| - 1].equity,
            HeldAt(st.ledger.positions, marks, st.entries)
                + OpenedAt(close, before), e.industry, x.limits, None, e.symbol,
            x.costs, st.monitor.state)
  }

  /** The signal's symbol is neither held nor bought already, its industry has a place left, and it has a positive
      close. */
  ghost predicate FreeAt(x: Inputs, st: RunState, close: Symbol -> real, before: seq<Order>, e: EntrySignal) {
    && e.symbol !in st.entries && (forall o | o in before :: o.symbol != e.symbol)
    && (e.industry.Some? ==>
          |StayingIn(st.entries, st.pending, e.industry.value)| + |BoughtIn(before, e.industry.value)|
          < x.strategy.maxPerIndustry)
    && close(e.symbol) > 0.0
  }

  /** The purchase of the `i`-th selected signal, if there is one, follows the purchases before it. */
  ghost predicate TurnOf(x: Inputs, st: RunState, marks: seq<real>, close: Symbol -> real, date: Date,
                         selected: seq<EntrySignal>, buys: seq<Order>, upto: seq<nat>, i: nat)
    requires |marks| == |st.ledger.positions| && st.snapshots != [] && i < |selected| && |upto| == |selected| + 1
  {
    upto[i] <= upto[i + 1] <= |buys|
    && var before, e := buys[..upto[i]], selected[i];
       var quantity := Quantity(AskedAt(x, st, marks, close, before, e));
       buys[upto[i]..upto[i + 1]]
       == if FreeAt(x, st, close, before, e) && quantity > 0
          then [Order(Buy, e.symbol, quantity, date, e.industry, [EntrySignalled])] else []
  }

  // ----- it is the plan of the close

  lemma {:induction false} ProjectedIsHeld(m: Market, k: nat, ps: seq<LedgerPosition>, closes: map<Symbol, real>,
                                           entries: map<Symbol, EntryState>, marks: seq<real>)
    requires k <= |m.dates| && ClosesSeen(m, k, closes) && AllOpen(ps) && AllMarked(m, k, ps, marks)
    ensures Projected(ps, closes, entries) == HeldAt(ps, marks, entries)
  {
    hide ClosesSeen, MarkedAt, Part, MarketValue;
    if ps == [] {
    } else {
      assert OpenPosition(ps[0]) && MarkedAt(m, k, ps[0], marks[0]);
      LaterMarked(m, k, ps, marks);
      MarkIs(m, k, closes, ps[0], marks[0]);
      ProjectedIsHeld(m, k, ps[1..], closes, entries, marks[1..]);
      assert HeldAt(ps, marks, entries)[1..] == HeldAt(ps[1..], marks[1..], entries);
      MarkedValue(ps[0], closes, marks[0]);
    }
  }

  lemma MarkedValue(p: LedgerPosition, closes: map<Symbol, real>, mark: real)
    requires p.quantity > 0
    requires mark == if p.symbol in closes then closes[p.symbol] else p.costBasis / p.quantity as real
    ensures MarketValue(p, closes) == Part(mark, p.quantity as real)
  {
  }

  /** Positions of an industry that stay, counted as symbols. */
  function StayingOf(ps: seq<Position>, exiting: set<Symbol>, c: Industry): set<Symbol> {
    set p | p in ps && p.quantity > 0 && p.symbol !in exiting && p.industry == Some(c) :: p.symbol
  }

  lemma {:induction false} CountsAreStaying(ps: seq<Position>, exiting: set<Symbol>, c: Industry)
    requires forall i, j | 0 <= i < j < |ps| :: ps[i].symbol != ps[j].symbol
    ensures CountOf(IndustryCounts(ps, exiting), c) == |StayingOf(ps, exiting, c)|
  {
    if ps == [] {
      assert StayingOf(ps, exiting, c) == {};
    } else {
      var last, before := ps[|ps| - 1], ps[..|ps| - 1];
      CountsAreStaying(before, exiting, c);
      Incremented(IndustryCounts(before, exiting), last.industry, c);
      assert forall p :: p in ps <==> p == last || p in before;
      assert last.symbol !in StayingOf(before, exiting, c);
      assert StayingOf(ps, exiting, c)
          == StayingOf(before, exiting, c)
             + if last.quantity > 0 && last.symbol !in exiting && last.industry == Some(c) then {last.symbol} else {};
    }
  }

  lemma {:induction false} HeldOnce(ps: seq<LedgerPosition>)
    requires Distinct(ps)
    ensures forall i, j | 0 <= i < j < |ps| :: ps[i].symbol != ps[j].symbol
  {
    if ps == [] {
    } else {
      HeldOnce(ps[1..]);
      forall j | 0 < j < |ps| ensures ps[0].symbol != ps[j].symbol {
        assert ps[j] == ps[1..][j - 1] && ps[j] in ps[1..];
      }
      forall i, j | 0 < i < j < |ps| ensures ps[i].symbol != ps[j].symbol {
        assert ps[i] == ps[1..][i - 1] && ps[j] == ps[1..][j - 1];
      }
    }
  }

  lemma {:induction false} StayingAre(ps: seq<LedgerPosition>, marks: seq<real>, entries: map<Symbol, EntryState>,
                                      os: seq<Order>, c: Industry)
    requires |marks| == |ps| && Distinct(ps) && AllOpen(ps) && entries.Keys == Held(ps)
    ensures CountOf(IndustryCounts(HeldAt(ps, marks, entries), Leaving(os)), c) == |StayingIn(entries, os, c)|
  {
    var held := HeldAt(ps, marks, entries);
    HeldOnce(ps);
    CountsAreStaying(held, Leaving(os), c);
    forall s ensures s in StayingOf(held, Leaving(os), c) <==> s in StayingIn(entries, os, c) {
      if s in StayingIn(entries, os, c) {
        assert s in Held(ps);
        var i :| 0 <= i < |ps| && ps[i].symbol == s;
        assert ps[i] in ps && OpenPosition(ps[i]) && held[i] in held;
      }
      if s in StayingOf(held, Leaving(os), c) {
        var i :| 0 <= i < |held| && held[i].symbol == s && held[i].symbol !in Leaving(os)
            && held[i].industry == Some(c);
        assert ps[i] in ps && ps[i].symbol in Held(ps);
      }
    }
    assert StayingOf(held, Leaving(os), c) == StayingIn(entries, os, c);
  }

  lemma {:induction false} ReferenceIsClose(x: Inputs, date: Date, e: EntrySignal, d: Desk)
    requires SignalsOn(MarketOf(x), date).Ok? && d.signals == SignalsOn(MarketOf(x), date).value
    requires Ranks(d.signals.ranked, e.symbol)
    ensures PricedAt(d, CloseToday(MarketOf(x), date), e)
  {
    hide MarketOf, FeatureOf, Qualifies, RankCandidates, HistoryIn, Restrict, EligibleOn, Candidates, Ranks;
    var m := MarketOf(x);
    MarketIsOf(x);
    RankedIff(x, date, e.symbol);
    RankedFeaturesAre(x, date);
    hide RankedFeatures;
    assert HasFeature(RankedFeatures(m, date), e.symbol);
    var f :| f in RankedFeatures(m, date) && f.symbol == e.symbol;
    FeatureCloses(x, date, f);
    FollowedIfFeatured(x, date, e.symbol);
    LookupIsFeature(m, m.symbols, date, e.symbol);
  }

  lemma {:induction false} FollowedIfFeatured(x: Inputs, date: Date, s: Symbol)
    requires Qualifies(MarketOf(x), s, date)
    ensures s in MarketOf(x).symbols
  {
    hide MarketOf, Pooled, Wanted, BarsOn;
    MarketIsOf(x);
    PooledIff(MarketOf(x), s, date);
    PoolIsFollowed(x, date);
  }

  lemma {:induction false} FeatureCloses(x: Inputs, date: Date, f: Feature)
    requires SignalsOn(MarketOf(x), date).Ok? && Features(MarketOf(x), MarketOf(x).symbols, date).Ok?
    requires f in RankedFeatures(MarketOf(x), date)
    ensures f.close == Some(CloseToday(MarketOf(x), date)(f.symbol))
  {
    hide MarketOf, RankedFeatures, IsCandidate, InOrder, BuildStrong, BuildTrend, History, TailMean, TailReturn,
      AmountRatio;
    var m := MarketOf(x);
    MarketIsOf(x);
    RankedFeaturesAre(x, date);
    HistoriesInOrder(x, f.symbol, date);
    HistoriesInOrder(x, x.benchmark, date);
    var h, g := HistoryIn(m, f.symbol, date), HistoryIn(m, x.benchmark, date);
    assert Wanted(x.strategy, h, g, date, x.cutoff);
    match x.strategy {
      case StrongTrend(_, _, _, _, _, _, _, _) => StrongFeatureIs(h, g, f.symbol, date, x.cutoff, f);
      case MovingAverageTrend(_, _, _, short, long, _) => TrendFeatureIs(h, g, f.symbol, date, x.cutoff, short, long);
    }
  }

  // ----- what a close queues

  /** At every close the selected signals are bought in turn: each one whose symbol is not held, whose industry has a
      place left beside the staying positions and the purchases before it, and for which sizing, asked with the cash
      and the positions that those leave, gives a quantity; of exactly that quantity, and nothing else. */
  lemma {:induction false} PurchasesInTurn(x: Inputs, k: nat) returns (marks: seq<real>, upto: seq<nat>)
    requires x.initialEquity > 0.0 && 0 < k < |MarketOf(x).dates| && RunTo(MarketOf(x), k).Ok?
    ensures SignalsOn(MarketOf(x), MarketOf(x).dates[k - 1]).Ok?
    ensures RunTo(MarketOf(x), k).value.snapshots != []
    ensures AllMarked(MarketOf(x), k, RunTo(MarketOf(x), k).value.ledger.positions, marks)
    ensures var st, date := RunTo(MarketOf(x), k).value, MarketOf(x).dates[k - 1];
            var selected := Select(SignalsOn(MarketOf(x), date).value.ranked, x.strategy.maxPositions,
                                   x.strategy.maxPerIndustry);
            var buys := Purchases(st.pending);
            && |upto| == |selected| + 1 && upto[0] == 0 && upto[|selected|] == |buys|
            && forall i: nat | i < |selected| ::
                 TurnOf(x, st, marks, CloseToday(MarketOf(x), date), date, selected, buys, upto, i)
  {
    hide MarketOf, Queue, SignalsOn, Trade, Mark, NextDay, AllMarked, AllFit, CloseToday, Select, TurnOf;
    var m := MarketOf(x);
    var date := m.dates[k - 1];
    var before, st := RunTo(m, k - 1).value, RunTo(m, k).value;
    RunIsOrderly(x, k - 1);
    EndsQueueing(m, k - 1, before);
    MarkKeepsOrderly(m, k - 1, before);
    var closed := Mark(m, k - 1, before, Trade(m, k - 1, before).value);
    QueueChangesOrders(m, k - 1, closed, SignalsOn(m, date).value);
    marks := EquityIsMarked(x, k);
    RunSeesCloses(x, k);
    upto := CloseInTurn(x, k, closed, st, marks);
  }

  /** The queueing of one close. */
  lemma {:induction false} CloseInTurn(x: Inputs, k: nat, closed: RunState, st: RunState, marks: seq<real>)
    returns (upto: seq<nat>)
    requires 0 < k < |MarketOf(x).dates| && SignalsOn(MarketOf(x), MarketOf(x).dates[k - 1]).Ok?
    requires Orderly(MarketOf(x), closed) && closed.snapshots != []
    requires st == Queue(MarketOf(x), k - 1, closed, SignalsOn(MarketOf(x), MarketOf(x).dates[k - 1]).value)
    requires st == closed.(streak := st.streak, pending := st.pending)
    requires ClosesSeen(MarketOf(x), k, st.lastCloses) && AllMarked(MarketOf(x), k, st.ledger.positions, marks)
    ensures var date := MarketOf(x).dates[k - 1];
            var selected := Select(SignalsOn(MarketOf(x), date).value.ranked, x.strategy.maxPositions,
                                   x.strategy.maxPerIndustry);
            var buys := Purchases(st.pending);
            && |upto| == |selected| + 1 && upto[0] == 0 && upto[|selected|] == |buys|
            && forall i: nat | i < |selected| ::
                 TurnOf(x, st, marks, CloseToday(MarketOf(x), date), date, selected, buys, upto, i)
  {
    hide MarketOf, SignalsOn, ClosesSeen, AllFit, CloseToday, Select, TurnOf, PlanAll, Exits, MarketSeen, NextStreak,
      Projected,
      IndustryCounts, Sound, SymbolsOf, Bought, Accounted, Purchases, MarkedAt;
    var m := MarketOf(x);
    MarketIsOf(x);
    var date := m.dates[k - 1];
    var signals := SignalsOn(m, date).value;
    var selected := Select(signals.ranked, x.strategy.maxPositions, x.strategy.maxPerIndustry);
    var streak := NextStreak(m.x.strategy, MarketSeen(signals.features), closed.streak);
    var exits := Exits(m.x.strategy, signals, closed.entries, k - 1, streak, closed.ledger.positions);
    var d := DeskOf(m, signals, exits, closed);
    var start := FirstPlan(d, closed);
    QueuedOrders(m, k - 1, closed, signals);
    SignalsAreDated(m, date);
    var close := CloseToday(m, date);
    forall e | e in selected ensures PricedAt(d, close, e) {
      SelectedRanks(signals.ranked, x.strategy.maxPositions, x.strategy.maxPerIndustry, e);
      ReferenceIsClose(x, date, e, d);
    }
    upto := PlanBuys(d, start, close, selected);
    var buys := PlanAll(d, start, selected).orders;
    PlannedAreBuys(d, closed.ledger.positions, start, PlanAll(d, start, selected));
    PurchasesOf(exits, buys);
    LeavingAre(exits, buys);
    ProjectedIsHeld(m, k, st.ledger.positions, st.lastCloses, st.entries, marks);
    forall i: nat | i < |selected| ensures TurnOf(x, st, marks, close, date, selected, buys, upto, i) {
      assert TurnAt(d, start, close, selected, buys, upto, i);
      TurnIs(x, st, marks, close, date, selected, buys, upto, i, d, start);
    }
  }

  lemma {:induction false} SelectedRanks(ranked: seq<EntrySignal>, maxPositions: int, maxPerIndustry: int,
                                         e: EntrySignal)
    requires e in Select(ranked, maxPositions, maxPerIndustry)
    ensures Ranks(ranked, e.symbol)
  {
    var last, before := ranked[|ranked| - 1], ranked[..|ranked| - 1];
    assert last in ranked && forall r | r in before :: r in ranked;
    if e in Select(before, maxPositions, maxPerIndustry) {
      SelectedRanks(before, maxPositions, maxPerIndustry, e);
    }
  }

  lemma {:induction false} LeavingAre(exits: seq<Order>, buys: seq<Order>)
    requires (forall o | o in exits :: o.side == Sell) && forall o | o in buys :: o.side == Buy
    ensures Leaving(exits + buys) == SymbolsOf(exits)
  {
    assert forall o :: o in exits + buys <==> o in exits || o in buys;
  }

  /** A turn of the plan is a turn of the run. */
  lemma {:induction false} TurnIs(x: Inputs, st: RunState, marks: seq<real>, close: Symbol -> real, date: Date,
                                  selected: seq<EntrySignal>, buys: seq<Order>, upto: seq<nat>, i: nat, d: Desk,
                                  start: Plan)
    requires |marks| == |st.ledger.positions| && st.snapshots != [] && i < |selected| && |upto| == |selected| + 1
    requires Valid(st.ledger) && st.entries.Keys == Held(st.ledger.positions)
    requires d.x == x && d.equity == st.snapshots[|st.snapshots| - 1].equity && d.state == st.monitor.state
    requires d.signals.date == date && d.exiting == Leaving(st.pending) && d.exiting <= st.entries.Keys
    requires start.cash == st.ledger.cash && start.projected == HeldAt(st.ledger.positions, marks, st.entries)
    requires start.counts == IndustryCounts(start.projected, d.exiting)
    requires TurnAt(d, start, close, selected, buys, upto, i)
    ensures TurnOf(x, st, marks, close, date, selected, buys, upto, i)
  {
    hide Quantity, Spent, OpenedAt, BoughtIn, StayingIn, IndustryCounts;
    var before, e := buys[..upto[i]], selected[i];
    assert Asked(d, start, close, before, e) == AskedAt(x, st, marks, close, before, e);
    if e.industry.Some? { StayingAre(st.ledger.positions, marks, st.entries, st.pending, e.industry.value); }
    HeldSymbols(st.ledger.positions, marks, st.entries, e.symbol);
    assert Free(d, start, close, before, e) <==> FreeAt(x, st, close, before, e);
  }

  lemma {:induction false} HeldSymbols(ps: seq<LedgerPosition>, marks: seq<real>, entries: map<Symbol, EntryState>,
                                       s: Symbol)
    requires |marks| == |ps|
    ensures s in Held(ps) <==> exists p | p in HeldAt(ps, marks, entries) :: p.symbol == s
  {
    var held := HeldAt(ps, marks, entries);
    if s in Held(ps) {
      var i :| 0 <= i < |ps| && ps[i].symbol == s;
      assert held[i] in held;
    }
    if p :| p in held && p.symbol == s {
      var i :| 0 <= i < |held| && held[i] == p;
      assert ps[i] in ps;
    }
  }

  // ----- the limit per industry

  /** Wherever the purchases so far have one in an industry, they keep its limit. */
  ghost predicate LimitKept(x: Inputs, st: RunState, buys: seq<Order>, c: Industry) {
    BoughtIn(buys, c) != {} ==>
      |StayingIn(st.entries, st.pending, c)| + |BoughtIn(buys, c)| <= x.strategy.maxPerIndustry
  }

  lemma {:induction false} TurnKeepsLimit(x: Inputs, st: RunState, marks: seq<real>, close: Symbol -> real, date: Date,
                                          selected: seq<EntrySignal>, buys: seq<Order>, upto: seq<nat>, i: nat,
                                          c: Industry)
    requires |marks| == |st.ledger.positions| && st.snapshots != [] && i < |selected| && |upto| == |selected| + 1
    requires TurnOf(x, st, marks, close, date, selected, buys, upto, i) && LimitKept(x, st, buys[..upto[i]], c)
    ensures upto[i + 1] <= |buys| && LimitKept(x, st, buys[..upto[i + 1]], c)
  {
    hide StayingIn, AskedAt, BoughtIn, Quantity;
    var before, more := buys[..upto[i]], buys[upto[i]..upto[i + 1]];
    assert buys[..upto[i + 1]] == before + more;
    if more == [] {
      assert before + more == before;
    } else {
      assert more == [more[0]];
      BoughtSnoc(before, more[0], c);
      if more[0].industry != Some(c) { NoneBought(before, more[0], c); }
    }
  }

  lemma NoneBought(os: seq<Order>, o: Order, c: Industry)
    requires o.industry != Some(c)
    ensures BoughtIn(os + [o], c) == BoughtIn(os, c)
  {
  }

  lemma {:induction false} TurnsKeepLimit(x: Inputs, st: RunState, marks: seq<real>, close: Symbol -> real, date: Date,
                                          selected: seq<EntrySignal>, buys: seq<Order>, upto: seq<nat>, n: nat,
                                          c: Industry)
    requires |marks| == |st.ledger.positions| && st.snapshots != [] && |upto| == |selected| + 1 && upto[0] == 0
    requires n <= |selected|
    requires forall i: nat | i < |selected| :: TurnOf(x, st, marks, close, date, selected, buys, upto, i)
    ensures upto[n] <= |buys| && LimitKept(x, st, buys[..upto[n]], c)
  {
    hide TurnOf, LimitKept;
    if n == 0 {
      NothingKept(x, st, c);
      assert buys[..0] == [];
    } else {
      TurnsKeepLimit(x, st, marks, close, date, selected, buys, upto, n - 1, c);
      assert TurnOf(x, st, marks, close, date, selected, buys, upto, n - 1);
      TurnKeepsLimit(x, st, marks, close, date, selected, buys, upto, n - 1, c);
    }
  }

  lemma NothingKept(x: Inputs, st: RunState, c: Industry)
    ensures LimitKept(x, st, [], c)
  {
    assert BoughtIn([], c) == {};
  }

  /** After every close that queues a purchase in a known industry, the held symbols of that industry that are not to be
      sold and the purchases in it together keep the limit per industry. */
  lemma {:induction false} IndustriesKeepLimit(x: Inputs, k: nat, c: Industry)
    requires x.initialEquity > 0.0 && 0 < k < |MarketOf(x).dates| && RunTo(MarketOf(x), k).Ok?
    ensures var st := RunTo(MarketOf(x), k).value;
            BoughtIn(Purchases(st.pending), c) != {} ==>
              |StayingIn(st.entries, st.pending, c)| + |BoughtIn(Purchases(st.pending), c)| <= x.strategy.maxPerIndustry
  {
    hide MarketOf, RunTo, SignalsOn, AllMarked, CloseToday, TurnOf, Select, StayingIn, BoughtIn, Purchases;
    var marks, upto := PurchasesInTurn(x, k);
    var st, date := RunTo(MarketOf(x), k).value, MarketOf(x).dates[k - 1];
    var selected := Select(SignalsOn(MarketOf(x), date).value.ranked, x.strategy.maxPositions,
                           x.strategy.maxPerIndustry);
    var buys := Purchases(st.pending);
    MarkedAll(x, k, st.ledger.positions, marks);
    TurnsKeepLimit(x, st, marks, CloseToday(MarketOf(x), date), date, selected, buys, upto, |selected|, c);
    assert buys[..|buys|] == buys;
  }

  lemma MarkedAll(x: Inputs, k: nat, ps: seq<LedgerPosition>, marks: seq<real>)
    requires k <= |MarketOf(x).dates| && AllOpen(ps) && AllMarked(MarketOf(x), k, ps, marks)
    ensures |marks| == |ps|
  {
  }
}
