/** Whole-run safety of the backtest: caps on every day, and a day loop that never gets stuck. */
module RunTheorems {
  import opened Common
  import opened Costs
  import opened Simulator
  import opened Ledger
  import opened Drawdown
  import opened Allocation
  import opened Selection
  import opened EventLoop
  import opened OrderBook
  import opened Planning
  import opened RunSafety

  /** After every day: cash is not negative, there is an entry for exactly the held symbols, and there are
      at most as many positions as the limits allow. */
  lemma HoldingsStayWithinLimits(x: Inputs, k: nat)
    requires x.initialEquity > 0.0 && k <= |MarketOf(x).dates| && RunTo(MarketOf(x), k).Ok?
    ensures var st := RunTo(MarketOf(x), k).value;
            && st.ledger.cash >= 0.0
            && st.entries.Keys == Held(st.ledger.positions)
            && |st.ledger.positions| <= (if x.limits.maxPositions >= 0 then x.limits.maxPositions else 0)
  {
    hide MarketOf, RunTo;
    RunIsOrderly(x, k);
  }

  // ----- caps on the purchases queued at a close

  function Purchases(os: seq<Order>): seq<Order> {
    if os == [] then []
    else if os[0].side == Buy then [os[0]] + Purchases(os[1..])
    else Purchases(os[1..])
  }

  /** The planned value of the orders, of all or of one industry. */
  function PlannedValue(d: Desk, os: seq<Order>): real {
    if os == [] then 0.0 else Notional(PriceOf(d, os[0].symbol), os[0].quantity) + PlannedValue(d, os[1..])
  }

  function PlannedIn(d: Desk, os: seq<Order>, industry: Option<Industry>): real {
    if os == [] then 0.0
    else (if os[0].industry == industry then Notional(PriceOf(d, os[0].symbol), os[0].quantity) else 0.0)
         + PlannedIn(d, os[1..], industry)
  }

  lemma {:induction false} PurchasesOf(exits: seq<Order>, buys: seq<Order>)
    requires (forall o | o in exits :: o.side == Sell) && (forall o | o in buys :: o.side == Buy)
    ensures Purchases(exits + buys) == buys
  {
    if exits != [] {
      assert (exits + buys)[1..] == exits[1..] + buys;
      PurchasesOf(exits[1..], buys);
    } else {
      assert exits + buys == buys;
      if buys != [] {
        PurchasesOf([], buys[1..]);
        assert [] + buys[1..] == buys[1..];
      }
    }
  }

  lemma {:induction false} ValueOfOpened(d: Desk, start: seq<Position>, os: seq<Order>, industry: Option<Industry>)
    ensures Invested(start + AllOpened(d, os)) == Invested(start) + PlannedValue(d, os)
    ensures IndustryValue(start + AllOpened(d, os), industry) == IndustryValue(start, industry)
              + PlannedIn(d, os, industry)
  {
    hide Notional;
    if os == [] {
      assert start + AllOpened(d, os) == start;
    } else {
      var first, n := os[..|os| - 1], |os| - 1;
      ValueOfOpened(d, start, first, industry);
      assert start + AllOpened(d, os) == (start + AllOpened(d, first)) + [Opened(d, os[n])];
      AppendPosition(start + AllOpened(d, first), Opened(d, os[n]), 0, industry);
      PlannedSnoc(d, first, os[n], industry);
      assert os == first + [os[n]];
    }
  }

  lemma {:induction false} PlannedSnoc(d: Desk, os: seq<Order>, o: Order, industry: Option<Industry>)
    ensures PlannedValue(d, os + [o]) == PlannedValue(d, os) + Notional(PriceOf(d, o.symbol), o.quantity)
    ensures PlannedIn(d, os + [o], industry)
         == PlannedIn(d, os, industry) + if o.industry == industry then Notional(PriceOf(d, o.symbol), o.quantity)
             else 0.0
  {
    hide Notional;
    if os != [] {
      PlannedSnoc(d, os[1..], o, industry);
      assert (os + [o])[1..] == os[1..] + [o];
    } else {
      assert (os + [o])[1..] == [];
    }
  }

  /** The day's prices and equity, as a desk for valuing orders. */
  function DeskAfter(x: Inputs, signals: Signals, st: RunState): Desk
    requires st.snapshots != []
  {
    Desk(x, signals, st.snapshots[|st.snapshots| - 1].equity, st.monitor.state, {})
  }

  lemma {:induction false} DeskPrices(d: Desk, e: Desk, os: seq<Order>, industry: Option<Industry>)
    requires d.signals == e.signals && d.x == e.x
    requires forall o | o in os :: o.quantity >= 0 && PriceOf(d, o.symbol) >= 0.0
    ensures forall o | o in os :: PriceOf(d, o.symbol) == PriceOf(e, o.symbol)
    ensures PlannedValue(d, os) == PlannedValue(e, os) && PlannedIn(d, os, industry) == PlannedIn(e, os, industry)
    ensures EstimatedCost(d, os) == EstimatedCost(e, os)
  {
    hide Notional, BuyTotal;
    if os == [] {
    } else {
      DeskPrices(d, e, os[1..], industry);
      DeskPricesLast(d, e, os);
    }
  }

  lemma {:induction false} DeskPricesLast(d: Desk, e: Desk, os: seq<Order>)
    requires d.signals == e.signals && d.x == e.x
    requires forall o | o in os :: o.quantity >= 0 && PriceOf(d, o.symbol) >= 0.0
    ensures forall o | o in os :: PriceOf(d, o.symbol) == PriceOf(e, o.symbol)
    ensures EstimatedCost(d, os) == EstimatedCost(e, os)
  {
    hide BuyTotal;
    if os == [] {
    } else {
      assert os[|os| - 1] in os;
      DeskPricesLast(d, e, os[..|os| - 1]);
    }
  }

  /** Purchases `buys` beside `count` held positions `held`: each is of at least a lot at a positive price.
      When there are any, the monitor is NORMAL, their estimated costs fit in the cash, held and planned
      positions stay within the position limit, held and planned value within the investment cap, and every
      purchase and its industry within theirs. */
  ghost predicate CapsHold(d: Desk, held: seq<Position>, buys: seq<Order>, cash: real) {
    && (forall o | o in buys :: o.quantity >= d.x.limits.lotSize && PriceOf(d, o.symbol) > 0.0)
    && (buys != [] ==>
          && d.state == Normal
          && EstimatedCost(d, buys) <= cash
          && |held| + |buys| <= d.x.limits.maxPositions
          && Invested(held) + PlannedValue(d, buys) <= InvestmentCap(d))
    && (forall o | o in buys ::
          && Notional(PriceOf(d, o.symbol), o.quantity) <= PositionCap(d)
          && IndustryValue(held, o.industry) + PlannedIn(d, buys, o.industry) <= IndustryCap(d))
  }

  /** The purchases queued at a close keep the caps beside the ledger's positions, at that close's prices. */
  ghost predicate CapsKept(x: Inputs, signals: Signals, st: RunState)
    requires Valid(st.ledger) && st.snapshots != []
  {
    CapsHold(DeskAfter(x, signals, st), Projected(st.ledger.positions, st.lastCloses, st.entries),
             Purchases(st.pending), st.ledger.cash)
  }

  lemma CapsCarryOver(d: Desk, e: Desk)
    requires d.equity == e.equity && d.x == e.x
    ensures PositionCap(d) == PositionCap(e) && IndustryCap(d) == IndustryCap(e) && InvestmentCap(d) == InvestmentCap(e)
  {
    hide ShareOf;
  }

  lemma {:induction false} SoundHolds(d: Desk, ps: seq<LedgerPosition>, start: Plan, plan: Plan)
    requires Sound(d, ps, start, plan) && start.orders == [] && |start.projected| == |ps|
    ensures CapsHold(d, start.projected, plan.orders, start.cash)
  {
    hide Notional, SoundCounts, PositionCap, IndustryCap, InvestmentCap, BuyTotal, EstimatedCost;
    ValueOfOpened(d, start.projected, plan.orders, None);
    forall o | o in plan.orders
      ensures Notional(PriceOf(d, o.symbol), o.quantity) <= PositionCap(d) && d.state == Normal
      ensures IndustryValue(start.projected, o.industry) + PlannedIn(d, plan.orders, o.industry) <= IndustryCap(d)
    {
      assert Purchase(d, ps, o);
      ValueOfOpened(d, start.projected, plan.orders, o.industry);
    }
    if plan.orders == [] {
    } else {
      assert plan.orders[0] in plan.orders;
    }
  }

  lemma {:induction false} DeskCarriesOver(d: Desk, e: Desk, held: seq<Position>, buys: seq<Order>, cash: real)
    requires d.signals == e.signals && d.x == e.x && d.equity == e.equity && d.state == e.state
    requires CapsHold(d, held, buys, cash)
    ensures CapsHold(e, held, buys, cash)
  {
    CapsCarryOver(d, e);
    DeskPrices(d, e, buys, None);
    hide Notional, PositionCap, IndustryCap, InvestmentCap, EstimatedCost, PlannedValue, PlannedIn, Lookup;
    forall o | o in buys ensures PlannedIn(e, buys, o.industry) == PlannedIn(d, buys, o.industry) {
      DeskPrices(d, e, buys, o.industry);
    }
  }

  lemma {:induction false} QueueKeepsCaps(m: Market, index: int, closed: RunState, signals: Signals)
    requires Valid(closed.ledger) && closed.snapshots != []
    ensures CapsKept(m.x, signals, Queue(m, index, closed, signals))
  {
    hide Exits, Select, PlanAll, CapsHold, Sound, MarketSeen, NextStreak, Projected, IndustryCounts, SymbolsOf, AllFit,
      Buys, Purchases;
    var st := Queue(m, index, closed, signals);
    var ps := closed.ledger.positions;
    var streak := NextStreak(m.x.strategy, MarketSeen(signals.features), closed.streak);
    var exits := Exits(m.x.strategy, signals, closed.entries, index, streak, ps);
    var d := DeskOf(m, signals, exits, closed);
    var start := FirstPlan(d, closed);
    var plan := PlanAll(d, start, Select(signals.ranked, m.x.strategy.maxPositions, m.x.strategy.maxPerIndustry));
    QueuedOrders(m, index, closed, signals);
    HoldsProjected(ps, closed.lastCloses, closed.entries, 0);
    SoundHolds(d, ps, start, plan);
    PlannedAreBuys(d, ps, start, plan);
    PurchasesOf(exits, plan.orders);
    DeskCarriesOver(d, DeskAfter(m.x, signals, st), start.projected, plan.orders, start.cash);
  }

  lemma {:induction false} PlannedAreBuys(d: Desk, ps: seq<LedgerPosition>, start: Plan, plan: Plan)
    requires Sound(d, ps, start, plan)
    ensures forall o | o in plan.orders :: o.side == Buy
  {
    assert forall o | o in plan.orders :: Purchase(d, ps, o);
  }

  /** A day but the last ends by queueing orders at its close. */
  lemma {:induction false} EndsQueueing(m: Market, index: nat, st: RunState)
    requires Healthy(st) && index < |m.dates| - 1 && NextDay(m, index, st).Ok?
    ensures Trade(m, index, st).Ok? && SignalsOn(m, m.dates[index]).Ok?
    ensures var closed := Mark(m, index, st, Trade(m, index, st).value);
            Healthy(closed) && closed.snapshots != []
            && NextDay(m, index, st).value == Queue(m, index, closed, SignalsOn(m, m.dates[index]).value)
            && NextDay(m, index, st).value.snapshots == closed.snapshots
  {
    hide Trade, SignalsOn, SnapshotOf, AfterSnapshot, Observed, Exits, PlanAll, FirstPlan, Select;
  }

  /** On every day that queues a purchase, all queued purchases together keep cash and caps. */
  lemma {:induction false} QueuedPurchasesKeepCaps(x: Inputs, k: nat)
    requires x.initialEquity > 0.0 && 0 < k < |MarketOf(x).dates| && RunTo(MarketOf(x), k).Ok?
    ensures SignalsOn(MarketOf(x), MarketOf(x).dates[k - 1]).Ok?
    ensures RunTo(MarketOf(x), k).value.snapshots != []
    ensures CapsKept(x, SignalsOn(MarketOf(x), MarketOf(x).dates[k - 1]).value, RunTo(MarketOf(x), k).value)
  {
    hide MarketOf, Queue, SignalsOn, Trade, CapsKept, Mark, NextDay, Valid;
    var m := MarketOf(x);
    var before := RunTo(m, k - 1).value;
    EndsQueueing(m, k - 1, before);
    var closed := Mark(m, k - 1, before, Trade(m, k - 1, before).value);
    QueueKeepsCaps(m, k - 1, closed, SignalsOn(m, m.dates[k - 1]).value);
  }
}
