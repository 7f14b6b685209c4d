/** What a day's close may queue: whole-position sales, and purchases that fit cash and every cap together. */
module Planning {
  import opened Common
  import opened Costs
  import opened Simulator
  import opened Ledger
  import opened Drawdown
  import opened Allocation
  import opened Selection
  import opened Strategy
  import opened EventLoop
  import opened OrderBook

  // ----- exits

  lemma {:induction false} ExitsFit(strategy: StrategyConfig, signals: Signals, entries: map<Symbol, EntryState>,
                                    index: int, streak: nat, ps: seq<LedgerPosition>)
    requires Distinct(ps) && AllOpen(ps)
    ensures var os := Exits(strategy, signals, entries, index, streak, ps);
            && AllFit(ps, os)
            && SymbolsOf(os) <= Held(ps)
            && Buys(os) == 0
            && forall o | o in os :: o.side == Sell
  {
    if ps == [] {
    } else {
      HeldSplit(ps);
      assert AllOpen(ps[1..]) && OpenPosition(ps[0]);
      ExitsFit(strategy, signals, entries, index, streak, ps[1..]);
      var first := ExitOrder(strategy, signals, entries, index, streak, ps[0]);
      var rest := Exits(strategy, signals, entries, index, streak, ps[1..]);
      assert SymbolsOf(first) <= {ps[0].symbol};
      assert DistinctOrders(first);
      JoinOrders(first, rest);
      forall o | o in first + rest ensures Fits(ps, o) {
        if o in rest {
          assert Fits(ps[1..], o) && o.symbol in SymbolsOf(rest);
        }
      }
    }
  }

  // ----- plans

  /** What one position, one industry and all positions together may be worth that day. */
  function PositionCap(d: Desk): real {
    ShareOf(d.equity, d.x.limits.maxPositionRatio)
  }

  function IndustryCap(d: Desk): real {
    ShareOf(d.equity, d.x.limits.maxIndustryRatio)
  }

  function InvestmentCap(d: Desk): real {
    ShareOf(d.equity, d.x.limits.maxInvestmentRatio)
  }

  /** The day's reference price of a planned symbol. */
  function PriceOf(d: Desk, s: Symbol): real {
    var f := Lookup(d.signals.features, s);
    if f.Some? && f.value.close.Some? then f.value.close.value else 0.0
  }

  /** The position an order would open, valued at the reference price. */
  function Opened(d: Desk, o: Order): Position {
    Position(o.symbol, o.quantity, Notional(PriceOf(d, o.symbol), o.quantity), o.industry)
  }

  function AllOpened(d: Desk, os: seq<Order>): (r: seq<Position>)
    ensures |r| == |os|
  {
    if os == [] then [] else AllOpened(d, os[..|os| - 1]) + [Opened(d, os[|os| - 1])]
  }

  /** The estimated cost of the orders: notional and fees at reference prices. */
  function EstimatedCost(d: Desk, os: seq<Order>): real
    requires forall o | o in os :: o.quantity >= 0 && PriceOf(d, o.symbol) >= 0.0
  {
    if os == [] then 0.0
    else
      assert os[|os| - 1] in os;
      EstimatedCost(d, os[..|os| - 1]) + BuyTotal(d.x.costs, PriceOf(d, os[|os| - 1].symbol), os[|os| - 1].quantity)
  }

  /** A purchase that may be queued beside the positions `ps`. */
  ghost predicate Purchase(d: Desk, ps: seq<LedgerPosition>, o: Order) {
    && o.side == Buy && o.quantity >= d.x.limits.lotSize && o.symbol !in Held(ps)
    && PriceOf(d, o.symbol) > 0.0
    && Notional(PriceOf(d, o.symbol), o.quantity) <= PositionCap(d)
    && d.state == Normal
  }

  lemma {:induction false} HoldsProjected(ps: seq<LedgerPosition>, prices: map<Symbol, real>,
                                          entries: map<Symbol, EntryState>, s: Symbol)
    requires AllOpen(ps)
    ensures var r := Projected(ps, prices, entries);
            && |r| == |ps|
            && (Holds(r, s) <==> s in Held(ps))
            && (s !in Held(ps) ==> OtherPositions(r, s) == |ps|)
            && Invested(r) == PositionsValue(ps, prices)
  {
    if ps == [] {
    } else {
      assert OpenPosition(ps[0]) && AllOpen(ps[1..]);
      HoldsProjected(ps[1..], prices, entries, s);
      HeldSplit(ps);
      var r := Projected(ps, prices, entries);
      assert r == [r[0]] + r[1..];
    }
  }

  lemma {:induction false} AppendPosition(ps: seq<Position>, p: Position, s: Symbol, industry: Option<Industry>)
    ensures var r := ps + [p];
            && Invested(r) == Invested(ps) + p.marketValue
            && IndustryValue(r, industry) == IndustryValue(ps, industry)
                + (if p.industry == industry then p.marketValue else 0.0)
            && (Holds(r, s) <==> Holds(ps, s) || p.symbol == s)
            && OtherPositions(r, s) == OtherPositions(ps, s) + (if p.quantity > 0 && p.symbol != s then 1 else 0)
  {
    if ps == [] {
    } else {
      AppendPosition(ps[1..], p, s, industry);
      assert (ps + [p])[1..] == ps[1..] + [p];
    }
  }

  lemma {:induction false} NotHeldHasNoValue(ps: seq<Position>, s: Symbol)
    requires !Holds(ps, s)
    ensures CurrentValue(ps, s) == 0.0
  {
    if ps == [] {
    } else {
      assert ps[0] in ps;
      assert !Holds(ps[1..], s);
      NotHeldHasNoValue(ps[1..], s);
    }
  }

  /** The orders are purchases of different symbols; projected are the positions held, then those opened. */
  ghost predicate SoundOrders(d: Desk, ps: seq<LedgerPosition>, start: Plan, plan: Plan) {
    && DistinctOrders(plan.orders)
    && (forall o | o in plan.orders :: Purchase(d, ps, o))
    && plan.projected == start.projected + AllOpened(d, plan.orders)
  }

  /** Who is held or planned, and how many. */
  ghost predicate SoundCounts(ps: seq<LedgerPosition>, plan: Plan) {
    && (forall s :: Holds(plan.projected, s) <==> s in Held(ps) || s in SymbolsOf(plan.orders))
    && (forall s | !Holds(plan.projected, s) :: OtherPositions(plan.projected, s) == |ps| + |plan.orders|)
  }

  /** The cash is what the orders' estimated costs leave, and once something is queued every cap holds. */
  ghost predicate SoundCaps(d: Desk, ps: seq<LedgerPosition>, start: Plan, plan: Plan)
    requires forall o | o in plan.orders :: o.quantity >= 0 && PriceOf(d, o.symbol) >= 0.0
  {
    && plan.cash == start.cash - EstimatedCost(d, plan.orders)
    && (plan.orders != [] ==>
          && plan.cash >= 0.0
          && |ps| + |plan.orders| <= d.x.limits.maxPositions
          && Invested(plan.projected) <= InvestmentCap(d))
    && (forall o | o in plan.orders :: IndustryValue(plan.projected, o.industry) <= IndustryCap(d))
  }

  ghost predicate Sound(d: Desk, ps: seq<LedgerPosition>, start: Plan, plan: Plan) {
    SoundOrders(d, ps, start, plan) && SoundCounts(ps, plan) && SoundCaps(d, ps, start, plan)
  }

  /** The start of planning is sound. */
  lemma FirstPlanSound(d: Desk, st: RunState)
    requires AllOpen(st.ledger.positions)
    ensures Sound(d, st.ledger.positions, FirstPlan(d, st), FirstPlan(d, st))
  {
    var plan := FirstPlan(d, st);
    forall s ensures Holds(plan.projected, s) <==> s in Held(st.ledger.positions) {
      HoldsProjected(st.ledger.positions, st.lastCloses, st.entries, s);
    }
    forall s | !Holds(plan.projected, s) ensures OtherPositions(plan.projected, s) == |st.ledger.positions| {
      HoldsProjected(st.ledger.positions, st.lastCloses, st.entries, s);
    }
    assert plan.projected + AllOpened(d, []) == plan.projected;
  }

  /** The order and the position one signal adds. */
  function OrderFor(d: Desk, signal: EntrySignal, q: int): Order {
    Order(Buy, signal.symbol, q, d.signals.date, signal.industry, [EntrySignalled])
  }

  /** One signal: either nothing is planned, or one more permitted purchase of at least a lot. */
  lemma EntryIsPurchase(d: Desk, plan: Plan, signal: EntrySignal)
    requires PlanEntry(d, plan, signal) != plan
    ensures var price := PriceOf(d, signal.symbol);
            var q := Quantity(RequestFor(d, plan, signal, price));
            var o := OrderFor(d, signal, q);
            && price > 0.0
            && q >= d.x.limits.lotSize
            && !Holds(plan.projected, signal.symbol)
            && !Blocked(RequestFor(d, plan, signal, price))
            && Permitted(RequestFor(d, plan, signal, price), q)
            && PlanEntry(d, plan, signal) ==
               Plan(plan.cash - BuyTotal(d.x.costs, price, q), plan.projected + [Opened(d, o)],
                    Increment(plan.counts, signal.industry), plan.orders + [o])
  {
    hide Quantity, Permitted, Blocked, BuyTotal, Increment, Notional;
    var r := RequestFor(d, plan, signal, PriceOf(d, signal.symbol));
    PositiveQuantityIsPermitted(r);
    QuantityIsWholeLots(r);
  }

  /** The permitted purchase in the terms of the day: gates, caps and cash. */
  lemma EntryFits(d: Desk, plan: Plan, signal: EntrySignal)
    requires PlanEntry(d, plan, signal) != plan
    ensures var price := PriceOf(d, signal.symbol);
            var q := Quantity(RequestFor(d, plan, signal, price));
            && price > 0.0 && q > 0
            && d.state == Normal
            && OtherPositions(plan.projected, signal.symbol) + 1 <= d.x.limits.maxPositions
            && Notional(price, q) <= PositionCap(d)
            && IndustryValue(plan.projected, signal.industry) + Notional(price, q) <= IndustryCap(d)
            && Invested(plan.projected) + Notional(price, q) <= InvestmentCap(d)
            && BuyTotal(d.x.costs, price, q) <= plan.cash
  {
    EntryIsPurchase(d, plan, signal);
    NotHeldHasNoValue(plan.projected, signal.symbol);
    hide Quantity, BuyTotal, PlanEntry, Notional, NotionalCap, ShareOf, OtherPositions, Invested, IndustryValue;
  }

  lemma QuantityIsWholeLots(r: Request)
    requires r.limits.lotSize > 0 && Quantity(r) > 0
    ensures Quantity(r) >= r.limits.lotSize
  {
    hide Quantity;
    var lots := PositiveQuantityLots(r);
    IntMulMonotone(1, lots, r.limits.lotSize);
  }

  lemma EntryKeepsOrders(d: Desk, ps: seq<LedgerPosition>, start: Plan, plan: Plan, signal: EntrySignal)
    requires SoundOrders(d, ps, start, plan) && SoundCounts(ps, plan)
    requires PlanEntry(d, plan, signal) != plan
    ensures SoundOrders(d, ps, start, PlanEntry(d, plan, signal))
  {
    hide Quantity, BuyTotal, PlanEntry, Notional, Permitted, Blocked, PositionCap, IndustryCap, InvestmentCap,
      OtherPositions,
      Invested, IndustryValue, Increment, PriceOf, AllOpened;
    EntryIsPurchase(d, plan, signal);
    EntryFits(d, plan, signal);
    var o := OrderFor(d, signal, Quantity(RequestFor(d, plan, signal, PriceOf(d, signal.symbol))));
    assert Purchase(d, ps, o);
    JoinOne(plan.orders, o);
    OpenedSnoc(d, plan.orders, o);
    assert start.projected + (AllOpened(d, plan.orders) + [Opened(d, o)]) == plan.projected + [Opened(d, o)];
  }

  lemma JoinOne(os: seq<Order>, o: Order)
    requires DistinctOrders(os) && o.symbol !in SymbolsOf(os)
    ensures DistinctOrders(os + [o]) && SymbolsOf(os + [o]) == SymbolsOf(os) + {o.symbol}
  {
    assert SymbolsOf([o]) == {o.symbol};
    JoinOrders(os, [o]);
  }

  lemma OpenedSnoc(d: Desk, os: seq<Order>, o: Order)
    ensures AllOpened(d, os + [o]) == AllOpened(d, os) + [Opened(d, o)]
  {
    assert (os + [o])[..|os|] == os;
  }

  lemma EstimateSnoc(d: Desk, os: seq<Order>, o: Order)
    requires forall x | x in os + [o] :: x.quantity >= 0 && PriceOf(d, x.symbol) >= 0.0
    requires o in os + [o] && forall x | x in os :: x in os + [o]
    ensures EstimatedCost(d, os + [o]) == EstimatedCost(d, os) + BuyTotal(d.x.costs, PriceOf(d, o.symbol), o.quantity)
  {
    hide BuyTotal;
    assert (os + [o])[..|os|] == os;
  }

  lemma EntryKeepsCounts(d: Desk, ps: seq<LedgerPosition>, plan: Plan, signal: EntrySignal)
    requires SoundCounts(ps, plan)
    requires PlanEntry(d, plan, signal) != plan
    ensures SoundCounts(ps, PlanEntry(d, plan, signal))
    ensures |ps| + |plan.orders| + 1 <= d.x.limits.maxPositions
  {
    hide Quantity, BuyTotal, PlanEntry, Notional, Permitted, Blocked, PositionCap, IndustryCap, InvestmentCap,
      Increment, PriceOf;
    EntryIsPurchase(d, plan, signal);
    EntryFits(d, plan, signal);
    var o := OrderFor(d, signal, Quantity(RequestFor(d, plan, signal, PriceOf(d, signal.symbol))));
    var next := PlanEntry(d, plan, signal);
    assert SymbolsOf(plan.orders + [o]) == SymbolsOf(plan.orders) + {o.symbol};
    forall s ensures Holds(next.projected, s) <==> Holds(plan.projected, s) || s == o.symbol {
      AppendPosition(plan.projected, Opened(d, o), s, None);
    }
    forall s | !Holds(next.projected, s) ensures OtherPositions(next.projected, s) == |ps| + |next.orders| {
      AppendPosition(plan.projected, Opened(d, o), s, None);
    }
  }

  lemma EntryKeepsCaps(d: Desk, ps: seq<LedgerPosition>, start: Plan, plan: Plan, signal: EntrySignal)
    requires SoundOrders(d, ps, start, plan) && SoundCounts(ps, plan) && SoundCaps(d, ps, start, plan)
    requires PlanEntry(d, plan, signal) != plan
    requires SoundOrders(d, ps, start, PlanEntry(d, plan, signal))
    ensures SoundCaps(d, ps, start, PlanEntry(d, plan, signal))
  {
    hide Quantity, BuyTotal, PlanEntry, Notional, Permitted, Blocked, PositionCap, IndustryCap, InvestmentCap,
      SoundCounts,
      AllOpened, Increment, PriceOf, EstimatedCost, Invested, IndustryValue, OtherPositions, DistinctOrders, Holds;
    EntryIsPurchase(d, plan, signal);
    EntryFits(d, plan, signal);
    EntryKeepsCounts(d, ps, plan, signal);
    var o := OrderFor(d, signal, Quantity(RequestFor(d, plan, signal, PriceOf(d, signal.symbol))));
    var next := PlanEntry(d, plan, signal);
    EstimateSnoc(d, plan.orders, o);
    AppendPosition(plan.projected, Opened(d, o), signal.symbol, o.industry);
    forall x | x in next.orders
      ensures IndustryValue(next.projected, x.industry) <= IndustryCap(d)
    {
      AppendPosition(plan.projected, Opened(d, o), signal.symbol, x.industry);
    }
  }

  lemma {:induction false} PlanKeepsSound(d: Desk, ps: seq<LedgerPosition>, start: Plan, plan: Plan,
                                          signals: seq<EntrySignal>)
    requires Sound(d, ps, start, plan)
    ensures Sound(d, ps, start, PlanAll(d, plan, signals))
    decreases signals
  {
    if signals == [] {
    } else {
      var next := PlanEntry(d, plan, signals[0]);
      if next != plan {
        EntryKeepsOrders(d, ps, start, plan, signals[0]);
        EntryKeepsCounts(d, ps, plan, signals[0]);
        EntryKeepsCaps(d, ps, start, plan, signals[0]);
      }
      PlanKeepsSound(d, ps, start, next, signals[1..]);
    }
  }
}
