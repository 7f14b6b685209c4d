/** What a close plans to buy, one selected signal after another: which signals are bought, and exactly how much. */
module PurchasePlans {
  import opened Common
  import opened Costs
  import opened Simulator
  import opened Allocation
  import opened Sizing
  import opened Selection
  import opened EventLoop

  // ----- the account of a plan

  /** What the purchases cost at the closes, with their fees. */
  function Spent(costs: CostModel, close: Symbol -> real, os: seq<Order>): real {
    if os == [] then 0.0
    else
      var o := os[|os| - 1];
      Spent(costs, close, os[..|os| - 1])
      + (Part(close(o.symbol), o.quantity as real) + PurchaseFees(costs, Part(close(o.symbol), o.quantity as real)))
  }

  /** The positions that the purchases will open, at the closes. */
  function OpenedAt(close: Symbol -> real, os: seq<Order>): (r: seq<Position>)
    ensures |r| == |os|
  {
    seq(|os|, i requires 0 <= i < |os| =>
          Position(os[i].symbol, os[i].quantity, Part(close(os[i].symbol), os[i].quantity as real), os[i].industry))
  }

  /** The places of the purchases in an industry. */
  ghost function BoughtIn(os: seq<Order>, industry: Industry): set<nat> {
    set i: nat | i < |os| && os[i].industry == Some(industry)
  }

  function CountOf(counts: map<Industry, int>, industry: Industry): int {
    if industry in counts then counts[industry] else 0
  }

  /** What sizing is asked for a signal after the purchases `before`. */
  function Asked(d: Desk, start: Plan, close: Symbol -> real, before: seq<Order>, signal: EntrySignal): Request {
    Request(close(signal.symbol), start.cash - Spent(d.x.costs, close, before), d.equity,
            start.projected + OpenedAt(close,
                                       before), signal.industry, d.x.limits, None, signal.symbol, d.x.costs, d.state)
  }

  /** The signal is for a symbol that is neither held nor planned nor leaving, whose industry has a place left, and that
      has a positive close. */
  ghost predicate Free(d: Desk, start: Plan, close: Symbol -> real, before: seq<Order>, signal: EntrySignal) {
    && (forall p | p in start.projected :: p.symbol != signal.symbol)
    && (forall o | o in before :: o.symbol != signal.symbol)
    && signal.symbol !in d.exiting
    && (signal.industry.Some? ==>
          CountOf(start.counts, signal.industry.value)
              + |BoughtIn(before, signal.industry.value)| < d.x.strategy.maxPerIndustry)
    && close(signal.symbol) > 0.0
  }

  /** The purchase of a signal after the purchases `before`, if there is one. */
  ghost function Bought(d: Desk, start: Plan, close: Symbol -> real, before: seq<Order>,
                        signal: EntrySignal): seq<Order> {
    var quantity := Quantity(Asked(d, start, close, before, signal));
    if Free(d, start, close, before, signal) && quantity > 0
    then [Order(Buy, signal.symbol, quantity, d.signals.date, signal.industry, [EntrySignalled])] else []
  }

  // ----- it is what the planning loop keeps

  /** The plan after the purchases `plan.orders`. */
  ghost predicate Accounted(d: Desk, start: Plan, close: Symbol -> real, plan: Plan) {
    && plan.cash == start.cash - Spent(d.x.costs, close, plan.orders)
    && plan.projected == start.projected + OpenedAt(close, plan.orders)
    && forall c :: CountOf(plan.counts, c) == CountOf(start.counts, c) + |BoughtIn(plan.orders, c)|
  }

  lemma {:induction false} OpeningSnoc(close: Symbol -> real, os: seq<Order>, o: Order)
    ensures OpenedAt(close, os + [o])
         == OpenedAt(close, os)
            + [Position(o.symbol, o.quantity, Part(close(o.symbol), o.quantity as real), o.industry)]
  {
  }

  lemma {:induction false} BoughtSnoc(os: seq<Order>, o: Order, c: Industry)
    ensures |BoughtIn(os + [o], c)| == |BoughtIn(os, c)| + if o.industry == Some(c) then 1 else 0
  {
    assert |os| !in BoughtIn(os, c);
    assert BoughtIn(os + [o], c) == BoughtIn(os, c) + if o.industry == Some(c) then {|os|} else {};
  }

  lemma {:induction false} SpentSnoc(costs: CostModel, close: Symbol -> real, os: seq<Order>, o: Order)
    ensures Spent(costs, close, os + [o])
         == Spent(costs, close, os)
            + (Part(close(o.symbol), o.quantity as real)
               + PurchaseFees(costs, Part(close(o.symbol), o.quantity as real)))
  {
    assert (os + [o])[..|os|] == os;
    hide Part, PurchaseFees;
  }

  /** The desk's reference price is the close. */
  ghost predicate PricedAt(d: Desk, close: Symbol -> real, signal: EntrySignal) {
    Reference(d, signal) == if close(signal.symbol) > 0.0 then Some(close(signal.symbol)) else None
  }

  lemma {:induction false} HeldIffOpened(close: Symbol -> real, ps: seq<Position>, os: seq<Order>, s: Symbol)
    ensures Holds(ps + OpenedAt(close, os), s)
       <==> (exists p | p in ps :: p.symbol == s) || (exists o | o in os :: o.symbol == s)
  {
    var all := ps + OpenedAt(close, os);
    if p :| p in ps && p.symbol == s { assert p in all; }
    if o :| o in os && o.symbol == s {
      var i :| 0 <= i < |os| && os[i] == o;
      assert OpenedAt(close, os)[i] in all;
    }
    if p :| p in all && p.symbol == s {
      var i :| 0 <= i < |all| && all[i] == p;
      if i < |ps| {
        assert all[i] == ps[i];
      } else {
        assert all[i] == OpenedAt(close, os)[i - |ps|] && os[i - |ps|] in os;
      }
    }
  }

  lemma {:induction false} PassedOverIff(d: Desk, start: Plan, close: Symbol -> real, plan: Plan, signal: EntrySignal)
    requires Accounted(d, start, close, plan) && PricedAt(d, close, signal)
    ensures PassedOver(d, plan, signal) || Reference(d, signal).None? <==> !Free(d, start, close, plan.orders, signal)
  {
    HeldIffOpened(close, start.projected, plan.orders, signal.symbol);
    hide BoughtIn, OpenedAt, Spent, Reference, Holds;
  }

  lemma {:induction false} EntryBuys(d: Desk, start: Plan, close: Symbol -> real, plan: Plan, signal: EntrySignal)
    requires Accounted(d, start, close, plan) && PricedAt(d, close, signal)
    ensures var next := PlanEntry(d, plan, signal);
            next.orders == plan.orders + Bought(d, start, close, plan.orders, signal)
                && Accounted(d, start, close, next)
  {
    hide PassedOver, Free, Reference, Quantity, Increment, BuyTotal, Notional, Spent, OpenedAt, BoughtIn, Part;
    PassedOverIff(d, start, close, plan, signal);
    var next := PlanEntry(d, plan, signal);
    var bought := Bought(d, start, close, plan.orders, signal);
    if bought != [] {
      var o := bought[0];
      FreePrice(d, start, close, plan.orders, signal);
      assert next.orders == plan.orders + [o];
      SpentSnoc(d.x.costs, close, plan.orders, o);
      OpeningSnoc(close, plan.orders, o);
      PurchaseTotal(d.x.costs, close(o.symbol), o.quantity);
      NotionalIsPart(close(o.symbol), o.quantity);
      forall c ensures CountOf(next.counts, c) == CountOf(start.counts, c) + |BoughtIn(next.orders, c)| {
        BoughtSnoc(plan.orders, o, c);
        Incremented(plan.counts, signal.industry, c);
      }
    } else {
      assert plan.orders + [] == plan.orders;
    }
  }

  lemma FreePrice(d: Desk, start: Plan, close: Symbol -> real, before: seq<Order>, signal: EntrySignal)
    requires Free(d, start, close, before, signal)
    ensures close(signal.symbol) > 0.0
  {
  }

  lemma NotionalIsPart(price: real, q: int)
    ensures Notional(price, q) == Part(price, q as real)
  {
  }

  lemma Incremented(counts: map<Industry, int>, industry: Option<Industry>, c: Industry)
    ensures CountOf(Increment(counts, industry), c) == CountOf(counts, c) + if industry == Some(c) then 1 else 0
  {
  }

  /** The purchase of the `i`-th signal, if there is one, is what the purchases before it leave room for. */
  ghost predicate TurnAt(d: Desk, start: Plan, close: Symbol -> real, signals: seq<EntrySignal>, buys: seq<Order>,
                         upto: seq<nat>, i: nat)
    requires i < |signals| && |upto| == |signals| + 1
  {
    upto[i] <= upto[i + 1] <= |buys|
    && buys[upto[i]..upto[i + 1]] == Bought(d, start, close, buys[..upto[i]], signals[i])
  }

  /** Signal after signal is bought in turn. */
  ghost predicate BoughtInTurn(d: Desk, start: Plan, close: Symbol -> real, signals: seq<EntrySignal>, buys: seq<Order>,
                               upto: seq<nat>)
  {
    && |upto| == |signals| + 1 && upto[0] == 0 && upto[|signals|] == |buys|
    && forall i: nat | i < |signals| :: TurnAt(d, start, close, signals, buys, upto, i)
  }

  lemma {:induction false} PlanSnoc(d: Desk, plan: Plan, signals: seq<EntrySignal>, signal: EntrySignal)
    ensures PlanAll(d, plan, signals + [signal]) == PlanEntry(d, PlanAll(d, plan, signals), signal)
    decreases signals
  {
    hide PlanEntry;
    if signals == [] {
      assert [signal][1..] == [] && signals + [signal] == [signal];
      assert PlanAll(d, plan, [signal]) == PlanAll(d, PlanEntry(d, plan, signal), [signal][1..]);
    } else {
      assert (signals + [signal])[1..] == signals[1..] + [signal];
      PlanSnoc(d, PlanEntry(d, plan, signals[0]), signals[1..], signal);
    }
  }

  lemma {:induction false} PlanBuys(d: Desk, start: Plan, close: Symbol -> real, signals: seq<EntrySignal>)
    returns (upto: seq<nat>)
    requires start.orders == [] && forall e | e in signals :: PricedAt(d, close, e)
    ensures Accounted(d, start, close, PlanAll(d, start, signals))
    ensures BoughtInTurn(d, start, close, signals, PlanAll(d, start, signals).orders, upto)
  {
    hide PlanEntry, Bought, PricedAt;
    if signals == [] {
      NothingBought(d, start, close);
      upto := [0];
    } else {
      var n := |signals| - 1;
      var before := signals[..n];
      assert signals == before + [signals[n]] && signals[n] in signals;
      upto := PlanBuys(d, start, close, before);
      PlanSnoc(d, start, before, signals[n]);
      var plan := PlanAll(d, start, before);
      EntryBuys(d, start, close, plan, signals[n]);
      hide Accounted, BoughtInTurn;
      TurnAdded(d, start, close, before, signals[n], plan.orders, upto);
      upto := upto + [|PlanAll(d, start, signals).orders|];
    }
  }

  lemma NothingBought(d: Desk, start: Plan, close: Symbol -> real)
    requires start.orders == []
    ensures Accounted(d, start, close, start)
  {
    forall c ensures |BoughtIn([], c)| == 0 {
      assert BoughtIn([], c) == {};
    }
    assert start.projected + OpenedAt(close, []) == start.projected;
  }

  lemma {:induction false} TurnAdded(d: Desk, start: Plan, close: Symbol -> real, before: seq<EntrySignal>,
                                     e: EntrySignal,
                                     buys: seq<Order>, upto: seq<nat>)
    requires BoughtInTurn(d, start, close, before, buys, upto)
    ensures var more := buys + Bought(d, start, close, buys, e);
            BoughtInTurn(d, start, close, before + [e], more, upto + [|more|])
  {
    hide Bought;
    var more := buys + Bought(d, start, close, buys, e);
    var signals, next := before + [e], upto + [|more|];
    forall i: nat | i < |signals| ensures TurnAt(d, start, close, signals, more, next, i) {
      if i < |before| {
        assert TurnAt(d, start, close, before, buys, upto, i);
        assert more[next[i]..next[i + 1]] == buys[upto[i]..upto[i + 1]] && more[..next[i]] == buys[..upto[i]];
      } else {
        assert more[..next[i]] == buys && more[next[i]..next[i + 1]] == Bought(d, start, close, buys, e);
      }
    }
  }
}
