/** Executing a day's orders keeps the book in step with them: every entry belongs to a held symbol, every
    sale empties its position, every purchase opens one. */
module OrderBook {
  import opened Common
  import opened Sorting
  import opened Costs
  import opened Simulator
  import opened Ledger
  import opened EventLoop

  /** No two orders for one symbol. */
  predicate DistinctOrders(os: seq<Order>) {
    os == [] || (os[0].symbol !in SymbolsOf(os[1..]) && DistinctOrders(os[1..]))
  }

  /** A sale is for the whole position, a purchase for a symbol not held. */
  ghost predicate Fits(ps: seq<LedgerPosition>, o: Order) {
    && o.quantity > 0
    && match o.side
       case Sell => Find(ps, o.symbol).Some? && Find(ps, o.symbol).value.quantity == o.quantity
       case Buy => Find(ps, o.symbol).None?
  }

  ghost predicate Sellable(ps: seq<LedgerPosition>) {
    forall p | p in ps :: p.available == p.quantity
  }

  ghost predicate AllFit(ps: seq<LedgerPosition>, os: seq<Order>) {
    DistinctOrders(os) && forall o | o in os :: Fits(ps, o)
  }

  /** The entry dictionary covers exactly the held symbols, and the orders fit the positions. */
  ghost predicate Tidy(b: Book, os: seq<Order>) {
    b.entries.Keys == Held(b.ledger.positions) && AllFit(b.ledger.positions, os)
  }

  /** Sales among the remaining orders find their position settled. */
  ghost predicate Ready(b: Book, os: seq<Order>) {
    && Tidy(b, os)
    && forall o | o in os && o.side == Sell ::
         Find(b.ledger.positions, o.symbol).value.available == Find(b.ledger.positions, o.symbol).value.quantity
  }

  function Buys(os: seq<Order>): nat {
    if os == [] then 0 else (if os[0].side == Buy then 1 else 0) + Buys(os[1..])
  }

  // ----- sorting and joining orders

  lemma OrdersSplit(os: seq<Order>)
    requires os != []
    ensures SymbolsOf(os) == {os[0].symbol} + SymbolsOf(os[1..])
    ensures forall o :: o in os <==> o == os[0] || o in os[1..]
  {
    assert os == [os[0]] + os[1..];
  }

  lemma {:induction false} JoinOrders(a: seq<Order>, b: seq<Order>)
    requires DistinctOrders(a) && DistinctOrders(b) && SymbolsOf(a) !! SymbolsOf(b)
    ensures DistinctOrders(a + b)
    ensures SymbolsOf(a + b) == SymbolsOf(a) + SymbolsOf(b)
    ensures Buys(a + b) == Buys(a) + Buys(b)
  {
    if a == [] {
      assert a + b == b;
    } else {
      OrdersSplit(a);
      JoinOrders(a[1..], b);
      assert (a + b)[1..] == a[1..] + b;
      OrdersSplit(a + b);
    }
  }

  lemma {:induction false} InsertOrder(o: Order, os: seq<Order>)
    requires DistinctOrders(os) && o.symbol !in SymbolsOf(os)
    ensures var r := Insert(OrderOrder, o, os);
            && DistinctOrders(r) && SymbolsOf(r) == SymbolsOf(os) + {o.symbol}
            && Buys(r) == Buys(os) + if o.side == Buy then 1 else 0
  {
    if os == [] {
    } else if OrderOrder(o, os[0]) {
      OrdersSplit([o] + os);
    } else {
      OrdersSplit(os);
      InsertOrder(o, os[1..]);
      OrdersSplit([os[0]] + Insert(OrderOrder, o, os[1..]));
    }
  }

  lemma {:induction false} SortOrders(os: seq<Order>)
    requires DistinctOrders(os)
    ensures var r := Sort(OrderOrder, os);
            DistinctOrders(r) && SymbolsOf(r) == SymbolsOf(os) && Buys(r) == Buys(os)
  {
    if os == [] {
    } else {
      OrdersSplit(os);
      SortOrders(os[1..]);
      InsertOrder(os[0], Sort(OrderOrder, os[1..]));
    }
  }

  // ----- one order

  lemma EffectOfPurchase(l: LedgerState, x: Symbol, quantity: int, price: real, costs: real)
    requires Valid(l) && FillEffect(l, Buy, x, quantity, price, costs).Ok? && Find(l.positions, x).None?
    ensures var total := Notional(price, quantity) + costs;
            quantity > 0 && FillEffect(l, Buy, x, quantity, price, costs).value
                == (l.cash - total, LedgerPosition(x, quantity, total, 0))
  {
    hide Find, Notional;
  }

  lemma EffectOfSale(l: LedgerState, x: Symbol, quantity: int, price: real, costs: real)
    requires Valid(l) && FillEffect(l, Sell, x, quantity, price, costs).Ok?
    requires Find(l.positions, x).Some? && Find(l.positions, x).value.quantity == quantity
    ensures var effect := FillEffect(l, Sell, x, quantity, price, costs).value;
            effect.0 == l.cash + (Notional(price, quantity) - costs) && effect.1.symbol == x && effect.1.quantity == 0
  {
    hide Find, Notional, ReducedCost;
  }

  lemma EffectSymbol(l: LedgerState, side: Side, x: Symbol, quantity: int, price: real, costs: real)
    requires Valid(l) && FillEffect(l, side, x, quantity, price, costs).Ok?
    ensures FillEffect(l, side, x, quantity, price, costs).value.1.symbol == x
  {
    hide Find, Notional, ReducedCost;
  }

  /** What an applied order does to the position of any symbol: a purchase opens one at its full cost, a
      sale closes its own, others stay. */
  lemma FillFinds(l: LedgerState, o: Order, price: real, costs: real, s: Symbol)
    requires Valid(l) && Fits(l.positions, o) && AfterFill(l, o.side, o.symbol, o.quantity, price, costs).Ok?
    ensures var r := AfterFill(l, o.side, o.symbol, o.quantity, price, costs).value;
            Find(r.positions, s) ==
              if s != o.symbol then Find(l.positions, s)
              else if o.side == Buy then Some(LedgerPosition(s, o.quantity, Notional(price, o.quantity) + costs, 0))
              else None
  {
    hide AfterFill, FillEffect, Notional, Find;
    EffectSymbol(l, o.side, o.symbol, o.quantity, price, costs);
    if o.side == Buy {
      EffectOfPurchase(l, o.symbol, o.quantity, price, costs);
    } else {
      EffectOfSale(l, o.symbol, o.quantity, price, costs);
    }
    FindPut(l.positions, FillEffect(l, o.side, o.symbol, o.quantity, price, costs).value.1, s);
    FindRemove(l.positions, o.symbol, s);
  }

  /** What an applied order does to the holdings as a whole. */
  lemma FillHeld(l: LedgerState, o: Order, price: real, costs: real)
    requires Valid(l) && Fits(l.positions, o) && AfterFill(l, o.side, o.symbol, o.quantity, price, costs).Ok?
    ensures var r := AfterFill(l, o.side, o.symbol, o.quantity, price, costs).value;
            && Held(r.positions) == (if o.side == Buy then Held(l.positions) + {o.symbol}
                                     else Held(l.positions) - {o.symbol})
            && |r.positions| == |l.positions| + (if o.side == Buy then 1 else -1)
  {
    hide AfterFill, FillEffect, Notional, Put, Remove;
    FindIsHeld(l.positions, o.symbol);
    if o.side == Buy {
      EffectOfPurchase(l, o.symbol, o.quantity, price, costs);
      PutShape(l.positions, FillEffect(l, o.side, o.symbol, o.quantity, price, costs).value.1);
    } else {
      EffectOfSale(l, o.symbol, o.quantity, price, costs);
      RemoveShape(l.positions, o.symbol);
    }
  }

  lemma MarkNeverFalls(l: LedgerState, o: Order, price: real, costs: real)
    requires Valid(l) && AfterFill(l, o.side, o.symbol, o.quantity, price, costs).Ok?
    ensures l.highWaterMark <= AfterFill(l, o.side, o.symbol, o.quantity, price, costs).value.highWaterMark
  {
    hide FillEffect, Updated, PositionsValue;
  }

  lemma FindIsHeld(ps: seq<LedgerPosition>, s: Symbol)
    ensures Find(ps, s).Some? <==> s in Held(ps)
  {
  }

  /** After one order the book is ready for the rest; the holdings have grown by at most that order. */
  lemma OrderKeepsReady(costs: CostModel, date: Date, index: int, day: map<Symbol, MarketBar>, os: seq<Order>, b: Book)
    requires Valid(b.ledger) && os != [] && Ready(b, os)
    requires ExecuteOrder(costs, date, index, day, os[0], b).Ok?
    ensures var r := ExecuteOrder(costs, date, index, day, os[0], b).value;
            && Ready(r, os[1..])
            && |r.ledger.positions| <= |b.ledger.positions| + (if os[0].side == Buy then 1 else 0)
            && Held(r.ledger.positions) <= Held(b.ledger.positions) + (if os[0].side == Buy then {os[0].symbol} else {})
            && b.ledger.highWaterMark <= r.ledger.highWaterMark
  {
    var o := os[0];
    var r := ExecuteOrder(costs, date, index, day, o, b).value;
    OrdersSplit(os);
    assert Fits(b.ledger.positions, o);
    FindIsHeld(b.ledger.positions, o.symbol);
    if r.ledger != b.ledger {
      var fill := Execute(costs, o, FullOrNone, day[o.symbol], date).value;
      var price, fees := fill.execution.value.price, fill.execution.value.costs.Total();
      FillHeld(b.ledger, o, price, fees);
      MarkNeverFalls(b.ledger, o, price, fees);
      FillFinds(b.ledger, o, price, fees, o.symbol);
      forall q | q in os[1..]
        ensures Find(r.ledger.positions, q.symbol) == Find(b.ledger.positions, q.symbol)
      {
        assert q.symbol in SymbolsOf(os[1..]);
        FillFinds(b.ledger, o, price, fees, q.symbol);
      }
      forall q | q in os[1..] ensures Fits(r.ledger.positions, q) {
        assert Fits(b.ledger.positions, q);
      }
      AppliedEntries(costs, date, index, day, o, b);
    } else {
      forall q | q in os[1..] ensures Fits(r.ledger.positions, q) {
        assert Fits(b.ledger.positions, q);
      }
    }
  }

  lemma AppliedEntries(costs: CostModel, date: Date, index: int, day: map<Symbol, MarketBar>, o: Order, b: Book)
    requires Valid(b.ledger) && Fits(b.ledger.positions, o)
    requires ExecuteOrder(costs, date, index, day, o, b).Ok?
    requires ExecuteOrder(costs, date, index, day, o, b).value.ledger != b.ledger
    ensures ExecuteOrder(costs, date, index, day, o, b).value.entries.Keys ==
            if o.side == Buy then b.entries.Keys + {o.symbol} else b.entries.Keys - {o.symbol}
  {
    var fill := Execute(costs, o, FullOrNone, day[o.symbol], date).value;
    var price, fees := fill.execution.value.price, fill.execution.value.costs.Total();
    FillFinds(b.ledger, o, price, fees, o.symbol);
  }

  /** The whole day: afterwards the entries are exactly the held symbols again. */
  lemma {:induction false} DayKeepsTidy(costs: CostModel, date: Date, index: int, day: map<Symbol, MarketBar>,
                                        os: seq<Order>, b: Book)
    requires Valid(b.ledger) && Ready(b, os)
    requires ExecuteAll(costs, date, index, day, os, b).Ok?
    ensures var r := ExecuteAll(costs, date, index, day, os, b).value;
            && Tidy(r, [])
            && |r.ledger.positions| <= |b.ledger.positions| + Buys(os)
            && (forall s | s in Held(r.ledger.positions) ::
                  s in Held(b.ledger.positions) || exists o | o in os :: o.side == Buy && o.symbol == s)
            && b.ledger.highWaterMark <= r.ledger.highWaterMark
    decreases os
  {
    if os == [] {
    } else {
      OrderKeepsReady(costs, date, index, day, os, b);
      var next := ExecuteOrder(costs, date, index, day, os[0], b).value;
      DayKeepsTidy(costs, date, index, day, os[1..], next);
      OrdersSplit(os);
    }
  }
}
