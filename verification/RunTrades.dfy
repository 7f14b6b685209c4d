/** A trading day of a run, order by order: what each pending order becomes, and what it does to cash, positions,
    entries, fills and skipped orders. */
module RunTrades {
  import opened Common
  import opened Sorting
  import opened Costs
  import opened Simulator
  import opened Ledger
  import opened EventLoop
  import opened OrderBook
  import opened RunSafety
  import opened TradeRules
  import opened Marking
  import opened DayOrder

  /** The bar of a symbol and date in the run's bars. */
  ghost predicate IsBarOf(m: Market, s: Symbol, date: Date, bar: MarketBar) {
    exists j: nat :: StandsFor(m.bars, s, date, j) && m.bars[j] == bar
  }

  ghost predicate NoBar(m: Market, s: Symbol, date: Date) {
    forall b | b in m.bars :: b.symbol != s || b.date != date
  }

  /** Nothing but fills and skipped orders has changed. */
  predicate Untouched(b: Book, r: Book) {
    r.ledger == b.ledger && r.entries == b.entries
  }

  /** One position has come or gone, the others have stayed. */
  ghost predicate PositionsMoved(b: Book, r: Book, s: Symbol, position: Option<LedgerPosition>) {
    && Find(r.ledger.positions, s) == position
    && forall u | u != s :: Find(r.ledger.positions, u) == Find(b.ledger.positions, u)
  }

  /** A traded order: a purchase opens a position at its full cost, a sale closes one; the cash pays or receives. */
  ghost predicate Trades(costs: CostModel, date: Date, index: int, bar: MarketBar, o: Order, b: Book, r: Book,
                         f: Fill) {
    && TradedAtOpen(f, o, costs, bar)
    && var price := f.execution.value.price;
       var worth, fees := Times(price, o.quantity as real), AllFees(f.execution.value.costs);
       match o.side
       case Buy =>
         && worth + fees <= b.ledger.cash && r.ledger.cash == b.ledger.cash - worth - fees
         && PositionsMoved(b, r, o.symbol, Some(LedgerPosition(o.symbol, o.quantity, worth + fees, 0)))
         && r.entries == b.entries[o.symbol := EntryState(price, date, index, o.industry)]
       case Sell =>
         && r.ledger.cash == b.ledger.cash + worth - fees >= 0.0
         && PositionsMoved(b, r, o.symbol, None) && r.entries == b.entries - {o.symbol}
  }

  /** A purchase that nothing hinders but whose cost exceeds the cash. */
  ghost predicate TooDear(costs: CostModel, bar: MarketBar, o: Order, b: Book) {
    && o.side == Buy && (forall q: UnfilledReason :: !Hinders(q, costs, o, bar)) && bar.open.Some?
    && exists fees: CostBreakdown ::
         var worth := Times(SlippedOpen(costs, Buy, bar.open.value), o.quantity as real);
         Itemised(costs, Buy, worth, fees) && worth + AllFees(fees) > b.ledger.cash
  }

  /** What one order makes of the book. */
  ghost predicate Becomes(m: Market, date: Date, index: int, o: Order, b: Book, r: Book) {
    || (NoBar(m, o.symbol, date) && r == b.(skipped := b.skipped + [SkippedOrder(date, o.symbol)]))
    || (exists bar, f :: IsBarOf(m, o.symbol, date, bar) && BecomesAt(m.x.costs, date, index, bar, o, b, r, f))
  }

  ghost predicate BecomesAt(costs: CostModel, date: Date, index: int, bar: MarketBar, o: Order, b: Book, r: Book,
                            f: Fill) {
    && r.fills == b.fills + [f] && r.skipped == b.skipped && Carries(f, o, date)
    && (if exists q: UnfilledReason :: Hinders(q, costs, o, bar) then
          Untouched(b, r)
          && exists reason: UnfilledReason :: FirstHindrance(costs, o, bar, reason) && Untraded(f, o, reason)
        else
          || (TooDear(costs, bar, o, b) && Untouched(b, r) && Untraded(f, o, CashShortfall))
          || (!TooDear(costs, bar, o, b) && Trades(costs, date, index, bar, o, b, r, f)))
  }

  ghost predicate FirstHindrance(costs: CostModel, o: Order, bar: MarketBar, reason: UnfilledReason) {
    Hinders(reason, costs, o, bar) && forall q: UnfilledReason | Turn(q) < Turn(reason) :: !Hinders(q, costs, o, bar)
  }

  // ----- one order

  lemma OneItemisation(costs: CostModel, side: Side, worth: real, a: CostBreakdown, b: CostBreakdown)
    requires Itemised(costs, side, worth, a) && Itemised(costs, side, worth, b)
    ensures a == b
  {
    hide Times;
  }

  lemma {:induction false} OrderBecomes(costs: CostModel, date: Date, index: int, day: map<Symbol, MarketBar>, o: Order,
                                        b: Book)
    requires Valid(b.ledger) && Fits(b.ledger.positions, o) && o.symbol in day
    requires o.side == Sell ==> Find(b.ledger.positions, o.symbol).value.available == o.quantity
    requires ExecuteOrder(costs, date, index, day, o, b).Ok?
    ensures var r := ExecuteOrder(costs, date, index, day, o, b).value;
            exists f :: BecomesAt(costs, date, index, day[o.symbol], o, b, r, f)
  {
    var bar := day[o.symbol];
    ExecuteIs(costs, o, bar, date);
    var r := ExecuteOrder(costs, date, index, day, o, b).value;
    var simulated := Execute(costs, o, FullOrNone, bar, date).value;
    if forall q: UnfilledReason :: !Hinders(q, costs, o, bar) {
      var price, fees := simulated.execution.value.price, simulated.execution.value.costs.Total();
      FeesAreItemised(costs, o.side, o.quantity, price);
      TradeOrNot(costs, date, index, day, o, b, simulated);
    } else {
      hide Hinders, Execute, TradedAtOpen;
      var reason: UnfilledReason :| Hinders(reason, costs, o, bar) && Untraded(simulated, o, reason)
                   && forall q: UnfilledReason | Turn(q) < Turn(reason) :: !Hinders(q, costs, o, bar);
      assert FirstHindrance(costs, o, bar, reason);
      assert BecomesAt(costs, date, index, bar, o, b, r, simulated);
    }
  }

  lemma {:induction false} TradeOrNot(costs: CostModel, date: Date, index: int, day: map<Symbol, MarketBar>, o: Order,
                                      b: Book,
                                      f: Fill)
    requires Valid(b.ledger) && Fits(b.ledger.positions, o) && o.symbol in day
    requires o.side == Sell ==> Find(b.ledger.positions, o.symbol).value.available == o.quantity
    requires ExecuteOrder(costs, date, index, day, o, b).Ok?
    requires Execute(costs, o, FullOrNone, day[o.symbol], date) == Ok(f)
    requires forall q: UnfilledReason :: !Hinders(q, costs, o, day[o.symbol])
    requires Carries(f, o, date) && TradedAtOpen(f, o, costs, day[o.symbol])
    requires f.execution.value.costs.Total() == AllFees(f.execution.value.costs)
    requires Notional(f.execution.value.price, o.quantity) == Times(f.execution.value.price, o.quantity as real)
    ensures var r := ExecuteOrder(costs, date, index, day, o, b).value;
            exists g :: BecomesAt(costs, date, index, day[o.symbol], o, b, r, g)
  {
    hide Execute, Hinders, AfterFill, Itemised, Times, AllFees, Notional, SlippedOpen, Find;
    var bar := day[o.symbol];
    var r := ExecuteOrder(costs, date, index, day, o, b).value;
    var price, fees := f.execution.value.price, f.execution.value.costs.Total();
    var worth := Times(price, o.quantity as real);
    DearIff(costs, bar, o, b, f);
    if o.side == Buy && worth + fees > b.ledger.cash {
      var g := NoFill(o, date, CashShortfall);
      assert BecomesAt(costs, date, index, bar, o, b, r, g);
    } else {
      CashMoves(b.ledger, o, price, fees);
      forall s ensures Find(r.ledger.positions, s) ==
                         if s != o.symbol then Find(b.ledger.positions, s)
                         else if o.side == Buy then Some(LedgerPosition(s, o.quantity, worth + fees, 0)) else None
      {
        FillFinds(b.ledger, o, price, fees, s);
      }
      assert Trades(costs, date, index, bar, o, b, r, f);
      assert BecomesAt(costs, date, index, bar, o, b, r, f);
    }
  }

  lemma DearIff(costs: CostModel, bar: MarketBar, o: Order, b: Book, f: Fill)
    requires TradedAtOpen(f, o, costs, bar) && forall q: UnfilledReason :: !Hinders(q, costs, o, bar)
    ensures TooDear(costs, bar, o, b) <==>
              o.side == Buy
              && Times(f.execution.value.price, o.quantity as real) + AllFees(f.execution.value.costs) > b.ledger.cash
  {
    hide Times, Itemised, AllFees, SlippedOpen, Hinders;
    if TooDear(costs, bar, o, b) {
      var worth := Times(SlippedOpen(costs, Buy, bar.open.value), o.quantity as real);
      var fees: CostBreakdown :| Itemised(costs, Buy, worth, fees) && worth + AllFees(fees) > b.ledger.cash;
      OneItemisation(costs, Buy, worth, fees, f.execution.value.costs);
    }
  }

  lemma CashMoves(l: LedgerState, o: Order, price: real, fees: real)
    requires Valid(l) && Fits(l.positions, o) && AfterFill(l, o.side, o.symbol, o.quantity, price, fees).Ok?
    ensures var r := AfterFill(l, o.side, o.symbol, o.quantity, price, fees).value;
            && (o.side == Buy ==> Notional(price, o.quantity) + fees <= l.cash
                                  && r.cash == l.cash - Notional(price, o.quantity) - fees)
            && (o.side == Sell ==> r.cash == l.cash + Notional(price, o.quantity) - fees >= 0.0)
  {
    hide Notional, Find, ReducedCost, Updated;
  }

  lemma {:induction false} StandsInDay(m: Market, s: Symbol, date: Date)
    ensures s in BarsOn(m.bars, date) ==> IsBarOf(m, s, date, BarsOn(m.bars, date)[s])
    ensures s !in BarsOn(m.bars, date) ==> NoBar(m, s, date)
  {
    hide BarsOn;
    BarsOnStands(m.bars, date, s);
  }

  lemma {:induction false} OneOrderBecomes(m: Market, date: Date, index: int, o: Order, b: Book)
    requires Valid(b.ledger) && Fits(b.ledger.positions, o)
    requires o.side == Sell ==> Find(b.ledger.positions, o.symbol).value.available == o.quantity
    requires ExecuteOrder(m.x.costs, date, index, BarsOn(m.bars, date), o, b).Ok?
    ensures Becomes(m, date, index, o, b, ExecuteOrder(m.x.costs, date, index, BarsOn(m.bars, date), o, b).value)
  {
    hide BecomesAt, Find, IsBarOf;
    StandsInDay(m, o.symbol, date);
    var day := BarsOn(m.bars, date);
    if o.symbol in day {
      hide BarsOn;
      OrderBecomes(m.x.costs, date, index, day, o, b);
    } else {
      SkippedWithoutBar(m.x.costs, date, index, day, o, b);
    }
  }

  lemma SkippedWithoutBar(costs: CostModel, date: Date, index: int, day: map<Symbol, MarketBar>, o: Order, b: Book)
    requires Valid(b.ledger) && o.symbol !in day
    ensures ExecuteOrder(costs, date, index, day, o, b) == Ok(b.(skipped := b.skipped + [SkippedOrder(date, o.symbol)]))
  {
  }

  // ----- one day

  ghost predicate BecomesNext(m: Market, date: Date, index: int, os: seq<Order>, books: seq<Book>, i: nat)
    requires i < |os| && |books| == |os| + 1
  {
    Becomes(m, date, index, os[i], books[i], books[i + 1])
  }

  /** The books of a day, from the settled one on: each order makes the next. */
  ghost predicate Chained(m: Market, date: Date, index: int, os: seq<Order>, books: seq<Book>) {
    |books| == |os| + 1 && forall i: nat | i < |os| :: BecomesNext(m, date, index, os, books, i)
  }

  lemma {:induction false} OrdersBecome(m: Market, date: Date, index: int, os: seq<Order>,
                                        b: Book) returns (books: seq<Book>)
    requires Valid(b.ledger) && Ready(b, os)
    requires ExecuteAll(m.x.costs, date, index, BarsOn(m.bars, date), os, b).Ok?
    ensures Chained(m, date, index, os, books) && books[0] == b
    ensures books[|os|] == ExecuteAll(m.x.costs, date, index, BarsOn(m.bars, date), os, b).value
    decreases os
  {
    hide Becomes, ExecuteOrder, BarsOn;
    if os == [] {
      books := [b];
    } else {
      assert Fits(b.ledger.positions, os[0]) && os[0] in os;
      OneOrderBecomes(m, date, index, os[0], b);
      OrderKeepsReady(m.x.costs, date, index, BarsOn(m.bars, date), os, b);
      var next := ExecuteOrder(m.x.costs, date, index, BarsOn(m.bars, date), os[0], b).value;
      hide Ready;
      var rest := OrdersBecome(m, date, index, os[1..], next);
      books := [b] + rest;
      ChainedMore(m, date, index, os, b, rest);
    }
  }

  lemma {:induction false} ChainedMore(m: Market, date: Date, index: int, os: seq<Order>, b: Book, rest: seq<Book>)
    requires os != [] && Chained(m, date, index, os[1..], rest) && Becomes(m, date, index, os[0], b, rest[0])
    ensures Chained(m, date, index, os, [b] + rest)
  {
    hide Becomes;
    var books := [b] + rest;
    forall i: nat | i < |os| ensures BecomesNext(m, date, index, os, books, i) {
      if i > 0 {
        assert BecomesNext(m, date, index, os[1..], rest, i - 1);
        assert os[i] == os[1..][i - 1] && books[i] == rest[i - 1] && books[i + 1] == rest[i];
      }
    }
  }

  /** After an applied fill the symbol's entry is that of the purchase, or it is gone exactly when no share is left; and
      every other entry stays. */
  lemma EntryFollows(entries: map<Symbol, EntryState>, f: Fill, index: int, ledger: LedgerState)
    requires Valid(ledger) && f.execution.Some?
    ensures var r := EntriesAfter(entries, f, index, ledger);
            && (forall s | s != f.symbol :: s in r <==> s in entries)
            && (forall s | s in r && (s != f.symbol || f.side == Sell) :: s in entries && r[s] == entries[s])
            && (f.side == Buy ==>
                  f.symbol in r
                  && r[f.symbol] == EntryState(f.execution.value.price, f.executionDate, index, f.industry))
            && (f.side == Sell ==>
                  (f.symbol in r <==> f.symbol in entries && exists p :: p in ledger.positions && p.symbol == f.symbol))
  {
    if p :| p in ledger.positions && p.symbol == f.symbol {
      assert OpenPosition(Find(ledger.positions, f.symbol).value);
    }
  }

  /** After settlement every share may be sold, and nothing else has changed. */
  ghost predicate AllSettled(ps: seq<LedgerPosition>, settled: seq<LedgerPosition>) {
    |settled| == |ps| && forall i | 0 <= i < |ps| :: settled[i] == ps[i].(available := ps[i].quantity)
  }

  lemma {:induction false} SettledAll(ps: seq<LedgerPosition>)
    ensures AllSettled(ps, Settled(ps))
  {
    if ps == [] {
    } else {
      SettledAll(ps[1..]);
      forall i | 0 <= i < |ps| ensures Settled(ps)[i] == ps[i].(available := ps[i].quantity) {
        if i > 0 { assert ps[i] == ps[1..][i - 1]; }
      }
    }
  }

  /** Every day of every run: all shares are settled, then the pending orders take their turns,
      sales first and each side in symbol order; each is skipped, hindered, too dear or traded by what its bar and the
      cash say; and the day's cash, positions, entries, fills and skipped orders are what the last of them leaves. */
  lemma {:induction false} DayTradesInTurn(x: Inputs, k: nat) returns (os: seq<Order>, books: seq<Book>)
    requires x.initialEquity > 0.0 && 0 < k <= |MarketOf(x).dates| && RunTo(MarketOf(x), k).Ok?
    ensures RunTo(MarketOf(x), k - 1).Ok?
    ensures var st, r := RunTo(MarketOf(x), k - 1).value, RunTo(MarketOf(x), k).value;
            && multiset(os) == multiset(st.pending) && OrdersRise(os)
            && Chained(MarketOf(x), MarketOf(x).dates[k - 1], k - 1, os, books)
            && books[0].ledger == st.ledger.(positions := books[0].ledger.positions)
            && AllSettled(st.ledger.positions, books[0].ledger.positions)
            && books[0].entries == st.entries && books[0].fills == st.fills && books[0].skipped == st.skipped
            && var last := books[|os|];
               && r.ledger.cash == last.ledger.cash && r.ledger.positions == last.ledger.positions
               && r.entries == last.entries && r.fills == last.fills && r.skipped == last.skipped
  {
    hide MarketOf, NextDay, ExecuteAll, Sort, BarsOn, Buys, Chained;
    var m, st := MarketOf(x), RunTo(MarketOf(x), k - 1).value;
    var index, date := k - 1, MarketOf(x).dates[k - 1];
    RunIsOrderly(x, k - 1);
    DayOutcome(m, index, st);
    SettledIsReady(m, st);
    SettledAll(st.ledger.positions);
    SortedOrdersRise(st.pending);
    SortKeepsElements(OrderOrder, st.pending);
    os := Sort(OrderOrder, st.pending);
    books := OrdersBecome(m, date, index, os, Book(AfterSettle(st.ledger), st.entries, st.fills, st.skipped));
    MarkUpdates(m, index, st, Trade(m, index, st).value);
  }
}
