/** Orders and fills without their reasons: trading never reads the reasons of an order. */
module BareTrades {
  import opened Common
  import opened Sorting
  import opened Costs
  import opened Simulator
  import opened Ledger
  import opened EventLoop
  import opened Drawdown

  function Bare(o: Order): Order {
    o.(reasons := [])
  }

  function BareFill(f: Fill): Fill {
    f.(reasons := [])
  }

  function BareOrders(os: seq<Order>): (r: seq<Order>)
    ensures |r| == |os| && forall i | 0 <= i < |os| :: r[i] == Bare(os[i])
  {
    seq(|os|, i requires 0 <= i < |os| => Bare(os[i]))
  }

  function BareFills(fs: seq<Fill>): (r: seq<Fill>)
    ensures |r| == |fs| && forall i | 0 <= i < |fs| :: r[i] == BareFill(fs[i])
  {
    seq(|fs|, i requires 0 <= i < |fs| => BareFill(fs[i]))
  }

  function BareBook(b: Book): Book {
    b.(fills := BareFills(b.fills))
  }

  function BareResult(r: Result<Book, RunError>): Result<Book, RunError> {
    match r case Ok(b) => Ok(BareBook(b)) case Err(e) => Err(e)
  }

  /** A state without reasons and without the count of closed days. */
  function BareState(st: RunState): RunState {
    st.(streak := 0, pending := BareOrders(st.pending), fills := BareFills(st.fills))
  }

  // ----- joining and sorting

  lemma {:induction false} BareJoined(a: seq<Order>, b: seq<Order>)
    ensures BareOrders(a + b) == BareOrders(a) + BareOrders(b)
  {
  }

  lemma BareFillAdded(fs: seq<Fill>, f: Fill)
    ensures BareFills(fs + [f]) == BareFills(fs) + [BareFill(f)]
  {
  }

  lemma BareSymbols(os: seq<Order>)
    ensures SymbolsOf(BareOrders(os)) == SymbolsOf(os)
  {
    var bare := BareOrders(os);
    forall s | s in SymbolsOf(os) ensures s in SymbolsOf(bare) {
      var i :| 0 <= i < |os| && os[i].symbol == s;
      assert bare[i] in bare;
    }
    forall s | s in SymbolsOf(bare) ensures s in SymbolsOf(os) {
      var i :| 0 <= i < |bare| && bare[i].symbol == s;
      assert os[i] in os;
    }
  }

  lemma {:induction false} InsertBare(o: Order, os: seq<Order>)
    ensures Insert(OrderOrder, Bare(o), BareOrders(os)) == BareOrders(Insert(OrderOrder, o, os))
  {
    if os == [] {
    } else {
      assert BareOrders(os)[1..] == BareOrders(os[1..]);
      InsertBare(o, os[1..]);
      BareJoined([os[0]], Insert(OrderOrder, o, os[1..]));
      BareJoined([o], os);
    }
  }

  lemma {:induction false} SortBare(os: seq<Order>)
    ensures Sort(OrderOrder, BareOrders(os)) == BareOrders(Sort(OrderOrder, os))
  {
    if os == [] {
    } else {
      assert BareOrders(os)[1..] == BareOrders(os[1..]);
      SortBare(os[1..]);
      InsertBare(os[0], Sort(OrderOrder, os[1..]));
    }
  }

  // ----- trading

  lemma ExecuteBare(costs: CostModel, o: Order, bar: MarketBar, date: Date)
    ensures match Execute(costs, o, FullOrNone, bar, date)
            case Ok(f) => Execute(costs, Bare(o), FullOrNone, bar, date) == Ok(BareFill(f))
            case Err(e) => Execute(costs, Bare(o), FullOrNone, bar, date) == Err(e)
  {
    hide ExecutionPrice, Calculate;
  }

  lemma {:induction false} OrderBare(costs: CostModel, date: Date, index: int, day: map<Symbol, MarketBar>, o: Order,
                                     b: Book)
    requires Valid(b.ledger)
    ensures ExecuteOrder(costs, date, index, day, Bare(o), BareBook(b))
         == BareResult(ExecuteOrder(costs, date, index, day, o, b))
  {
    hide AfterFill, Notional, Valid;
    if o.symbol in day {
      ExecuteBare(costs, o, day[o.symbol], date);
      var r := Execute(costs, o, FullOrNone, day[o.symbol], date);
      if r.Ok? {
        BareFillAdded(b.fills, r.value);
        BareFillAdded(b.fills, NoFill(o, date, CashShortfall));
      }
      hide Execute, BareFills;
    }
  }

  lemma {:induction false} AllBare(costs: CostModel, date: Date, index: int, day: map<Symbol, MarketBar>,
                                   os: seq<Order>, b: Book)
    requires Valid(b.ledger)
    ensures ExecuteAll(costs, date, index, day, BareOrders(os), BareBook(b))
         == BareResult(ExecuteAll(costs, date, index, day, os, b))
    decreases os
  {
    if os == [] {
    } else {
      assert BareOrders(os)[1..] == BareOrders(os[1..]);
      OrderBare(costs, date, index, day, os[0], b);
      hide ExecuteOrder, Valid;
      var r := ExecuteOrder(costs, date, index, day, os[0], b);
      if r.Ok? { AllBare(costs, date, index, day, os[1..], r.value); }
    }
  }

  lemma {:induction false} TradeBare(m: Market, index: nat, st: RunState)
    requires index < |m.dates| && Healthy(st)
    ensures Trade(m, index, BareState(st)) == BareResult(Trade(m, index, st))
  {
    SettledShape(st.ledger.positions);
    SortBare(st.pending);
    AllBare(m.x.costs, m.dates[index], index, BarsOn(m.bars, m.dates[index]), Sort(OrderOrder, st.pending),
            Book(AfterSettle(st.ledger), st.entries, st.fills, st.skipped));
    hide ExecuteAll, Sort, BarsOn, BareFills, BareOrders;
  }

  lemma {:induction false} MarkBare(m: Market, index: nat, st: RunState, b: Book)
    requires index < |m.dates| && Healthy(st) && Valid(b.ledger)
    ensures Mark(m, index, BareState(st), BareBook(b)) == BareState(Mark(m, index, st, b))
  {
    hide BarsOn, ClosesOf, SnapshotOf, AfterSnapshot, Observed, BareFills;
  }
}
