/** The day loop as it works: a ledger and a monitor that change in place, a dictionary of pending orders,
    and running lists, proved to compute the run of EventLoop. */
module Runner {
  import opened Common
  import opened Sorting
  import opened Costs
  import opened Simulator
  import opened Ledger
  import opened Drawdown
  import opened Allocation
  import opened Selection
  import opened Strategy
  import opened EventLoop
  import opened RunSafety

  // ----- the bars by date

  function DayBars(byDate: map<Date, map<Symbol, MarketBar>>, date: Date): map<Symbol, MarketBar> {
    if date in byDate then byDate[date] else map[]
  }

  method BuildBarsByDate(bars: seq<MarketBar>) returns (byDate: map<Date, map<Symbol, MarketBar>>)
    ensures forall date :: DayBars(byDate, date) == BarsOn(bars, date)
  {
    byDate := map[];
    var i := 0;
    while i < |bars|
      invariant 0 <= i <= |bars|
      invariant forall date :: DayBars(byDate, date) == BarsOn(bars[..i], date)
    {
      var b := bars[i];
      ghost var was := byDate;
      forall date ensures BarsOn(bars[..i + 1], date)
                       == if b.date == date then BarsOn(bars[..i], date)[b.symbol := b] else BarsOn(bars[..i], date) {
        assert bars[..i + 1] == bars[..i] + [b];
        BarsOnSnoc(bars[..i], b, date);
      }
      byDate := byDate[b.date := DayBars(byDate, b.date)[b.symbol := b]];
      forall date ensures DayBars(byDate, date) == BarsOn(bars[..i + 1], date) {
        assert DayBars(was, date) == BarsOn(bars[..i], date);
      }
      i := i + 1;
    }
    assert bars[..i] == bars;
  }

  // ----- one day's inner loops

  /** Executes the orders of a day against the ledger object; an error ends the run. */
  method ExecuteOrders(costs: CostModel, date: Date, index: int, day: map<Symbol, MarketBar>, orders: seq<Order>,
                       ledger: PortfolioLedger, open: map<Symbol, EntryState>, earlier: seq<Fill>,
                       missed: seq<SkippedOrder>)
    returns (error: Option<RunError>, entries: map<Symbol, EntryState>, fills: seq<Fill>, skipped: seq<SkippedOrder>)
    requires Valid(ledger.View())
    modifies ledger
    ensures match ExecuteAll(costs, date, index, day, orders, Book(old(ledger.View()), open, earlier, missed))
            case Err(e) => error == Some(e)
            case Ok(b) => error == None && b == Book(ledger.View(), entries, fills, skipped)
  {
    error, entries, fills, skipped := None, open, earlier, missed;
    ghost var goal := ExecuteAll(costs, date, index, day, orders, Book(ledger.View(), open, earlier, missed));
    var i := 0;
    assert orders[0..] == orders;
    while i < |orders|
      invariant 0 <= i <= |orders|
      invariant Valid(ledger.View()) && error == None
      invariant ExecuteAll(costs, date, index, day, orders[i..], Book(ledger.View(), entries, fills, skipped)) == goal
    {
      assert orders[i..][0] == orders[i] && orders[i..][1..] == orders[i + 1..];
      var next;
      error, next := ExecuteOne(costs, date, index, day, orders[i], ledger, entries, fills, skipped);
      if error.Some? { return; }
      entries, fills, skipped := next.0, next.1, next.2;
      i := i + 1;
    }
  }

  /** The body of the execution loop. */
  method ExecuteOne(costs: CostModel, date: Date, index: int, day: map<Symbol, MarketBar>, order: Order,
                    ledger: PortfolioLedger, entries: map<Symbol, EntryState>, fills: seq<Fill>,
                    skipped: seq<SkippedOrder>)
    returns (error: Option<RunError>, next: (map<Symbol, EntryState>, seq<Fill>, seq<SkippedOrder>))
    requires Valid(ledger.View())
    modifies ledger
    ensures match ExecuteOrder(costs, date, index, day, order, Book(old(ledger.View()), entries, fills, skipped))
            case Err(e) => error == Some(e)
            case Ok(b) => error == None && b == Book(ledger.View(), next.0, next.1, next.2)
  {
    error, next := None, (entries, fills, skipped);
    if order.symbol !in day {
      next := (entries, fills, skipped + [SkippedOrder(date, order.symbol)]);
      return;
    }
    var simulated := Execute(costs, order, FullOrNone, day[order.symbol], date);
    if simulated.Err? {
      error := Some(OrderRejected(simulated.error));
      return;
    }
    var fill, left := simulated.value, entries;
    if fill.status != Unfilled {
      var price, fees := fill.execution.value.price, fill.execution.value.costs.Total();
      if fill.side == Buy && Notional(price, fill.quantity) + fees > ledger.cash {
        fill := NoFill(order, date, CashShortfall);
      } else {
        var applied := ledger.ApplyFill(fill.side, fill.symbol, fill.quantity, price, fees);
        if applied.Err? {
          error := Some(FillRefused(applied.error));
          return;
        }
        if fill.side == Buy {
          left := entries[fill.symbol := EntryState(price, date, index, fill.industry)];
        } else if PositionIn(ledger.View(), fill.symbol).quantity == 0 {
          left := entries - {fill.symbol};
        }
      }
    }
    next := (left, fills + [fill], skipped);
  }

  /** Overwrites the last close of every symbol that has one today, in whatever order. */
  method UpdateCloses(day: map<Symbol, MarketBar>, before: map<Symbol, real>) returns (lastCloses: map<Symbol, real>)
    ensures lastCloses == before + ClosesOf(day)
  {
    hide ClosesOf;
    assert day - day.Keys == map[] && before + ClosesOf(map[]) == before by { NoCloses(before); }
    lastCloses := before;
    var left := day.Keys;
    while left != {}
      invariant left <= day.Keys
      invariant lastCloses == before + ClosesOf(day - left)
      decreases left
    {
      SomeElement(left);
      var s :| s in left;
      var bar := day[s];
      CloseAdded(day, left, s);
      if bar.close.Some? {
        lastCloses := lastCloses[s := bar.close.value];
      }
      left := left - {s};
    }
    assert day - left == day;
  }

  lemma SomeElement(xs: set<Symbol>)
    requires xs != {}
    ensures exists s: Symbol :: s in xs
  {
    if forall s: Symbol :: s !in xs { assert false; }
  }

  lemma NoCloses(before: map<Symbol, real>)
    ensures before + ClosesOf(map[]) == before
  {
  }

  lemma CloseAdded(day: map<Symbol, MarketBar>, left: set<Symbol>, s: Symbol)
    requires s in left && left <= day.Keys
    ensures ClosesOf(day - (left - {s}))
         == if day[s].close.Some? then ClosesOf(day - left)[s := day[s].close.value] else ClosesOf(day - left)
  {
  }

  type PendingOrders = map<Date, seq<Order>>

  function PendingOn(pending: PendingOrders, date: Date): seq<Order> {
    if date in pending then pending[date] else []
  }

  /** Queues one more order for a date. */
  function Queued(pending: PendingOrders, date: Date, order: Order): PendingOrders {
    pending[date := PendingOn(pending, date) + [order]]
  }

  lemma AtMostOneExit(strategy: StrategyConfig, signals: Signals, entries: map<Symbol, EntryState>, index: int,
                      streak: nat, p: LedgerPosition)
    ensures |ExitOrder(strategy, signals, entries, index, streak, p)| <= 1
  {
  }

  /** Two dictionaries hold the same dates but for one. */
  ghost predicate OnlyAt(before: PendingOrders, after: PendingOrders, next: Date) {
    forall date | date != next :: date in after <==> date in before
  }

  lemma NothingQueuedYet(before: PendingOrders, next: Date)
    ensures OnlyAt(before, before, next)
  {
  }

  /** The exit loop over the held positions. */
  method QueueExits(strategy: StrategyConfig, signals: Signals, entries: map<Symbol, EntryState>, index: int,
                    streak: nat, positions: seq<LedgerPosition>, next: Date, before: PendingOrders)
    returns (pending: PendingOrders, exiting: set<Symbol>)
    ensures PendingOn(pending, next) == PendingOn(before, next)
              + Exits(strategy, signals, entries, index, streak, positions)
    ensures OnlyAt(before, pending, next)
    ensures exiting == SymbolsOf(Exits(strategy, signals, entries, index, streak, positions))
  {
    hide Exits, ExitOrder, SymbolsOf, PendingOn, Queued, OnlyAt;
    NothingQueuedYet(before, next);
    pending, exiting := before, {};
    ghost var queued: seq<Order> := [];
    ghost var all := Exits(strategy, signals, entries, index, streak, positions);
    var i := 0;
    NoSymbols();
    assert positions[0..] == positions && queued + all == all;
    assert PendingOn(before, next) + queued == PendingOn(before, next);
    while i < |positions|
      invariant 0 <= i <= |positions|
      invariant queued + Exits(strategy, signals, entries, index, streak, positions[i..]) == all
      invariant PendingOn(pending, next) == PendingOn(before, next) + queued
      invariant exiting == SymbolsOf(queued)
      invariant OnlyAt(before, pending, next)
    {
      ExitsGoOn(strategy, signals, entries, index, streak, positions, i);
      var exit := ExitOrder(strategy, signals, entries, index, streak, positions[i]);
      AtMostOneExit(strategy, signals, entries, index, streak, positions[i]);
      i := i + 1;
      if exit == [] { continue; }
      assert exit == [exit[0]];
      QueuedOne(pending, next, exit[0], PendingOn(before, next), queued);
      queued := queued + exit;
      exiting := exiting + {exit[0].symbol};
      pending := Queued(pending, next, exit[0]);
    }
    NoExits(strategy, signals, entries, index, streak);
    assert positions[i..] == [] && queued + [] == queued;
  }

  lemma NoExits(strategy: StrategyConfig, signals: Signals, entries: map<Symbol, EntryState>, index: int, streak: nat)
    ensures Exits(strategy, signals, entries, index, streak, []) == []
  {
  }

  lemma ExitsGoOn(strategy: StrategyConfig, signals: Signals, entries: map<Symbol, EntryState>, index: int, streak: nat,
                  positions: seq<LedgerPosition>, i: nat)
    requires i < |positions|
    ensures Exits(strategy, signals, entries, index, streak, positions[i..])
         == ExitOrder(strategy, signals, entries, index, streak, positions[i])
            + Exits(strategy, signals, entries, index, streak, positions[i + 1..])
  {
    hide ExitOrder;
    assert positions[i..][1..] == positions[i + 1..];
  }

  lemma NoSymbols()
    ensures SymbolsOf([]) == {}
  {
  }

  /** Queueing one more order. */
  lemma QueuedOne(pending: PendingOrders, next: Date, order: Order, first: seq<Order>, queued: seq<Order>)
    requires PendingOn(pending, next) == first + queued
    ensures PendingOn(Queued(pending, next, order), next) == first + (queued + [order])
    ensures SymbolsOf(queued + [order]) == SymbolsOf(queued) + {order.symbol}
    ensures forall before :: OnlyAt(before, pending, next) ==> OnlyAt(before, Queued(pending, next, order), next)
  {
    assert forall x :: x in queued + [order] <==> x == order || x in queued;
  }

  /** Counts the positions that stay, by industry. */
  method CountIndustries(projected: seq<Position>, exiting: set<Symbol>) returns (counts: map<Industry, int>)
    ensures counts == IndustryCounts(projected, exiting)
  {
    counts := map[];
    var i := 0;
    while i < |projected|
      invariant 0 <= i <= |projected|
      invariant counts == IndustryCounts(projected[..i], exiting)
    {
      assert projected[..i + 1][..i] == projected[..i];
      var p := projected[i];
      if p.quantity > 0 && p.symbol !in exiting && p.industry.Some? {
        counts := counts[p.industry.value := (if p.industry.value in counts then counts[p.industry.value] else 0) + 1];
      }
      i := i + 1;
    }
    assert projected[..i] == projected;
  }

  /** The purchase loop: each sized purchase uses up virtual cash and joins the projected positions. */
  method QueuePurchases(d: Desk, selected: seq<EntrySignal>, cash: real, held: seq<Position>,
                        industries: map<Industry, int>, next: Date, before: PendingOrders)
    returns (pending: PendingOrders)
    ensures PendingOn(pending, next) == PendingOn(before, next)
              + PlanAll(d, Plan(cash, held, industries, []), selected).orders
    ensures OnlyAt(before, pending, next)
  {
    hide Quantity, BuyTotal, Notional, Lookup, Increment, SymbolsOf, PendingOn, Queued, OnlyAt, PlanAll;
    NothingQueuedYet(before, next);
    pending := before;
    var virtualCash, projected, counts := cash, held, industries;
    var taken := set p | p in held :: p.symbol;
    ghost var plan := Plan(cash, held, industries, []);
    ghost var all := PlanAll(d, plan, selected);
    var i := 0;
    assert selected[0..] == selected && PendingOn(before, next) + [] == PendingOn(before, next);
    while i < |selected|
      invariant 0 <= i <= |selected|
      invariant plan.cash == virtualCash && plan.projected == projected && plan.counts == counts
      invariant forall s :: s in taken <==> Holds(projected, s)
      invariant PlanAll(d, plan, selected[i..]) == all
      invariant PendingOn(pending, next) == PendingOn(before, next) + plan.orders
      invariant OnlyAt(before, pending, next)
    {
      var signal := selected[i];
      assert selected[i..][0] == signal && selected[i..][1..] == selected[i + 1..];
      ghost var was := plan;
      PlanOne(d, plan, selected[i..]);
      plan := PlanEntry(d, plan, signal);
      i := i + 1;
      if signal.symbol in taken || signal.symbol in d.exiting { continue; }
      if signal.industry.Some? && signal.industry.value in counts
         && counts[signal.industry.value] >= d.x.strategy.maxPerIndustry {
        continue;
      }
      var reference := Reference(d, signal);
      if reference.None? { continue; }
      var price := reference.value;
      var quantity := AllocateQuantity(Request(price, virtualCash, d.equity, projected, signal.industry, d.x.limits,
                                               None, signal.symbol, d.x.costs, d.state));
      if quantity <= 0 { continue; }
      virtualCash := virtualCash - BuyTotal(d.x.costs, price, quantity);
      var planned := Position(signal.symbol, quantity, Notional(price, quantity), signal.industry);
      HoldsSnoc(projected, planned);
      projected := projected + [planned];
      taken := taken + {signal.symbol};
      counts := Increment(counts, signal.industry);
      var order := Order(Buy, signal.symbol, quantity, d.signals.date, signal.industry, [EntrySignalled]);
      QueuedOne(pending, next, order, PendingOn(before, next), was.orders);
      pending := Queued(pending, next, order);
    }
    assert selected[i..] == [];
    PlanNone(d, plan);
  }

  lemma PlanOne(d: Desk, plan: Plan, signals: seq<EntrySignal>)
    requires signals != []
    ensures PlanAll(d, plan, signals) == PlanAll(d, PlanEntry(d, plan, signals[0]), signals[1..])
  {
  }

  lemma PlanNone(d: Desk, plan: Plan)
    ensures PlanAll(d, plan, []) == plan
  {
  }

  lemma HoldsSnoc(ps: seq<Position>, p: Position)
    ensures forall s :: Holds(ps + [p], s) <==> s == p.symbol || Holds(ps, s)
  {
    assert forall x :: x in ps + [p] <==> x in ps || x == p;
  }

  // ----- the run

  /** The parts of a run's state that the day loop keeps in plain variables. */
  datatype Locals = Locals(
    entries: map<Symbol, EntryState>,
    lastCloses: map<Symbol, real>,
    streak: nat,
    snapshots: seq<LedgerSnapshot>,
    fills: seq<Fill>,
    skipped: seq<SkippedOrder>
  )

  function StateOf(ledger: LedgerState, monitor: Monitor, pending: seq<Order>, v: Locals): RunState {
    RunState(ledger, monitor, pending, v.entries, v.lastCloses, v.streak, v.snapshots, v.fills, v.skipped)
  }

  /** From the open to the close of a day: settlement, execution, marking, drawdown. */
  method TradeAndMark(m: Market, index: nat, day: map<Symbol, MarketBar>, pending: seq<Order>,
                      ledger: PortfolioLedger, drawdown: DrawdownMonitor, before: Locals)
    returns (error: Option<RunError>, v: Locals)
    requires index < |m.dates| && day == BarsOn(m.bars, m.dates[index])
    requires Healthy(StateOf(ledger.View(), drawdown.View(), pending, before))
    modifies ledger, drawdown
    ensures var st := StateOf(old(ledger.View()), old(drawdown.View()), pending, before);
            match Trade(m, index, st)
            case Err(e) => error == Some(e)
            case Ok(b) =>
              && error == None && v.snapshots != []
              && Mark(m, index, st, b) == StateOf(ledger.View(), drawdown.View(), [], v)
  {
    ghost var st := StateOf(ledger.View(), drawdown.View(), pending, before);
    v := before;
    SettledShape(ledger.positions);
    ledger.SettleAll();
    var entries, fills, skipped;
    error, entries, fills, skipped :=
      ExecuteOrders(m.x.costs, m.dates[index], index, day, Sort(OrderOrder, pending), ledger, v.entries, v.fills,
                    v.skipped);
    if error.Some? { return; }
    ghost var b := Book(ledger.View(), entries, fills, skipped);
    assert Trade(m, index, st) == Ok(b);
    hide Trade, ExecuteAll, Sort, SnapshotOf;
    var closes := UpdateCloses(day, v.lastCloses);
    var snapshot := ledger.Snapshot(closes);
    var state := drawdown.Observe(snapshot.equity);
    v := Locals(entries, closes, v.streak, v.snapshots + [snapshot], fills, skipped);
  }

  /** After the close: exits, selection and sized purchases, queued for the next day. */
  method QueueNext(m: Market, index: nat, next: Date, signals: Signals, ledger: PortfolioLedger,
                   drawdown: DrawdownMonitor,
                   before: PendingOrders, v: Locals)
    returns (pending: PendingOrders, streak: nat)
    requires AllOpen(ledger.positions) && v.snapshots != []
    ensures var st := StateOf(ledger.View(), drawdown.View(), PendingOn(before, next), v);
            st.pending == [] ==>
              StateOf(ledger.View(), drawdown.View(), PendingOn(pending, next), v.(streak := streak))
                  == Queue(m, index, st, signals)
    ensures OnlyAt(before, pending, next)
  {
    hide Projected, IndustryCounts, Exits, PlanAll, Select, SymbolsOf, MarketSeen, PendingOn;
    var strategy := m.x.strategy;
    streak := NextStreak(strategy, MarketSeen(signals.features), v.streak);
    var exiting;
    pending, exiting := QueueExits(strategy, signals, v.entries, index, streak, ledger.positions, next, before);
    var selected := SelectCandidates(signals.ranked, strategy.maxPositions, strategy.maxPerIndustry);
    var projected := Projected(ledger.positions, v.lastCloses, v.entries);
    var counts := CountIndustries(projected, exiting);
    var desk := Desk(m.x, signals, v.snapshots[|v.snapshots| - 1].equity, drawdown.state, exiting);
    pending := QueuePurchases(desk, selected, ledger.cash, projected, counts, next, pending);
  }

  /** The run: one day after another, with orders queued on every day but the last. */
  method Run(x: Inputs) returns (r: Result<RunState, RunError>)
    ensures r == EventLoop.Run(x)
  {
    hide Trade, Mark, Queue, SignalsOn, MarketOf;
    var prepared := Prepare(x);
    if prepared.Err? { return Err(prepared.error); }
    var m := prepared.value;
    var byDate := BuildBarsByDate(m.bars);
    var ledger := new PortfolioLedger(x.initialEquity);
    var drawdown := new DrawdownMonitor(x.initialEquity, x.thresholds);
    var pending: PendingOrders := map[];
    var v := Locals(map[], map[], 0, [], [], []);
    ghost var st := Opening(x);
    var index := 0;
    while index < |m.dates|
      invariant 0 <= index <= |m.dates|
      invariant fresh(ledger) && fresh(drawdown)
      invariant RunTo(m, index) == Ok(st)
      invariant st == StateOf(ledger.View(), drawdown.View(), st.pending, v)
      invariant if index < |m.dates| then PendingOn(pending, m.dates[index]) == st.pending else st.pending == []
      invariant forall date | date in pending :: index < |m.dates| && date == m.dates[index]
    {
      var date := m.dates[index];
      ghost var was := st;
      assert RunTo(m, index + 1) == NextDay(m, index, was);
      var due := PendingOn(pending, date);
      pending := pending - {date};
      var error;
      error, v := TradeAndMark(m, index, DayBars(byDate, date), due, ledger, drawdown, v);
      if error.Some? {
        FailedAt(m, index + 1);
        return Err(error.value);
      }
      st := StateOf(ledger.View(), drawdown.View(), [], v);
      if index < |m.dates| - 1 {
        var signalled := SignalsOn(m, date);
        if signalled.Err? {
          FailedAt(m, index + 1);
          return Err(signalled.error);
        }
        ghost var marked := st;
        var next, streak := m.dates[index + 1], 0;
        pending, streak := QueueNext(m, index, next, signalled.value, ledger, drawdown, pending, v);
        v := v.(streak := streak);
        st := StateOf(ledger.View(), drawdown.View(), PendingOn(pending, next), v);
        assert st == Queue(m, index, marked, signalled.value);
      }
      index := index + 1;
    }
    r := Ok(StateOf(ledger.View(), drawdown.View(), [], v));
  }

  /** A day that fails ends the run with its error. */
  lemma {:induction false} FailedAt(m: Market, k: nat)
    requires k <= |m.dates| && m.x.initialEquity > 0.0 && RunTo(m, k).Err?
    ensures RunTo(m, |m.dates|) == RunTo(m, k)
    decreases |m.dates| - k
  {
    if k < |m.dates| { FailedAt(m, k + 1); }
  }
}
