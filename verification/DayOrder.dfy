/** The order of a run's fills: day after day, on each day every sale before every purchase, each in symbol order. */
module DayOrder {
  import opened Common
  import opened Sorting
  import opened Costs
  import opened Simulator
  import opened Ledger
  import opened EventLoop
  import opened OrderBook
  import opened RunSafety
  import opened RiskGate

  /** `f` comes before `g`. */
  predicate Before(f: Fill, g: Fill) {
    || f.executionDate < g.executionDate
    || (f.executionDate == g.executionDate
        && ((f.side == Sell && g.side == Buy) || (f.side == g.side && f.symbol < g.symbol)))
  }

  ghost predicate InDayOrder(fills: seq<Fill>) {
    forall i, j | 0 <= i < j < |fills| :: Before(fills[i], fills[j])
  }

  ghost predicate Executes(f: Fill, os: seq<Order>, date: Date) {
    f.executionDate == date && exists o | o in os :: o.side == f.side && o.symbol == f.symbol
  }

  lemma OneFill(costs: CostModel, date: Date, index: int, day: map<Symbol, MarketBar>, o: Order, b: Book)
    requires Valid(b.ledger) && ExecuteOrder(costs, date, index, day, o, b).Ok?
    ensures var r := ExecuteOrder(costs, date, index, day, o, b).value;
            || r.fills == b.fills
            || (|r.fills| == |b.fills| + 1 && r.fills[..|b.fills|] == b.fills
                && var f := r.fills[|b.fills|]; f.executionDate == date && f.side == o.side && f.symbol == o.symbol)
  {
    hide AfterFill, Notional, ExecutionPrice, Calculate;
  }

  /** Sales first, then purchases, and every symbol once. */
  ghost predicate OrdersRise(os: seq<Order>) {
    forall i, j | 0 <= i < j < |os| ::
      (os[i].side == Sell && os[j].side == Buy) || (os[i].side == os[j].side && os[i].symbol < os[j].symbol)
  }

  lemma OrderOrderIsTotal()
    ensures TotalPreorder(OrderOrder)
  {
  }

  lemma {:induction false} DistinctAt(os: seq<Order>, i: nat, j: nat)
    requires DistinctOrders(os) && i < j < |os|
    ensures os[i].symbol != os[j].symbol
  {
    if i == 0 {
      assert os[j] == os[1..][j - 1] && os[j] in os[1..];
      assert os[j].symbol in SymbolsOf(os[1..]);
    } else {
      DistinctAt(os[1..], i - 1, j - 1);
    }
  }

  lemma {:induction false} SortedOrdersRise(os: seq<Order>)
    requires DistinctOrders(os)
    ensures OrdersRise(Sort(OrderOrder, os))
  {
    hide DistinctOrders;
    OrderOrderIsTotal();
    SortSorts(OrderOrder, os);
    SortOrders(os);
    var r := Sort(OrderOrder, os);
    forall i, j | 0 <= i < j < |r|
      ensures (r[i].side == Sell && r[j].side == Buy) || (r[i].side == r[j].side && r[i].symbol < r[j].symbol)
    {
      assert OrderOrder(r[i], r[j]);
      DistinctAt(r, i, j);
    }
  }

  lemma {:induction false} DayInOrder(costs: CostModel, date: Date, index: int, day: map<Symbol, MarketBar>,
                                      os: seq<Order>,
                                      b: Book)
    requires Valid(b.ledger) && OrdersRise(os) && ExecuteAll(costs, date, index, day, os, b).Ok?
    ensures var r := ExecuteAll(costs, date, index, day, os, b).value;
            && |b.fills| <= |r.fills| && r.fills[..|b.fills|] == b.fills
            && InDayOrder(r.fills[|b.fills|..])
            && forall f | f in r.fills[|b.fills|..] :: Executes(f, os, date)
    decreases os
  {
    hide ExecuteOrder, Valid;
    if os == [] {
    } else {
      var next := ExecuteOrder(costs, date, index, day, os[0], b).value;
      OneFill(costs, date, index, day, os[0], b);
      assert OrdersRise(os[1..]) by { LaterRise(os); }
      DayInOrder(costs, date, index, day, os[1..], next);
      var r := ExecuteAll(costs, date, index, day, os, b).value;
      var rest := r.fills[|next.fills|..];
      assert forall o | o in os[1..] :: o in os;
      assert r.fills[..|b.fills|] == r.fills[..|next.fills|][..|b.fills|];
      if next.fills != b.fills {
        var f := next.fills[|b.fills|];
        assert r.fills[|b.fills|] == r.fills[..|next.fills|][|b.fills|];
        assert r.fills[|b.fills|..] == [f] + rest;
        FirstFillBefore(f, rest, os, date);
      }
    }
  }

  lemma LaterRise(os: seq<Order>)
    requires os != [] && OrdersRise(os)
    ensures OrdersRise(os[1..])
  {
    forall i, j | 0 <= i < j < |os[1..]|
      ensures (os[1..][i].side == Sell && os[1..][j].side == Buy)
              || (os[1..][i].side == os[1..][j].side && os[1..][i].symbol < os[1..][j].symbol)
    {
      assert os[1..][i] == os[i + 1] && os[1..][j] == os[j + 1];
    }
  }

  lemma {:induction false} FirstFillBefore(f: Fill, rest: seq<Fill>, os: seq<Order>, date: Date)
    requires os != [] && OrdersRise(os) && f.executionDate == date && f.side == os[0].side && f.symbol == os[0].symbol
    requires InDayOrder(rest) && forall g | g in rest :: Executes(g, os[1..], date)
    ensures InDayOrder([f] + rest) && forall g | g in [f] + rest :: Executes(g, os, date)
  {
    assert os[0] in os && Executes(f, os, date);
    forall g | g in rest ensures Before(f, g) && Executes(g, os, date) {
      var k :| 0 <= k < |os[1..]| && os[1..][k].side == g.side && os[1..][k].symbol == g.symbol;
      assert os[1..][k] == os[k + 1] && os[k + 1] in os;
    }
  }

  /** In every run the fills are in order of their days, and on each day every sale, filled or not, comes before every
      purchase, and both in order of their symbols. */
  lemma {:induction false} FillsInDayOrder(x: Inputs, k: nat)
    requires x.initialEquity > 0.0 && k <= |MarketOf(x).dates| && RunTo(MarketOf(x), k).Ok?
    ensures InDayOrder(RunTo(MarketOf(x), k).value.fills)
    ensures forall f | f in RunTo(MarketOf(x), k).value.fills :: f.executionDate in MarketOf(x).dates[..k]
  {
    hide MarketOf, NextDay, AllFit;
    var m := MarketOf(x);
    if k == 0 {
    } else {
      var st := RunTo(m, k - 1).value;
      FillsInDayOrder(x, k - 1);
      RunIsOrderly(x, k - 1);
      DatesAscend(x);
      NextDayInOrder(m, k - 1, st);
    }
  }

  lemma {:induction false} NextDayInOrder(m: Market, index: nat, st: RunState)
    requires index < |m.dates| && Orderly(m, st) && NextDay(m, index, st).Ok? && Ascending(m.dates)
    requires InDayOrder(st.fills) && forall f | f in st.fills :: f.executionDate in m.dates[..index]
    ensures var r := NextDay(m, index, st).value;
            && InDayOrder(r.fills) && forall f | f in r.fills :: f.executionDate in m.dates[..index + 1]
  {
    hide NextDay, ExecuteAll, Sort, BarsOn, Buys, Ready;
    DayOutcome(m, index, st);
    SettledIsReady(m, st);
    SortedOrdersRise(st.pending);
    DayInOrder(m.x.costs, m.dates[index], index, BarsOn(m.bars, m.dates[index]), Sort(OrderOrder, st.pending),
               Book(AfterSettle(st.ledger), st.entries, st.fills, st.skipped));
    var r := NextDay(m, index, st).value;
    LaterDayAfter(st.fills, r.fills, m.dates, index);
  }

  lemma {:induction false} LaterDayAfter(before: seq<Fill>, after: seq<Fill>, dates: seq<Date>, index: nat)
    requires index < |dates| && Ascending(dates) && |before| <= |after| && after[..|before|] == before
    requires InDayOrder(before) && InDayOrder(after[|before|..])
    requires forall f | f in before :: f.executionDate in dates[..index]
    requires forall f | f in after[|before|..] :: f.executionDate == dates[index]
    ensures InDayOrder(after) && forall f | f in after :: f.executionDate in dates[..index + 1]
  {
    var more, n := after[|before|..], |before|;
    assert dates[..index + 1] == dates[..index] + [dates[index]];
    assert after == before + more;
    forall i, j | 0 <= i < j < |after| ensures Before(after[i], after[j]) {
      if j < n {
        assert after[i] == before[i] && after[j] == before[j];
      } else if i >= n {
        assert after[i] == more[i - n] && after[j] == more[j - n];
      } else {
        assert after[i] == before[i] && before[i] in before && after[j] == more[j - n] && more[j - n] in more;
        var d :| 0 <= d < index && dates[d] == after[i].executionDate;
        assert dates[d] < dates[index];
      }
    }
  }
}
