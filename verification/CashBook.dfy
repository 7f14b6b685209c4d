/** The cash of a run and the totals of its metrics: what was spent, received and charged. */
module CashBook {
  import opened Common
  import opened Sorting
  import opened Costs
  import opened Simulator
  import opened Ledger
  import opened EventLoop
  import opened OrderBook
  import opened RunSafety
  import opened Metrics
  import opened RunAccounting

  /** The fill traded shares. */
  predicate Traded(f: Fill) {
    f.quantity > 0 && f.execution.Some?
  }

  /** Price times shares over all fills of one side that traded. */
  function TradedValue(fills: seq<Fill>, side: Side): real {
    if fills == [] then 0.0
    else
      var n := |fills| - 1;
      TradedValue(fills[..n], side)
      + if Traded(fills[n]) && fills[n].side == side then fills[n].execution.value.price * fills[n].quantity as real
          else 0.0
  }

  /** All the fees that fills were charged, item by item. */
  function Charged(fills: seq<Fill>): real {
    if fills == [] then 0.0
    else
      var n := |fills| - 1;
      Charged(fills[..n])
      + if Traded(fills[n])
        then var c := fills[n].execution.value.costs;
             c.handlingFee + c.regulatoryFee + c.transferFee + c.stampDuty + c.commission
        else 0.0
  }

  lemma OneMoreFill(m: Matching, f: Fill)
    requires AllOpenLots(m)
    ensures MatchFill(m, f).turnover
         == m.turnover + if Traded(f) then f.execution.value.price * f.quantity as real else 0.0
    ensures MatchFill(m, f).totalCost == m.totalCost + if Traded(f) then f.execution.value.costs.Total() else 0.0
  {
    hide TakeLots, LotsOf;
  }

  /** The metrics' turnover is what purchases and sales were worth, and their total cost every fee charged. */
  lemma {:induction false} TotalsAre(fills: seq<Fill>)
    ensures MatchAll(fills).turnover == TradedValue(fills, Buy) + TradedValue(fills, Sell)
    ensures MatchAll(fills).totalCost == Charged(fills)
  {
    if fills == [] {
    } else {
      var n := |fills| - 1;
      TotalsAre(fills[..n]);
      OneMoreFill(MatchAll(fills[..n]), fills[n]);
      hide MatchFill;
    }
  }

  ghost predicate CashIs(initialEquity: real, cash: real, fills: seq<Fill>) {
    cash == initialEquity - TradedValue(fills, Buy) + TradedValue(fills, Sell) - Charged(fills)
  }

  lemma {:induction false} BookSnoc(fills: seq<Fill>, f: Fill)
    ensures forall side :: TradedValue(fills + [f], side)
                        == TradedValue(fills, side)
                           + if Traded(f) && f.side == side then f.execution.value.price * f.quantity as real else 0.0
    ensures Charged(fills + [f])
         == Charged(fills) + if Traded(f) then f.execution.value.costs.Total() else 0.0
  {
    assert (fills + [f])[..|fills|] == fills;
  }

  lemma {:induction false} TradePays(b: Book, r: Book, o: Order, f: Fill)
    requires Valid(b.ledger) && Applied(b, r, o, f)
    ensures Traded(f)
    ensures r.ledger.cash
         == if f.side == Buy
             then b.ledger.cash - f.execution.value.price * f.quantity as real - f.execution.value.costs.Total()
            else b.ledger.cash + f.execution.value.price * f.quantity as real - f.execution.value.costs.Total()
  {
    hide AfterFill, Updated, ReducedCost, Find, MatchAll;
  }

  lemma {:induction false} UntradedPays(initialEquity: real, cash: real, fills: seq<Fill>, f: Fill)
    requires CashIs(initialEquity, cash, fills) && f.quantity == 0
    ensures CashIs(initialEquity, cash, fills + [f])
  {
    BookSnoc(fills, f);
  }

  lemma {:induction false} TradedPays(initialEquity: real, b: Book, r: Book, o: Order, f: Fill)
    requires Valid(b.ledger) && Applied(b, r, o, f) && CashIs(initialEquity, b.ledger.cash, b.fills)
    ensures CashIs(initialEquity, r.ledger.cash, r.fills)
  {
    BookSnoc(b.fills, f);
    TradePays(b, r, o, f);
    hide AfterFill, TradedValue, Charged;
  }

  lemma {:induction false} OrderPays(initialEquity: real, costs: CostModel, date: Date, index: int,
                                     day: map<Symbol, MarketBar>, o: Order, b: Book)
    requires Valid(b.ledger) && Fits(b.ledger.positions, o) && ExecuteOrder(costs, date, index, day, o, b).Ok?
    requires CashIs(initialEquity, b.ledger.cash, b.fills)
    ensures var r := ExecuteOrder(costs, date, index, day, o, b).value;
            CashIs(initialEquity, r.ledger.cash, r.fills)
  {
    OrderOutcome(costs, date, index, day, o, b);
    hide ExecuteOrder, Applied, Find, CashIs, MatchAll;
    var r := ExecuteOrder(costs, date, index, day, o, b).value;
    if f :| r.ledger == b.ledger && r.fills == b.fills + [f] && f.quantity == 0 {
      UntradedPays(initialEquity, b.ledger.cash, b.fills, f);
    } else if f :| Applied(b, r, o, f) {
      TradedPays(initialEquity, b, r, o, f);
    }
  }

  lemma {:induction false} DayPays(initialEquity: real, costs: CostModel, date: Date, index: int,
                                   day: map<Symbol, MarketBar>, os: seq<Order>, b: Book)
    requires Valid(b.ledger) && Ready(b, os) && ExecuteAll(costs, date, index, day, os, b).Ok?
    requires CashIs(initialEquity, b.ledger.cash, b.fills)
    ensures var r := ExecuteAll(costs, date, index, day, os, b).value;
            CashIs(initialEquity, r.ledger.cash, r.fills)
    decreases os
  {
    if os == [] {
    } else {
      assert Fits(b.ledger.positions, os[0]);
      OrderKeepsReady(costs, date, index, day, os, b);
      OrderPays(initialEquity, costs, date, index, day, os[0], b);
      hide ExecuteOrder, CashIs;
      DayPays(initialEquity, costs, date, index, day, os[1..], ExecuteOrder(costs, date, index, day, os[0], b).value);
    }
  }

  /** After every day of every run the cash is the initial equity less what purchases were worth, plus what sales were
      worth, less every fee; and of these the metrics' turnover and total cost are made. */
  lemma {:induction false} CashOfRun(x: Inputs, k: nat)
    requires x.initialEquity > 0.0 && k <= |MarketOf(x).dates| && RunTo(MarketOf(x), k).Ok?
    ensures var st := RunTo(MarketOf(x), k).value;
            && CashIs(x.initialEquity, st.ledger.cash, st.fills)
            && MatchAll(st.fills).turnover == TradedValue(st.fills, Buy) + TradedValue(st.fills, Sell)
            && MatchAll(st.fills).totalCost == Charged(st.fills)
  {
    hide MarketOf, NextDay, ExecuteAll, Orderly, Tidy, MatchAll;
    TotalsAre(RunTo(MarketOf(x), k).value.fills);
    var m := MarketOf(x);
    if k > 0 {
      CashOfRun(x, k - 1);
      RunIsOrderly(x, k - 1);
      var st := RunTo(m, k - 1).value;
      DayOutcome(m, k - 1, st);
      SettledIsReady(m, st);
      hide TradedValue, Charged;
      DayPays(x.initialEquity, x.costs, m.dates[k - 1], k - 1, BarsOn(m.bars, m.dates[k - 1]),
              Sort(OrderOrder, st.pending), Book(AfterSettle(st.ledger), st.entries, st.fills, st.skipped));
    }
  }
}
