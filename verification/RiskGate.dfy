/** The risk gate over whole runs: the equity curve decides the monitor's state, a monitor that has left
    NORMAL stops all later purchases, and the persisted risk state is never milder. */
module RiskGate {
  import opened Common
  import opened Sorting
  import opened Costs
  import opened Simulator
  import opened Ledger
  import opened Drawdown
  import opened EventLoop
  import opened OrderBook
  import opened RunSafety

  function Equities(snapshots: seq<LedgerSnapshot>): seq<real> {
    if snapshots == [] then [] else Equities(snapshots[..|snapshots| - 1]) + [snapshots[|snapshots| - 1].equity]
  }

  /** The curve the run reports: the initial equity, then the equity at every close. */
  function EquityCurve(x: Inputs, st: RunState): seq<real> {
    [x.initialEquity] + Equities(st.snapshots)
  }

  /** The drawdown a snapshot reports is its distance from its own high-water mark. */
  predicate DrawdownIsCurrent(s: LedgerSnapshot) {
    s.highWaterMark > 0.0 && s.drawdown == (s.highWaterMark - s.equity) / s.highWaterMark
  }

  lemma {:induction false} MarkExtends(m: Market, index: nat, st: RunState)
    requires index < |m.dates| && Healthy(st) && NextDay(m, index, st).Ok?
    ensures var r := NextDay(m, index, st).value;
            && |r.snapshots| == |st.snapshots| + 1
            && r.snapshots[..|st.snapshots|] == st.snapshots
            && r.monitor == Observed(st.monitor, r.snapshots[|st.snapshots|].equity)
            && r.ledger.highWaterMark == r.snapshots[|st.snapshots|].highWaterMark
            && (r.ledger.highWaterMark > 0.0 ==> DrawdownIsCurrent(r.snapshots[|st.snapshots|]))
  {
    hide NextDay, Trade, PositionsValue, Sort, BarsOn, ClosesOf;
    DayOutcome(m, index, st);
  }

  /** The monitor has observed exactly the snapshots' equities. */
  lemma {:induction false} MonitorFollowsSnapshots(m: Market, k: nat)
    requires m.x.initialEquity > 0.0 && k <= |m.dates| && RunTo(m, k).Ok?
    ensures var st := RunTo(m, k).value;
            |st.snapshots| == k && st.monitor == ObserveAll(m.x.initialEquity, m.x.thresholds, Equities(st.snapshots))
  {
    hide NextDay;
    if k == 0 {
    } else {
      MonitorFollowsSnapshots(m, k - 1);
      MarkExtends(m, k - 1, RunTo(m, k - 1).value);
      var before, after := RunTo(m, k - 1).value, RunTo(m, k).value;
      var equities := Equities(after.snapshots);
      assert equities[..|equities| - 1] == Equities(before.snapshots);
    }
  }

  /** In every run the risk state after `k` days is decided by the worst fall of the equity curve. */
  lemma RiskStateOfRun(m: Market, k: nat)
    requires m.x.initialEquity > 0.0 && m.x.thresholds.Ordered() && k <= |m.dates| && RunTo(m, k).Ok?
    ensures var st := RunTo(m, k).value;
            st.monitor.state ==
              if FellBy(EquityCurve(m.x, st), m.x.thresholds.stop) then ReviewRequired
              else if FellBy(EquityCurve(m.x, st), m.x.thresholds.warning) then StopNew
              else Normal
  {
    MonitorFollowsSnapshots(m, k);
    WorstFallDecidesState(m.x.initialEquity, m.x.thresholds, Equities(RunTo(m, k).value.snapshots));
  }

  // ----- no purchase once the gate has closed

  /** Every new fill executes an order of the day, on its side. */
  lemma {:induction false} NewFillsHaveOrders(costs: CostModel, date: Date, index: int, day: map<Symbol, MarketBar>,
                                              os: seq<Order>, b: Book)
    requires Valid(b.ledger) && ExecuteAll(costs, date, index, day, os, b).Ok?
    ensures var r := ExecuteAll(costs, date, index, day, os, b).value;
            && |b.fills| <= |r.fills| && r.fills[..|b.fills|] == b.fills
            && forall f | f in r.fills[|b.fills|..] :: f.executionDate == date && exists o | o in os :: o.side == f.side
    decreases os
  {
    hide ExecuteOrder, Valid;
    if os == [] {
    } else {
      var next := ExecuteOrder(costs, date, index, day, os[0], b).value;
      OneNewFill(costs, date, index, day, os[0], b);
      NewFillsHaveOrders(costs, date, index, day, os[1..], next);
      var r := ExecuteAll(costs, date, index, day, os, b).value;
      assert r.fills[..|b.fills|] == r.fills[..|next.fills|][..|b.fills|];
      forall f | f in r.fills[|b.fills|..] ensures f.executionDate == date && exists o | o in os :: o.side == f.side {
        assert os[0] in os && forall o | o in os[1..] :: o in os;
        if f !in r.fills[|next.fills|..] {
          assert r.fills[|b.fills|..] == next.fills[|b.fills|..] + r.fills[|next.fills|..];
          assert f in next.fills[|b.fills|..];
        }
      }
    }
  }

  lemma OneNewFill(costs: CostModel, date: Date, index: int, day: map<Symbol, MarketBar>, o: Order, b: Book)
    requires Valid(b.ledger) && ExecuteOrder(costs, date, index, day, o, b).Ok?
    ensures var r := ExecuteOrder(costs, date, index, day, o, b).value;
            && |b.fills| <= |r.fills| && r.fills[..|b.fills|] == b.fills
            && forall f | f in r.fills[|b.fills|..] :: f.executionDate == date && f.side == o.side
  {
    hide AfterFill, Notional, ExecutionPrice, Calculate;
  }

  lemma {:induction false} NoBuys(os: seq<Order>)
    requires Buys(os) == 0
    ensures forall o | o in os :: o.side == Sell
  {
    if os == [] {
    } else {
      NoBuys(os[1..]);
    }
  }

  ghost predicate NoPurchaseAfter(fills: seq<Fill>, date: Date) {
    forall f | f in fills && f.side == Buy :: f.executionDate <= date
  }

  /** The new fills of one day. */
  lemma FillsOfDay(m: Market, index: nat, st: RunState)
    requires index < |m.dates| && Orderly(m, st) && NextDay(m, index, st).Ok?
    ensures var r := NextDay(m, index, st).value;
            && |st.fills| <= |r.fills| && r.fills[..|st.fills|] == st.fills
            && forall f | f in r.fills[|st.fills|..] ::
                 f.executionDate == m.dates[index] && (f.side == Buy ==> Buys(st.pending) > 0)
  {
    DayOutcome(m, index, st);
    SettledIsReady(m, st);
    hide NextDay, Orderly;
    var os := Sort(OrderOrder, st.pending);
    var book := Book(AfterSettle(st.ledger), st.entries, st.fills, st.skipped);
    NewFillsHaveOrders(m.x.costs, m.dates[index], index, BarsOn(m.bars, m.dates[index]), os, book);
    if Buys(os) == 0 { NoBuys(os); }
  }

  /** With no purchase pending, a day executes none. */
  lemma DayWithoutPurchases(m: Market, index: nat, st: RunState, date: Date)
    requires index < |m.dates| && Orderly(m, st) && NextDay(m, index, st).Ok?
    requires Buys(st.pending) == 0 && NoPurchaseAfter(st.fills, date)
    ensures NoPurchaseAfter(NextDay(m, index, st).value.fills, date)
  {
    hide NextDay, AllFit, Buys, NoPurchaseAfter;
    FillsOfDay(m, index, st);
    NoNewPurchase(st.fills, NextDay(m, index, st).value.fills, date);
  }

  lemma NoNewPurchase(before: seq<Fill>, after: seq<Fill>, date: Date)
    requires NoPurchaseAfter(before, date) && |before| <= |after| && after[..|before|] == before
    requires forall f | f in after[|before|..] :: f.side != Buy
    ensures NoPurchaseAfter(after, date)
  {
    assert after == before + after[|before|..];
  }

  lemma TrippedStaysTripped(m: Market, index: nat, st: RunState)
    requires index < |m.dates| && Healthy(st) && NextDay(m, index, st).Ok?
    requires st.monitor.state != Normal
    ensures NextDay(m, index, st).value.monitor.state != Normal
  {
    hide NextDay;
    MarkExtends(m, index, st);
  }

  lemma {:induction false} FillsAreDated(x: Inputs, k: nat, date: Date)
    requires x.initialEquity > 0.0 && k <= |MarketOf(x).dates| && RunTo(MarketOf(x), k).Ok?
    requires forall i | 0 <= i < k :: MarketOf(x).dates[i] <= date
    ensures forall f | f in RunTo(MarketOf(x), k).value.fills :: f.executionDate <= date
  {
    hide NextDay, MarketOf, Orderly;
    if k == 0 {
    } else {
      FillsAreDated(x, k - 1, date);
      RunIsOrderly(x, k - 1);
      FillsOfDay(MarketOf(x), k - 1, RunTo(MarketOf(x), k - 1).value);
      var before, after := RunTo(MarketOf(x), k - 1).value.fills, RunTo(MarketOf(x), k).value.fills;
      assert after == after[..|before|] + after[|before|..];
    }
  }

  /** Once the state at the close of the `k`-th day is not NORMAL, the rest of the run buys nothing: every
      purchase, filled or not, was attempted on that day or earlier. */
  lemma {:induction false} GateNeverReopens(x: Inputs, k: nat, later: nat)
    requires x.initialEquity > 0.0 && 0 < k <= later <= |MarketOf(x).dates| && RunTo(MarketOf(x), later).Ok?
    requires RunTo(MarketOf(x), k).Ok? && RunTo(MarketOf(x), k).value.monitor.state != Normal
    ensures var st := RunTo(MarketOf(x), later).value;
            st.monitor.state != Normal && NoPurchaseAfter(st.fills, MarketOf(x).dates[k - 1])
    decreases later
  {
    hide MarketOf, NextDay, AllFit, NoPurchaseAfter;
    var m := MarketOf(x);
    if later == k {
      DatesAscend(x);
      FillsAreDated(x, k, m.dates[k - 1]);
      assert NoPurchaseAfter(RunTo(m, k).value.fills, m.dates[k - 1]) by {
        NoneLater(RunTo(m, k).value.fills, m.dates[k - 1]);
      }
    } else {
      GateNeverReopens(x, k, later - 1);
      RunIsOrderly(x, later - 1);
      DayWithoutPurchases(m, later - 1, RunTo(m, later - 1).value, m.dates[k - 1]);
      TrippedStaysTripped(m, later - 1, RunTo(m, later - 1).value);
    }
  }

  lemma NoneLater(fills: seq<Fill>, date: Date)
    requires forall f | f in fills :: f.executionDate <= date
    ensures NoPurchaseAfter(fills, date)
  {
  }

  lemma DatesAscend(x: Inputs)
    ensures Ascending(MarketOf(x).dates)
  {
    SortedUniqueAscends(Within(x.tradingDates, x.start, x.end));
  }

  /** The gate in terms of the equity curve alone: after a fall by the warning threshold, no purchase. */
  lemma FallStopsPurchases(x: Inputs, k: nat, later: nat)
    requires x.initialEquity > 0.0 && x.thresholds.Ordered()
    requires 0 < k <= later <= |MarketOf(x).dates| && RunTo(MarketOf(x), later).Ok? && RunTo(MarketOf(x), k).Ok?
    requires FellBy(EquityCurve(x, RunTo(MarketOf(x), k).value), x.thresholds.warning)
    ensures NoPurchaseAfter(RunTo(MarketOf(x), later).value.fills, MarketOf(x).dates[k - 1])
  {
    hide MarketOf, RunTo;
    RiskStateOfRun(MarketOf(x), k);
    GateNeverReopens(x, k, later);
  }

  // ----- the persisted risk state

  function Severity(state: DrawdownState): int {
    match state case Normal => 0 case StopNew => 1 case ReviewRequired => 2
  }

  /** The risk state written beside the last of the snapshots, recomputed from their own drawdowns. */
  function Persisted(snapshots: seq<LedgerSnapshot>, thresholds: Thresholds): DrawdownState {
    if snapshots == [] then Normal
    else
      var state := Persisted(snapshots[..|snapshots| - 1], thresholds);
      var drawdown := snapshots[|snapshots| - 1].drawdown;
      if drawdown >= thresholds.stop then ReviewRequired
      else if drawdown >= thresholds.warning && state == Normal then StopNew
      else state
  }

  /** The worst drawdown so far decides the persisted state. */
  lemma {:induction false} WorstDrawdownPersists(snapshots: seq<LedgerSnapshot>, thresholds: Thresholds)
    ensures var state := Persisted(snapshots, thresholds);
            && (state == ReviewRequired <==> exists e | e in snapshots :: e.drawdown >= thresholds.stop)
            && (state == Normal <==>
                  forall e | e in snapshots :: e.drawdown < thresholds.stop && e.drawdown < thresholds.warning)
  {
    if snapshots != [] {
      var n := |snapshots| - 1;
      WorstDrawdownPersists(snapshots[..n], thresholds);
      assert snapshots == snapshots[..n] + [snapshots[n]];
      assert snapshots[n] in snapshots && forall e | e in snapshots[..n] :: e in snapshots;
    }
  }

  method PersistSnapshots(dates: seq<Date>, snapshots: seq<LedgerSnapshot>, thresholds: Thresholds)
    returns (rows: seq<(Date, LedgerSnapshot, DrawdownState)>)
    ensures |rows| == if |dates| < |snapshots| then |dates| else |snapshots|
    ensures forall i | 0 <= i < |rows| :: rows[i] == (dates[i], snapshots[i], Persisted(snapshots[..i + 1], thresholds))
  {
    rows := [];
    var state := Normal;
    var i := 0;
    while i < |dates| && i < |snapshots|
      invariant 0 <= i <= |snapshots| && i <= |dates| && |rows| == i
      invariant state == Persisted(snapshots[..i], thresholds)
      invariant forall j | 0 <= j < i :: rows[j] == (dates[j], snapshots[j], Persisted(snapshots[..j + 1], thresholds))
    {
      assert snapshots[..i + 1][..i] == snapshots[..i];
      if snapshots[i].drawdown >= thresholds.stop {
        state := ReviewRequired;
      } else if snapshots[i].drawdown >= thresholds.warning && state == Normal {
        state := StopNew;
      }
      rows := rows + [(dates[i], snapshots[i], state)];
      i := i + 1;
    }
  }

  /** A higher mark sees every fall that a lower one sees. */
  lemma HigherMarkSeesMore(low: real, high: real, equity: real, level: real)
    requires 0.0 < low <= high && equity <= low && 0.0 < level < 1.0
    requires (low - equity) / low >= level
    ensures (high - equity) / high >= level
  {
    FallGrowsWithPeak(low, high, equity, level);
  }

  /** After every day of every run the persisted state is at least as severe as the monitor's. */
  lemma {:induction false} PersistedIsNeverMilder(x: Inputs, k: nat)
    requires x.initialEquity > 0.0 && x.thresholds.Ordered()
    requires k <= |MarketOf(x).dates| && RunTo(MarketOf(x), k).Ok?
    ensures var st := RunTo(MarketOf(x), k).value;
            && st.monitor.thresholds == x.thresholds
            && Severity(Persisted(st.snapshots, x.thresholds)) >= Severity(st.monitor.state)
            && (st.monitor.state == ReviewRequired ==> Persisted(st.snapshots, x.thresholds) == ReviewRequired)
            && (st.monitor.state != Normal ==> Persisted(st.snapshots, x.thresholds) != Normal)
  {
    hide MarketOf, NextDay, AllFit;
    var m := MarketOf(x);
    if k == 0 {
    } else {
      var before, after := RunTo(m, k - 1).value, RunTo(m, k).value;
      PersistedIsNeverMilder(x, k - 1);
      RunIsOrderly(x, k - 1);
      RunIsOrderly(x, k);
      MarkExtends(m, k - 1, before);
      assert after.snapshots[..|after.snapshots| - 1] == before.snapshots;
      var last := after.snapshots[|after.snapshots| - 1];
      SeverityStep(before.monitor, last, Persisted(before.snapshots, x.thresholds));
    }
  }

  lemma SeverityStep(monitor: Monitor, last: LedgerSnapshot, state: DrawdownState)
    requires monitor.thresholds.Ordered() && monitor.highWaterMark > 0.0
    requires last.highWaterMark >= Max(monitor.highWaterMark, last.equity)
    requires DrawdownIsCurrent(last)
    requires Severity(state) >= Severity(monitor.state)
    ensures var next := if last.drawdown >= monitor.thresholds.stop then ReviewRequired
                        else if last.drawdown >= monitor.thresholds.warning && state == Normal then StopNew
                        else state;
            Severity(next) >= Severity(Observed(monitor, last.equity).state)
  {
    var peak := Max(monitor.highWaterMark, last.equity);
    var fall := (peak - last.equity) / peak;
    if fall >= monitor.thresholds.stop {
      HigherMarkSeesMore(peak, last.highWaterMark, last.equity, monitor.thresholds.stop);
    }
    if fall >= monitor.thresholds.warning {
      HigherMarkSeesMore(peak, last.highWaterMark, last.equity, monitor.thresholds.warning);
    }
  }
}
