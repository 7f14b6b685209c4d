/** Completed backtests: what holds of the result of every run that finishes, and when a run finishes. */
module CompletedRuns {
  import opened Common
  import opened Costs
  import opened Sorting
  import opened Simulator
  import opened Ledger
  import opened Drawdown
  import opened Strategy
  import opened EventLoop
  import opened RunSafety
  import opened RunTheorems
  import opened Progress
  import opened RiskGate
  import opened NoLookAhead
  import opened Metrics
  import opened RunAccounting

  /** The result of a completed run: one snapshot per trading day and nothing left pending; no negative
      cash, an entry for exactly the held symbols, positions within the limit; the books balance; and the
      risk state is what the worst fall of the equity curve says, never milder as persisted. */
  lemma {:induction false} CompletedRun(x: Inputs)
    requires EventLoop.Run(x).Ok?
    ensures var st := EventLoop.Run(x).value;
            && |st.snapshots| == |MarketOf(x).dates| > 0 && st.pending == []
            && st.ledger.cash >= 0.0 && st.entries.Keys == Held(st.ledger.positions)
            && (x.limits.maxPositions >= 0 ==> |st.ledger.positions| <= x.limits.maxPositions)
            && x.initialEquity + PnlTotal(MatchAll(st.fills).matches) == st.ledger.cash + CostTotal(st.ledger.positions)
            && st.monitor.state == (if FellBy(EquityCurve(x, st), x.thresholds.stop) then ReviewRequired
                                    else if FellBy(EquityCurve(x, st), x.thresholds.warning) then StopNew else Normal)
            && Severity(Persisted(st.snapshots, x.thresholds)) >= Severity(st.monitor.state)
  {
    var m := MarketOf(x);
    var n := |m.dates|;
    LastDayQueuesNothing(m);
    hide MarketOf, RunTo, MatchAll, PnlTotal, CostTotal, FellBy, Persisted, EquityCurve;
    HoldingsStayWithinLimits(x, n);
    MetricsAgreeWithLedger(x, n);
    MonitorFollowsSnapshots(m, n);
    RiskStateOfRun(m, n);
    PersistedIsNeverMilder(x, n);
  }

  lemma {:induction false} LastDayQueuesNothing(m: Market)
    requires m.x.initialEquity > 0.0 && m.dates != [] && RunTo(m, |m.dates|).Ok?
    ensures RunTo(m, |m.dates|).value.pending == []
  {
    hide Trade, SignalsOn, Queue, SnapshotOf, AfterSnapshot, Observed;
    assert RunTo(m, |m.dates|) == NextDay(m, |m.dates| - 1, RunTo(m, |m.dates| - 1).value);
  }

  /** With a sane cost model and positive prices the day loop completes exactly when its preparation accepts the
      inputs and it comes to no unpayable sale. */
  lemma {:induction false} DayLoopCompletesIff(x: Inputs)
    requires Sane(x.costs) && AllPriced(x.bars)
    ensures EventLoop.Run(x).Ok? <==> Prepare(x).Ok? && SalesPayable(x)
  {
    if Prepare(x).Ok? {
      hide MarketOf, RunTo, AllPriced, StopsAfter;
      RunSticksIff(x, |MarketOf(x).dates|);
    }
  }

  // ----- the result through a date

  function FillsThrough(fills: seq<Fill>, t: Date): seq<Fill> {
    if fills == [] then []
    else
      var last, before := fills[|fills| - 1], FillsThrough(fills[..|fills| - 1], t);
      if last.executionDate <= t then before + [last] else before
  }

  function SkippedThrough(skipped: seq<SkippedOrder>, t: Date): seq<SkippedOrder> {
    if skipped == [] then []
    else
      var last, before := skipped[|skipped| - 1], SkippedThrough(skipped[..|skipped| - 1], t);
      if last.date <= t then before + [last] else before
  }

  lemma {:induction false} LaterFillsDrop(fills: seq<Fill>, n: nat, t: Date)
    requires n <= |fills| && forall i | n <= i < |fills| :: fills[i].executionDate > t
    ensures FillsThrough(fills, t) == FillsThrough(fills[..n], t)
  {
    if n == |fills| {
      assert fills[..n] == fills;
    } else {
      assert fills[..|fills| - 1][..n] == fills[..n];
      LaterFillsDrop(fills[..|fills| - 1], n, t);
    }
  }

  lemma {:induction false} LaterSkippedDrop(skipped: seq<SkippedOrder>, n: nat, t: Date)
    requires n <= |skipped| && forall i | n <= i < |skipped| :: skipped[i].date > t
    ensures SkippedThrough(skipped, t) == SkippedThrough(skipped[..n], t)
  {
    if n == |skipped| {
      assert skipped[..n] == skipped;
    } else {
      assert skipped[..|skipped| - 1][..n] == skipped[..n];
      LaterSkippedDrop(skipped[..|skipped| - 1], n, t);
    }
  }

  lemma OneSkipped(costs: CostModel, date: Date, index: int, day: map<Symbol, MarketBar>, o: Order, b: Book)
    requires Valid(b.ledger) && ExecuteOrder(costs, date, index, day, o, b).Ok?
    ensures var r := ExecuteOrder(costs, date, index, day, o, b).value;
            r.skipped == b.skipped || r.skipped == b.skipped + [SkippedOrder(date, o.symbol)]
  {
    hide AfterFill, Notional, Execute;
  }

  /** Whatever a day skips is appended and dated that day. */
  lemma {:induction false} NewSkippedAreDated(costs: CostModel, date: Date, index: int, day: map<Symbol, MarketBar>,
                                              os: seq<Order>, b: Book)
    requires Valid(b.ledger) && ExecuteAll(costs, date, index, day, os, b).Ok?
    ensures var r := ExecuteAll(costs, date, index, day, os, b).value;
            && |b.skipped| <= |r.skipped| && r.skipped[..|b.skipped|] == b.skipped
            && forall i | |b.skipped| <= i < |r.skipped| :: r.skipped[i].date == date
    decreases os
  {
    hide ExecuteOrder, Valid;
    if os == [] {
    } else {
      var next := ExecuteOrder(costs, date, index, day, os[0], b).value;
      OneSkipped(costs, date, index, day, os[0], b);
      NewSkippedAreDated(costs, date, index, day, os[1..], next);
      var r := ExecuteAll(costs, date, index, day, os, b).value;
      assert r.skipped[..|b.skipped|] == r.skipped[..|next.skipped|][..|b.skipped|];
      forall i | |b.skipped| <= i < |r.skipped| ensures r.skipped[i].date == date {
        if i < |next.skipped| { assert r.skipped[i] == r.skipped[..|next.skipped|][i]; }
      }
    }
  }

  lemma {:induction false} SkippedOfDay(m: Market, index: nat, st: RunState)
    requires index < |m.dates| && Healthy(st) && NextDay(m, index, st).Ok?
    ensures var r := NextDay(m, index, st).value;
            && |st.skipped| <= |r.skipped| && r.skipped[..|st.skipped|] == st.skipped
            && forall i | |st.skipped| <= i < |r.skipped| :: r.skipped[i].date == m.dates[index]
  {
    hide NextDay, ExecuteAll, Sort, BarsOn, SnapshotOf, AfterSnapshot, Observed;
    DayOutcome(m, index, st);
    SettledShape(st.ledger.positions);
    NewSkippedAreDated(m.x.costs, m.dates[index], index, BarsOn(m.bars, m.dates[index]), Sort(OrderOrder, st.pending),
                       Book(AfterSettle(st.ledger), st.entries, st.fills, st.skipped));
  }

  /** What a state records of dates through `t`. */
  datatype Record = Record(snapshots: seq<LedgerSnapshot>, fills: seq<Fill>, skipped: seq<SkippedOrder>)

  function RecordThrough(st: RunState, k: nat, t: Date): Record
    requires k <= |st.snapshots|
  {
    Record(st.snapshots[..k], FillsThrough(st.fills, t), SkippedThrough(st.skipped, t))
  }

  /** A day after `t` adds nothing to what is recorded through `t`. */
  lemma {:induction false} LaterDayAddsNothing(m: Market, index: nat, st: RunState, k: nat, t: Date)
    requires index < |m.dates| && Orderly(m, st) && NextDay(m, index, st).Ok?
    requires m.dates[index] > t && k <= |st.snapshots|
    ensures var r := NextDay(m, index, st).value;
            k <= |r.snapshots| && RecordThrough(r, k, t) == RecordThrough(st, k, t)
  {
    FillsOfDay(m, index, st);
    SkippedOfDay(m, index, st);
    MarkExtends(m, index, st);
    hide NextDay, Orderly, FillsThrough, SkippedThrough, Observed;
    var r := NextDay(m, index, st).value;
    forall i | |st.fills| <= i < |r.fills| ensures r.fills[i].executionDate > t {
      assert r.fills[i] in r.fills[|st.fills|..];
    }
    LaterFillsDrop(r.fills, |st.fills|, t);
    LaterSkippedDrop(r.skipped, |st.skipped|, t);
    assert r.snapshots[..k] == r.snapshots[..|st.snapshots|][..k];
  }

  /** What a run records through `t` is settled after the last day that is not later. */
  lemma {:induction false} RecordIsSettled(x: Inputs, k: nat, later: nat, t: Date)
    requires x.initialEquity > 0.0 && k <= later <= |MarketOf(x).dates|
    requires RunTo(MarketOf(x), later).Ok?
    requires forall i | k <= i < later :: MarketOf(x).dates[i] > t
    ensures RunTo(MarketOf(x), k).Ok?
    ensures var st, r := RunTo(MarketOf(x), k).value, RunTo(MarketOf(x), later).value;
            k <= |st.snapshots| && k <= |r.snapshots| && RecordThrough(r, k, t) == RecordThrough(st, k, t)
    decreases later
  {
    hide MarketOf, NextDay, Orderly, RecordThrough;
    if k == later {
      MonitorFollowsSnapshots(MarketOf(x), k);
    } else {
      RecordIsSettled(x, k, later - 1, t);
      RunIsOrderly(x, later - 1);
      LaterDayAddsNothing(MarketOf(x), later - 1, RunTo(MarketOf(x), later - 1).value, k, t);
    }
  }

  /** The first `k` trading dates are those through `t`. */
  ghost predicate DatesSplitAt(m: Market, k: nat, t: Date) {
    && k <= |m.dates|
    && (forall i | 0 <= i < k :: m.dates[i] <= t)
    && forall i | k <= i < |m.dates| :: m.dates[i] > t
  }

  // ----- results of two runs

  lemma {:induction false} FillsThroughEarlier(fills: seq<Fill>, early: Date, late: Date)
    requires early <= late
    ensures FillsThrough(FillsThrough(fills, late), early) == FillsThrough(fills, early)
  {
    if fills == [] {
    } else {
      FillsThroughEarlier(fills[..|fills| - 1], early, late);
      var before := FillsThrough(fills[..|fills| - 1], late);
      assert (before + [fills[|fills| - 1]])[..|before|] == before;
    }
  }

  lemma {:induction false} SkippedThroughEarlier(skipped: seq<SkippedOrder>, early: Date, late: Date)
    requires early <= late
    ensures SkippedThrough(SkippedThrough(skipped, late), early) == SkippedThrough(skipped, early)
  {
    if skipped == [] {
    } else {
      SkippedThroughEarlier(skipped[..|skipped| - 1], early, late);
      var before := SkippedThrough(skipped[..|skipped| - 1], late);
      assert (before + [skipped[|skipped| - 1]])[..|before|] == before;
    }
  }

  lemma {:induction false} AllFillsThrough(fills: seq<Fill>, t: Date)
    requires forall f | f in fills :: f.executionDate <= t
    ensures FillsThrough(fills, t) == fills
  {
    if fills == [] {
    } else {
      AllFillsThrough(fills[..|fills| - 1], t);
    }
  }

  lemma {:induction false} AllSkippedThrough(skipped: seq<SkippedOrder>, t: Date)
    requires forall o | o in skipped :: o.date <= t
    ensures SkippedThrough(skipped, t) == skipped
  {
    if skipped == [] {
    } else {
      AllSkippedThrough(skipped[..|skipped| - 1], t);
    }
  }

  lemma {:induction false} SkippedAreDated(x: Inputs, k: nat, t: Date)
    requires x.initialEquity > 0.0 && k <= |MarketOf(x).dates| && RunTo(MarketOf(x), k).Ok?
    requires forall i | 0 <= i < k :: MarketOf(x).dates[i] <= t
    ensures forall o | o in RunTo(MarketOf(x), k).value.skipped :: o.date <= t
  {
    hide NextDay, MarketOf, Healthy;
    if k == 0 {
    } else {
      SkippedAreDated(x, k - 1, t);
      SkippedOfDay(MarketOf(x), k - 1, RunTo(MarketOf(x), k - 1).value);
      var before, after := RunTo(MarketOf(x), k - 1).value.skipped, RunTo(MarketOf(x), k).value.skipped;
      assert after == after[..|before|] + after[|before|..];
    }
  }

  /** The state after `k` days has recorded all of its own days and nothing else. */
  lemma {:induction false} StateIsRecord(x: Inputs, k: nat, t: Date)
    requires x.initialEquity > 0.0 && k <= |MarketOf(x).dates| && RunTo(MarketOf(x), k).Ok?
    requires forall i | 0 <= i < k :: MarketOf(x).dates[i] <= t
    ensures var st := RunTo(MarketOf(x), k).value;
            |st.snapshots| == k && RecordThrough(st, k, t) == Record(st.snapshots, st.fills, st.skipped)
  {
    hide MarketOf, RunTo, FillsThrough, SkippedThrough;
    FillsAreDated(x, k, t);
    SkippedAreDated(x, k, t);
    MonitorFollowsSnapshots(MarketOf(x), k);
    var st := RunTo(MarketOf(x), k).value;
    AllFillsThrough(st.fills, t);
    AllSkippedThrough(st.skipped, t);
    assert st.snapshots[..k] == st.snapshots;
  }

  /** An earlier record is part of a later one. */
  lemma RecordsThroughEarlier(r: RunState, s: RunState, j: nat, k: nat, early: Date, late: Date)
    requires j <= k <= |r.snapshots| && k <= |s.snapshots| && early <= late
    requires RecordThrough(r, k, late) == RecordThrough(s, k, late)
    ensures RecordThrough(r, j, early) == RecordThrough(s, j, early)
  {
    FillsThroughEarlier(r.fills, early, late);
    FillsThroughEarlier(s.fills, early, late);
    SkippedThroughEarlier(r.skipped, early, late);
    SkippedThroughEarlier(s.skipped, early, late);
    hide FillsThrough, SkippedThrough;
    assert r.snapshots[..j] == r.snapshots[..k][..j] && s.snapshots[..j] == s.snapshots[..k][..j];
  }

  /** After every one of the first `k` days the two runs have queued the same orders. */
  ghost predicate QueuesAgree(x: Inputs, y: Inputs, k: nat)
    requires x.initialEquity > 0.0 && y.initialEquity > 0.0
    requires k <= |MarketOf(x).dates| && k <= |MarketOf(y).dates|
  {
    forall j: nat | j <= k :: SameQueue(x, y, j)
  }

  ghost predicate SameQueue(x: Inputs, y: Inputs, j: nat)
    requires x.initialEquity > 0.0 && y.initialEquity > 0.0
    requires j <= |MarketOf(x).dates| && j <= |MarketOf(y).dates|
  {
    var a, b := RunTo(MarketOf(x), j), RunTo(MarketOf(y), j);
    a.Ok? && b.Ok? ==> a.value.pending == b.value.pending
  }

  /** The states of two completed runs after `j` days report alike exactly as far as their results and queues do. */
  lemma {:induction false} ReportFromResults(x: Inputs, y: Inputs, j: nat, k: nat, t: Date)
    requires EventLoop.Run(x).Ok? && EventLoop.Run(y).Ok? && MarketOf(x).dates == MarketOf(y).dates
    requires j <= k && DatesSplitAt(MarketOf(x), k, t)
    requires k <= |EventLoop.Run(x).value.snapshots| && k <= |EventLoop.Run(y).value.snapshots|
    requires RecordThrough(EventLoop.Run(x).value, k, t) == RecordThrough(EventLoop.Run(y).value, k, t)
    requires SameQueue(x, y, j)
    ensures SameReport(x, y, j)
  {
    hide MarketOf, RunTo, RecordThrough;
    var n := |MarketOf(x).dates|;
    OkBefore(MarketOf(x), j, n);
    OkBefore(MarketOf(y), j, n);
    if j == 0 {
      EmptyReport(MarketOf(x));
      EmptyReport(MarketOf(y));
    } else {
      DatesAscend(x);
      var early := MarketOf(x).dates[j - 1];
      RecordsThroughEarlier(EventLoop.Run(x).value, EventLoop.Run(y).value, j, k, early, t);
      RecordIsSettled(x, j, n, early);
      RecordIsSettled(y, j, n, early);
      StateIsRecord(x, j, early);
      StateIsRecord(y, j, early);
    }
  }

  lemma EmptyReport(m: Market)
    requires m.x.initialEquity > 0.0
    ensures RunTo(m, 0).Ok? && ReportOf(RunTo(m, 0).value) == Report([], [], [], [])
  {
  }

  /** When two results tell of a look-ahead. Two completed runs of the same configuration, calendar and cutoff,
      whose bars agree on every date through `t`, report the same snapshots, fills and skipped orders through
      `t` and queue the same orders after every day through `t` exactly when, at every close before the last at
      which the first run holds anything, both have seen the market filter closed for two days or more, or
      neither has. */
  lemma {:induction false} ResultsAlikeIff(x: Inputs, y: Inputs, t: Date, k: nat)
    requires EventLoop.Run(x).Ok? && EventLoop.Run(y).Ok? && AgreeThrough(x, y, t)
    requires DatesSplitAt(MarketOf(x), k, t)
    ensures |MarketOf(x).dates| == |MarketOf(y).dates|
    ensures var r, s := EventLoop.Run(x).value, EventLoop.Run(y).value;
            && k <= |r.snapshots| == |s.snapshots|
            && (RecordThrough(r, k, t) == RecordThrough(s, k, t) && QueuesAgree(x, y, k) <==>
                  forall i: nat | i < k && i < |MarketOf(x).dates| - 1 :: SwitchesAlike(x, y, i))
  {
    hide MarketOf, RunTo, RecordThrough, AgreeThrough, SwitchesAlike;
    MarketsAgree(x, y, t);
    var n := |MarketOf(x).dates|;
    RecordIsSettled(x, k, n, t);
    RecordIsSettled(y, k, n, t);
    MonitorFollowsSnapshots(MarketOf(x), n);
    MonitorFollowsSnapshots(MarketOf(y), n);
    LooksAheadIff(x, y, t, k);
    var r, s := EventLoop.Run(x).value, EventLoop.Run(y).value;
    if RecordThrough(r, k, t) == RecordThrough(s, k, t) && QueuesAgree(x, y, k) {
      forall j: nat | j <= k ensures SameReport(x, y, j) {
        assert SameQueue(x, y, j);
        ReportFromResults(x, y, j, k, t);
      }
    }
    if ReportsAlike(x, y, k) {
      assert SameReport(x, y, k);
      StateIsRecord(x, k, t);
      StateIsRecord(y, k, t);
      forall j: nat | j <= k ensures SameQueue(x, y, j) {
        assert SameReport(x, y, j);
      }
    }
  }

  /** No look-ahead, told from the results alone: for the moving-average strategy, and for the strong-trend
      strategy where both runs follow the same symbols. */
  lemma {:induction false} ResultsNeverLookAhead(x: Inputs, y: Inputs, t: Date, k: nat)
    requires EventLoop.Run(x).Ok? && EventLoop.Run(y).Ok? && AgreeThrough(x, y, t)
    requires x.strategy.MovingAverageTrend? || MarketOf(x).symbols == MarketOf(y).symbols
    requires DatesSplitAt(MarketOf(x), k, t)
    ensures |MarketOf(x).dates| == |MarketOf(y).dates|
    ensures var r, s := EventLoop.Run(x).value, EventLoop.Run(y).value;
            && k <= |r.snapshots| == |s.snapshots|
            && RecordThrough(r, k, t) == RecordThrough(s, k, t)
            && QueuesAgree(x, y, k)
  {
    hide MarketOf, RunTo, RecordThrough, AgreeThrough, SwitchesAlike;
    MarketsAgree(x, y, t);
    var n := |MarketOf(x).dates|;
    OkBefore(MarketOf(x), k, n);
    OkBefore(MarketOf(y), k, n);
    ResultsAlikeIff(x, y, t, k);
    if x.strategy.MovingAverageTrend? {
      TrendNeverLooksAhead(x, y, t, k);
    } else {
      SameSymbolsNoLookAhead(x, y, t, k);
    }
    LooksAheadIff(x, y, t, k);
  }

  /** The risk gate, told from the result alone: after a fall of the reported curve by the warning threshold
      at the close of the `k`-th day, the run reports no purchase, filled or not, on any later date. */
  lemma {:induction false} ResultStopsBuying(x: Inputs, k: nat)
    requires EventLoop.Run(x).Ok? && 0 < k <= |MarketOf(x).dates| && k <= |EventLoop.Run(x).value.snapshots|
    requires FellBy([x.initialEquity] + Equities(EventLoop.Run(x).value.snapshots[..k]), x.thresholds.warning)
    ensures NoPurchaseAfter(EventLoop.Run(x).value.fills, MarketOf(x).dates[k - 1])
  {
    hide MarketOf, RunTo, FellBy, NoPurchaseAfter, Equities;
    var m := MarketOf(x);
    var n := |m.dates|;
    DatesAscend(x);
    RecordIsSettled(x, k, n, m.dates[k - 1]);
    MonitorFollowsSnapshots(m, k);
    var st := RunTo(m, k).value;
    assert st.snapshots[..k] == st.snapshots;
    FallStopsPurchases(x, k, n);
  }
}
