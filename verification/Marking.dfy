/** Marking to market: what every day's equity is made of, read from the bars alone. */
module Marking {
  import opened Common
  import opened Sorting
  import opened Costs
  import opened Simulator
  import opened Ledger
  import opened Drawdown
  import opened EventLoop
  import opened RunSafety
  import opened RiskGate

  // ----- closes, read from the bars

  /** The bar that stands for a symbol and date: the last one in the list. */
  ghost predicate StandsFor(bars: seq<MarketBar>, s: Symbol, d: Date, j: nat) {
    && j < |bars| && bars[j].symbol == s && bars[j].date == d
    && forall i | j < i < |bars| :: bars[i].symbol != s || bars[i].date != d
  }

  /** The symbol closed at `c` on the date. */
  ghost predicate ClosedAt(bars: seq<MarketBar>, s: Symbol, d: Date, c: real) {
    exists j: nat :: StandsFor(bars, s, d, j) && bars[j].close == Some(c)
  }

  /** Of the run's first `k` dates, the `i`-th is the last on which the symbol closed, at `c`. */
  ghost predicate LastClosedAt(m: Market, k: nat, s: Symbol, i: nat, c: real)
    requires k <= |m.dates|
  {
    && i < k && ClosedAt(m.bars, s, m.dates[i], c)
    && forall j, e | i < j < k :: !ClosedAt(m.bars, s, m.dates[j], e)
  }

  ghost predicate LastClosed(m: Market, k: nat, s: Symbol, c: real)
    requires k <= |m.dates|
  {
    exists i: nat :: LastClosedAt(m, k, s, i, c)
  }

  /** What a share is marked at: the last close of the run's first `k` days, or else its average cost. */
  ghost predicate MarkedAt(m: Market, k: nat, p: LedgerPosition, mark: real)
    requires k <= |m.dates| && p.quantity > 0
  {
    || LastClosed(m, k, p.symbol, mark)
    || ((forall i: nat, c | i < k :: !ClosedAt(m.bars, p.symbol, m.dates[i], c))
        && mark * p.quantity as real == p.costBasis)
  }

  /** The positions' worth at the given marks. */
  function Worth(ps: seq<LedgerPosition>, marks: seq<real>): real
    requires |ps| == |marks|
  {
    if ps == [] then 0.0 else marks[0] * ps[0].quantity as real + Worth(ps[1..], marks[1..])
  }

  /** Of the bars that `BarsOn` goes through, the last one of a symbol stands. */
  lemma {:induction false} BarsOnStands(bars: seq<MarketBar>, date: Date, s: Symbol)
    ensures s in BarsOn(bars, date) ==> exists j: nat :: StandsFor(bars, s, date, j) && BarsOn(bars, date)[s] == bars[j]
    ensures s !in BarsOn(bars, date) ==> forall b | b in bars :: b.symbol != s || b.date != date
  {
    if bars == [] {
    } else {
      var n := |bars| - 1;
      assert bars == bars[..n] + [bars[n]];
      BarsOnStands(bars[..n], date, s);
      BarsOnSnoc(bars[..n], bars[n], date);
      if bars[n].date == date && bars[n].symbol == s {
        assert StandsFor(bars, s, date, n);
      } else if s in BarsOn(bars, date) {
        var j: nat :| StandsFor(bars[..n], s, date, j) && BarsOn(bars, date)[s] == bars[..n][j];
        assert StandsFor(bars, s, date, j);
      }
    }
  }

  lemma {:induction false} ClosesOfDay(m: Market, date: Date, s: Symbol, c: real)
    ensures ClosedAt(m.bars, s, date, c)
       <==> s in ClosesOf(BarsOn(m.bars, date)) && ClosesOf(BarsOn(m.bars, date))[s] == c
  {
    hide BarsOn;
    BarsOnStands(m.bars, date, s);
    if ClosedAt(m.bars, s, date, c) {
      var j: nat :| StandsFor(m.bars, s, date, j) && m.bars[j].close == Some(c);
      assert m.bars[j] in m.bars;
    }
  }

  // ----- the closes a run has seen

  /** The dictionary of last closes is what the first `k` days' bars say. */
  ghost predicate ClosesSeen(m: Market, k: nat, closes: map<Symbol, real>)
    requires k <= |m.dates|
  {
    && (forall s | s in closes :: LastClosed(m, k, s, closes[s]))
    && forall s, i: nat, c | i < k && ClosedAt(m.bars, s, m.dates[i], c) :: s in closes
  }

  lemma {:induction false} NextCloses(m: Market, k: nat, closes: map<Symbol, real>)
    requires k < |m.dates| && ClosesSeen(m, k, closes)
    ensures ClosesSeen(m, k + 1, closes + ClosesOf(BarsOn(m.bars, m.dates[k])))
  {
    var today := ClosesOf(BarsOn(m.bars, m.dates[k]));
    var next := closes + today;
    forall s, c ensures ClosedAt(m.bars, s, m.dates[k], c) <==> s in today && today[s] == c {
      ClosesOfDay(m, m.dates[k], s, c);
    }
    hide ClosedAt, BarsOn, ClosesOf;
    forall s | s in next ensures LastClosed(m, k + 1, s, next[s]) {
      if s in today {
        assert LastClosedAt(m, k + 1, s, k, next[s]);
      } else {
        var i: nat :| LastClosedAt(m, k, s, i, closes[s]);
        assert LastClosedAt(m, k + 1, s, i, next[s]);
      }
    }
  }

  // ----- one day's marks

  /** Every position is marked, at `marks`. */
  ghost predicate AllMarked(m: Market, k: nat, ps: seq<LedgerPosition>, marks: seq<real>)
    requires k <= |m.dates| && AllOpen(ps)
  {
    |marks| == |ps| && forall i | 0 <= i < |ps| :: OpenPosition(ps[i]) && MarkedAt(m, k, ps[i], marks[i])
  }

  lemma AverageCost(cost: real, n: int, mark: real)
    requires n > 0
    ensures cost / n as real * n as real == cost
    ensures mark * n as real == cost ==> mark == cost / n as real
  {
    if mark * n as real == cost { assert (mark - cost / n as real) * n as real == 0.0; }
  }

  /** A symbol's mark is what the dictionary of last closes says, or its average cost. */
  lemma {:induction false} MarkIs(m: Market, k: nat, closes: map<Symbol, real>, p: LedgerPosition, mark: real)
    requires k <= |m.dates| && ClosesSeen(m, k, closes) && p.quantity > 0
    ensures MarkedAt(m, k, p, mark)
       <==> mark == if p.symbol in closes then closes[p.symbol] else p.costBasis / p.quantity as real
  {
    AverageCost(p.costBasis, p.quantity, mark);
    if p.symbol in closes {
      assert LastClosed(m, k, p.symbol, closes[p.symbol]);
      var i: nat :| LastClosedAt(m, k, p.symbol, i, closes[p.symbol]);
      if LastClosed(m, k, p.symbol, mark) {
        var j: nat :| LastClosedAt(m, k, p.symbol, j, mark);
        OneClose(m, p.symbol, m.dates[i], closes[p.symbol], mark);
      }
    }
    hide ClosedAt;
  }

  lemma OneClose(m: Market, s: Symbol, d: Date, c: real, e: real)
    requires ClosedAt(m.bars, s, d, c)
    ensures ClosedAt(m.bars, s, d, e) <==> c == e
  {
  }

  lemma {:induction false} ValueIsWorth(m: Market, k: nat, closes: map<Symbol, real>, ps: seq<LedgerPosition>)
    returns (marks: seq<real>)
    requires k <= |m.dates| && ClosesSeen(m, k, closes) && AllOpen(ps)
    ensures AllMarked(m, k, ps, marks) && PositionsValue(ps, closes) == Worth(ps, marks)
    ensures forall others | AllMarked(m, k, ps, others) :: others == marks
  {
    hide MarkedAt, ClosesSeen;
    if ps == [] {
      marks := [];
    } else {
      assert OpenPosition(ps[0]) && AllOpen(ps[1..]);
      var mark := if ps[0].symbol in closes then closes[ps[0].symbol] else ps[0].costBasis / ps[0].quantity as real;
      MarkIs(m, k, closes, ps[0], mark);
      var rest := ValueIsWorth(m, k, closes, ps[1..]);
      marks := [mark] + rest;
      assert marks[1..] == rest;
      forall others | AllMarked(m, k, ps, others) ensures others == marks {
        MarkIs(m, k, closes, ps[0], others[0]);
        LaterMarked(m, k, ps, others);
        assert others == [others[0]] + others[1..];
      }
    }
  }

  lemma LaterMarked(m: Market, k: nat, ps: seq<LedgerPosition>, marks: seq<real>)
    requires k <= |m.dates| && AllOpen(ps) && ps != [] && AllMarked(m, k, ps, marks)
    ensures AllOpen(ps[1..]) && AllMarked(m, k, ps[1..], marks[1..])
  {
    hide MarkedAt;
    forall i | 0 <= i < |ps[1..]| ensures OpenPosition(ps[1..][i]) && MarkedAt(m, k, ps[1..][i], marks[1..][i]) {
      assert OpenPosition(ps[i + 1]) && MarkedAt(m, k, ps[i + 1], marks[i + 1]);
    }
  }

  // ----- runs

  lemma {:induction false} RunSeesCloses(x: Inputs, k: nat)
    requires x.initialEquity > 0.0 && k <= |MarketOf(x).dates| && RunTo(MarketOf(x), k).Ok?
    ensures ClosesSeen(MarketOf(x), k, RunTo(MarketOf(x), k).value.lastCloses)
  {
    hide MarketOf, NextDay, ClosesSeen, BarsOn, Mark, Trade;
    var m := MarketOf(x);
    if k == 0 {
      NothingSeen(m);
    } else {
      RunSeesCloses(x, k - 1);
      var st := RunTo(m, k - 1).value;
      NextCloses(m, k - 1, st.lastCloses);
      DayOutcome(m, k - 1, st);
      MarkUpdates(m, k - 1, st, Trade(m, k - 1, st).value);
    }
  }

  lemma NothingSeen(m: Market)
    ensures ClosesSeen(m, 0, map[])
  {
  }

  lemma MarkUpdates(m: Market, index: nat, st: RunState, b: Book)
    requires index < |m.dates| && Healthy(st) && Valid(b.ledger)
    ensures var r := Mark(m, index, st, b);
            && r.lastCloses == st.lastCloses + ClosesOf(BarsOn(m.bars, m.dates[index]))
            && r.ledger.positions == b.ledger.positions && r.ledger.cash == b.ledger.cash
            && r.snapshots == st.snapshots + [SnapshotOf(r.ledger, r.lastCloses)]
  {
    hide PositionsValue, Observed, ClosesOf, BarsOn;
  }

  /** The last snapshot of a run is the marking of its ledger at the last closes. */
  lemma {:induction false} LastSnapshot(x: Inputs, k: nat)
    requires x.initialEquity > 0.0 && 0 < k <= |MarketOf(x).dates| && RunTo(MarketOf(x), k).Ok?
    ensures var st := RunTo(MarketOf(x), k).value;
            && |st.snapshots| == k && st.snapshots[k - 1] == SnapshotOf(st.ledger, st.lastCloses)
  {
    hide MarketOf, NextDay, BarsOn, Mark, Trade, SnapshotOf;
    var m := MarketOf(x);
    var st := RunTo(m, k - 1).value;
    DayOutcome(m, k - 1, st);
    MarkUpdates(m, k - 1, st, Trade(m, k - 1, st).value);
    MonitorFollowsSnapshots(m, k);
  }

  /** After every day of every run the equity reported for it is the cash plus every held share at its symbol's last
      close on a day of the run so far, or at its average cost if it has had none; there is one such marking. */
  lemma {:induction false} EquityIsMarked(x: Inputs, k: nat) returns (marks: seq<real>)
    requires x.initialEquity > 0.0 && 0 < k <= |MarketOf(x).dates| && RunTo(MarketOf(x), k).Ok?
    ensures var st := RunTo(MarketOf(x), k).value;
            && |st.snapshots| == k && AllMarked(MarketOf(x), k, st.ledger.positions, marks)
            && st.snapshots[k - 1].equity == st.ledger.cash + Worth(st.ledger.positions, marks)
            && st.snapshots[k - 1].cash == st.ledger.cash
            && (forall p :: p in st.snapshots[k - 1].positions <==> p in st.ledger.positions)
            && forall others | AllMarked(MarketOf(x), k, st.ledger.positions, others) :: others == marks
  {
    hide MarketOf, RunTo, AllMarked, Worth, ClosesSeen;
    var st := RunTo(MarketOf(x), k).value;
    RunSeesCloses(x, k);
    LastSnapshot(x, k);
    SortKeepsElements(SymbolOrder, st.ledger.positions);
    marks := ValueIsWorth(MarketOf(x), k, st.lastCloses, st.ledger.positions);
  }

  // ----- the high-water mark

  /** The high-water mark is the greatest of the initial equity, the reported equities and the audited ones. */
  ghost predicate Greatest(initialEquity: real, mark: real, snapshots: seq<LedgerSnapshot>,
                           entries: seq<LedgerSnapshot>) {
    && initialEquity <= mark
    && (forall e | e in snapshots :: e.equity <= mark)
    && (forall e | e in entries :: e.equity <= mark)
    && (mark == initialEquity || (exists e | e in snapshots :: e.equity == mark)
        || exists e | e in entries :: e.equity == mark)
  }

  lemma {:induction false} FillKeepsGreatest(initialEquity: real, snapshots: seq<LedgerSnapshot>, l: LedgerState,
                                             side: Side,
                                             s: Symbol, quantity: int, price: real, costs: real)
    requires Valid(l) && Greatest(initialEquity, l.highWaterMark, snapshots, l.entries)
    requires AfterFill(l, side, s, quantity, price, costs).Ok?
    ensures var r := AfterFill(l, side, s, quantity, price, costs).value;
            Greatest(initialEquity, r.highWaterMark, snapshots, r.entries)
  {
    hide FillEffect, Updated, PositionsValue, Sort;
    var r := AfterFill(l, side, s, quantity, price, costs).value;
    var e := r.entries[|l.entries|];
    assert r.entries == l.entries + [e] && e in r.entries;
    assert r.highWaterMark == Max(l.highWaterMark, e.equity);
    assert forall f | f in l.entries :: f in r.entries;
  }

  lemma {:induction false} DayKeepsGreatest(initialEquity: real, snapshots: seq<LedgerSnapshot>, costs: CostModel,
                                            date: Date,
                                            index: int, day: map<Symbol, MarketBar>, os: seq<Order>, b: Book)
    requires Valid(b.ledger) && Greatest(initialEquity, b.ledger.highWaterMark, snapshots, b.ledger.entries)
    requires ExecuteAll(costs, date, index, day, os, b).Ok?
    ensures var r := ExecuteAll(costs, date, index, day, os, b).value;
            Greatest(initialEquity, r.ledger.highWaterMark, snapshots, r.ledger.entries)
    decreases os
  {
    hide Greatest, Valid, AfterFill, Execute;
    if os == [] {
    } else {
      var r := ExecuteOrder(costs, date, index, day, os[0], b).value;
      if r.ledger != b.ledger {
        var fill := Execute(costs, os[0], FullOrNone, day[os[0].symbol], date).value;
        FillKeepsGreatest(initialEquity, snapshots, b.ledger, fill.side, fill.symbol, fill.quantity,
                          fill.execution.value.price, fill.execution.value.costs.Total());
      }
      DayKeepsGreatest(initialEquity, snapshots, costs, date, index, day, os[1..], r);
    }
  }

  lemma SnapshotKeepsGreatest(initialEquity: real, snapshots: seq<LedgerSnapshot>, l: LedgerState,
                              prices: map<Symbol, real>)
    requires AllOpen(l.positions) && Greatest(initialEquity, l.highWaterMark, snapshots, l.entries)
    ensures Greatest(initialEquity, AfterSnapshot(l, prices).highWaterMark, snapshots + [SnapshotOf(l, prices)],
                     l.entries)
  {
    hide PositionsValue, Sort;
    var e := SnapshotOf(l, prices);
    assert e in snapshots + [e] && forall f | f in snapshots :: f in snapshots + [e];
  }

  lemma {:induction false} NextDayKeepsGreatest(m: Market, index: nat, st: RunState)
    requires index < |m.dates| && Healthy(st) && NextDay(m, index, st).Ok?
    requires Greatest(m.x.initialEquity, st.ledger.highWaterMark, st.snapshots, st.ledger.entries)
    ensures var r := NextDay(m, index, st).value;
            Greatest(m.x.initialEquity, r.ledger.highWaterMark, r.snapshots, r.ledger.entries)
  {
    hide Greatest, NextDay, ExecuteAll, BarsOn, SnapshotOf, Observed, ClosesOf, AllOpen;
    DayOutcome(m, index, st);
    SettledShape(st.ledger.positions);
    DayKeepsGreatest(m.x.initialEquity, st.snapshots, m.x.costs, m.dates[index], index, BarsOn(m.bars, m.dates[index]),
                     Sort(OrderOrder, st.pending), Book(AfterSettle(st.ledger), st.entries, st.fills, st.skipped));
    var b := Trade(m, index, st).value;
    SnapshotKeepsGreatest(m.x.initialEquity, st.snapshots, b.ledger,
                          st.lastCloses + ClosesOf(BarsOn(m.bars, m.dates[index])));
  }

  lemma {:induction false} RunKeepsGreatest(x: Inputs, k: nat)
    requires x.initialEquity > 0.0 && k <= |MarketOf(x).dates| && RunTo(MarketOf(x), k).Ok?
    ensures var st := RunTo(MarketOf(x), k).value;
            Greatest(x.initialEquity, st.ledger.highWaterMark, st.snapshots, st.ledger.entries)
  {
    hide MarketOf, NextDay, Greatest;
    if k == 0 {
      OpeningMark(x);
    } else {
      RunKeepsGreatest(x, k - 1);
      NextDayKeepsGreatest(MarketOf(x), k - 1, RunTo(MarketOf(x), k - 1).value);
    }
  }

  /** The ledger's high-water mark is the greatest equity reported or audited so far, and each day's drawdown is how
      far the day's equity lies below it, as a part of it. */
  lemma {:induction false} MarkIsGreatest(x: Inputs, k: nat)
    requires x.initialEquity > 0.0 && 0 < k <= |MarketOf(x).dates| && RunTo(MarketOf(x), k).Ok?
    ensures var st := RunTo(MarketOf(x), k).value;
            && Greatest(x.initialEquity, st.ledger.highWaterMark, st.snapshots, st.ledger.entries)
            && |st.snapshots| == k && st.snapshots[k - 1].highWaterMark == st.ledger.highWaterMark
            && st.snapshots[k - 1].drawdown * st.ledger.highWaterMark
            == st.ledger.highWaterMark - st.snapshots[k - 1].equity
  {
    hide MarketOf, RunTo, Greatest, SnapshotOf;
    RunKeepsGreatest(x, k);
    LastSnapshot(x, k);
    var st := RunTo(MarketOf(x), k).value;
    AboveInitial(x.initialEquity, st);
    DrawdownOf(st.ledger, st.lastCloses, st.snapshots[k - 1]);
  }

  /** After a fill the ledger audits itself at cost. */
  lemma {:induction false} FillsAuditedAtCost(l: LedgerState, side: Side, s: Symbol, quantity: int, price: real,
                                              costs: real)
    requires Valid(l) && AfterFill(l, side, s, quantity, price, costs).Ok?
    ensures var r := AfterFill(l, side, s, quantity, price, costs).value;
            && |r.entries| == |l.entries| + 1 && r.entries[..|l.entries|] == l.entries
            && r.entries[|l.entries|].equity == r.cash + CostTotal(r.positions)
  {
    hide FillEffect, Sort, Updated, PositionsValue;
    var r := AfterFill(l, side, s, quantity, price, costs).value;
    ValuedAtCost(r.positions);
  }

  lemma {:induction false} ValuedAtCost(ps: seq<LedgerPosition>)
    requires AllOpen(ps)
    ensures PositionsValue(ps, map[]) == CostTotal(ps)
  {
    if ps == [] {
    } else {
      assert OpenPosition(ps[0]) && AllOpen(ps[1..]);
      AverageCost(ps[0].costBasis, ps[0].quantity, 0.0);
      ValuedAtCost(ps[1..]);
    }
  }

  lemma OpeningMark(x: Inputs)
    ensures Greatest(x.initialEquity, x.initialEquity, [], [])
  {
  }

  lemma AboveInitial(initialEquity: real, st: RunState)
    requires Greatest(initialEquity, st.ledger.highWaterMark, st.snapshots, st.ledger.entries)
    requires st.snapshots != []
    ensures st.ledger.highWaterMark >= initialEquity
    ensures st.ledger.highWaterMark >= st.snapshots[|st.snapshots| - 1].equity
  {
  }

  lemma DrawdownOf(l: LedgerState, prices: map<Symbol, real>, e: LedgerSnapshot)
    requires AllOpen(l.positions) && e == SnapshotOf(l, prices) && l.highWaterMark > 0.0 && l.highWaterMark >= e.equity
    ensures e.highWaterMark == l.highWaterMark && e.drawdown * l.highWaterMark == l.highWaterMark - e.equity
  {
    hide PositionsValue, Sort;
  }
}
