/** The metrics' lot matching agrees with the ledger of every run. */
module RunAccounting {
  import opened Common
  import opened Sorting
  import opened Costs
  import opened Simulator
  import opened Ledger
  import opened EventLoop
  import opened OrderBook
  import opened RunSafety
  import opened Metrics
  import opened LotQueue

  /** Closed profits and losses. */
  function PnlTotal(ms: seq<Match>): real {
    if ms == [] then 0.0 else PnlTotal(ms[..|ms| - 1]) + ms[|ms| - 1].Pnl()
  }

  /** One open lot per position: the whole position at its whole cost. */
  function OneLotOf(p: Option<LedgerPosition>): seq<Lot> {
    match p case Some(q) => [Lot(q.quantity, q.costBasis)] case None => []
  }

  ghost predicate LotsArePositions(ps: seq<LedgerPosition>, fills: seq<Fill>) {
    forall s :: LotsOf(MatchAll(fills).lots, s) == OneLotOf(Find(ps, s))
  }

  ghost predicate Balanced(initialEquity: real, cash: real, ps: seq<LedgerPosition>, fills: seq<Fill>) {
    initialEquity + PnlTotal(MatchAll(fills).matches) == cash + CostTotal(ps)
  }

  ghost predicate Booked(initialEquity: real, b: Book) {
    LotsArePositions(b.ledger.positions, b.fills) && Balanced(initialEquity, b.ledger.cash, b.ledger.positions, b.fills)
  }

  lemma MatchSnoc(fills: seq<Fill>, f: Fill)
    ensures MatchAll(fills + [f]) == MatchFill(MatchAll(fills), f)
  {
    assert (fills + [f])[..|fills|] == fills;
  }

  /** Selling one whole lot matches it at its cost for the net proceeds. */
  lemma WholeLotSold(l: Lot, s: Symbol, proceeds: real)
    requires l.quantity > 0
    ensures TakeLots([l], s, l.quantity, proceeds, l.quantity) == ([], [Match(s, l.quantity, l.cost, proceeds)])
  {
    PartOfWhole(l.cost, l.quantity);
    PartOfWhole(proceeds, l.quantity);
    hide PartOf;
    var m := Match(s, l.quantity, l.cost, proceeds);
    assert TakeLots([], s, 0, proceeds, l.quantity) == ([], []);
    assert [l][1..] == [] && [m] + [] == [m];
  }

  lemma UnfilledChangesNothing(fills: seq<Fill>, f: Fill)
    requires f.quantity == 0
    ensures MatchAll(fills + [f]) == MatchAll(fills)
  {
    MatchSnoc(fills, f);
  }

  lemma FilledPurchase(fills: seq<Fill>, f: Fill)
    requires Relevant(f) && f.status != Unfilled && f.side == Buy
    ensures var m, r := MatchAll(fills), MatchAll(fills + [f]);
            && r.matches == m.matches
            && forall s :: LotsOf(r.lots, s) ==
                 if s == f.symbol then LotsOf(m.lots, s) + [Lot(f.quantity, ValueTraded(f) + FeesOf(f))]
                     else LotsOf(m.lots, s)
  {
    hide MatchAll, ValueTraded, FeesOf;
    MatchSnoc(fills, f);
  }

  lemma FilledSale(fills: seq<Fill>, f: Fill, l: Lot)
    requires Relevant(f) && f.status != Unfilled && f.side == Sell
    requires LotsOf(MatchAll(fills).lots, f.symbol) == [l] && l.quantity == f.quantity
    ensures var m, r := MatchAll(fills), MatchAll(fills + [f]);
            && r.matches == m.matches + [Match(f.symbol, l.quantity, l.cost, ValueTraded(f) - FeesOf(f))]
            && forall s :: LotsOf(r.lots, s) == if s == f.symbol then [] else LotsOf(m.lots, s)
  {
    hide MatchAll, ValueTraded, FeesOf, TakeLots;
    MatchSnoc(fills, f);
    WholeLotSold(l, f.symbol, ValueTraded(f) - FeesOf(f));
  }

  /** What an executed order adds to the book. */
  lemma OrderOutcome(costs: CostModel, date: Date, index: int, day: map<Symbol, MarketBar>, o: Order, b: Book)
    requires Valid(b.ledger) && Fits(b.ledger.positions, o) && ExecuteOrder(costs, date, index, day, o, b).Ok?
    ensures var r := ExecuteOrder(costs, date, index, day, o, b).value;
            || (r.ledger == b.ledger && r.fills == b.fills)
            || (exists f :: r.ledger == b.ledger && r.fills == b.fills + [f] && f.quantity == 0)
            || (exists f :: Applied(b, r, o, f))
  {
    var r := ExecuteOrder(costs, date, index, day, o, b).value;
    if o.symbol in day {
      var fill := Execute(costs, o, FullOrNone, day[o.symbol], date).value;
      hide Execute, AfterFill;
      if r.ledger == b.ledger && r.fills != b.fills {
        var f := r.fills[|b.fills|];
        if f.quantity != 0 { assert Applied(b, r, o, fill); }
      } else if r.fills != b.fills {
        assert Applied(b, r, o, fill);
      }
    }
  }

  ghost predicate Applied(b: Book, r: Book, o: Order, f: Fill)
    requires Valid(b.ledger)
  {
    && r.fills == b.fills + [f]
    && Relevant(f) && f.status != Unfilled
    && f.side == o.side && f.symbol == o.symbol && f.quantity == o.quantity
    && AfterFill(b.ledger, o.side, o.symbol, o.quantity, f.execution.value.price, FeesOf(f)) == Ok(r.ledger)
  }

  lemma AppliedPurchase(initialEquity: real, b: Book, r: Book, o: Order, f: Fill)
    requires Valid(b.ledger) && Fits(b.ledger.positions, o) && Booked(initialEquity, b)
    requires o.side == Buy && Applied(b, r, o, f)
    ensures Booked(initialEquity, r)
  {
    hide MatchAll, Find, FillEffect, AfterFill, FeesOf, Notional, Put, CostTotal, PnlTotal, LotsOf, Distinct;
    var l := b.ledger;
    var price, fees := f.execution.value.price, FeesOf(f);
    FilledPurchase(b.fills, f);
    EffectOfPurchase(l, o.symbol, o.quantity, price, fees);
    var p := FillEffect(l, Buy, o.symbol, o.quantity, price, fees).value.1;
    forall s ensures LotsOf(MatchAll(r.fills).lots, s) == OneLotOf(Find(r.ledger.positions, s)) {
      FillFinds(l, o, price, fees, s);
      assert LotsOf(MatchAll(b.fills).lots, s) == OneLotOf(Find(l.positions, s));
    }
    PutShape(l.positions, p);
  }

  lemma AppliedSale(initialEquity: real, b: Book, r: Book, o: Order, f: Fill)
    requires Valid(b.ledger) && Fits(b.ledger.positions, o) && Booked(initialEquity, b)
    requires o.side == Sell && Applied(b, r, o, f)
    ensures Booked(initialEquity, r)
  {
    var l := b.ledger;
    var price, fees := f.execution.value.price, FeesOf(f);
    var p := Find(l.positions, o.symbol).value;
    var lot := Lot(p.quantity, p.costBasis);
    assert LotsOf(MatchAll(b.fills).lots, o.symbol) == OneLotOf(Find(l.positions, o.symbol));
    FilledSale(b.fills, f, lot);
    EffectOfSale(l, o.symbol, o.quantity, price, fees);
    hide MatchAll, Find, FillEffect, AfterFill, FeesOf, Notional;
    forall s ensures LotsOf(MatchAll(r.fills).lots, s) == OneLotOf(Find(r.ledger.positions, s)) {
      FillFinds(l, o, price, fees, s);
      assert LotsOf(MatchAll(b.fills).lots, s) == OneLotOf(Find(l.positions, s));
    }
    RemoveShape(l.positions, o.symbol);
    PnlSnoc(MatchAll(b.fills).matches, Match(o.symbol, lot.quantity, lot.cost, ValueTraded(f) - fees));
  }

  lemma PnlSnoc(ms: seq<Match>, m: Match)
    ensures PnlTotal(ms + [m]) == PnlTotal(ms) + m.Pnl()
  {
    assert (ms + [m])[..|ms|] == ms;
  }

  lemma OrderKeepsBooked(initialEquity: real, costs: CostModel, date: Date, index: int, day: map<Symbol, MarketBar>,
                         o: Order, b: Book)
    requires Valid(b.ledger) && Fits(b.ledger.positions, o) && Booked(initialEquity, b)
    requires ExecuteOrder(costs, date, index, day, o, b).Ok?
    ensures Booked(initialEquity, ExecuteOrder(costs, date, index, day, o, b).value)
  {
    OrderOutcome(costs, date, index, day, o, b);
    hide ExecuteOrder, MatchAll, Applied, Find;
    var r := ExecuteOrder(costs, date, index, day, o, b).value;
    if f :| r.ledger == b.ledger && r.fills == b.fills + [f] && f.quantity == 0 {
      UnfilledChangesNothing(b.fills, f);
    } else if f :| Applied(b, r, o, f) {
      if o.side == Buy { AppliedPurchase(initialEquity, b, r, o, f); } else { AppliedSale(initialEquity, b, r, o, f); }
    }
  }

  lemma {:induction false} DayKeepsBooked(initialEquity: real, costs: CostModel, date: Date, index: int,
                                          day: map<Symbol, MarketBar>, os: seq<Order>, b: Book)
    requires Valid(b.ledger) && Ready(b, os) && Booked(initialEquity, b)
    requires ExecuteAll(costs, date, index, day, os, b).Ok?
    ensures Booked(initialEquity, ExecuteAll(costs, date, index, day, os, b).value)
    decreases os
  {
    if os == [] {
    } else {
      assert Fits(b.ledger.positions, os[0]);
      OrderKeepsReady(costs, date, index, day, os, b);
      OrderKeepsBooked(initialEquity, costs, date, index, day, os[0], b);
      hide ExecuteOrder, Booked;
      DayKeepsBooked(initialEquity, costs, date, index, day, os[1..],
                     ExecuteOrder(costs, date, index, day, os[0], b).value);
    }
  }

  lemma SettlementKeepsBooked(initialEquity: real, st: RunState)
    requires Valid(st.ledger) && Booked(initialEquity, Book(st.ledger, st.entries, st.fills, st.skipped))
    ensures Valid(AfterSettle(st.ledger))
    ensures Booked(initialEquity, Book(AfterSettle(st.ledger), st.entries, st.fills, st.skipped))
  {
    SettledShape(st.ledger.positions);
    hide MatchAll, Find;
    forall s ensures LotsOf(MatchAll(st.fills).lots, s) == OneLotOf(Find(Settled(st.ledger.positions), s)) {
      FindSettled(st.ledger.positions, s);
      assert LotsOf(MatchAll(st.fills).lots, s) == OneLotOf(Find(st.ledger.positions, s));
    }
  }

  lemma NextDayKeepsBooked(m: Market, index: nat, st: RunState)
    requires index < |m.dates| && Orderly(m, st) && NextDay(m, index, st).Ok?
    requires Booked(m.x.initialEquity, Book(st.ledger, st.entries, st.fills, st.skipped))
    ensures var r := NextDay(m, index, st).value;
            Booked(m.x.initialEquity, Book(r.ledger, r.entries, r.fills, r.skipped))
  {
    DayOutcome(m, index, st);
    SettledIsReady(m, st);
    SettlementKeepsBooked(m.x.initialEquity, st);
    hide NextDay, MatchAll, Orderly, Tidy;
    DayKeepsBooked(m.x.initialEquity, m.x.costs, m.dates[index], index, BarsOn(m.bars, m.dates[index]),
                   Sort(OrderOrder, st.pending), Book(AfterSettle(st.ledger), st.entries, st.fills, st.skipped));
  }

  /** After every day of every run, each position is exactly one open lot of the metrics' matching, at the
      same cost, and the initial equity plus all closed profits and losses equals the cash plus the cost
      basis of what is still held. */
  lemma {:induction false} MetricsAgreeWithLedger(x: Inputs, k: nat)
    requires x.initialEquity > 0.0 && k <= |MarketOf(x).dates| && RunTo(MarketOf(x), k).Ok?
    ensures var st := RunTo(MarketOf(x), k).value;
            && LotsArePositions(st.ledger.positions, st.fills)
            && x.initialEquity + PnlTotal(MatchAll(st.fills).matches) == st.ledger.cash + CostTotal(st.ledger.positions)
  {
    hide MarketOf, NextDay, AllFit, MatchAll;
    if k == 0 {
      EmptyMatching();
    } else {
      MetricsAgreeWithLedger(x, k - 1);
      RunIsOrderly(x, k - 1);
      NextDayKeepsBooked(MarketOf(x), k - 1, RunTo(MarketOf(x), k - 1).value);
    }
  }

  lemma EmptyMatching()
    ensures MatchAll([]).matches == [] && forall s :: LotsOf(MatchAll([]).lots, s) == []
  {
  }
}
