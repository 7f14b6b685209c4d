/** The cash and position ledger: a value-level account of every step, and the class that performs it. */
module Ledger {
  import opened Common
  import opened Costs
  import opened Sorting

  datatype LedgerPosition = LedgerPosition(symbol: Symbol, quantity: int, costBasis: real, available: int)

  datatype LedgerSnapshot = LedgerSnapshot(
    cash: real,
    positions: seq<LedgerPosition>,
    equity: real,
    highWaterMark: real,
    drawdown: real
  )

  /** `positions` is the position dictionary in insertion order; `entries` the audit list. */
  datatype LedgerState = LedgerState(
    cash: real,
    positions: seq<LedgerPosition>,
    entries: seq<LedgerSnapshot>,
    highWaterMark: real
  )

  datatype LedgerError = InvalidFill | InsufficientCash | InsufficientShares | SaleMakesCashNegative

  // ----- the position dictionary

  function Find(ps: seq<LedgerPosition>, s: Symbol): (r: Option<LedgerPosition>)
    ensures r.Some? <==> exists p :: p in ps && p.symbol == s
    ensures r.Some? ==> r.value in ps && r.value.symbol == s
  {
    if ps == [] then None
    else if ps[0].symbol == s then (assert ps[0] in ps; Some(ps[0]))
    else
      assert forall p :: p in ps <==> p == ps[0] || p in ps[1..];
      Find(ps[1..], s)
  }

  function Put(ps: seq<LedgerPosition>, p: LedgerPosition): seq<LedgerPosition> {
    if ps == [] then [p]
    else if ps[0].symbol == p.symbol then [p] + ps[1..]
    else [ps[0]] + Put(ps[1..], p)
  }

  function Remove(ps: seq<LedgerPosition>, s: Symbol): seq<LedgerPosition> {
    if ps == [] then []
    else if ps[0].symbol == s then ps[1..]
    else [ps[0]] + Remove(ps[1..], s)
  }

  /** The dictionary after a position was stored, or dropped when nothing of it is left. */
  function Updated(ps: seq<LedgerPosition>, p: LedgerPosition): seq<LedgerPosition> {
    if p.quantity == 0 then Remove(ps, p.symbol) else Put(ps, p)
  }

  function Settled(ps: seq<LedgerPosition>): seq<LedgerPosition> {
    if ps == [] then [] else [ps[0].(available := ps[0].quantity)] + Settled(ps[1..])
  }

  /** The symbols held. */
  function Held(ps: seq<LedgerPosition>): set<Symbol> {
    set p | p in ps :: p.symbol
  }

  /** Dictionary keys are unique. */
  predicate Distinct(ps: seq<LedgerPosition>) {
    ps == [] || (ps[0].symbol !in Held(ps[1..]) && Distinct(ps[1..]))
  }

  predicate OpenPosition(p: LedgerPosition) {
    p.quantity > 0 && 0 <= p.available <= p.quantity
  }

  predicate AllOpen(ps: seq<LedgerPosition>) {
    forall p | p in ps :: OpenPosition(p)
  }

  function CostTotal(ps: seq<LedgerPosition>): real {
    if ps == [] then 0.0 else ps[0].costBasis + CostTotal(ps[1..])
  }

  function CostOf(ps: seq<LedgerPosition>, s: Symbol): real {
    match Find(ps, s) case Some(p) => p.costBasis case None => 0.0
  }

  lemma HeldSplit(ps: seq<LedgerPosition>)
    requires ps != []
    ensures Held(ps) == {ps[0].symbol} + Held(ps[1..])
    ensures forall p :: p in ps <==> p == ps[0] || p in ps[1..]
  {
    assert ps == [ps[0]] + ps[1..];
  }

  lemma {:induction false} FindPut(ps: seq<LedgerPosition>, p: LedgerPosition, s: Symbol)
    ensures Find(Put(ps, p), s) == if s == p.symbol then Some(p) else Find(ps, s)
  {
    if ps == [] {
    } else {
      FindPut(ps[1..], p, s);
    }
  }

  lemma {:induction false} FindRemove(ps: seq<LedgerPosition>, x: Symbol, s: Symbol)
    requires Distinct(ps)
    ensures Find(Remove(ps, x), s) == if s == x then None else Find(ps, s)
  {
    if ps == [] {
    } else {
      FindRemove(ps[1..], x, s);
    }
  }

  lemma {:induction false} FindSettled(ps: seq<LedgerPosition>, s: Symbol)
    ensures Find(Settled(ps), s) ==
            match Find(ps, s) case Some(p) => Some(p.(available := p.quantity)) case None => None
  {
    if ps == [] {
    } else {
      FindSettled(ps[1..], s);
    }
  }

  lemma {:induction false} PutShape(ps: seq<LedgerPosition>, p: LedgerPosition)
    requires Distinct(ps) && AllOpen(ps) && OpenPosition(p)
    ensures Distinct(Put(ps, p)) && AllOpen(Put(ps, p))
    ensures Held(Put(ps, p)) == Held(ps) + {p.symbol}
    ensures |Put(ps, p)| == if p.symbol in Held(ps) then |ps| else |ps| + 1
    ensures CostTotal(Put(ps, p)) == CostTotal(ps) - CostOf(ps, p.symbol) + p.costBasis
  {
    if ps == [] {
    } else {
      HeldSplit(ps);
      HeldSplit(Put(ps, p));
      PutShape(ps[1..], p);
      assert AllOpen(ps[1..]);
    }
  }

  lemma {:induction false} RemoveShape(ps: seq<LedgerPosition>, s: Symbol)
    requires Distinct(ps) && AllOpen(ps)
    ensures Distinct(Remove(ps, s)) && AllOpen(Remove(ps, s))
    ensures Held(Remove(ps, s)) == Held(ps) - {s}
    ensures |Remove(ps, s)| == if s in Held(ps) then |ps| - 1 else |ps|
    ensures CostTotal(Remove(ps, s)) == CostTotal(ps) - CostOf(ps, s)
  {
    if ps == [] {
    } else {
      HeldSplit(ps);
      assert AllOpen(ps[1..]);
      if ps[0].symbol != s {
        HeldSplit(Remove(ps, s));
        RemoveShape(ps[1..], s);
      }
    }
  }

  lemma {:induction false} SettledShape(ps: seq<LedgerPosition>)
    requires Distinct(ps) && AllOpen(ps)
    ensures Distinct(Settled(ps)) && AllOpen(Settled(ps))
    ensures Held(Settled(ps)) == Held(ps)
    ensures |Settled(ps)| == |ps|
    ensures CostTotal(Settled(ps)) == CostTotal(ps)
  {
    if ps == [] {
    } else {
      HeldSplit(ps);
      HeldSplit(Settled(ps));
      assert AllOpen(ps[1..]);
      SettledShape(ps[1..]);
    }
  }

  // ----- ledger steps on values

  ghost predicate Valid(l: LedgerState) {
    l.cash >= 0.0 && Distinct(l.positions) && AllOpen(l.positions)
  }

  function PositionIn(l: LedgerState, s: Symbol): LedgerPosition {
    match Find(l.positions, s) case Some(p) => p case None => LedgerPosition(s, 0, 0.0, 0)
  }

  /** The mark of one position: its last price, else its average cost. */
  function MarketValue(p: LedgerPosition, prices: map<Symbol, real>): real
    requires p.quantity > 0
  {
    (if p.symbol in prices then prices[p.symbol] else p.costBasis / p.quantity as real) * p.quantity as real
  }

  function PositionsValue(ps: seq<LedgerPosition>, prices: map<Symbol, real>): real
    requires AllOpen(ps)
  {
    if ps == [] then 0.0
    else (assert OpenPosition(ps[0]); MarketValue(ps[0], prices) + PositionsValue(ps[1..], prices))
  }

  predicate SymbolOrder(p: LedgerPosition, q: LedgerPosition) {
    p.symbol <= q.symbol
  }

  function SnapshotOf(l: LedgerState, prices: map<Symbol, real>): LedgerSnapshot
    requires AllOpen(l.positions)
  {
    var equity := l.cash + PositionsValue(l.positions, prices);
    var mark := Max(l.highWaterMark, equity);
    LedgerSnapshot(l.cash, Sort(SymbolOrder, l.positions), equity, mark,
                   if mark != 0.0 then (mark - equity) / mark else 0.0)
  }

  function AfterSnapshot(l: LedgerState, prices: map<Symbol, real>): LedgerState
    requires AllOpen(l.positions)
  {
    l.(highWaterMark := SnapshotOf(l, prices).highWaterMark)
  }

  function AfterSettle(l: LedgerState): LedgerState {
    l.(positions := Settled(l.positions))
  }

  /** The cost basis that remains after selling `quantity` at average cost. */
  function ReducedCost(p: LedgerPosition, quantity: int): real
    requires p.quantity != 0
  {
    Max(0.0, p.costBasis - p.costBasis * quantity as real / p.quantity as real)
  }

  /** The cash and the position a fill would leave, or the error that refuses it. */
  function FillEffect(l: LedgerState, side: Side, s: Symbol, quantity: int, price: real, costs: real)
    : Result<(real, LedgerPosition), LedgerError>
    requires Valid(l)
  {
    var current := PositionIn(l, s);
    if quantity <= 0 || price <= 0.0 || costs < 0.0 then Err(InvalidFill)
    else match side
      case Buy =>
        var total := Notional(price, quantity) + costs;
        if total > l.cash then Err(InsufficientCash)
        else Ok((l.cash - total,
                 LedgerPosition(s, current.quantity + quantity, current.costBasis + total, current.available)))
      case Sell =>
        if quantity > current.available then Err(InsufficientShares)
        else
          var cash := l.cash + (Notional(price, quantity) - costs);
          if cash < 0.0 then Err(SaleMakesCashNegative)
          else Ok((cash,
                   LedgerPosition(s, current.quantity - quantity,
                                  ReducedCost(current, quantity), current.available - quantity)))
  }

  function AfterFill(l: LedgerState, side: Side, s: Symbol, quantity: int, price: real, costs: real)
    : (r: Result<LedgerState, LedgerError>)
    requires Valid(l)
    ensures r.Ok? ==> Valid(r.value)
    ensures var effect := FillEffect(l, side, s, quantity, price, costs);
            && (effect.Err? ==> r == Err(effect.error))
            && (effect.Ok? ==> && r.Ok? && r.value.cash == effect.value.0
                               && r.value.positions == Updated(l.positions, effect.value.1))
  {
    match FillEffect(l, side, s, quantity, price, costs)
    case Err(e) => Err(e)
    case Ok((cash, p)) =>
      PutShapeIfOpen(l.positions, p);
      RemoveShape(l.positions, s);
      var next := l.(cash := cash, positions := Updated(l.positions, p));
      Ok(AfterSnapshot(next, map[]).(entries := l.entries + [SnapshotOf(next, map[])]))
  }

  lemma PutShapeIfOpen(ps: seq<LedgerPosition>, p: LedgerPosition)
    requires Distinct(ps) && AllOpen(ps)
    ensures OpenPosition(p) ==> Distinct(Put(ps, p)) && AllOpen(Put(ps, p))
  {
    if OpenPosition(p) { PutShape(ps, p); }
  }

  // ----- the class

  class PortfolioLedger {
    var cash: real
    var positions: seq<LedgerPosition>
    var entries: seq<LedgerSnapshot>
    var highWaterMark: real

    function View(): LedgerState
      reads this
    {
      LedgerState(cash, positions, entries, highWaterMark)
    }

    constructor (initialCash: real)
      requires initialCash >= 0.0
      ensures View() == LedgerState(initialCash, [], [], initialCash)
    {
      cash := initialCash;
      positions := [];
      entries := [];
      highWaterMark := initialCash;
    }

    method Snapshot(prices: map<Symbol, real>) returns (snapshot: LedgerSnapshot)
      requires Valid(View())
      modifies this`highWaterMark
      ensures snapshot == SnapshotOf(old(View()), prices)
      ensures View() == AfterSnapshot(old(View()), prices)
    {
      var positionValue := 0.0;
      var i := 0;
      while i < |positions|
        invariant 0 <= i <= |positions|
        invariant AllOpen(positions[i..])
        invariant positionValue + PositionsValue(positions[i..], prices) == PositionsValue(positions, prices)
        invariant View() == old(View())
      {
        assert positions[i..][1..] == positions[i + 1..];
        assert OpenPosition(positions[i..][0]);
        positionValue := positionValue + MarketValue(positions[i], prices);
        i := i + 1;
      }
      var equity := cash + positionValue;
      if equity > highWaterMark {
        highWaterMark := equity;
      }
      snapshot := LedgerSnapshot(cash, Sort(SymbolOrder, positions), equity, highWaterMark,
        if highWaterMark != 0.0 then (highWaterMark - equity) / highWaterMark else 0.0);
    }

    method ApplyFill(side: Side, s: Symbol, quantity: int, price: real, costs: real)
      returns (r: Result<(), LedgerError>)
      requires Valid(View())
      modifies this
      ensures match AfterFill(old(View()), side, s, quantity, price, costs)
              case Ok(next) => r.Ok? && View() == next
              case Err(e) => r == Err(e) && View() == old(View())
    {
      var current := PositionIn(View(), s);
      if quantity <= 0 || price <= 0.0 || costs < 0.0 {
        return Err(InvalidFill);
      }
      var nextCash, next;
      match side {
        case Buy =>
          var total := Notional(price, quantity) + costs;
          if total > cash {
            return Err(InsufficientCash);
          }
          next := LedgerPosition(s, current.quantity + quantity, current.costBasis + total, current.available);
          nextCash := cash - total;
          assert FillEffect(View(), side, s, quantity, price, costs) == Ok((nextCash, next));
        case Sell =>
          if quantity > current.available {
            return Err(InsufficientShares);
          }
          nextCash := cash + (Notional(price, quantity) - costs);
          if nextCash < 0.0 {
            return Err(SaleMakesCashNegative);
          }
          next := LedgerPosition(s, current.quantity - quantity,
            ReducedCost(current, quantity),
            current.available - quantity);
          assert FillEffect(View(), side, s, quantity, price, costs) == Ok((nextCash, next));
      }
      PutShapeIfOpen(positions, next);
      RemoveShape(positions, s);
      cash := nextCash;
      positions := if next.quantity == 0 then Remove(positions, s) else Put(positions, next);
      var snapshot := Snapshot(map[]);
      entries := entries + [snapshot];
      return Ok(());
    }

    method SettleAll()
      modifies this`positions
      ensures View() == AfterSettle(old(View()))
    {
      positions := Settled(positions);
    }
  }
}
