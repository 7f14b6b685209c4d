/** Lot matching refines a queue of single shares: the oldest shares are sold first, each at its own cost. */
module LotQueue {
  import opened Common
  import opened Simulator
  import opened Metrics

  // ----- lots as shares

  function UnitCost(cost: real, quantity: int): real
    requires quantity != 0
  {
    cost / quantity as real
  }

  function Repeat(unit: real, n: int): seq<real> {
    if n <= 0 then [] else [unit] + Repeat(unit, n - 1)
  }

  function Shares(lots: seq<Lot>): seq<real>
    requires OpenLots(lots)
  {
    if lots == [] then []
    else Repeat(UnitCost(lots[0].cost, lots[0].quantity), lots[0].quantity) + Shares(lots[1..])
  }

  lemma {:induction false} RepeatShape(unit: real, n: int)
    requires n >= 0
    ensures |Repeat(unit, n)| == n
    ensures Sum(Repeat(unit, n)) == unit * n as real
  {
    if n == 0 {
    } else {
      RepeatShape(unit, n - 1);
      assert Repeat(unit, n)[1..] == Repeat(unit, n - 1);
      assert unit + unit * (n - 1) as real == unit * n as real;
    }
  }

  lemma {:induction false} RepeatSplits(unit: real, n: int, k: int)
    requires 0 <= k <= n
    ensures Repeat(unit, n) == Repeat(unit, k) + Repeat(unit, n - k)
    decreases k
  {
    if k > 0 { RepeatSplits(unit, n - 1, k - 1); }
  }

  /** Selling part of a lot leaves its cost per share as it was. */
  lemma UnitIsKept(l: Lot, matched: int)
    requires 0 < matched < l.quantity
    ensures UnitCost(l.cost - PartOf(l.cost, matched, l.quantity), l.quantity - matched) == UnitCost(l.cost, l.quantity)
  {
    var unit := UnitCost(l.cost, l.quantity);
    PartIsUnits(l.cost, matched, l.quantity);
    assert unit * l.quantity as real == l.cost;
    assert unit * (l.quantity - matched) as real == l.cost - unit * matched as real;
    Cancel(unit, (l.quantity - matched) as real);
  }

  lemma Cancel(unit: real, n: real)
    requires n > 0.0
    ensures unit * n / n == unit
  {
  }

  lemma PartIsUnits(value: real, part: int, whole: int)
    requires whole > 0
    ensures PartOf(value, part, whole) == value / whole as real * part as real
  {
    var unit := value / whole as real;
    assert unit * whole as real == value;
    assert value * part as real == unit * part as real * whole as real;
    Cancel(unit * part as real, whole as real);
  }

  lemma PartOfWhole(value: real, whole: int)
    requires whole > 0
    ensures PartOf(value, whole, whole) == value && PartOf(value, 0, whole) == 0.0
  {
    PartIsUnits(value, whole, whole);
    PartIsUnits(value, 0, whole);
  }

  lemma PartsAdd(value: real, a: int, b: int, whole: int)
    requires whole > 0
    ensures PartOf(value, a, whole) + PartOf(value, b, whole) == PartOf(value, a + b, whole)
  {
    PartIsUnits(value, a, whole);
    PartIsUnits(value, b, whole);
    PartIsUnits(value, a + b, whole);
    var unit := value / whole as real;
    assert unit * (a + b) as real == unit * a as real + unit * b as real;
  }

  // ----- totals

  function MatchedCost(ms: seq<Match>, s: Symbol): real {
    if ms == [] then 0.0 else (if ms[0].symbol == s then ms[0].cost else 0.0) + MatchedCost(ms[1..], s)
  }

  function MatchedProceeds(ms: seq<Match>, s: Symbol): real {
    if ms == [] then 0.0 else (if ms[0].symbol == s then ms[0].proceeds else 0.0) + MatchedProceeds(ms[1..], s)
  }

  function MatchedQuantity(ms: seq<Match>, s: Symbol): int {
    if ms == [] then 0 else (if ms[0].symbol == s then ms[0].quantity else 0) + MatchedQuantity(ms[1..], s)
  }

  lemma {:induction false} TotalsConcat(a: seq<Match>, b: seq<Match>, s: Symbol)
    ensures MatchedCost(a + b, s) == MatchedCost(a, s) + MatchedCost(b, s)
    ensures MatchedProceeds(a + b, s) == MatchedProceeds(a, s) + MatchedProceeds(b, s)
    ensures MatchedQuantity(a + b, s) == MatchedQuantity(a, s) + MatchedQuantity(b, s)
  {
    if a == [] {
      assert a + b == b;
    } else {
      TotalsConcat(a[1..], b, s);
      assert (a + b)[1..] == a[1..] + b;
    }
  }

  function Least(a: int, b: int): int {
    if a <= b then a else b
  }

  lemma OneLot(l: Lot)
    requires l.quantity > 0
    ensures var head := Repeat(UnitCost(l.cost, l.quantity), l.quantity);
            |head| == l.quantity && Sum(head) == l.cost
  {
    RepeatShape(UnitCost(l.cost, l.quantity), l.quantity);
    assert UnitCost(l.cost, l.quantity) * l.quantity as real == l.cost;
  }

  /** A sale takes the oldest shares, at exactly their costs and its own price. */
  ghost predicate TakesOldest(lots: seq<Lot>, s: Symbol, remaining: int, proceeds: real, sold: int)
    requires OpenLots(lots) && 0 <= remaining <= sold && sold > 0
  {
    var (rest, matches) := TakeLots(lots, s, remaining, proceeds, sold);
    var k := Least(remaining, |Shares(lots)|);
    && Shares(rest) == Shares(lots)[k..]
    && MatchedCost(matches, s) == Sum(Shares(lots)[..k])
    && MatchedQuantity(matches, s) == k
    && MatchedProceeds(matches, s) == PartOf(proceeds, k, sold)
    && forall x | x != s :: MatchedCost(matches, x) == 0.0 && MatchedProceeds(matches, x) == 0.0
        && MatchedQuantity(matches, x) == 0
  }

  lemma {:induction false} SaleTakesOldest(lots: seq<Lot>, s: Symbol, remaining: int, proceeds: real, sold: int)
    requires OpenLots(lots) && 0 <= remaining <= sold && sold > 0
    ensures TakesOldest(lots, s, remaining, proceeds, sold)
    decreases |lots|
  {
    hide TakesOldest;
    if remaining == 0 || lots == [] {
      NothingTaken(lots, s, remaining, proceeds, sold);
    } else if remaining < lots[0].quantity {
      PartTaken(lots, s, remaining, proceeds, sold);
    } else {
      SaleTakesOldest(lots[1..], s, remaining - lots[0].quantity, proceeds, sold);
      WholeTaken(lots, s, remaining, proceeds, sold);
    }
  }

  lemma NothingTaken(lots: seq<Lot>, s: Symbol, remaining: int, proceeds: real, sold: int)
    requires OpenLots(lots) && 0 <= remaining <= sold && sold > 0
    requires remaining == 0 || lots == []
    ensures TakesOldest(lots, s, remaining, proceeds, sold)
  {
    PartOfWhole(proceeds, sold);
    hide PartOf;
    assert Shares(lots)[0..] == Shares(lots) && Shares(lots)[..0] == [];
  }

  lemma PartTaken(lots: seq<Lot>, s: Symbol, remaining: int, proceeds: real, sold: int)
    requires OpenLots(lots) && lots != [] && 0 < remaining < lots[0].quantity && remaining <= sold
    ensures TakesOldest(lots, s, remaining, proceeds, sold)
  {
    var first := lots[0];
    PartOfLot(first, remaining);
    var head, tail := Repeat(UnitCost(first.cost, first.quantity), first.quantity), Shares(lots[1..]);
    var cost := PartOf(first.cost, remaining, first.quantity);
    var m := Match(s, remaining, cost, PartOf(proceeds, remaining, sold));
    var left := Lot(first.quantity - remaining, first.cost - cost);
    assert TakeLots(lots, s, remaining, proceeds, sold) == ([left] + lots[1..], [m]);
    hide PartOf, Repeat, TakeLots;
    assert ([left] + lots[1..])[1..] == lots[1..];
    assert Shares(lots) == head + tail;
    assert (head + tail)[remaining..] == head[remaining..] + tail;
    assert (head + tail)[..remaining] == head[..remaining];
    OneMatch(m);
  }

  lemma OneMatch(m: Match)
    ensures MatchedCost([m], m.symbol) == m.cost && MatchedProceeds([m], m.symbol) == m.proceeds
              && MatchedQuantity([m], m.symbol) == m.quantity
    ensures forall x | x != m.symbol :: MatchedCost([m], x) == 0.0 && MatchedProceeds([m], x) == 0.0
              && MatchedQuantity([m], x) == 0
  {
    assert [m][1..] == [];
    forall x
      ensures MatchedCost([m][1..], x) == 0.0 && MatchedProceeds([m][1..], x) == 0.0
      ensures MatchedQuantity([m][1..], x) == 0
    {
    }
  }

  lemma PartOfLot(first: Lot, remaining: int)
    requires 0 < remaining < first.quantity
    ensures var unit := UnitCost(first.cost, first.quantity);
            var cost := PartOf(first.cost, remaining, first.quantity);
            var head := Repeat(unit, first.quantity);
            && |head| == first.quantity
            && Repeat(UnitCost(first.cost - cost, first.quantity - remaining), first.quantity - remaining)
                == head[remaining..]
            && Sum(head[..remaining]) == cost
  {
    hide Repeat, PartOf;
    var unit := UnitCost(first.cost, first.quantity);
    UnitIsKept(first, remaining);
    PartIsUnits(first.cost, remaining, first.quantity);
    RepeatSplits(unit, first.quantity, remaining);
    RepeatShape(unit, remaining);
    RepeatShape(unit, first.quantity - remaining);
    var head := Repeat(unit, first.quantity);
    assert head[..remaining] == Repeat(unit, remaining);
    assert head[remaining..] == Repeat(unit, first.quantity - remaining);
  }

  lemma WholeTaken(lots: seq<Lot>, s: Symbol, remaining: int, proceeds: real, sold: int)
    requires OpenLots(lots) && lots != [] && lots[0].quantity <= remaining <= sold && sold > 0
    requires TakesOldest(lots[1..], s, remaining - lots[0].quantity, proceeds, sold)
    ensures TakesOldest(lots, s, remaining, proceeds, sold)
  {
    var first := lots[0];
    var q := first.quantity;
    var head, tail := Repeat(UnitCost(first.cost, q), q), Shares(lots[1..]);
    var (rest, more) := TakeLots(lots[1..], s, remaining - q, proceeds, sold);
    var m := Match(s, q, PartOf(first.cost, q, q), PartOf(proceeds, q, sold));
    assert TakeLots(lots, s, remaining, proceeds, sold) == (rest, [m] + more);
    assert Shares(lots) == head + tail;
    OneLot(first);
    PartOfWhole(first.cost, q);
    var j := Least(remaining - q, |tail|);
    PartsAdd(proceeds, q, j, sold);
    hide PartOf, Repeat, TakeLots, Shares;
    assert (head + tail)[q + j..] == tail[j..];
    assert (head + tail)[..q + j] == head + tail[..j];
    SumConcat(head, tail[..j]);
    OneMatch(m);
    forall x { TotalsConcat([m], more, x); }
  }

  // ----- whole fill lists

  predicate Moves(f: Fill, side: Side, s: Symbol) {
    Relevant(f) && f.status != Unfilled && f.side == side && f.symbol == s
  }

  /** The shares of `s` still open, each at its cost, oldest first. */
  function Queue(fills: seq<Fill>, s: Symbol): seq<real> {
    if fills == [] then []
    else
      var open, f := Queue(fills[..|fills| - 1], s), fills[|fills| - 1];
      if Moves(f, Buy, s) then open + Repeat(UnitCost(ValueTraded(f) + FeesOf(f), f.quantity), f.quantity)
      else if Moves(f, Sell, s) then open[Least(f.quantity, |open|)..]
      else open
  }

  /** Shares of `s` bought or sold, and their money. */
  function Quantity(fills: seq<Fill>, side: Side, s: Symbol): int {
    if fills == [] then 0
    else
      Quantity(fills[..|fills| - 1], side, s)
      + if Moves(fills[|fills| - 1], side, s) then fills[|fills| - 1].quantity else 0
  }

  function Spent(fills: seq<Fill>, s: Symbol): real {
    if fills == [] then 0.0
    else
      var f := fills[|fills| - 1];
      Spent(fills[..|fills| - 1], s) + if Moves(f, Buy, s) then ValueTraded(f) + FeesOf(f) else 0.0
  }

  function Received(fills: seq<Fill>, s: Symbol): real {
    if fills == [] then 0.0
    else
      var f := fills[|fills| - 1];
      Received(fills[..|fills| - 1], s) + if Moves(f, Sell, s) then ValueTraded(f) - FeesOf(f) else 0.0
  }

  /** No sale of `s` is for more shares than are held. */
  predicate NeverOversold(fills: seq<Fill>, s: Symbol) {
    fills == [] ||
    var f := fills[|fills| - 1];
    NeverOversold(fills[..|fills| - 1], s)
    && (Moves(f, Sell, s) ==>
          Quantity(fills[..|fills| - 1], Sell, s) + f.quantity <= Quantity(fills[..|fills| - 1], Buy, s))
  }

  lemma {:induction false} SharesConcat(a: seq<Lot>, l: Lot)
    requires OpenLots(a) && l.quantity > 0
    ensures OpenLots(a + [l])
    ensures Shares(a + [l]) == Shares(a) + Repeat(UnitCost(l.cost, l.quantity), l.quantity)
  {
    hide Repeat;
    if a != [] {
      SharesConcat(a[1..], l);
      assert (a + [l])[1..] == a[1..] + [l];
    } else {
      assert (a + [l])[1..] == [];
      assert Shares([]) == [];
    }
  }

  lemma {:induction false} SharesTotal(lots: seq<Lot>)
    requires OpenLots(lots)
    ensures Sum(Shares(lots)) == LotCost(lots) && |Shares(lots)| == LotQuantity(lots)
  {
    if lots == [] {
    } else {
      SharesTotal(lots[1..]);
      OneLot(lots[0]);
      SumConcat(Repeat(UnitCost(lots[0].cost, lots[0].quantity), lots[0].quantity), Shares(lots[1..]));
    }
  }

  function LotCost(lots: seq<Lot>): real {
    if lots == [] then 0.0 else lots[0].cost + LotCost(lots[1..])
  }

  function LotQuantity(lots: seq<Lot>): int {
    if lots == [] then 0 else lots[0].quantity + LotQuantity(lots[1..])
  }

  /** What the last fill does to the lots of one symbol. */
  lemma LotsAfter(fills: seq<Fill>, s: Symbol)
    requires fills != []
    ensures var f := fills[|fills| - 1];
            var lots := LotsOf(MatchAll(fills[..|fills| - 1]).lots, s);
            LotsOf(MatchAll(fills).lots, s) ==
              if Moves(f, Buy, s) then lots + [Lot(f.quantity, ValueTraded(f) + FeesOf(f))]
              else if Moves(f, Sell, s) then TakeLots(lots, s, f.quantity, ValueTraded(f) - FeesOf(f), f.quantity).0
              else lots
  {
    hide TakeLots, ValueTraded, FeesOf;
  }

  lemma NothingQueued(s: Symbol)
    ensures Shares(LotsOf(MatchAll([]).lots, s)) == []
  {
  }

  /** The open lots are the share queue. */
  lemma {:induction false} LotsAreQueue(fills: seq<Fill>, s: Symbol)
    ensures Shares(LotsOf(MatchAll(fills).lots, s)) == Queue(fills, s)
  {
    hide Shares, Repeat, TakeLots, ValueTraded, FeesOf, PartOf, MatchAll, LotsOf, UnitCost;
    if fills == [] {
      NothingQueued(s);
    } else {
      var before, f := fills[..|fills| - 1], fills[|fills| - 1];
      LotsAreQueue(before, s);
      LotsAfter(fills, s);
      var lots := LotsOf(MatchAll(before).lots, s);
      if Moves(f, Buy, s) {
        SharesConcat(lots, Lot(f.quantity, ValueTraded(f) + FeesOf(f)));
      } else if Moves(f, Sell, s) {
        SaleTakesOldest(lots, s, f.quantity, ValueTraded(f) - FeesOf(f), f.quantity);
      }
    }
  }

  /** Matched totals grow with every sale by the oldest shares it takes. */
  lemma MatchedGrows(fills: seq<Fill>, s: Symbol)
    requires fills != []
    ensures var before, f := fills[..|fills| - 1], fills[|fills| - 1];
            var old_, new_ := MatchAll(before).matches, MatchAll(fills).matches;
            var open := Queue(before, s);
            var k := if Moves(f, Sell, s) then Least(f.quantity, |open|) else 0;
            && MatchedCost(new_, s) == MatchedCost(old_, s) + Sum(open[..k])
            && MatchedQuantity(new_, s) == MatchedQuantity(old_, s) + k
            && MatchedProceeds(new_, s) == MatchedProceeds(old_, s)
                + (if k > 0 then PartOf(ValueTraded(f) - FeesOf(f), k, f.quantity) else 0.0)
  {
    var before, f := fills[..|fills| - 1], fills[|fills| - 1];
    LotsAreQueue(before, s);
    hide Shares, Repeat, TakeLots, PartOf, Queue;
    assert Queue(before, s)[..0] == [];
    if Relevant(f) && f.status != Unfilled && f.side == Sell {
      var net := ValueTraded(f) - FeesOf(f);
      var lots := LotsOf(MatchAll(before).lots, f.symbol);
      SaleTakesOldest(lots, f.symbol, f.quantity, net, f.quantity);
      TotalsConcat(MatchAll(before).matches, TakeLots(lots, f.symbol, f.quantity, net, f.quantity).1, s);
      PartOfWhole(net, f.quantity);
    }
  }

  /** Whatever the sales, bought shares and their cost split exactly into matched and open ones. */
  lemma {:induction false} PurchasesSplit(fills: seq<Fill>, s: Symbol)
    ensures var m := MatchAll(fills);
            && Quantity(fills, Buy, s) == MatchedQuantity(m.matches, s) + LotQuantity(LotsOf(m.lots, s))
            && Spent(fills, s) == MatchedCost(m.matches, s) + LotCost(LotsOf(m.lots, s))
  {
    QueueSplit(fills, s);
    LotsAreQueue(fills, s);
    SharesTotal(LotsOf(MatchAll(fills).lots, s));
  }

  lemma {:induction false} QueueSplit(fills: seq<Fill>, s: Symbol)
    ensures var m := MatchAll(fills);
            && Quantity(fills, Buy, s) == MatchedQuantity(m.matches, s) + |Queue(fills, s)|
            && Spent(fills, s) == MatchedCost(m.matches, s) + Sum(Queue(fills, s))
  {
    if fills == [] {
    } else {
      var before, f := fills[..|fills| - 1], fills[|fills| - 1];
      var open := Queue(before, s);
      QueueSplit(before, s);
      MatchedGrows(fills, s);
      hide Repeat, MatchAll, PartOf;
      if Moves(f, Buy, s) {
        var lot := Lot(f.quantity, ValueTraded(f) + FeesOf(f));
        OneLot(lot);
        SumConcat(open, Repeat(UnitCost(lot.cost, lot.quantity), lot.quantity));
        assert Sum(open[..0]) == 0.0;
      } else if Moves(f, Sell, s) {
        var k := Least(f.quantity, |open|);
        assert open == open[..k] + open[k..];
        SumConcat(open[..k], open[k..]);
      } else {
        assert Sum(open[..0]) == 0.0;
      }
    }
  }

  /** Every sold share is matched exactly when no sale exceeds the holdings; then the matched proceeds are
      all that was received. */
  lemma {:induction false} SalesMatchedIff(fills: seq<Fill>, s: Symbol)
    ensures var m := MatchAll(fills);
            && MatchedQuantity(m.matches, s) <= Quantity(fills, Sell, s)
            && (MatchedQuantity(m.matches, s) == Quantity(fills, Sell, s) <==> NeverOversold(fills, s))
            && (NeverOversold(fills, s) ==> MatchedProceeds(m.matches, s) == Received(fills, s))
  {
    if fills == [] {
    } else {
      var before, f := fills[..|fills| - 1], fills[|fills| - 1];
      SalesMatchedIff(before, s);
      MatchedGrows(fills, s);
      QueueSplit(before, s);
      if Moves(f, Sell, s) { PartOfWhole(ValueTraded(f) - FeesOf(f), f.quantity); }
    }
  }
}
