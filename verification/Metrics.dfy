/** Performance metrics: one-pass maximum drawdown, first-in-first-out lot matching, period returns. */
module Metrics {
  import opened Common
  import opened Costs
  import opened Simulator

  // ----- maximum drawdown

  function Fall(curve: seq<real>, i: nat, j: nat): real
    requires i < |curve| && j < |curve| && curve[i] != 0.0
  {
    (curve[i] - curve[j]) / curve[i]
  }

  /** The greatest relative fall from any value to any later one, over all pairs. */
  ghost predicate IsMaxDrawdown(curve: seq<real>, m: real)
    requires AllPositive(curve)
  {
    && (forall i, j | 0 <= i <= j < |curve| :: Fall(curve, i, j) <= m)
    && (exists i, j | 0 <= i <= j < |curve| :: Fall(curve, i, j) == m)
  }

  lemma FallFromPeak(low: real, peak: real, value: real)
    requires 0.0 < low <= peak && value > 0.0
    ensures (low - value) / low <= (peak - value) / peak
  {
    var a, b := (low - value) / low, (peak - value) / peak;
    assert (1.0 - a) * low == value;
    if 1.0 - a < 0.0 { MulMonotone(1.0 - a, 0.0, low); }
    MulMonotone(0.0, peak - low, 1.0 - a);
    assert (b - a) * peak == (1.0 - a) * (peak - low);
    if b - a < 0.0 { assert (a - b) * peak > 0.0; }
  }

  /** The running-peak loop finds the maximum over all pairs. */
  method MaxDrawdown(curve: seq<real>) returns (maxDrawdown: real)
    requires curve != [] && AllPositive(curve)
    ensures IsMaxDrawdown(curve, maxDrawdown)
  {
    var peak := curve[0];
    ghost var top := 0;
    maxDrawdown := 0.0;
    ghost var from, to := 0, 0;
    var k := 1;
    while k < |curve|
      invariant 1 <= k <= |curve|
      invariant 0 <= top < k && peak == curve[top]
      invariant forall i | 0 <= i < k :: curve[i] <= peak
      invariant 0 <= from <= to < k && Fall(curve, from, to) == maxDrawdown >= 0.0
      invariant forall i, j | 0 <= i <= j < k :: Fall(curve, i, j) <= maxDrawdown
    {
      var current := curve[k];
      if current > peak {
        peak, top := current, k;
      }
      var fall := (peak - current) / peak;
      forall i | 0 <= i <= k ensures Fall(curve, i, k) <= fall {
        FallFromPeak(curve[i], peak, current);
      }
      if fall > maxDrawdown {
        maxDrawdown := fall;
        from, to := top, k;
      }
      k := k + 1;
    }
  }

  // ----- first-in-first-out matching

  datatype Lot = Lot(quantity: int, cost: real)

  /** Part of a sale matched with part of a lot. */
  datatype Match = Match(symbol: Symbol, quantity: int, cost: real, proceeds: real) {
    function Pnl(): real {
      proceeds - cost
    }
  }

  /** Open lots by symbol, oldest first, and everything matched so far. */
  datatype Matching = Matching(lots: map<Symbol, seq<Lot>>, matches: seq<Match>, totalCost: real, turnover: real)

  /** `part` of `whole` shares' worth of a value. */
  function PartOf(value: real, part: int, whole: int): real
    requires whole != 0
  {
    value * part as real / whole as real
  }

  predicate OpenLots(lots: seq<Lot>) {
    forall i | 0 <= i < |lots| :: lots[i].quantity > 0
  }

  /** A sale of `sold` shares for `proceeds`, of which `remaining` are still to be matched. */
  function TakeLots(lots: seq<Lot>, s: Symbol, remaining: int, proceeds: real, sold: int): (r: (seq<Lot>, seq<Match>))
    requires OpenLots(lots) && 0 <= remaining <= sold && sold > 0
    ensures OpenLots(r.0)
    decreases |lots|
  {
    if remaining == 0 || lots == [] then (lots, [])
    else
      var first := lots[0];
      var matched := if remaining < first.quantity then remaining else first.quantity;
      var cost := PartOf(first.cost, matched, first.quantity);
      var m := Match(s, matched, cost, PartOf(proceeds, matched, sold));
      if matched == first.quantity then
        var (rest, matches) := TakeLots(lots[1..], s, remaining - matched, proceeds, sold);
        (rest, [m] + matches)
      else
        ([Lot(first.quantity - matched, first.cost - cost)] + lots[1..], [m])
  }

  function LotsOf(lots: map<Symbol, seq<Lot>>, s: Symbol): (r: seq<Lot>)
    ensures (forall x | x in lots :: OpenLots(lots[x])) ==> OpenLots(r)
  {
    if s in lots then lots[s] else []
  }

  ghost predicate AllOpenLots(m: Matching) {
    forall s | s in m.lots :: OpenLots(m.lots[s])
  }

  /** What a fill costs beyond its notional, and what it moves. */
  predicate Relevant(f: Fill) {
    f.quantity > 0 && f.execution.Some?
  }

  function ValueTraded(f: Fill): real
    requires f.execution.Some?
  {
    Notional(f.execution.value.price, f.quantity)
  }

  function FeesOf(f: Fill): real
    requires f.execution.Some?
  {
    f.execution.value.costs.Total()
  }

  function MatchFill(m: Matching, f: Fill): (r: Matching)
    requires AllOpenLots(m)
    ensures AllOpenLots(r)
  {
    if !Relevant(f) then m
    else
      var seen := m.(totalCost := m.totalCost + FeesOf(f), turnover := m.turnover + ValueTraded(f));
      if f.status == Unfilled then seen
      else if f.side == Buy then
        seen.(lots := m.lots[f.symbol := LotsOf(m.lots, f.symbol) + [Lot(f.quantity, ValueTraded(f) + FeesOf(f))]])
      else
        var (lots, matches) := TakeLots(LotsOf(m.lots, f.symbol), f.symbol, f.quantity, ValueTraded(f) - FeesOf(f),
                                        f.quantity);
        seen.(lots := m.lots[f.symbol := lots], matches := m.matches + matches)
  }

  function MatchAll(fills: seq<Fill>): (m: Matching)
    ensures AllOpenLots(m)
  {
    if fills == [] then Matching(map[], [], 0.0, 0.0)
    else MatchFill(MatchAll(fills[..|fills| - 1]), fills[|fills| - 1])
  }

  /** The matching loop over the fills, popping and rewriting the lots of each sold symbol. */
  method MatchFills(fills: seq<Fill>) returns (m: Matching)
    ensures m == MatchAll(fills)
  {
    hide TakeLots, LotsOf, FeesOf, ValueTraded;
    m := Matching(map[], [], 0.0, 0.0);
    var i := 0;
    while i < |fills|
      invariant 0 <= i <= |fills|
      invariant m == MatchAll(fills[..i])
    {
      assert fills[..i + 1][..i] == fills[..i];
      var f := fills[i];
      ghost var goal := MatchFill(m, f);
      i := i + 1;
      if f.quantity <= 0 || f.execution.None? {
        continue;
      }
      var fees, notional := FeesOf(f), ValueTraded(f);
      m := m.(totalCost := m.totalCost + fees, turnover := m.turnover + notional);
      if f.status == Unfilled {
        continue;
      }
      if f.side == Buy {
        m := m.(lots := m.lots[f.symbol := LotsOf(m.lots, f.symbol) + [Lot(f.quantity, notional + fees)]]);
        continue;
      }
      var lots, matches := SellLots(LotsOf(m.lots, f.symbol), f.symbol, notional - fees, f.quantity);
      m := m.(lots := m.lots[f.symbol := lots], matches := m.matches + matches);
    }
    assert fills[..i] == fills;
  }

  method SellLots(start: seq<Lot>, s: Symbol, proceeds: real, sold: int) returns (lots: seq<Lot>, matches: seq<Match>)
    requires OpenLots(start) && sold > 0
    ensures (lots, matches) == TakeLots(start, s, sold, proceeds, sold)
  {
    lots, matches := start, [];
    var remaining := sold;
    assert matches + TakeLots(start, s, sold, proceeds, sold).1 == TakeLots(start, s, sold, proceeds, sold).1;
    while remaining > 0 && lots != []
      invariant OpenLots(lots) && 0 <= remaining <= sold
      invariant var (rest, more) := TakeLots(lots, s, remaining, proceeds, sold);
                (rest, matches + more) == TakeLots(start, s, sold, proceeds, sold)
      decreases remaining
    {
      var first := lots[0];
      var matched := if remaining < first.quantity then remaining else first.quantity;
      var cost := PartOf(first.cost, matched, first.quantity);
      var m := Match(s, matched, cost, PartOf(proceeds, matched, sold));
      ghost var more := TakeLots(lots, s, remaining, proceeds, sold).1;
      assert matches + more == (matches + [m]) + more[1..];
      matches := matches + [m];
      remaining := remaining - matched;
      if matched == first.quantity {
        lots := lots[1..];
      } else {
        lots := [Lot(first.quantity - matched, first.cost - cost)] + lots[1..];
      }
    }
    assert matches + [] == matches;
  }
}
