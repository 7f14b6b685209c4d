/** What a fill makes of a ledger, told from cash, shares and costs: when it is refused, and what it changes. */
module LedgerRules {
  import opened Common
  import opened Sorting
  import opened Ledger

  /** The ledger holds the position. */
  predicate Has(l: LedgerState, p: LedgerPosition) {
    p in l.positions
  }

  /** The positions in other symbols, in their order. */
  function Others(ps: seq<LedgerPosition>, s: Symbol): seq<LedgerPosition> {
    if ps == [] then []
    else
      var n := |ps| - 1;
      Others(ps[..n], s) + if ps[n].symbol == s then [] else [ps[n]]
  }

  /** The shares of a symbol that may be sold today. */
  ghost predicate Sellable(l: LedgerState, s: Symbol, quantity: int) {
    exists p :: p in l.positions && p.symbol == s && quantity <= p.available
  }

  lemma {:induction false} OthersSnoc(ps: seq<LedgerPosition>, p: LedgerPosition, s: Symbol)
    ensures Others(ps + [p], s) == Others(ps, s) + if p.symbol == s then [] else [p]
  {
    assert (ps + [p])[..|ps|] == ps;
  }

  lemma {:induction false} OthersConcat(a: seq<LedgerPosition>, b: seq<LedgerPosition>, s: Symbol)
    ensures Others(a + b, s) == Others(a, s) + Others(b, s)
  {
    if b == [] {
      assert a + b == a;
    } else {
      var n := |b| - 1;
      assert a + b == (a + b[..n]) + [b[n]] && b == b[..n] + [b[n]];
      OthersSnoc(a + b[..n], b[n], s);
      OthersConcat(a, b[..n], s);
    }
  }

  lemma OneOther(p: LedgerPosition, s: Symbol)
    ensures Others([p], s) == if p.symbol == s then [] else [p]
  {
    assert [p][..0] == [];
  }

  lemma {:induction false} OthersHead(ps: seq<LedgerPosition>, s: Symbol)
    requires ps != []
    ensures Others(ps, s) == (if ps[0].symbol == s then [] else [ps[0]]) + Others(ps[1..], s)
  {
    assert ps == [ps[0]] + ps[1..];
    OthersConcat([ps[0]], ps[1..], s);
    OneOther(ps[0], s);
  }

  lemma {:induction false} OthersPut(ps: seq<LedgerPosition>, p: LedgerPosition)
    ensures Others(Put(ps, p), p.symbol) == Others(ps, p.symbol)
  {
    var s := p.symbol;
    if ps == [] {
      OneOther(p, s);
    } else {
      OthersHead(ps, s);
      OthersHead(Put(ps, p), s);
      if ps[0].symbol == s {
        assert Put(ps, p)[1..] == ps[1..];
      } else {
        OthersPut(ps[1..], p);
        assert Put(ps, p)[1..] == Put(ps[1..], p);
      }
    }
  }

  lemma {:induction false} OthersRemove(ps: seq<LedgerPosition>, s: Symbol)
    ensures Others(Remove(ps, s), s) == Others(ps, s)
  {
    if ps == [] {
    } else {
      OthersHead(ps, s);
      if ps[0].symbol != s {
        OthersRemove(ps[1..], s);
        OthersHead(Remove(ps, s), s);
        assert Remove(ps, s)[1..] == Remove(ps[1..], s);
      }
    }
  }

  lemma {:induction false} FindOnly(ps: seq<LedgerPosition>, p: LedgerPosition)
    requires Distinct(ps) && p in ps
    ensures Find(ps, p.symbol) == Some(p)
  {
    if ps[0] != p { FindOnly(ps[1..], p); }
  }

  /** The parts that a sale leaves cost, share for share, what they did before. */
  ghost predicate CostsAsBefore(before: LedgerPosition, after: LedgerPosition) {
    after.costBasis * before.quantity as real == before.costBasis * after.quantity as real
  }

  lemma ReducedIs(p: LedgerPosition, quantity: int)
    requires p.quantity > 0 && 0 <= quantity <= p.quantity && p.costBasis >= 0.0
    ensures ReducedCost(p, quantity) * p.quantity as real == p.costBasis * (p.quantity - quantity) as real
  {
    var part := p.costBasis * quantity as real / p.quantity as real;
    assert part * p.quantity as real == p.costBasis * quantity as real;
    assert p.costBasis * (p.quantity - quantity) as real
        == p.costBasis * p.quantity as real - p.costBasis * quantity as real;
    MulMonotone(quantity as real, p.quantity as real, p.costBasis);
    assert (p.costBasis - part) * p.quantity as real >= 0.0;
    if p.costBasis - part < 0.0 {
      assert (part - p.costBasis) * p.quantity as real > 0.0;
    }
  }

  // ----- what is refused

  /** A fill is refused for the first of these: figures that are no fill, too little cash, too few shares that may be
      sold, or a sale that leaves a debt. */
  lemma FillRefusedIff(l: LedgerState, side: Side, s: Symbol, quantity: int, price: real, costs: real)
    requires Valid(l)
    ensures var r := AfterFill(l, side, s, quantity, price, costs);
            && (r == Err(InvalidFill) <==> quantity <= 0 || price <= 0.0 || costs < 0.0)
            && (quantity > 0 && price > 0.0 && costs >= 0.0 ==>
                  && (side == Buy ==>
                        (r == Err(InsufficientCash) <==> price * quantity as real + costs > l.cash)
                        && (r.Err? ==> r == Err(InsufficientCash)))
                  && (side == Sell ==>
                        (r == Err(InsufficientShares) <==> !Sellable(l, s, quantity))
                        && (r == Err(SaleMakesCashNegative) <==>
                              Sellable(l, s, quantity) && l.cash + price * quantity as real < costs)
                        && (r.Err? ==> r == Err(InsufficientShares) || r == Err(SaleMakesCashNegative))))
  {
    hide AfterFill, Updated, ReducedCost;
    if p :| p in l.positions && p.symbol == s { FindOnly(l.positions, p); }
    forall p | p in l.positions && p.symbol == s ensures Find(l.positions, s) == Some(p) {
      FindOnly(l.positions, p);
    }
    hide Find;
  }

  // ----- what is changed

  /** After an accepted purchase. */
  ghost predicate Purchased(l: LedgerState, r: LedgerState, s: Symbol, quantity: int, price: real, costs: real) {
    var paid := price * quantity as real + costs;
    && r.cash == l.cash - paid
    && ((forall p | p in l.positions :: p.symbol != s) ==> Has(r, LedgerPosition(s, quantity, paid, 0)))
    && forall p | p in l.positions && p.symbol == s ::
         Has(r, LedgerPosition(s, p.quantity + quantity, p.costBasis + paid, p.available))
  }

  /** After an accepted sale. */
  ghost predicate Sold(l: LedgerState, r: LedgerState, s: Symbol, quantity: int, price: real, costs: real) {
    && r.cash == l.cash + price * quantity as real - costs
    && forall p | p in l.positions && p.symbol == s ::
         if quantity == p.quantity then forall q | q in r.positions :: q.symbol != s
         else exists q :: Has(r, q) && q.symbol == s && q.quantity == p.quantity - quantity
                          && q.available == p.available - quantity
                          && (p.costBasis >= 0.0 ==> CostsAsBefore(p, q))
  }

  lemma {:induction false} PurchaseChanges(l: LedgerState, s: Symbol, quantity: int, price: real, costs: real)
    requires Valid(l) && AfterFill(l, Buy, s, quantity, price, costs).Ok?
    ensures Purchased(l, AfterFill(l, Buy, s, quantity, price, costs).value, s, quantity, price, costs)
  {
    hide AfterFill, Put, Distinct;
    var (_, p) := FillEffect(l, Buy, s, quantity, price, costs).value;
    FindPut(l.positions, p, s);
    forall q | q in l.positions && q.symbol == s ensures Find(l.positions, s) == Some(q) && OpenPosition(q) {
      FindOnly(l.positions, q);
    }
    hide Find;
    assert p.quantity > 0;
  }

  lemma {:induction false} SaleChanges(l: LedgerState, s: Symbol, quantity: int, price: real, costs: real)
    requires Valid(l) && AfterFill(l, Sell, s, quantity, price, costs).Ok?
    ensures Sold(l, AfterFill(l, Sell, s, quantity, price, costs).value, s, quantity, price, costs)
  {
    hide AfterFill, Put, Remove, Distinct, ReducedCost, CostsAsBefore;
    var (_, p) := FillEffect(l, Sell, s, quantity, price, costs).value;
    var r := AfterFill(l, Sell, s, quantity, price, costs).value;
    FindPut(l.positions, p, s);
    FindRemove(l.positions, s, s);
    forall q | q in l.positions && q.symbol == s
      ensures if quantity == q.quantity then forall q | q in r.positions :: q.symbol != s
              else Has(r, p) && p.symbol == s && p.quantity == q.quantity - quantity
                   && p.available == q.available - quantity && (q.costBasis >= 0.0 ==> CostsAsBefore(q, p))
    {
      FindOnly(l.positions, q);
      assert OpenPosition(q);
      hide Find;
      if q.costBasis >= 0.0 { SoldPart(q, p, quantity); }
    }
  }

  lemma SoldPart(q: LedgerPosition, p: LedgerPosition, quantity: int)
    requires OpenPosition(q) && q.costBasis >= 0.0 && 0 < quantity <= q.quantity
    requires p.quantity == q.quantity - quantity && p.costBasis == ReducedCost(q, quantity)
    ensures CostsAsBefore(q, p)
  {
    ReducedIs(q, quantity);
  }

  /** An accepted fill changes the cash and the one position, to what was paid or received, and no other. */
  lemma {:induction false} FillChanges(l: LedgerState, side: Side, s: Symbol, quantity: int, price: real, costs: real)
    requires Valid(l) && AfterFill(l, side, s, quantity, price, costs).Ok?
    ensures var r := AfterFill(l, side, s, quantity, price, costs).value;
            && Valid(r) && Others(r.positions, s) == Others(l.positions, s)
            && if side == Buy then Purchased(l, r, s, quantity, price, costs) else Sold(l, r, s, quantity, price, costs)
  {
    hide AfterFill, ReducedCost, Others, Purchased, Sold, Valid, Find;
    var (_, p) := FillEffect(l, side, s, quantity, price, costs).value;
    OthersPut(l.positions, p);
    OthersRemove(l.positions, s);
    if side == Buy { PurchaseChanges(l, s, quantity, price, costs); }
        else { SaleChanges(l, s, quantity, price, costs); }
  }

  /** A snapshot lists the positions by symbol. */
  lemma {:induction false} SnapshotLists(l: LedgerState, prices: map<Symbol, real>)
    requires Valid(l)
    ensures var e := SnapshotOf(l, prices);
            && e.cash == l.cash && |e.positions| == |l.positions|
            && (forall p :: p in e.positions <==> p in l.positions)
            && forall i, j | 0 <= i < j < |e.positions| :: e.positions[i].symbol < e.positions[j].symbol
  {
    hide PositionsValue, Sort;
    var sorted := Sort(SymbolOrder, l.positions);
    SortKeepsElements(SymbolOrder, l.positions);
    assert TotalPreorder(SymbolOrder);
    SortSorts(SymbolOrder, l.positions);
    forall i, j | 0 <= i < j < |sorted| ensures sorted[i].symbol < sorted[j].symbol {
      assert SymbolOrder(sorted[i], sorted[j]);
      if sorted[i].symbol == sorted[j].symbol {
        OncePerSymbol(l.positions, sorted, i, j);
      }
    }
  }

  lemma {:induction false} OncePerSymbol(ps: seq<LedgerPosition>, sorted: seq<LedgerPosition>, i: nat, j: nat)
    requires Distinct(ps) && multiset(sorted) == multiset(ps) && i < j < |sorted|
    ensures sorted[i].symbol != sorted[j].symbol
  {
    if sorted[i].symbol == sorted[j].symbol {
      assert sorted[i] in multiset(ps) && sorted[j] in multiset(ps);
      FindOnly(ps, sorted[i]);
      FindOnly(ps, sorted[j]);
      assert sorted == sorted[..i] + [sorted[i]] + sorted[i + 1..j] + [sorted[j]] + sorted[j + 1..];
      assert multiset(sorted)[sorted[i]] >= 2;
      OnceInDistinct(ps, sorted[i]);
    }
  }

  lemma {:induction false} OnceInDistinct(ps: seq<LedgerPosition>, p: LedgerPosition)
    requires Distinct(ps)
    ensures multiset(ps)[p] <= 1
  {
    if ps != [] {
      assert ps == [ps[0]] + ps[1..];
      OnceInDistinct(ps[1..], p);
      if ps[0] == p { assert p !in ps[1..]; }
    }
  }
}
