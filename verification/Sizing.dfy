/** What sizing buys, told in prices, counts and sums: which requests get anything, and how much. */
module Sizing {
  import opened Common
  import opened Costs
  import opened Drawdown
  import opened Allocation

  // ----- the request, in its own terms

  /** The places of positions with shares of other symbols. */
  ghost function OthersAt(ps: seq<Position>, s: Symbol): set<nat> {
    set i: nat | i < |ps| && ps[i].quantity > 0 && ps[i].symbol != s
  }

  /** The run may buy at all, and there is a place for one more symbol, or the symbol has one. */
  ghost predicate MayBuy(r: Request) {
    && r.state == Normal && r.price > 0.0 && r.cash > 0.0 && r.equity > 0.0
    && (r.stopDistance.Some? ==> r.stopDistance.value > 0.0)
    && |OthersAt(r.positions, r.symbol)| + (if exists p :: p in r.positions && p.symbol == r.symbol then 0 else 1)
       <= r.limits.maxPositions
  }

  /** The market values, of all positions or of one industry's. */
  function Values(ps: seq<Position>): (r: seq<real>)
    ensures |r| == |ps|
  {
    seq(|ps|, i requires 0 <= i < |ps| => ps[i].marketValue)
  }

  function ValuesIn(ps: seq<Position>, industry: Option<Industry>): (r: seq<real>)
    ensures |r| == |ps|
  {
    seq(|ps|, i requires 0 <= i < |ps| => if ps[i].industry == industry then ps[i].marketValue else 0.0)
  }

  /** What the first position in the symbol is worth; nothing if there is none. */
  ghost predicate WorthIn(ps: seq<Position>, s: Symbol, v: real) {
    || (exists i | 0 <= i < |ps| :: ps[i].symbol == s && ps[i].marketValue == v && forall j | 0 <= j < i ::
        ps[j].symbol != s)
    || ((forall p | p in ps :: p.symbol != s) && v == 0.0)
  }

  function Part(n: real, rate: real): real {
    n * rate
  }

  /** The fees of a purchase worth `n`. */
  function PurchaseFees(costs: CostModel, n: real): real {
    (if Part(n, costs.commissionRate) >= costs.minimumCommission then Part(n, costs.commissionRate)
     else costs.minimumCommission)
    + Part(n, costs.transferFeeRate)
    + (if costs.commissionIncludesRegulatory then 0.0 else Part(n, costs.regulatoryFeeRate))
    + (if costs.commissionIncludesHandling then 0.0 else Part(n, costs.handlingFeeRate))
  }

  /** `q` shares keep every limit beside what is held, risk no more than the budget, and can be paid for. */
  ghost predicate Allowed(r: Request, q: int) {
    var n, l := Part(r.price, q as real), r.limits;
    && n <= l.targetPositionValue
    && (forall v | WorthIn(r.positions, r.symbol, v) :: v + n <= Part(r.equity, l.maxPositionRatio))
    && Sum(ValuesIn(r.positions, r.industry)) + n <= Part(r.equity, l.maxIndustryRatio)
    && Sum(Values(r.positions)) + n <= Part(r.equity, l.maxInvestmentRatio)
    && n <= r.cash && n + PurchaseFees(r.costs, n) <= r.cash
    && (r.stopDistance.Some? ==> Part(r.stopDistance.value, q as real) <= Part(r.equity, l.perTradeRiskRatio))
  }

  // ----- it is what the procedure computes

  lemma {:induction false} CountIsOthers(ps: seq<Position>, s: Symbol)
    ensures OtherPositions(ps, s) == |OthersAt(ps, s)|
  {
    if ps == [] {
      assert OthersAt(ps, s) == {};
    } else {
      CountIsOthers(ps[1..], s);
      var rest := OthersAt(ps[1..], s);
      var moved := Moved(rest);
      MovedCount(rest);
      forall i: nat
        ensures i in OthersAt(ps, s) <==> i in moved || (i == 0 && ps[0].quantity > 0 && ps[0].symbol != s)
      {
        if i > 0 { assert i in moved <==> i - 1 in rest; }
      }
      assert OthersAt(ps, s) == moved + if ps[0].quantity > 0 && ps[0].symbol != s then {0} else {};
    }
  }

  function Moved(xs: set<nat>): set<nat> {
    set i | i in xs :: i + 1
  }

  lemma MovedHas(xs: set<nat>, i: nat)
    ensures i in Moved(xs) <==> i > 0 && i - 1 in xs
  {
    if i > 0 && i - 1 in xs { assert (i - 1) + 1 == i; }
  }

  lemma {:induction false} MovedCount(xs: set<nat>)
    ensures |Moved(xs)| == |xs|
    decreases xs
  {
    if xs == {} {
      assert Moved(xs) == {};
    } else {
      if forall x :: x !in xs { assert false; }
      var x :| x in xs;
      MovedCount(xs - {x});
      MovedHas(xs - {x}, x + 1);
      forall i: nat ensures i in Moved(xs) <==> i in Moved(xs - {x}) + {x + 1} {
        MovedHas(xs, i);
        MovedHas(xs - {x}, i);
      }
      assert Moved(xs) == Moved(xs - {x}) + {x + 1};
    }
  }

  lemma MayBuyIff(r: Request)
    ensures MayBuy(r) <==> !Blocked(r)
  {
    CountIsOthers(r.positions, r.symbol);
  }

  lemma {:induction false} SumsOfValues(ps: seq<Position>, industry: Option<Industry>)
    ensures Invested(ps) == Sum(Values(ps)) && IndustryValue(ps, industry) == Sum(ValuesIn(ps, industry))
  {
    if ps == [] {
    } else {
      SumsOfValues(ps[1..], industry);
      assert Values(ps)[1..] == Values(ps[1..]) && ValuesIn(ps, industry)[1..] == ValuesIn(ps[1..], industry);
    }
  }

  lemma {:induction false} WorthIs(ps: seq<Position>, s: Symbol, v: real)
    ensures WorthIn(ps, s, v) <==> v == CurrentValue(ps, s)
  {
    if ps == [] {
    } else {
      WorthIs(ps[1..], s, v);
      assert forall p :: p in ps <==> p == ps[0] || p in ps[1..];
      if ps[0].symbol == s {
      } else {
        forall i | 0 <= i < |ps[1..]| ensures ps[1..][i] == ps[i + 1] {
        }
        if WorthIn(ps, s, v) && exists p | p in ps :: p.symbol == s {
          var i :| 0 <= i < |ps| && ps[i].symbol == s && ps[i].marketValue == v && forall j | 0 <= j < i ::
              ps[j].symbol != s;
          assert ps[1..][i - 1] == ps[i];
          assert WorthIn(ps[1..], s, v);
        }
        if WorthIn(ps[1..], s, v) && exists p | p in ps[1..] :: p.symbol == s {
          var i :| 0 <= i < |ps[1..]| && ps[1..][i].symbol == s && ps[1..][i].marketValue == v
                   && forall j | 0 <= j < i :: ps[1..][j].symbol != s;
          assert forall j | 0 <= j < i + 1 :: ps[j].symbol != s;
          assert ps[i + 1].symbol == s;
        }
      }
    }
  }

  lemma PurchaseTotal(costs: CostModel, price: real, q: int)
    requires price >= 0.0 && q >= 0
    ensures BuyTotal(costs, price, q) == Part(price, q as real) + PurchaseFees(costs, Part(price, q as real))
  {
  }

  /** Shares within the risk budget, and their worth within the notional that the budget allows. */
  lemma RiskIff(budget: real, stop: real, price: real, n: real)
    requires stop > 0.0 && price > 0.0
    ensures price * n <= budget / stop * price <==> stop * n <= budget
  {
    var most := budget / stop;
    assert most * stop == budget;
    assert (most - n) * price == most * price - price * n;
    assert (most - n) * stop == budget - stop * n;
    if n <= most {
      MulMonotone(0.0, most - n, price);
      MulMonotone(0.0, most - n, stop);
      assert (most - n) * price >= 0.0 && (most - n) * stop >= 0.0;
    } else {
      assert (n - most) * price > 0.0 && (n - most) * stop > 0.0;
      assert (most - n) * price == -((n - most) * price) && (most - n) * stop == -((n - most) * stop);
    }
  }

  lemma AllowedIff(r: Request, q: int)
    requires r.price > 0.0 && q > 0 && (r.stopDistance.Some? ==> r.stopDistance.value > 0.0)
    ensures Allowed(r, q) <==> Permitted(r, q)
  {
    SameProducts(r, q);
    SumsOfValues(r.positions, r.industry);
    forall v ensures WorthIn(r.positions, r.symbol, v) <==> v == CurrentValue(r.positions, r.symbol) {
      WorthIs(r.positions, r.symbol, v);
    }
    PurchaseTotal(r.costs, r.price, q);
    assert WorthIn(r.positions, r.symbol, CurrentValue(r.positions, r.symbol));
    hide WorthIn, BuyTotal, PurchaseFees, Sum, Values, ValuesIn, CurrentValue, Invested, IndustryValue, Part, Notional,
      ShareOf, RiskNotional;
  }

  /** The products of both accounts. */
  lemma SameProducts(r: Request, q: int)
    requires r.price > 0.0 && q > 0 && (r.stopDistance.Some? ==> r.stopDistance.value > 0.0)
    ensures Notional(r.price, q) == Part(r.price, q as real)
    ensures forall ratio :: ShareOf(r.equity, ratio) == Part(r.equity, ratio)
    ensures r.stopDistance.Some? ==>
              (Notional(r.price, q) <= RiskNotional(r) <==>
                 Part(r.stopDistance.value, q as real) <= Part(r.equity, r.limits.perTradeRiskRatio))
  {
    if r.stopDistance.Some? {
      RiskIff(r.equity * r.limits.perTradeRiskRatio, r.stopDistance.value, r.price, q as real);
    }
  }

  // ----- what it buys

  /** Sizing is exact. A request that may not buy gets nothing. One that may, with limits that leave a non-negative cap,
      gets the greatest number of whole lots that is allowed: any larger number `j` of lots is not. */
  lemma {:induction false} QuantityIsGreatest(r: Request, j: int) returns (lots: nat)
    requires r.limits.lotSize > 0
    requires r.limits.targetPositionValue >= 0.0 && (r.stopDistance.Some? ==> r.limits.perTradeRiskRatio >= 0.0)
    ensures Quantity(r) == lots * r.limits.lotSize
    ensures !MayBuy(r) ==> lots == 0
    ensures lots > 0 ==> lots * r.limits.lotSize > 0 && Allowed(r, lots * r.limits.lotSize)
    ensures MayBuy(r) && j > lots ==> j * r.limits.lotSize > 0 && !Allowed(r, j * r.limits.lotSize)
  {
    hide Blocked, MaxShares, Permitted, Allowed;
    MayBuyIff(r);
    if MayBuy(r) {
      lots := LotsAreGreatest(r, j);
      if lots > 0 { AllowedIff(r, lots * r.limits.lotSize); }
      if j > lots { AllowedIff(r, j * r.limits.lotSize); }
    } else {
      lots := 0;
    }
  }

  lemma {:induction false} FewerFit(r: Request, q: int, few: int)
    requires r.price > 0.0 && 0 < few <= q && Allowed(r, q) && Sane(r.costs)
    requires r.stopDistance.Some? ==> r.stopDistance.value > 0.0
    ensures Allowed(r, few)
  {
    PartsGrow(few as real, q as real, r.price);
    FeesGrow(r.costs, Part(r.price, few as real), Part(r.price, q as real));
    if r.stopDistance.Some? { PartsGrow(few as real, q as real, r.stopDistance.value); }
    hide WorthIn, Sum, Values, ValuesIn, PurchaseFees, Part;
  }

  lemma PartsGrow(few: real, many: real, n: real)
    requires 0.0 <= few <= many && n >= 0.0
    ensures 0.0 <= Part(n, few) <= Part(n, many) && 0.0 <= Part(few, n) <= Part(many, n)
  {
    MulMonotone(few, many, n);
    MulMonotone(0.0, few, n);
  }

  lemma FeesGrow(costs: CostModel, k: real, n: real)
    requires Sane(costs) && 0.0 <= k <= n
    ensures PurchaseFees(costs, k) <= PurchaseFees(costs, n)
  {
    PartsGrow(k, n, costs.commissionRate);
    PartsGrow(k, n, costs.transferFeeRate);
    PartsGrow(k, n, costs.regulatoryFeeRate);
    PartsGrow(k, n, costs.handlingFeeRate);
    hide Part;
  }

  lemma {:induction false} PositiveWithinLimits(r: Request)
    requires r.limits.lotSize > 0
    requires r.limits.targetPositionValue >= 0.0 && (r.stopDistance.Some? ==> r.limits.perTradeRiskRatio >= 0.0)
    ensures Quantity(r) > 0 <==>
              MayBuy(r) && exists j | j > 0 :: j * r.limits.lotSize > 0 && Allowed(r, j * r.limits.lotSize)
    ensures Sane(r.costs) ==> (Quantity(r) > 0 <==> MayBuy(r) && Allowed(r, r.limits.lotSize))
  {
    hide MayBuy, Allowed, Quantity;
    var lot := r.limits.lotSize;
    var lots := QuantityIsGreatest(r, 1);
    assert 1 * lot == lot;
    if lots > 0 {
      IntMulMonotone(1, lots, lot);
      assert MayBuy(r);
      if Sane(r.costs) { PositivePrice(r); FewerFit(r, lots * lot, lot); }
    } else if MayBuy(r) {
      forall j | j > 0 ensures j * lot > 0 && !Allowed(r, j * lot) {
        var none := QuantityIsGreatest(r, j);
        ZeroLots(none, lot);
      }
    }
  }

  lemma PositivePrice(r: Request)
    requires MayBuy(r)
    ensures r.price > 0.0 && (r.stopDistance.Some? ==> r.stopDistance.value > 0.0)
  {
    hide OthersAt;
  }

  lemma ZeroLots(lots: nat, lot: int)
    requires lot > 0
    ensures lots * lot == 0 ==> lots == 0
  {
    if lots > 0 { IntMulMonotone(1, lots, lot); }
  }

  lemma MinusTimes(a: real, b: real)
    requires a > 0.0
    ensures b > 0.0 ==> Part(a, b) > 0.0
    ensures b < 0.0 ==> Part(a, b) < 0.0
  {
    if b > 0.0 { assert a * b > 0.0; }
    if b < 0.0 { assert a * -b > 0.0; }
  }

  /** Limits that leave a negative cap allow nothing. */
  lemma NothingAllowed(r: Request, q: int)
    requires MayBuy(r) && q > 0
    requires r.limits.targetPositionValue < 0.0 || (r.stopDistance.Some? && r.limits.perTradeRiskRatio < 0.0)
    ensures !Allowed(r, q)
  {
    PositivePrice(r);
    MinusTimes(r.price, q as real);
    MinusTimes(r.equity, r.limits.perTradeRiskRatio) by { hide OthersAt; }
    if r.stopDistance.Some? { MinusTimes(r.stopDistance.value, q as real); }
    hide MayBuy, WorthIn, Sum, Values, ValuesIn, PurchaseFees, Part;
  }

  /** A request gets something exactly when it may buy and some number of lots is allowed; with fees that do not fall as
      the purchase grows, exactly when one lot is. */
  lemma {:induction false} QuantityPositiveIff(r: Request)
    requires r.limits.lotSize > 0
    ensures Quantity(r) > 0 <==>
              MayBuy(r) && exists j | j > 0 :: j * r.limits.lotSize > 0 && Allowed(r, j * r.limits.lotSize)
    ensures Sane(r.costs) ==> (Quantity(r) > 0 <==> MayBuy(r) && Allowed(r, r.limits.lotSize))
  {
    hide MayBuy, Allowed, Quantity, Permitted, Blocked;
    if r.limits.targetPositionValue >= 0.0 && (r.stopDistance.Some? ==> r.limits.perTradeRiskRatio >= 0.0) {
      PositiveWithinLimits(r);
    } else {
      MayBuyIff(r);
      if MayBuy(r) {
        PositivePrice(r);
        forall q | q > 0 ensures !Allowed(r, q) {
          NothingAllowed(r, q);
        }
        if Quantity(r) > 0 {
          PositiveQuantityIsPermitted(r);
          AllowedIff(r, Quantity(r));
        }
      } else {
        NotBought(r);
      }
    }
  }

  lemma NotBought(r: Request)
    requires r.limits.lotSize > 0 && Blocked(r)
    ensures Quantity(r) == 0
  {
  }
}
