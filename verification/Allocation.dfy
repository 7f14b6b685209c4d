/** Position sizing under cash, position, industry and investment caps, in whole lots. */
module Allocation {
  import opened Common
  import opened Costs
  import opened Drawdown

  datatype Position = Position(symbol: Symbol, quantity: int, marketValue: real, industry: Option<Industry>)

  datatype AllocationLimits = AllocationLimits(
    maxInvestmentRatio: real,
    maxPositions: int,
    targetPositionValue: real,
    maxPositionRatio: real,
    maxIndustryRatio: real,
    perTradeRiskRatio: real,
    lotSize: int
  )

  /** Limits as the rule configuration sets them; the lot size is a positive number of shares. */
  type LotLimits = l: AllocationLimits | l.lotSize > 0
    witness AllocationLimits(0.70, 4, 3500.0, 0.20, 0.35, 0.01, 100)

  /** What one sizing call is given. */
  datatype Request = Request(
    price: real,
    cash: real,
    equity: real,
    positions: seq<Position>,
    industry: Option<Industry>,
    limits: AllocationLimits,
    stopDistance: Option<real>,
    symbol: Symbol,
    costs: CostModel,
    state: DrawdownState
  )

  function Invested(ps: seq<Position>): real {
    if ps == [] then 0.0 else ps[0].marketValue + Invested(ps[1..])
  }

  function IndustryValue(ps: seq<Position>, industry: Option<Industry>): real {
    if ps == [] then 0.0
    else (if ps[0].industry == industry then ps[0].marketValue else 0.0) + IndustryValue(ps[1..], industry)
  }

  /** The value of the first position in the symbol. */
  function CurrentValue(ps: seq<Position>, s: Symbol): real {
    if ps == [] then 0.0 else if ps[0].symbol == s then ps[0].marketValue else CurrentValue(ps[1..], s)
  }

  predicate Holds(ps: seq<Position>, s: Symbol) {
    exists p | p in ps :: p.symbol == s
  }

  function OtherPositions(ps: seq<Position>, s: Symbol): nat {
    if ps == [] then 0 else (if ps[0].quantity > 0 && ps[0].symbol != s then 1 else 0) + OtherPositions(ps[1..], s)
  }

  /** Rounding towards zero, of a real and of a quotient. */
  function Truncate(x: real): int {
    if x >= 0.0 then x.Floor else -((-x).Floor)
  }

  function LotFloor(q: int, lot: int): int
    requires lot > 0
  {
    if q >= 0 then q / lot * lot else -((-q) / lot * lot)
  }

  /** The part of the equity a ratio allows. */
  function ShareOf(equity: real, ratio: real): real {
    equity * ratio
  }

  /** The gates that return zero before any arithmetic. */
  predicate Blocked(r: Request) {
    || r.state != Normal
    || r.price <= 0.0 || r.cash <= 0.0 || r.equity <= 0.0
    || OtherPositions(r.positions, r.symbol) + (if Holds(r.positions, r.symbol) then 0 else 1) > r.limits.maxPositions
    || (r.stopDistance.Some? && r.stopDistance.value <= 0.0)
  }

  /** What a limit leaves beside the value already in use. */
  function Room(limit: real, used: real): real {
    Max(0.0, limit - used)
  }

  /** The notional of a stop-loss distance at which the per-trade risk budget is used up. */
  function RiskNotional(r: Request): real
    requires r.stopDistance.Some? && r.stopDistance.value > 0.0
  {
    r.equity * r.limits.perTradeRiskRatio / r.stopDistance.value * r.price
  }

  function NotionalCap(r: Request): real
    requires !Blocked(r)
  {
    var investment := Room(ShareOf(r.equity, r.limits.maxInvestmentRatio), Invested(r.positions));
    var position := Room(ShareOf(r.equity, r.limits.maxPositionRatio), CurrentValue(r.positions, r.symbol));
    var industry := Room(ShareOf(r.equity, r.limits.maxIndustryRatio), IndustryValue(r.positions, r.industry));
    var notional := Min(Min(Min(Min(r.limits.targetPositionValue, position), industry), investment), r.cash);
    if r.stopDistance.Some?
    then Min(notional, RiskNotional(r))
    else notional
  }

  function MaxShares(r: Request): int
    requires !Blocked(r)
  {
    Truncate(NotionalCap(r) / r.price)
  }

  function BuyTotal(costs: CostModel, price: real, quantity: int): real
    requires price >= 0.0 && quantity >= 0
  {
    Notional(price, quantity) + Calculate(costs, Buy, quantity, price).Total()
  }

  /** Lot after lot is given up until the purchase is affordable. */
  function FitCash(r: Request, quantity: int): int
    requires r.price >= 0.0 && r.limits.lotSize > 0
    decreases quantity
  {
    if quantity <= 0 || BuyTotal(r.costs, r.price, quantity) <= r.cash then quantity
    else FitCash(r, quantity - r.limits.lotSize)
  }

  function Quantity(r: Request): int
    requires r.limits.lotSize > 0
  {
    if Blocked(r) then 0
    else FitCash(r, LotFloor(MaxShares(r), r.limits.lotSize))
  }

  /** The sizing procedure with its affordability loop. */
  method AllocateQuantity(r: Request) returns (quantity: int)
    requires r.limits.lotSize > 0
    ensures quantity == Quantity(r)
  {
    if Blocked(r) {
      return 0;
    }
    quantity := LotFloor(MaxShares(r), r.limits.lotSize);
    while quantity > 0
      invariant FitCash(r, quantity) == Quantity(r)
      decreases quantity
    {
      var total := BuyTotal(r.costs, r.price, quantity);
      if total <= r.cash {
        break;
      }
      quantity := quantity - r.limits.lotSize;
    }
  }

  /** Every cap, the risk budget and the cash leave room for `notional`, each in its own terms. */
  ghost predicate WithinCaps(r: Request, notional: real) {
    && notional <= r.limits.targetPositionValue
    && CurrentValue(r.positions, r.symbol) + notional <= ShareOf(r.equity, r.limits.maxPositionRatio)
    && IndustryValue(r.positions, r.industry) + notional <= ShareOf(r.equity, r.limits.maxIndustryRatio)
    && Invested(r.positions) + notional <= ShareOf(r.equity, r.limits.maxInvestmentRatio)
    && notional <= r.cash
    && (r.stopDistance.Some? && r.stopDistance.value > 0.0 ==> notional <= RiskNotional(r))
  }

  /** `q` shares fit every cap, and with their fees the cash. */
  ghost predicate Permitted(r: Request, q: int)
    requires r.price > 0.0 && q > 0
  {
    WithinCaps(r, Notional(r.price, q)) && BuyTotal(r.costs, r.price, q) <= r.cash
  }

  lemma RoomMeansLimit(limit: real, used: real, notional: real)
    requires notional > 0.0
    ensures notional <= Room(limit, used) <==> used + notional <= limit
  {
  }

  lemma CapMeansCaps(r: Request, notional: real)
    requires !Blocked(r) && notional > 0.0
    ensures WithinCaps(r, notional) <==> notional <= NotionalCap(r)
  {
    RoomMeansLimit(ShareOf(r.equity, r.limits.maxInvestmentRatio), Invested(r.positions), notional);
    RoomMeansLimit(ShareOf(r.equity, r.limits.maxPositionRatio), CurrentValue(r.positions, r.symbol), notional);
    RoomMeansLimit(ShareOf(r.equity, r.limits.maxIndustryRatio), IndustryValue(r.positions, r.industry), notional);
  }

  lemma RatioNonNegative(a: real, b: real)
    requires a >= 0.0 && b > 0.0
    ensures a / b >= 0.0
  {
    assert a / b * b == a;
  }

  lemma NotionalWithin(price: real, q: int, cap: real)
    requires price > 0.0 && q > 0
    ensures Notional(price, q) > 0.0
    ensures Notional(price, q) <= cap <==> q as real <= cap / price
  {
    var x := q as real;
    assert price * x > 0.0;
    assert cap / price * price == cap;
    assert (x - cap / price) * price == x * price - cap;
  }

  /** A positive number of shares is within every cap exactly when the rounded quotient allows it. */
  lemma SharesWithinCaps(r: Request, q: int)
    requires !Blocked(r) && q > 0
    ensures WithinCaps(r, Notional(r.price, q)) <==> q <= MaxShares(r)
  {
    hide WithinCaps, NotionalCap, Notional;
    NotionalWithin(r.price, q, NotionalCap(r));
    CapMeansCaps(r, Notional(r.price, q));
  }

  lemma IntMulMonotone(a: int, b: int, c: int)
    requires a <= b && c >= 0
    ensures a * c <= b * c
  {
    assert b * c - a * c == (b - a) * c;
  }

  lemma LotFloorIsGreatest(q: int, lot: int, j: int)
    requires lot > 0 && q >= 0
    ensures LotFloor(q, lot) == q / lot * lot && q / lot >= 0
    ensures j * lot <= q <==> j <= q / lot
  {
    var k := q / lot;
    assert k * lot <= q < k * lot + lot;
    if j <= k {
      IntMulMonotone(j, k, lot);
    } else {
      IntMulMonotone(k + 1, j, lot);
      assert (k + 1) * lot == k * lot + lot;
    }
  }

  lemma LotFloorSign(q: int, lot: int)
    requires lot > 0 && q <= 0
    ensures LotFloor(q, lot) <= 0
  {
    if q < 0 { LotFloorIsGreatest(-q, lot, 0); }
  }

  /** From `start` lots the loop stops at `lots`, the greatest affordable number at or below it. */
  lemma {:induction false} FitCashIsGreatest(r: Request, start: nat, j: int) returns (lots: nat)
    requires r.price >= 0.0 && r.limits.lotSize > 0
    ensures FitCash(r, start * r.limits.lotSize) == lots * r.limits.lotSize
    ensures lots <= start
    ensures lots > 0 ==> BuyTotal(r.costs, r.price, lots * r.limits.lotSize) <= r.cash
    ensures lots < j <= start ==> BuyTotal(r.costs, r.price, j * r.limits.lotSize) > r.cash
    decreases start
  {
    var lot := r.limits.lotSize;
    lots := start;
    IntMulMonotone(0, start, lot);
    if start > 0 && BuyTotal(r.costs, r.price, start * lot) > r.cash {
      IntMulMonotone(1, start, lot);
      assert start * lot - lot == (start - 1) * lot;
      lots := FitCashIsGreatest(r, start - 1, j);
    }
  }

  /** A positive number of lots is within every cap exactly when the start of the loop covers it. */
  lemma LotsWithinCaps(r: Request, j: int)
    requires r.limits.lotSize > 0 && !Blocked(r) && MaxShares(r) >= 0 && j > 0
    ensures j * r.limits.lotSize > 0
    ensures WithinCaps(r, Notional(r.price, j * r.limits.lotSize)) <==> j <= MaxShares(r) / r.limits.lotSize
  {
    hide WithinCaps, MaxShares;
    IntMulMonotone(1, j, r.limits.lotSize);
    LotFloorIsGreatest(MaxShares(r), r.limits.lotSize, j);
    var q := j * r.limits.lotSize;
    SharesWithinCaps(r, q);
    assert q <= MaxShares(r) <==> j <= MaxShares(r) / r.limits.lotSize;
    assert WithinCaps(r, Notional(r.price, q)) <==> q <= MaxShares(r);
  }

  ghost predicate AffordableLots(r: Request, j: int)
    requires r.price >= 0.0 && j * r.limits.lotSize >= 0
  {
    BuyTotal(r.costs, r.price, j * r.limits.lotSize) <= r.cash
  }

  lemma QuantityInLots(r: Request, j: int) returns (lots: nat)
    requires r.limits.lotSize > 0 && !Blocked(r) && MaxShares(r) >= 0
    ensures Quantity(r) == lots * r.limits.lotSize
    ensures lots <= MaxShares(r) / r.limits.lotSize
    ensures lots > 0 ==> lots * r.limits.lotSize > 0 && AffordableLots(r, lots)
    ensures lots < j <= MaxShares(r) / r.limits.lotSize ==> j * r.limits.lotSize > 0 && !AffordableLots(r, j)
  {
    hide BuyTotal;
    LotFloorIsGreatest(MaxShares(r), r.limits.lotSize, 0);
    lots := FitCashIsGreatest(r, MaxShares(r) / r.limits.lotSize, j);
    if lots > 0 { IntMulMonotone(1, lots, r.limits.lotSize); }
    if j > 0 { IntMulMonotone(1, j, r.limits.lotSize); }
  }

  lemma PermittedLots(r: Request, j: int)
    requires r.limits.lotSize > 0 && !Blocked(r) && MaxShares(r) >= 0 && j > 0
    ensures j * r.limits.lotSize > 0
    ensures Permitted(r, j * r.limits.lotSize) <==> j <= MaxShares(r) / r.limits.lotSize && AffordableLots(r, j)
  {
    hide WithinCaps, MaxShares, BuyTotal;
    LotsWithinCaps(r, j);
  }

  /** Sizing is exact. Outside the gates, and with limits that leave a non-negative cap, the result is
      the greatest number of whole lots that every cap, the risk budget and the cash permit: it is
      `lots` lots, and any larger number `j` of lots is not permitted. */
  lemma LotsAreGreatest(r: Request, j: int) returns (lots: nat)
    requires r.limits.lotSize > 0 && !Blocked(r)
    requires r.limits.targetPositionValue >= 0.0
    requires r.stopDistance.Some? ==> r.limits.perTradeRiskRatio >= 0.0
    ensures Quantity(r) == lots * r.limits.lotSize
    ensures lots > 0 ==> lots * r.limits.lotSize > 0 && Permitted(r, lots * r.limits.lotSize)
    ensures j > lots ==> j * r.limits.lotSize > 0 && !Permitted(r, j * r.limits.lotSize)
  {
    hide Permitted, MaxShares, AffordableLots, Quantity;
    SharesNonNegative(r);
    lots := QuantityInLots(r, j);
    if lots > 0 { PermittedLots(r, lots); }
    if j > lots { PermittedLots(r, j); }
  }

  lemma SharesNonNegative(r: Request)
    requires !Blocked(r) && r.limits.targetPositionValue >= 0.0
    requires r.stopDistance.Some? ==> r.limits.perTradeRiskRatio >= 0.0
    ensures MaxShares(r) >= 0
  {
    if r.stopDistance.Some? {
      var budget := r.equity * r.limits.perTradeRiskRatio;
      assert budget >= 0.0;
      RatioNonNegative(budget, r.stopDistance.value);
      MulMonotone(0.0, budget / r.stopDistance.value, r.price);
    }
    RatioNonNegative(NotionalCap(r), r.price);
  }

  /** A positive result passed the gates and is one lot or more. */
  lemma PositiveQuantityLots(r: Request) returns (lots: nat)
    requires r.limits.lotSize > 0 && Quantity(r) > 0
    ensures !Blocked(r) && MaxShares(r) >= 0
    ensures lots > 0 && Quantity(r) == lots * r.limits.lotSize
    ensures lots <= MaxShares(r) / r.limits.lotSize && AffordableLots(r, lots)
  {
    if MaxShares(r) < 0 {
      LotFloorSign(MaxShares(r), r.limits.lotSize);
      assert false;
    }
    hide MaxShares, AffordableLots, Quantity;
    lots := QuantityInLots(r, 0);
    if lots == 0 { assert false; }
  }

  /** Whatever the limits, a positive result passed the gates and is a permitted purchase. */
  lemma PositiveQuantityIsPermitted(r: Request)
    requires r.limits.lotSize > 0 && Quantity(r) > 0
    ensures !Blocked(r) && Permitted(r, Quantity(r))
  {
    hide Permitted, MaxShares, AffordableLots, Quantity;
    var lots := PositiveQuantityLots(r);
    PermittedLots(r, lots);
  }
}
