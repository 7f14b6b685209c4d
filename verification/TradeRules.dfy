/** What becomes of an order at its bar: the first thing that hinders it, or a trade at the slipped open with itemised
    fees. */
module TradeRules {
  import opened Common
  import opened Costs
  import opened Simulator

  // ----- prices and fees

  function Times(a: real, b: real): real {
    a * b
  }

  /** The open, slipped against the trader. */
  function SlippedOpen(costs: CostModel, side: Side, open: real): real {
    if side == Buy then open + Times(open, costs.slippageBuy) else open - Times(open, costs.slippageSell)
  }

  /** Commission, at least the minimum; stamp duty on sales alone; the other fees unless the commission includes
      them. */
  ghost predicate Itemised(costs: CostModel, side: Side, worth: real, fees: CostBreakdown) {
    && fees.commission >= costs.minimumCommission && fees.commission >= Times(worth, costs.commissionRate)
    && (fees.commission == costs.minimumCommission || fees.commission == Times(worth, costs.commissionRate))
    && fees.stampDuty == (if side == Sell then Times(worth, costs.sellStampDutyRate) else 0.0)
    && fees.transferFee == Times(worth, costs.transferFeeRate)
    && fees.regulatoryFee == (if costs.commissionIncludesRegulatory then 0.0 else Times(worth, costs.regulatoryFeeRate))
    && fees.handlingFee == (if costs.commissionIncludesHandling then 0.0 else Times(worth, costs.handlingFeeRate))
  }

  function AllFees(fees: CostBreakdown): real {
    fees.stampDuty + fees.handlingFee + fees.regulatoryFee + fees.transferFee + fees.commission
  }

  lemma PriceIsSlipped(costs: CostModel, side: Side, open: real)
    ensures ExecutionPrice(costs, side, open) == SlippedOpen(costs, side, open)
  {
  }

  lemma FeesAreItemised(costs: CostModel, side: Side, quantity: int, price: real)
    requires quantity >= 0 && price >= 0.0
    ensures Itemised(costs, side, Times(price, quantity as real), Calculate(costs, side, quantity, price))
    ensures Calculate(costs, side, quantity, price).Total() == AllFees(Calculate(costs, side, quantity, price))
    ensures Notional(price, quantity) == Times(price, quantity as real)
  {
  }

  // ----- hindrances

  /** What keeps a whole order from trading at a bar. */
  predicate Hinders(reason: UnfilledReason, costs: CostModel, o: Order, bar: MarketBar) {
    match reason
    case MissingOpenOrSuspended =>
      bar.symbol != o.symbol || bar.suspended || bar.open == None || bar.high == None || bar.low == None
    case LimitStatusUnknown => !bar.limitStatusKnown
    case PriceLimit => if o.side == Buy then bar.limitUp else bar.limitDown
    case OutOfRange =>
      bar.open.Some? && bar.low.Some? && bar.high.Some?
      && !(bar.low.value <= SlippedOpen(costs, o.side, bar.open.value) <= bar.high.value)
    case NotFullyAvailable => bar.availableQuantity.Some? && bar.availableQuantity.value < o.quantity
    case CashShortfall => false
  }

  function Turn(reason: UnfilledReason): nat {
    match reason
    case MissingOpenOrSuspended => 0
    case LimitStatusUnknown => 1
    case PriceLimit => 2
    case OutOfRange => 3
    case NotFullyAvailable => 4
    case CashShortfall => 5
  }

  /** The fill is the order's, of the day. */
  predicate Carries(f: Fill, o: Order, date: Date) {
    && f.side == o.side && f.symbol == o.symbol && f.executionDate == date
    && f.signalDate == o.signalDate && f.industry == o.industry && f.reasons == o.reasons
  }

  predicate Untraded(f: Fill, o: Order, reason: UnfilledReason) {
    f.status == Unfilled && f.quantity == 0 && f.execution.None? && f.reason == Some(reason)
        && f.unfilledQuantity == o.quantity
  }

  /** The whole order at the slipped open, with its fees. */
  ghost predicate TradedAtOpen(f: Fill, o: Order, costs: CostModel, bar: MarketBar) {
    && f.status == Filled && f.quantity == o.quantity && f.unfilledQuantity == 0 && f.reason.None?
    && f.execution.Some? && bar.open.Some?
    && f.execution.value.price == SlippedOpen(costs, o.side, bar.open.value)
    && Itemised(costs, o.side, Times(f.execution.value.price, o.quantity as real), f.execution.value.costs)
  }

  /** A whole order at a bar: it is hindered by the first of the things that hinder it, or it trades. */
  lemma {:induction false} ExecuteIs(costs: CostModel, o: Order, bar: MarketBar, date: Date)
    requires Execute(costs, o, FullOrNone, bar, date).Ok?
    ensures var r := Execute(costs, o, FullOrNone, bar, date);
            && Carries(r.value, o, date)
            && (if forall reason: UnfilledReason :: !Hinders(reason, costs, o, bar)
                then TradedAtOpen(r.value, o, costs, bar)
                else exists reason: UnfilledReason ::
                       && Hinders(reason, costs, o, bar) && Untraded(r.value, o, reason)
                       && forall q: UnfilledReason | Turn(q) < Turn(reason) :: !Hinders(q, costs, o, bar))
  {
    var r := Execute(costs, o, FullOrNone, bar, date);
    if bar.open.Some? {
      PriceIsSlipped(costs, o.side, bar.open.value);
      var price := SlippedOpen(costs, o.side, bar.open.value);
      if price >= 0.0 { FeesAreItemised(costs, o.side, o.quantity, price); }
    }
    hide ExecutionPrice, Calculate, SlippedOpen, Itemised, Times;
    if r.value.reason.Some? {
      var reason := r.value.reason.value;
      assert Hinders(reason, costs, o, bar) && Untraded(r.value, o, reason);
      assert forall q: UnfilledReason | Turn(q) < Turn(reason) :: !Hinders(q, costs, o, bar);
    } else {
      forall reason: UnfilledReason ensures !Hinders(reason, costs, o, bar) {
      }
    }
  }

  /** An order that is split may trade the part that is available, at the same price and with the fees of that part. */
  lemma {:induction false} PartialExecuteIs(costs: CostModel, o: Order, bar: MarketBar, date: Date)
    requires o.quantity > 0 && bar.availableQuantity.Some? && 0 <= bar.availableQuantity.value < o.quantity
    requires bar.open.Some? ==> SlippedOpen(costs, o.side, bar.open.value) >= 0.0
    requires forall reason: UnfilledReason | Turn(reason) < 4 :: !Hinders(reason, costs, o, bar)
    ensures var r := Execute(costs, o, Partial, bar, date);
            && r.Ok? && Carries(r.value, o, date) && r.value.status == PartiallyFilled
            && r.value.quantity == bar.availableQuantity.value
            && r.value.unfilledQuantity == o.quantity - bar.availableQuantity.value && r.value.reason.None?
            && r.value.execution.Some? && r.value.execution.value.price == SlippedOpen(costs, o.side, bar.open.value)
            && Itemised(costs, o.side, Times(r.value.execution.value.price, r.value.quantity as real),
                        r.value.execution.value.costs)
  {
    assert !Hinders(MissingOpenOrSuspended, costs, o, bar) && !Hinders(LimitStatusUnknown, costs, o, bar);
    assert !Hinders(PriceLimit, costs, o, bar) && !Hinders(OutOfRange, costs, o, bar);
    PriceIsSlipped(costs, o.side, bar.open.value);
    FeesAreItemised(costs, o.side, bar.availableQuantity.value, SlippedOpen(costs, o.side, bar.open.value));
    hide ExecutionPrice, Calculate, SlippedOpen, Itemised, Times;
  }

  /** When an order cannot even be tried: it asks for no shares; or, nothing before that hindering it, the bar's
      availability is negative; or, nothing hindering it at all, the slipped open is. */
  lemma {:induction false} ExecuteErrsIff(costs: CostModel, o: Order, bar: MarketBar, date: Date)
    ensures var r := Execute(costs, o, FullOrNone, bar, date);
            && (r == Err(NonPositiveOrder) <==> o.quantity <= 0)
            && (r == Err(NegativeAvailability) <==>
                  && o.quantity > 0 && bar.availableQuantity.Some? && bar.availableQuantity.value < 0
                  && forall reason: UnfilledReason | Turn(reason) < 3 :: !Hinders(reason, costs, o, bar))
            && (r == Err(NegativePrice) <==>
                  && o.quantity > 0 && (forall reason: UnfilledReason :: !Hinders(reason, costs, o, bar))
                  && bar.open.Some? && SlippedOpen(costs, o.side, bar.open.value) < 0.0)
  {
    if bar.open.Some? { PriceIsSlipped(costs, o.side, bar.open.value); }
    hide ExecutionPrice, Calculate, SlippedOpen;
    var m, l, p, a, q := Hinders(MissingOpenOrSuspended, costs, o, bar), Hinders(LimitStatusUnknown, costs, o, bar),
      Hinders(PriceLimit, costs, o, bar), Hinders(OutOfRange, costs, o, bar), Hinders(NotFullyAvailable, costs, o, bar);
    assert (forall reason: UnfilledReason :: !Hinders(reason, costs, o, bar)) <==> !m && !l && !p && !a && !q by {
      if !m && !l && !p && !a && !q {
        forall reason: UnfilledReason ensures !Hinders(reason, costs, o, bar) {
        }
      }
    }
    assert (forall reason: UnfilledReason | Turn(reason) < 3 :: !Hinders(reason, costs, o, bar))
      <==> !m && !l && !p
    by {
      if !m && !l && !p {
        forall reason: UnfilledReason | Turn(reason) < 3 ensures !Hinders(reason, costs, o, bar) {
        }
      }
    }
  }
}
