/** Next-open execution of one order against one daily bar. */
module Simulator {
  import opened Common
  import opened Costs

  datatype MarketBar = MarketBar(
    symbol: Symbol,
    date: Date,
    open: Option<real>,
    low: Option<real>,
    high: Option<real>,
    close: Option<real>,
    suspended: bool,
    limitUp: bool,
    limitDown: bool,
    limitStatusKnown: bool,
    closeLimitUp: Option<bool>,
    availableQuantity: Option<int>,
    amount: Option<real>,
    availableAt: Option<Timestamp>,
    st: bool,
    delisted: bool,
    industry: Option<Industry>,
    universeEligible: Option<bool>
  )

  datatype FillMode = FullOrNone | Partial

  datatype Reason =
    | EntrySignalled
    | MaxHoldingDays
    | NotEligible
    | RankOutOfPool
    | EntryDrawdown
    | MarketSwitchOff
    | CloseBelowShortMean

  datatype Order = Order(
    side: Side,
    symbol: Symbol,
    quantity: int,
    signalDate: Date,
    industry: Option<Industry>,
    reasons: seq<Reason>
  )

  datatype FillStatus = Filled | PartiallyFilled | Unfilled

  datatype UnfilledReason =
    | MissingOpenOrSuspended
    | LimitStatusUnknown
    | PriceLimit
    | OutOfRange
    | NotFullyAvailable
    | CashShortfall

  /** `execution` holds the price and the costs of whatever was filled. */
  datatype Fill = Fill(
    status: FillStatus,
    side: Side,
    symbol: Symbol,
    quantity: int,
    execution: Option<Execution>,
    reason: Option<UnfilledReason>,
    unfilledQuantity: int,
    executionDate: Date,
    signalDate: Date,
    industry: Option<Industry>,
    reasons: seq<Reason>
  )

  datatype Execution = Execution(price: real, costs: CostBreakdown)

  datatype SimulatorError = NonPositiveOrder | NegativeAvailability | NegativePrice

  function NoFill(order: Order, date: Date, reason: UnfilledReason): Fill {
    Fill(Unfilled, order.side, order.symbol, 0, None, Some(reason), order.quantity,
         date, order.signalDate, order.industry, order.reasons)
  }

  /** The simulator's branches in their order; `date` is the execution date the caller stamps. */
  function Execute(model: CostModel, order: Order, mode: FillMode, bar: MarketBar, date: Date)
    : (r: Result<Fill, SimulatorError>)
    ensures r.Ok? ==> r.value.side == order.side && r.value.symbol == order.symbol && r.value.executionDate == date
    ensures r.Ok? && r.value.status.Unfilled? ==> r.value.execution.None? && r.value.quantity == 0
    ensures r.Ok? && !r.value.status.Unfilled? ==>
              && r.value.execution.Some?
              && bar.open.Some?
              && r.value.execution.value.price == ExecutionPrice(model, order.side, bar.open.value) >= 0.0
              && 0 <= r.value.quantity <= order.quantity
              && r.value.execution.value.costs == Calculate(model, order.side, r.value.quantity,
                                                            r.value.execution.value.price)
    ensures r.Ok? && !r.value.status.Unfilled? && mode == FullOrNone ==> r.value.quantity == order.quantity
  {
    if order.quantity <= 0 then
      Err(NonPositiveOrder)
    else if bar.symbol != order.symbol || bar.open.None? || bar.low.None? || bar.high.None? || bar.suspended then
      Ok(NoFill(order, date, MissingOpenOrSuspended))
    else if !bar.limitStatusKnown then
      Ok(NoFill(order, date, LimitStatusUnknown))
    else if (order.side == Buy && bar.limitUp) || (order.side == Sell && bar.limitDown) then
      Ok(NoFill(order, date, PriceLimit))
    else if bar.availableQuantity.Some? && bar.availableQuantity.value < 0 then
      Err(NegativeAvailability)
    else
      var price := ExecutionPrice(model, order.side, bar.open.value);
      if price < bar.low.value || price > bar.high.value then
        Ok(NoFill(order, date, OutOfRange))
      else
        var available :=
          if bar.availableQuantity.Some? && bar.availableQuantity.value < order.quantity
          then bar.availableQuantity.value else order.quantity;
        if available < order.quantity && mode == FullOrNone then
          Ok(NoFill(order, date, NotFullyAvailable))
        else if price < 0.0 then
          Err(NegativePrice)
        else
          Ok(Fill(if available == order.quantity then Filled else PartiallyFilled,
                  order.side, order.symbol, available,
                  Some(Execution(price, Calculate(model, order.side, available, price))), None,
                  order.quantity - available, date, order.signalDate, order.industry, order.reasons))
  }

  /** The bar lets an order of this side trade at `price` at all. */
  predicate Tradeable(order: Order, bar: MarketBar, price: real) {
    && bar.symbol == order.symbol && !bar.suspended
    && bar.open.Some? && bar.low.Some? && bar.high.Some?
    && bar.limitStatusKnown
    && (order.side == Buy ==> !bar.limitUp) && (order.side == Sell ==> !bar.limitDown)
    && bar.low.value <= price <= bar.high.value
  }

  /** In full-or-none mode, over non-negative prices and quantities, an order is filled, completely, exactly
      when the bar lets it trade and has all its shares; nothing is ever filled in part. */
  lemma FilledIff(model: CostModel, order: Order, bar: MarketBar, date: Date)
    requires order.quantity > 0
    requires bar.availableQuantity.Some? ==> bar.availableQuantity.value >= 0
    requires bar.open.Some? ==> ExecutionPrice(model, order.side, bar.open.value) >= 0.0
    ensures var r := Execute(model, order, FullOrNone, bar, date);
            && r.Ok? && r.value.status != PartiallyFilled
            && (r.value.status == Filled <==>
                  && bar.open.Some? && Tradeable(order, bar, ExecutionPrice(model, order.side, bar.open.value))
                  && (bar.availableQuantity.Some? ==> bar.availableQuantity.value >= order.quantity))
            && r.value.quantity + r.value.unfilledQuantity == order.quantity
  {
    hide ExecutionPrice, Calculate;
  }
}
