/** The transaction cost model: slippage-adjusted prices and itemised fees. */
module Costs {
  import opened Common

  datatype CostBreakdown = CostBreakdown(
    commission: real,
    stampDuty: real,
    transferFee: real,
    regulatoryFee: real,
    handlingFee: real
  ) {
    function Total(): real {
      commission + stampDuty + transferFee + regulatoryFee + handlingFee
    }
  }

  datatype CostModel = CostModel(
    commissionRate: real,
    minimumCommission: real,
    sellStampDutyRate: real,
    transferFeeRate: real,
    regulatoryFeeRate: real,
    handlingFeeRate: real,
    commissionIncludesRegulatory: bool,
    commissionIncludesHandling: bool,
    slippageBuy: real,
    slippageSell: real
  )

  /** The value of a number of shares at a price. */
  function Notional(price: real, quantity: int): real {
    price * quantity as real
  }

  function ExecutionPrice(model: CostModel, side: Side, open: real): real {
    match side
    case Buy => open * (1.0 + model.slippageBuy)
    case Sell => open * (1.0 + -1.0 * model.slippageSell)
  }

  /** A proportional fee. */
  function Fee(notional: real, rate: real): real {
    notional * rate
  }

  function Calculate(model: CostModel, side: Side, quantity: int, price: real): CostBreakdown
    requires quantity >= 0 && price >= 0.0
  {
    var notional := Notional(price, quantity);
    CostBreakdown(
      Max(Fee(notional, model.commissionRate), model.minimumCommission),
      if side == Sell then Fee(notional, model.sellStampDutyRate) else 0.0,
      Fee(notional, model.transferFeeRate),
      if model.commissionIncludesRegulatory then 0.0 else Fee(notional, model.regulatoryFeeRate),
      if model.commissionIncludesHandling then 0.0 else Fee(notional, model.handlingFeeRate)
    )
  }

  /** No negative rate, and slippage that leaves a positive open price positive. */
  predicate Sane(model: CostModel) {
    && model.commissionRate >= 0.0
    && model.minimumCommission >= 0.0
    && model.sellStampDutyRate >= 0.0
    && model.transferFeeRate >= 0.0
    && model.regulatoryFeeRate >= 0.0
    && model.handlingFeeRate >= 0.0
    && -1.0 < model.slippageBuy
    && model.slippageSell < 1.0
  }

  lemma FeesAreNonNegative(model: CostModel, side: Side, quantity: int, price: real)
    requires Sane(model) && quantity >= 0 && price >= 0.0
    ensures Calculate(model, side, quantity, price).Total() >= 0.0
  {
    var notional := Notional(price, quantity);
    assert notional >= 0.0;
    FeeNonNegative(notional, model.sellStampDutyRate);
    FeeNonNegative(notional, model.transferFeeRate);
    FeeNonNegative(notional, model.regulatoryFeeRate);
    FeeNonNegative(notional, model.handlingFeeRate);
    hide Notional, Fee;
  }

  lemma FeeNonNegative(notional: real, rate: real)
    requires notional >= 0.0 && rate >= 0.0
    ensures Fee(notional, rate) >= 0.0
  {
    MulMonotone(0.0, notional, rate);
  }

  lemma PricesStayPositive(model: CostModel, side: Side, open: real)
    requires Sane(model) && open > 0.0
    ensures ExecutionPrice(model, side, open) > 0.0
  {
    var factor := match side case Buy => 1.0 + model.slippageBuy case Sell => 1.0 + -1.0 * model.slippageSell;
    assert factor > 0.0;
    assert open * factor > 0.0;
  }
}
