/** T+1 settlement: what a ledger may have sold after any run of settlements and fills. */
module Settlement {
  import opened Common
  import opened Ledger

  /** Each `Settle` opens a new trading date. */
  datatype Step =
    | Settle
    | Trade(side: Side, symbol: Symbol, quantity: int, price: real, costs: real)

  /** A refused fill raises and leaves the ledger as it was. */
  function Next(l: LedgerState, step: Step): (r: LedgerState)
    requires Valid(l)
    ensures Valid(r)
  {
    match step
    case Settle => SettledShape(l.positions); AfterSettle(l)
    case Trade(side, s, quantity, price, costs) =>
      match AfterFill(l, side, s, quantity, price, costs)
      case Ok(next) => next
      case Err(_) => l
  }

  function After(initialCash: real, steps: seq<Step>): (r: LedgerState)
    requires initialCash >= 0.0
    ensures Valid(r)
  {
    if steps == [] then LedgerState(initialCash, [], [], initialCash)
    else Next(After(initialCash, steps[..|steps| - 1]), steps[|steps| - 1])
  }

  /** Shares of `s` moved by one step of the given side, none when the fill is refused. */
  function Moved(l: LedgerState, step: Step, side: Side, s: Symbol): int
    requires Valid(l)
  {
    if step.Trade? && step.side == side && step.symbol == s
       && AfterFill(l, side, s, step.quantity, step.price, step.costs).Ok?
    then step.quantity else 0
  }

  /** Shares of `s` bought (or sold) by a whole run. */
  function Total(initialCash: real, steps: seq<Step>, side: Side, s: Symbol): int
    requires initialCash >= 0.0
  {
    if steps == [] then 0
    else
      var before := steps[..|steps| - 1];
      Total(initialCash, before, side, s) + Moved(After(initialCash, before), steps[|steps| - 1], side, s)
  }

  /** Shares of `s` bought strictly before the current trading date. */
  function BoughtBeforeToday(initialCash: real, steps: seq<Step>, s: Symbol): int
    requires initialCash >= 0.0
  {
    if steps == [] then 0
    else if steps[|steps| - 1].Settle? then Total(initialCash, steps[..|steps| - 1], Buy, s)
    else BoughtBeforeToday(initialCash, steps[..|steps| - 1], s)
  }

  /** One accepted fill moves its own position by the traded shares and no other position. */
  lemma FillMovesShares(l: LedgerState, side: Side, x: Symbol, quantity: int, price: real, costs: real, s: Symbol)
    requires Valid(l)
    requires AfterFill(l, side, x, quantity, price, costs).Ok?
    ensures var p := PositionIn(l, s);
            var r := PositionIn(AfterFill(l, side, x, quantity, price, costs).value, s);
            && quantity > 0
            && (s != x ==> r == p)
            && (s == x && side == Buy ==> r.quantity == p.quantity + quantity && r.available == p.available)
            && (s == x && side == Sell ==>
                  r.quantity == p.quantity - quantity && r.available == p.available - quantity >= 0)
  {
    var p := FillEffect(l, side, x, quantity, price, costs).value.1;
    FindPut(l.positions, p, s);
    FindRemove(l.positions, x, s);
  }

  /** After any run, what is held and what is sellable are exactly the share counts; so what has been
      sold through today never exceeds what was bought before today. */
  lemma {:induction false} SalesNeverExceedEarlierPurchases(initialCash: real, steps: seq<Step>, s: Symbol)
    requires initialCash >= 0.0
    ensures var p := PositionIn(After(initialCash, steps), s);
            && p.quantity == Total(initialCash, steps, Buy, s) - Total(initialCash, steps, Sell, s)
            && p.available == BoughtBeforeToday(initialCash, steps, s) - Total(initialCash, steps, Sell, s)
            && 0 <= p.available <= p.quantity
    ensures Total(initialCash, steps, Sell, s) <= BoughtBeforeToday(initialCash, steps, s)
  {
    if steps == [] {
    } else {
      var before := steps[..|steps| - 1];
      var l := After(initialCash, before);
      var step := steps[|steps| - 1];
      SalesNeverExceedEarlierPurchases(initialCash, before, s);
      match step {
        case Settle => FindSettled(l.positions, s);
        case Trade(side, x, quantity, price, costs) =>
          if AfterFill(l, side, x, quantity, price, costs).Ok? {
            FillMovesShares(l, side, x, quantity, price, costs, s);
          }
      }
    }
  }

  /** A sale is refused for want of shares exactly when it exceeds what was bought before today and is
      still unsold. */
  lemma SaleRefusedIff(initialCash: real, steps: seq<Step>, s: Symbol, quantity: int, price: real, costs: real)
    requires initialCash >= 0.0
    requires quantity > 0 && price > 0.0 && costs >= 0.0
    ensures AfterFill(After(initialCash, steps), Sell, s, quantity, price, costs) == Err(InsufficientShares)
       <==> quantity > BoughtBeforeToday(initialCash, steps, s) - Total(initialCash, steps, Sell, s)
  {
    SalesNeverExceedEarlierPurchases(initialCash, steps, s);
  }
}
