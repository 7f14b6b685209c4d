/** The engine-v2 backtest as a fold over trading days: what each day does to the state of a run. */
module EventLoop {
  import opened Common
  import opened Sorting
  import opened Costs
  import opened Simulator
  import opened Ledger
  import opened Drawdown
  import opened Allocation
  import opened Selection
  import opened Strategy

  datatype Inputs = Inputs(
    start: Date,
    end: Date,
    initialEquity: real,
    benchmark: Symbol,
    secondaryBenchmark: Option<Symbol>,
    bars: seq<MarketBar>,
    tradingDates: seq<Date>,
    cutoff: Cutoff,
    strategy: StrategyConfig,
    limits: LotLimits,
    costs: CostModel,
    thresholds: Thresholds,
    universeBenchmark: bool,
    suspended: map<Date, set<Symbol>>
  )

  datatype RunError =
    | EmptyCalendar
    | PrimaryBenchmarkMissing
    | EligibilityUnknown
    | NoEquity
    | UnorderedThresholds
    | OrderRejected(simulator: SimulatorError)
    | FillRefused(ledger: LedgerError)
    | Arithmetic(strategy: StrategyError)

  // ----- preparation

  predicate BarOrder(a: MarketBar, b: MarketBar) {
    a.date < b.date || (a.date == b.date && a.symbol <= b.symbol)
  }

  /** The bars of the run: not after its end, and visible at the cutoff. */
  function Admitted(bars: seq<MarketBar>, end: Date, cutoff: Cutoff): seq<MarketBar> {
    if bars == [] then []
    else if bars[0].date <= end && Visible(bars[0].availableAt, cutoff) then
      [bars[0]] + Admitted(bars[1..], end, cutoff)
    else Admitted(bars[1..], end, cutoff)
  }

  function Within(dates: seq<Date>, start: Date, end: Date): seq<Date> {
    if dates == [] then []
    else if start <= dates[0] <= end then [dates[0]] + Within(dates[1..], start, end)
    else Within(dates[1..], start, end)
  }

  /** One day's bars by symbol; of two bars for a symbol the later one stands. */
  function BarsOn(bars: seq<MarketBar>, date: Date): map<Symbol, MarketBar> {
    if bars == [] then map[]
    else if bars[0].date == date then map[bars[0].symbol := bars[0]] + BarsOn(bars[1..], date)
    else BarsOn(bars[1..], date)
  }

  predicate IsBenchmark(x: Inputs, s: Symbol) {
    s == x.benchmark || x.secondaryBenchmark == Some(s)
  }

  /** The stock pool of one day. */
  function EligibleOn(x: Inputs, day: map<Symbol, MarketBar>): set<Symbol> {
    set s | s in day && !IsBenchmark(x, s) && day[s].universeEligible == Some(true)
  }

  /** Every symbol that is in the pool on some day. */
  function EverEligible(x: Inputs, bars: seq<MarketBar>): seq<Symbol> {
    if bars == [] then []
    else if !IsBenchmark(x, bars[0].symbol) && bars[0].universeEligible == Some(true) then
      [bars[0].symbol] + EverEligible(x, bars[1..])
    else EverEligible(x, bars[1..])
  }

  predicate PrimaryComplete(x: Inputs, bars: seq<MarketBar>, dates: seq<Date>) {
    forall d | d in dates :: x.benchmark in BarsOn(bars, d) && BarsOn(bars, d)[x.benchmark].close.Some?
  }

  predicate EligibilityKnown(x: Inputs, bars: seq<MarketBar>) {
    forall b | b in bars :: !IsBenchmark(x, b.symbol) ==> b.universeEligible.Some?
  }

  /** A run ready for its day loop. */
  datatype Market = Market(x: Inputs, bars: seq<MarketBar>, dates: seq<Date>, symbols: seq<Symbol>)

  function MarketOf(x: Inputs): (m: Market)
    ensures m.x == x
  {
    var bars := Sort(BarOrder, Admitted(x.bars, x.end, x.cutoff));
    Market(x, bars, SortedUnique(Within(x.tradingDates, x.start, x.end)), SortedUnique(EverEligible(x, bars)))
  }

  function Prepare(x: Inputs): Result<Market, RunError> {
    var m := MarketOf(x);
    if m.dates == [] then Err(EmptyCalendar)
    else if !PrimaryComplete(x, m.bars, m.dates) then Err(PrimaryBenchmarkMissing)
    else if !EligibilityKnown(x, m.bars) then Err(EligibilityUnknown)
    else if x.initialEquity <= 0.0 then Err(NoEquity)
    else if !x.thresholds.Ordered() then Err(UnorderedThresholds)
    else Ok(m)
  }

  // ----- executing the pending orders

  datatype EntryState = EntryState(price: real, date: Date, index: int, industry: Option<Industry>)

  datatype SkippedOrder = SkippedOrder(date: Date, symbol: Symbol)

  /** What the execution of orders changes. */
  datatype Book = Book(
    ledger: LedgerState,
    entries: map<Symbol, EntryState>,
    fills: seq<Fill>,
    skipped: seq<SkippedOrder>
  )

  predicate OrderOrder(a: Order, b: Order) {
    (a.side == Sell && b.side == Buy) || (a.side == b.side && a.symbol <= b.symbol)
  }

  /** Entries after an applied fill: bought at this price today, or closed. */
  function EntriesAfter(entries: map<Symbol, EntryState>, fill: Fill, index: int,
                        ledger: LedgerState): map<Symbol, EntryState>
    requires fill.execution.Some?
  {
    if fill.side == Buy then
      entries[fill.symbol := EntryState(fill.execution.value.price, fill.executionDate, index, fill.industry)]
    else if PositionIn(ledger, fill.symbol).quantity == 0 then entries - {fill.symbol}
    else entries
  }

  function ExecuteOrder(costs: CostModel, date: Date, index: int, day: map<Symbol, MarketBar>, o: Order, b: Book)
    : (r: Result<Book, RunError>)
    requires Valid(b.ledger)
    ensures r.Ok? ==> Valid(r.value.ledger)
  {
    if o.symbol !in day then
      Ok(b.(skipped := b.skipped + [SkippedOrder(date, o.symbol)]))
    else
      match Execute(costs, o, FullOrNone, day[o.symbol], date)
      case Err(e) => Err(OrderRejected(e))
      case Ok(fill) =>
        if fill.status == Unfilled then Ok(b.(fills := b.fills + [fill]))
        else
          var price, fees := fill.execution.value.price, fill.execution.value.costs.Total();
          if fill.side == Buy && Notional(price, fill.quantity) + fees > b.ledger.cash then
            Ok(b.(fills := b.fills + [NoFill(o, date, CashShortfall)]))
          else
            match AfterFill(b.ledger, fill.side, fill.symbol, fill.quantity, price, fees)
            case Err(e) => Err(FillRefused(e))
            case Ok(ledger) =>
              Ok(Book(ledger, EntriesAfter(b.entries, fill, index, ledger), b.fills + [fill], b.skipped))
  }

  function ExecuteAll(costs: CostModel, date: Date, index: int, day: map<Symbol, MarketBar>, os: seq<Order>, b: Book)
    : (r: Result<Book, RunError>)
    requires Valid(b.ledger)
    ensures r.Ok? ==> Valid(r.value.ledger)
  {
    if os == [] then Ok(b)
    else
      match ExecuteOrder(costs, date, index, day, os[0], b)
      case Err(e) => Err(e)
      case Ok(next) => ExecuteAll(costs, date, index, day, os[1..], next)
  }

  // ----- the state of a run

  datatype RunState = RunState(
    ledger: LedgerState,
    monitor: Monitor,
    pending: seq<Order>,
    entries: map<Symbol, EntryState>,
    lastCloses: map<Symbol, real>,
    streak: nat,
    snapshots: seq<LedgerSnapshot>,
    fills: seq<Fill>,
    skipped: seq<SkippedOrder>
  )

  ghost predicate Healthy(st: RunState) {
    Valid(st.ledger) && st.monitor.highWaterMark > 0.0
  }

  function Opening(x: Inputs): RunState {
    RunState(LedgerState(x.initialEquity, [], [], x.initialEquity), Fresh(x.initialEquity, x.thresholds),
             [], map[], map[], 0, [], [], [])
  }

  function ClosesOf(day: map<Symbol, MarketBar>): map<Symbol, real> {
    map s | s in day && day[s].close.Some? :: day[s].close.value
  }

  /** Settlement and execution at the open of day `index`. */
  function Trade(m: Market, index: nat, st: RunState): (r: Result<Book, RunError>)
    requires index < |m.dates| && Healthy(st)
    ensures r.Ok? ==> Valid(r.value.ledger)
  {
    SettledShape(st.ledger.positions);
    var date := m.dates[index];
    ExecuteAll(m.x.costs, date, index, BarsOn(m.bars, date), Sort(OrderOrder, st.pending),
               Book(AfterSettle(st.ledger), st.entries, st.fills, st.skipped))
  }

  /** Marking to market and the drawdown monitor at the close of day `index`. */
  function Mark(m: Market, index: nat, st: RunState, b: Book): (r: RunState)
    requires index < |m.dates| && Healthy(st) && Valid(b.ledger)
    ensures Healthy(r)
  {
    var closes := st.lastCloses + ClosesOf(BarsOn(m.bars, m.dates[index]));
    var snapshot := SnapshotOf(b.ledger, closes);
    RunState(AfterSnapshot(b.ledger, closes), Observed(st.monitor, snapshot.equity), [], b.entries, closes,
             st.streak, st.snapshots + [snapshot], b.fills, b.skipped)
  }

  // ----- planning the next day

  function Features(m: Market, symbols: seq<Symbol>, date: Date): (r: Result<seq<Feature>, StrategyError>)
    ensures r.Ok? ==> |r.value| == |symbols|
  {
    if symbols == [] then Ok([])
    else
      match (FeatureOf(m.x.strategy, m.bars, m.x.benchmark, symbols[0], date, m.x.cutoff),
             Features(m, symbols[1..], date))
      case (Ok(f), Ok(rest)) => Ok([f] + rest)
      case _ => Err(DivisionByZero)
  }

  function Lookup(fs: seq<Feature>, s: Symbol): Option<Feature> {
    if fs == [] then None else if fs[0].symbol == s then Some(fs[0]) else Lookup(fs[1..], s)
  }

  function Restrict(fs: seq<Feature>, pool: set<Symbol>): seq<Feature> {
    if fs == [] then []
    else if fs[0].symbol in pool then [fs[0]] + Restrict(fs[1..], pool)
    else Restrict(fs[1..], pool)
  }

  /** The symbols of a list that are in the pool, in the list's order. */
  function Keep(symbols: seq<Symbol>, pool: set<Symbol>): seq<Symbol> {
    if symbols == [] then []
    else if symbols[0] in pool then [symbols[0]] + Keep(symbols[1..], pool)
    else Keep(symbols[1..], pool)
  }

  /** What a day's close tells the strategy. */
  datatype Signals = Signals(date: Date, pool: set<Symbol>, features: seq<Feature>, ranked: seq<EntrySignal>)

  function SignalsOn(m: Market, date: Date): Result<Signals, RunError> {
    match Features(m, m.symbols, date)
    case Err(e) => Err(Arithmetic(e))
    case Ok(features) =>
      var pool := EligibleOn(m.x, BarsOn(m.bars, date));
      match RankCandidates(m.x.strategy, Restrict(features, pool), m.x.cutoff)
      case Err(e) => Err(Arithmetic(e))
      case Ok(ranked) => Ok(Signals(date, pool, features, ranked))
  }

  /** Whether the market filter is seen open, read from the first feature; unseen without its bar. */
  function MarketSeen(features: seq<Feature>): Option<bool> {
    if features == [] || features[0].marketClose.None? then None
    else Some(features[0].marketMean.Some? && features[0].marketClose.value > features[0].marketMean.value)
  }

  function NextStreak(strategy: StrategyConfig, seen: Option<bool>, streak: nat): nat {
    if !strategy.StrongTrend? || seen.None? then streak
    else if seen.value then 0 else streak + 1
  }

  /** The rank of a symbol in the ranked list. */
  function RankOf(ranked: seq<EntrySignal>, s: Symbol): Option<nat> {
    if ranked == [] then None
    else if ranked[|ranked| - 1].symbol == s then Some(ranked[|ranked| - 1].rank)
    else RankOf(ranked[..|ranked| - 1], s)
  }

  function ExitReasons(strategy: StrategyConfig, signals: Signals, f: Feature, entry: EntryState, index: int,
                       streak: nat): seq<Reason> {
    var held := index - entry.index + 1;
    match strategy
    case StrongTrend(_, _, maxHoldingDays, _, _, _, _, drawdownExit) =>
      var rank := RankOf(signals.ranked, f.symbol);
      StrongExit(drawdownExit, maxHoldingDays, f.close, entry.price, held,
                 if rank.Some? then rank.value else |signals.ranked| + 1, |signals.ranked|, streak,
                 f.symbol in signals.pool && rank.Some?)
    case MovingAverageTrend(_, _, maxHoldingDays, _, _, _) =>
      TrendExit(maxHoldingDays, f.close, if f.TrendFeature? then f.shortMean else None, held)
  }

  /** The SELL of one position, if it has a reason to go. */
  function ExitOrder(strategy: StrategyConfig, signals: Signals, entries: map<Symbol, EntryState>, index: int,
                     streak: nat, p: LedgerPosition)
    : seq<Order>
  {
    var f := Lookup(signals.features, p.symbol);
    if f.None? || p.symbol !in entries then []
    else
      var reasons := ExitReasons(strategy, signals, f.value, entries[p.symbol], index, streak);
      if reasons == [] then []
      else [Order(Sell, p.symbol, p.quantity, signals.date, entries[p.symbol].industry, reasons)]
  }

  function Exits(strategy: StrategyConfig, signals: Signals, entries: map<Symbol, EntryState>, index: int, streak: nat,
                 ps: seq<LedgerPosition>)
    : seq<Order>
  {
    if ps == [] then []
    else
      ExitOrder(strategy, signals, entries, index, streak, ps[0])
      + Exits(strategy, signals, entries, index, streak, ps[1..])
  }

  function SymbolsOf(os: seq<Order>): set<Symbol> {
    set o | o in os :: o.symbol
  }

  /** The held positions as sizing sees them, at last prices or average cost. */
  function Projected(ps: seq<LedgerPosition>, prices: map<Symbol, real>,
                     entries: map<Symbol, EntryState>): seq<Position>
    requires AllOpen(ps)
  {
    if ps == [] then []
    else
      assert OpenPosition(ps[0]);
      [Position(ps[0].symbol, ps[0].quantity, MarketValue(ps[0], prices),
                           if ps[0].symbol in entries then entries[ps[0].symbol].industry else None)]
      + Projected(ps[1..], prices, entries)
  }

  function Increment(counts: map<Industry, int>, industry: Option<Industry>): map<Industry, int> {
    match industry
    case None => counts
    case Some(i) => counts[i := (if i in counts then counts[i] else 0) + 1]
  }

  /** Positions per industry, of those that are staying. */
  function IndustryCounts(ps: seq<Position>, exiting: set<Symbol>): map<Industry, int> {
    if ps == [] then map[]
    else
      var last := ps[|ps| - 1];
      var counts := IndustryCounts(ps[..|ps| - 1], exiting);
      if last.quantity > 0 && last.symbol !in exiting then Increment(counts, last.industry) else counts
  }

  /** What is planned so far: the cash left, the positions held and planned, and the BUY orders. */
  datatype Plan = Plan(cash: real, projected: seq<Position>, counts: map<Industry, int>, orders: seq<Order>)

  /** Everything about the day that sizing needs. */
  datatype Desk = Desk(x: Inputs, signals: Signals, equity: real, state: DrawdownState, exiting: set<Symbol>)

  function RequestFor(d: Desk, plan: Plan, signal: EntrySignal, price: real): Request {
    Request(price, plan.cash, d.equity, plan.projected, signal.industry, d.x.limits, None, signal.symbol, d.x.costs,
            d.state)
  }

  /** Symbols already held or planned, symbols leaving, and full industries are passed over. */
  predicate PassedOver(d: Desk, plan: Plan, signal: EntrySignal) {
    || Holds(plan.projected, signal.symbol)
    || signal.symbol in d.exiting
    || (signal.industry.Some? && signal.industry.value in plan.counts
        && plan.counts[signal.industry.value] >= d.x.strategy.maxPerIndustry)
  }

  /** The reference price of a signal: today's close, when there is a positive one. */
  function Reference(d: Desk, signal: EntrySignal): Option<real> {
    var f := Lookup(d.signals.features, signal.symbol);
    if f.Some? && f.value.close.Some? && f.value.close.value > 0.0 then f.value.close else None
  }

  function PlanEntry(d: Desk, plan: Plan, signal: EntrySignal): Plan {
    var price := Reference(d, signal);
    if PassedOver(d, plan, signal) || price.None? then plan
    else
      var quantity := Quantity(RequestFor(d, plan, signal, price.value));
      if quantity <= 0 then plan
      else
        Plan(plan.cash - BuyTotal(d.x.costs, price.value, quantity),
             plan.projected + [Position(signal.symbol, quantity, Notional(price.value, quantity), signal.industry)],
             Increment(plan.counts, signal.industry),
             plan.orders + [Order(Buy, signal.symbol, quantity, d.signals.date, signal.industry, [EntrySignalled])])
  }

  function PlanAll(d: Desk, plan: Plan, signals: seq<EntrySignal>): Plan
    decreases signals
  {
    if signals == [] then plan else PlanAll(d, PlanEntry(d, plan, signals[0]), signals[1..])
  }

  function DeskOf(m: Market, signals: Signals, exits: seq<Order>, st: RunState): Desk
    requires st.snapshots != []
  {
    Desk(m.x, signals, st.snapshots[|st.snapshots| - 1].equity, st.monitor.state, SymbolsOf(exits))
  }

  function FirstPlan(d: Desk, st: RunState): Plan
    requires AllOpen(st.ledger.positions)
  {
    var projected := Projected(st.ledger.positions, st.lastCloses, st.entries);
    Plan(st.ledger.cash, projected, IndustryCounts(projected, d.exiting), [])
  }

  /** Orders for the next trading day, queued at the close of day `index`. */
  function Queue(m: Market, index: int, st: RunState, signals: Signals): RunState
    requires AllOpen(st.ledger.positions) && st.snapshots != []
  {
    var streak := NextStreak(m.x.strategy, MarketSeen(signals.features), st.streak);
    var exits := Exits(m.x.strategy, signals, st.entries, index, streak, st.ledger.positions);
    var d := DeskOf(m, signals, exits, st);
    var selected := Select(signals.ranked, m.x.strategy.maxPositions, m.x.strategy.maxPerIndustry);
    st.(streak := streak, pending := exits + PlanAll(d, FirstPlan(d, st), selected).orders)
  }

  // ----- days and runs

  function NextDay(m: Market, index: nat, st: RunState): (r: Result<RunState, RunError>)
    requires index < |m.dates| && Healthy(st)
    ensures r.Ok? ==> Healthy(r.value)
  {
    match Trade(m, index, st)
    case Err(e) => Err(e)
    case Ok(b) =>
      var closed := Mark(m, index, st, b);
      if index == |m.dates| - 1 then Ok(closed)
      else
        match SignalsOn(m, m.dates[index])
        case Err(e) => Err(e)
        case Ok(signals) => Ok(Queue(m, index, closed, signals))
  }

  /** The state after the first `k` trading days. */
  function RunTo(m: Market, k: nat): (r: Result<RunState, RunError>)
    requires k <= |m.dates| && m.x.initialEquity > 0.0
    ensures r.Ok? ==> Healthy(r.value)
  {
    if k == 0 then Ok(Opening(m.x))
    else
      match RunTo(m, k - 1)
      case Err(e) => Err(e)
      case Ok(st) => NextDay(m, k - 1, st)
  }

  /** Preparation and the whole day loop. */
  function Run(x: Inputs): Result<RunState, RunError> {
    match Prepare(x)
    case Err(e) => Err(e)
    case Ok(m) => RunTo(m, |m.dates|)
  }
}
