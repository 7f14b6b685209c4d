/** A whole backtest: preparation, the day loop, and the comparison series that are drawn up after it. */
module Backtest {
  import opened Common
  import opened Costs
  import opened EventLoop
  import opened RunSafety
  import opened Progress
  import opened Series
  import opened CompletedRuns
  import Runner

  datatype BacktestError = DayLoop(loop: RunError) | Comparison(series: SeriesError)

  datatype BacktestResult = BacktestResult(
    state: RunState,
    primary: seq<real>,
    secondary: Option<seq<real>>,
    universe: Option<seq<real>>
  )

  /** The secondary benchmark's series, if there is one with a close on every date. */
  ghost function SecondaryValues(m: Market): Result<Option<seq<real>>, SeriesError>
    requires m.dates != []
  {
    if m.x.secondaryBenchmark.None? || !Quoted(m, m.x.secondaryBenchmark.value) then Ok(None)
    else
      match MarketValues(m, m.x.secondaryBenchmark.value)
      case Ok(values) => Ok(Some(values))
      case Err(e) => Err(e)
  }

  /** The equal-weight series, if it is wanted. */
  function UniverseValues(m: Market): Result<Option<seq<real>>, SeriesError>
    requires m.dates != []
  {
    if !m.x.universeBenchmark then Ok(None)
    else
      match PoolValues(m, m.x.suspended, |m.dates| - 1)
      case Ok(values) => Ok(Some(values))
      case Err(e) => Err(e)
  }

  /** What a backtest returns or raises. */
  ghost function Outcome(x: Inputs): Result<BacktestResult, BacktestError> {
    match EventLoop.Run(x)
    case Err(e) => Err(DayLoop(e))
    case Ok(st) =>
      var m := MarketOf(x);
      match (MarketValues(m, x.benchmark), SecondaryValues(m), UniverseValues(m))
      case (Err(e), _, _) => Err(Comparison(e))
      case (_, Err(e), _) => Err(Comparison(e))
      case (_, _, Err(e)) => Err(Comparison(e))
      case (Ok(primary), Ok(secondary), Ok(universe)) => Ok(BacktestResult(st, primary, secondary, universe))
  }

  method RunBacktest(x: Inputs) returns (r: Result<BacktestResult, BacktestError>)
    ensures r == Outcome(x)
  {
    hide RunTo, MarketOf;
    var looped := Runner.Run(x);
    if looped.Err? { return Err(DayLoop(looped.error)); }
    var m := MarketOf(x);
    var primary := MarketSeries(m, x.benchmark);
    if primary.Err? { return Err(Comparison(primary.error)); }
    var secondary: Option<seq<real>> := None;
    if x.secondaryBenchmark.Some? {
      var drawn := MarketSeries(m, x.secondaryBenchmark.value);
      if drawn.Ok? {
        secondary := Some(drawn.value);
      } else if drawn.error != MissingPrice {
        return Err(Comparison(drawn.error));
      }
    }
    var universe: Option<seq<real>> := None;
    if x.universeBenchmark {
      var drawn := UniverseSeries(m, x.suspended);
      if drawn.Err? { return Err(Comparison(drawn.error)); }
      universe := Some(drawn.value);
    }
    r := Ok(BacktestResult(looped.value, primary.value, secondary, universe));
  }

  // ----- when a backtest returns a result

  /** A member of the pool closed on one day, and on the next it trades, or is suspended. */
  predicate PricedAcross(m: Market, s: Symbol, from: Date, to: Date, suspended: map<Date, set<Symbol>>) {
    var day := BarsOn(m.bars, to);
    && CloseOn(m, s, from).Some?
    && if s in day then day[s].suspended || day[s].close.Some? else to in suspended && s in suspended[to]
  }

  ghost predicate MembersPriced(m: Market, ss: seq<Symbol>, from: Date, to: Date, suspended: map<Date, set<Symbol>>) {
    forall s | s in ss :: PricedAcross(m, s, from, to, suspended)
  }

  ghost predicate PoolPricedOn(m: Market, suspended: map<Date, set<Symbol>>, j: nat)
    requires 0 < j < |m.dates|
  {
    && Members(m, m.dates[j - 1]) != []
    && MembersPriced(m, Members(m, m.dates[j - 1]), m.dates[j - 1], m.dates[j], suspended)
  }

  /** Every day but the last has a pool, and every member of it is priced across to the next day. */
  ghost predicate PoolPriced(m: Market, suspended: map<Date, set<Symbol>>, k: nat)
    requires k < |m.dates|
  {
    forall j | 0 < j <= k :: PoolPricedOn(m, suspended, j)
  }

  lemma MemberReturnIff(m: Market, s: Symbol, from: Date, to: Date, suspended: map<Date, set<Symbol>>)
    requires AllPriced(m.bars)
    ensures MemberReturn(m, s, from, to, suspended).Ok? <==> PricedAcross(m, s, from, to, suspended)
  {
    BarsOnAreBars(m.bars, from);
    var day := BarsOn(m.bars, from);
    if s in day { assert Priced(day[s]); }
  }

  lemma {:induction false} ReturnsIff(m: Market, ss: seq<Symbol>, from: Date, to: Date,
                                      suspended: map<Date, set<Symbol>>)
    requires AllPriced(m.bars)
    ensures Returns(m, ss, from, to, suspended).Ok? <==> MembersPriced(m, ss, from, to, suspended)
  {
    hide MemberReturn, PricedAcross, AllPriced;
    if ss == [] {
    } else {
      var last := ss[|ss| - 1];
      ReturnsIff(m, ss[..|ss| - 1], from, to, suspended);
      MemberReturnIff(m, last, from, to, suspended);
      assert forall s :: s in ss <==> s == last || s in ss[..|ss| - 1];
    }
  }

  lemma {:induction false} PoolValuesIff(m: Market, suspended: map<Date, set<Symbol>>, k: nat)
    requires AllPriced(m.bars) && k < |m.dates|
    ensures PoolValues(m, suspended, k).Ok? <==> PoolPriced(m, suspended, k)
  {
    hide Members, Returns, MembersPriced, AllPriced, Advanced;
    if k == 0 {
    } else {
      PoolValuesIff(m, suspended, k - 1);
      ReturnsIff(m, Members(m, m.dates[k - 1]), m.dates[k - 1], m.dates[k], suspended);
      assert PoolPriced(m, suspended, k) <==> PoolPriced(m, suspended, k - 1) && PoolPricedOn(m, suspended, k);
    }
  }

  /** Over positive closes a benchmark is scaled unless a close is missing. */
  lemma MarketValuesIff(m: Market, s: Symbol)
    requires AllPriced(m.bars) && m.dates != []
    ensures MarketValues(m, s).Ok? <==> Quoted(m, s)
  {
    BarsOnAreBars(m.bars, m.dates[0]);
    var day := BarsOn(m.bars, m.dates[0]);
    if s in day { assert Priced(day[s]); }
  }

  /** With a sane cost model and positive prices, a backtest returns a result exactly when its preparation accepts
      the inputs, no sale is unpayable and, if the equal-weight benchmark is wanted, every day but the last has a
      pool whose members are priced across to the next day. */
  lemma {:induction false} ReturnsResultIff(x: Inputs)
    requires Sane(x.costs) && AllPriced(x.bars)
    ensures Outcome(x).Ok? <==>
              && Prepare(x).Ok? && SalesPayable(x)
              && (x.universeBenchmark ==> PoolPriced(MarketOf(x), x.suspended, |MarketOf(x).dates| - 1))
  {
    hide SalesPayable;
    DayLoopCompletesIff(x);
    if Prepare(x).Ok? {
      var m := MarketOf(x);
      PrimaryIsQuoted(x);
      MarketBarsAreBars(x);
      assert AllPriced(m.bars);
      hide MarketOf, RunTo, AllPriced, PoolPriced, MarketValues, Quoted;
      MarketValuesIff(m, x.benchmark);
      if x.secondaryBenchmark.Some? { MarketValuesIff(m, x.secondaryBenchmark.value); }
      PoolValuesIff(m, x.suspended, |m.dates| - 1);
    }
  }

  /** The values start at the initial equity and follow the symbol's closes, one on every trading date. */
  ghost predicate Follows(m: Market, s: Symbol, values: seq<real>) {
    Quoted(m, s) && |values| == |m.dates| > 0 && values[0] == m.x.initialEquity && FollowsCloses(m, s, values)
  }

  /** What is returned: the completed run, the benchmark's series, that of the secondary benchmark exactly if there is
      one and it closed on every trading date, and the equal-weight one exactly if it is wanted. */
  lemma {:induction false} ResultHas(x: Inputs)
    requires Outcome(x).Ok?
    ensures var m, r := MarketOf(x), Outcome(x).value;
            && EventLoop.Run(x) == Ok(r.state)
            && Follows(m, x.benchmark, r.primary)
            && (r.secondary.Some? <==> x.secondaryBenchmark.Some? && Quoted(m, x.secondaryBenchmark.value))
            && (r.secondary.Some? ==> Follows(m, x.secondaryBenchmark.value, r.secondary.value))
            && (r.universe.Some? <==> x.universeBenchmark)
            && (r.universe.Some? ==> PoolValues(m, x.suspended, |m.dates| - 1) == Ok(r.universe.value))
  {
    hide MarketOf, RunTo, MarketValues, FollowsCloses, Quoted, PoolValues;
    var m := MarketOf(x);
    ScalingFollowsCloses(m, x.benchmark, Outcome(x).value.primary);
    if Outcome(x).value.secondary.Some? {
      ScalingFollowsCloses(m, x.secondaryBenchmark.value, Outcome(x).value.secondary.value);
    }
  }
}
