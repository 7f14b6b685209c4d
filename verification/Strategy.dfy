/** The two registered strategies: rolling features, candidates, ranking and exits. */
module Strategy {
  import opened Common
  import opened Sorting
  import opened Ranking
  import opened Selection
  import opened Simulator

  /** The information cutoff of a run and the calendar day it falls on. */
  datatype Cutoff = Cutoff(at: Timestamp, day: Date)

  datatype StrategyParameters =
    | StrongTrend(maxPositions: int, maxPerIndustry: int, maxHoldingDays: int,
                  minReturn5: real, maxReturn5: real, minAmountRatio: real, maxAmountRatio: real, drawdownExit: real)
    | MovingAverageTrend(maxPositions: int, maxPerIndustry: int, maxHoldingDays: int,
                         shortWindow: int, longWindow: int, requireMarketAboveLongMean: bool)

  /** What the registry's parameter contracts let through. */
  predicate Registered(p: StrategyParameters) {
    && 1 <= p.maxPositions <= 20 && 1 <= p.maxPerIndustry <= 20 && 1 <= p.maxHoldingDays <= 252
    && match p
       case StrongTrend(_, _, _, low, high, least, most, exit) =>
         -1.0 <= low <= high <= 5.0 && 0.0 <= least <= most <= 100.0 && 0.0 < exit < 1.0
       case MovingAverageTrend(_, _, _, short, long, _) => 2 <= short < long <= 500
  }

  type StrategyConfig = p: StrategyParameters | Registered(p)
    witness MovingAverageTrend(4, 2, 20, 20, 60, true)

  /** Arithmetic the original cannot complete. */
  datatype StrategyError = DivisionByZero

  // ----- features

  datatype DailyBar = DailyBar(
    symbol: Symbol,
    date: Date,
    close: real,
    amount: real,
    availableAt: Option<Timestamp>,
    suspended: bool,
    st: bool,
    delisted: bool,
    limitUp: bool,
    industry: Option<Industry>
  )

  datatype Feature =
    | StrongFeature(symbol: Symbol, date: Date, close: Option<real>, marketClose: Option<real>,
                    marketMean: Option<real>,
                    availableAt: Option<Timestamp>, industry: Option<Industry>,
                    st: bool, suspended: bool, delisted: bool, limitUp: bool,
                    mean10: Option<real>, return5: Option<real>, return20: Option<real>, amountRatio: Option<real>,
                    buyable: bool)
    | TrendFeature(symbol: Symbol, date: Date, close: Option<real>, marketClose: Option<real>, marketMean: Option<real>,
                   availableAt: Option<Timestamp>, industry: Option<Industry>,
                   st: bool, suspended: bool, delisted: bool, limitUp: bool,
                   shortMean: Option<real>, longMean: Option<real>)

  predicate Visible(availableAt: Option<Timestamp>, cutoff: Cutoff) {
    availableAt.Some? && availableAt.value <= cutoff.at
  }

  /** A market bar with a close as the strategies see it; an unknown close limit counts as limit-up. */
  function ToDaily(b: MarketBar): DailyBar
    requires b.close.Some?
  {
    DailyBar(b.symbol, b.date, b.close.value, if b.amount.Some? then b.amount.value else 0.0, b.availableAt,
             b.suspended, b.st, b.delisted, b.closeLimitUp != Some(false), b.industry)
  }

  /** The visible bars of one symbol through `date`, in the order of `bars`. */
  function History(bars: seq<MarketBar>, s: Symbol, date: Date, cutoff: Cutoff): seq<DailyBar> {
    if bars == [] then []
    else
      var b := bars[0];
      if b.close.Some? && b.symbol == s && b.date <= date && Visible(b.availableAt, cutoff)
      then [ToDaily(b)] + History(bars[1..], s, date, cutoff)
      else History(bars[1..], s, date, cutoff)
  }

  /** The last bar dated `date`. */
  function BarOn(history: seq<DailyBar>, date: Date): Option<DailyBar> {
    if history == [] then None
    else
      var last := history[|history| - 1];
      if last.date == date then Some(last) else BarOn(history[..|history| - 1], date)
  }

  function Closes(history: seq<DailyBar>): (r: seq<real>)
    ensures |r| == |history|
  {
    if history == [] then [] else [history[0].close] + Closes(history[1..])
  }

  function Amounts(history: seq<DailyBar>): (r: seq<real>)
    ensures |r| == |history|
  {
    if history == [] then [] else [history[0].amount] + Amounts(history[1..])
  }

  /** The mean of the last `n` values, if there are so many. */
  function TailMean(xs: seq<real>, n: int): Option<real>
    requires n > 0
  {
    if |xs| < n then None else Some(Sum(xs[|xs| - n..]) / n as real)
  }

  function MarketCloseOn(market: seq<DailyBar>, date: Date): Option<real> {
    match BarOn(market, date) case Some(b) => Some(b.close) case None => None
  }

  /** The return over the last `n` bars, if there are so many. */
  function TailReturn(closes: seq<real>, n: int): Result<Option<real>, StrategyError>
    requires n > 0
  {
    if |closes| <= n then Ok(None)
    else if closes[|closes| - n - 1] == 0.0 then Err(DivisionByZero)
    else Ok(Some(closes[|closes| - 1] / closes[|closes| - n - 1] - 1.0))
  }

  function AmountRatio(amounts: seq<real>): Option<real> {
    match (TailMean(amounts, 5), TailMean(amounts, 20))
    case (Some(short), Some(long)) => if long != 0.0 then Some(short / long) else None
    case _ => None
  }

  function BuildStrong(stock: seq<DailyBar>, market: seq<DailyBar>, s: Symbol,
                       date: Date): Result<Feature, StrategyError> {
    match BarOn(stock, date)
    case None =>
      Ok(StrongFeature(s, date, None, None, None, None, None, false, false, false, false, None, None, None, None,
                       false))
    case Some(today) =>
      match (TailReturn(Closes(stock), 5), TailReturn(Closes(stock), 20))
      case (Ok(return5), Ok(return20)) =>
        Ok(StrongFeature(s, date, Some(today.close), MarketCloseOn(market, date), TailMean(Closes(market), 20),
                         today.availableAt, today.industry, today.st, today.suspended, today.delisted, today.limitUp,
                         TailMean(Closes(stock), 10), return5, return20, AmountRatio(Amounts(stock)),
                         !today.suspended && !today.limitUp))
      case _ => Err(DivisionByZero)
  }

  function BuildTrend(stock: seq<DailyBar>, market: seq<DailyBar>, s: Symbol, date: Date, short: int,
                      long: int): Feature
    requires short > 0 && long > 0
  {
    match BarOn(stock, date)
    case None =>
      TrendFeature(s, date, None, None, None, None, None, false, false, false, false, None, None)
    case Some(today) =>
      TrendFeature(s, date, Some(today.close), MarketCloseOn(market, date), TailMean(Closes(market), long),
                   today.availableAt, today.industry, today.st, today.suspended, today.delisted, today.limitUp,
                   TailMean(Closes(stock), short), TailMean(Closes(stock), long))
  }

  function FeatureOf(p: StrategyConfig, bars: seq<MarketBar>, benchmark: Symbol, s: Symbol, date: Date, cutoff: Cutoff)
    : (r: Result<Feature, StrategyError>)
    ensures r.Ok? ==> r.value.symbol == s && (r.value.StrongFeature? <==> p.StrongTrend?)
  {
    var stock, market := History(bars, s, date, cutoff), History(bars, benchmark, date, cutoff);
    match p
    case StrongTrend(_, _, _, _, _, _, _, _) => BuildStrong(stock, market, s, date)
    case MovingAverageTrend(_, _, _, short, long, _) => Ok(BuildTrend(stock, market, s, date, short, long))
  }

  // ----- candidates

  predicate Tradable(f: Feature) {
    !f.st && !f.suspended && !f.delisted && !f.limitUp
  }

  predicate IsCandidate(p: StrategyConfig, f: Feature, cutoff: Cutoff): (r: bool)
    ensures r ==> if p.StrongTrend? then Measured(f) else Averaged(f)
  {
    && Visible(f.availableAt, cutoff)
    && match (p, f)
       case (StrongTrend(_, _, _, low, high, least, most, _),
             StrongFeature(_, date, Some(close), Some(market), Some(marketMean), _, _, _, _, _, _,
                           Some(mean10), Some(return5), Some(return20), Some(ratio), buyable)) =>
         && date <= cutoff.day
         && market > marketMean && close > mean10
         && low <= return5 <= high && least <= ratio <= most
         && buyable && Tradable(f)
       case (MovingAverageTrend(_, _, _, _, _, marketFilter),
             TrendFeature(_, _, Some(close), Some(market), Some(marketMean), _, _, _, _, _, _, Some(short),
                          Some(long))) =>
         && (!marketFilter || market > marketMean)
         && close > short > long && Tradable(f)
       case _ => false
  }

  function Candidates(p: StrategyConfig, fs: seq<Feature>, cutoff: Cutoff): (r: seq<Feature>)
    ensures forall f | f in r :: f in fs && IsCandidate(p, f, cutoff)
  {
    if fs == [] then []
    else if IsCandidate(p, fs[0], cutoff) then [fs[0]] + Candidates(p, fs[1..], cutoff)
    else Candidates(p, fs[1..], cutoff)
  }

  // ----- scores

  datatype Measure = Return5 | Return20 | Ratio

  predicate Measured(f: Feature) {
    f.StrongFeature? && f.return5.Some? && f.return20.Some? && f.amountRatio.Some?
  }

  function ValueOf(f: Feature, m: Measure): real
    requires Measured(f)
  {
    match m
    case Return5 => f.return5.value
    case Return20 => f.return20.value
    case Ratio => f.amountRatio.value
  }

  function Column(fs: seq<Feature>, m: Measure): (r: seq<real>)
    requires forall f | f in fs :: Measured(f)
    ensures |r| == |fs|
    ensures forall f | f in fs :: ValueOf(f, m) in r
  {
    if fs == [] then [] else [ValueOf(fs[0], m)] + Column(fs[1..], m)
  }

  function StrongScore(all: seq<Feature>, f: Feature): real
    requires f in all && forall g | g in all :: Measured(g)
  {
    0.50 * Rank(Column(all, Return5), ValueOf(f, Return5))
    + 0.25 * Rank(Column(all, Return20), ValueOf(f, Return20))
    + 0.25 * Rank(Column(all, Ratio), ValueOf(f, Ratio))
  }

  function StrongSignals(all: seq<Feature>, fs: seq<Feature>): (r: seq<EntrySignal>)
    requires forall g | g in all :: Measured(g)
    requires forall f | f in fs :: f in all
    ensures |r| == |fs|
    ensures forall i | 0 <= i < |fs| :: r[i] == EntrySignal(fs[i].symbol, fs[i].date, StrongScore(all, fs[i]), 0,
                                                            fs[i].industry)
  {
    if fs == [] then []
    else
      [EntrySignal(fs[0].symbol, fs[0].date, StrongScore(all, fs[0]), 0, fs[0].industry)] + StrongSignals(all, fs[1..])
  }

  predicate Averaged(f: Feature) {
    f.TrendFeature? && f.close.Some? && f.shortMean.Some? && f.longMean.Some?
  }

  function TrendScore(f: Feature): Result<real, StrategyError>
    requires Averaged(f)
  {
    if f.shortMean.value == 0.0 || f.longMean.value == 0.0 then Err(DivisionByZero)
    else Ok(f.close.value / f.shortMean.value - 1.0 + (f.shortMean.value / f.longMean.value - 1.0))
  }

  function TrendSignals(fs: seq<Feature>): (r: Result<seq<EntrySignal>, StrategyError>)
    requires forall f | f in fs :: Averaged(f)
    ensures r.Ok? ==> |r.value| == |fs|
    ensures r.Ok? ==> forall i | 0 <= i < |fs| ::
              && TrendScore(fs[i]).Ok?
              && r.value[i] == EntrySignal(fs[i].symbol, fs[i].date, TrendScore(fs[i]).value, 0, fs[i].industry)
  {
    if fs == [] then Ok([])
    else
      match (TrendScore(fs[0]), TrendSignals(fs[1..]))
      case (Ok(score), Ok(rest)) => Ok([EntrySignal(fs[0].symbol, fs[0].date, score, 0, fs[0].industry)] + rest)
      case _ => Err(DivisionByZero)
  }

  predicate ByScore(a: EntrySignal, b: EntrySignal) {
    a.score > b.score || (a.score == b.score && a.symbol <= b.symbol)
  }

  /** Ranks are places in the list, counted from one. */
  function Number(xs: seq<EntrySignal>): (r: seq<EntrySignal>)
    ensures |r| == |xs|
    ensures forall i | 0 <= i < |xs| :: r[i] == xs[i].(rank := i + 1)
  {
    if xs == [] then []
    else
      var last := |xs| - 1;
      Number(xs[..last]) + [xs[last].(rank := |xs|)]
  }

  function Scored(p: StrategyConfig, candidates: seq<Feature>, cutoff: Cutoff): Result<seq<EntrySignal>, StrategyError>
    requires forall f | f in candidates :: IsCandidate(p, f, cutoff)
  {
    assert forall f | f in candidates ::
        IsCandidate(p, f, cutoff) ==> if p.StrongTrend? then Measured(f) else Averaged(f);
    if p.StrongTrend? then Ok(StrongSignals(candidates, candidates)) else TrendSignals(candidates)
  }

  /** Candidates best first, ties by symbol. */
  function RankCandidates(p: StrategyConfig, fs: seq<Feature>,
                          cutoff: Cutoff): Result<seq<EntrySignal>, StrategyError> {
    match Scored(p, Candidates(p, fs, cutoff), cutoff)
    case Err(e) => Err(e)
    case Ok(signals) => Ok(Number(Sort(ByScore, signals)))
  }

  // ----- exits

  function When(condition: bool, reason: Reason): seq<Reason> {
    if condition then [reason] else []
  }

  /** The close at which a position has lost as much as the strategy tolerates. */
  function ExitPrice(entryPrice: real, drawdownExit: real): real {
    entryPrice * (1.0 - drawdownExit)
  }

  function StrongExit(drawdownExit: real, maxHoldingDays: int, close: Option<real>, entryPrice: real, heldDays: int,
                      rank: nat, count: nat, streak: nat, eligible: bool): seq<Reason>
  {
    When(heldDays >= maxHoldingDays, MaxHoldingDays)
    + (if !eligible then [NotEligible] else When(count > 0 && rank as real > count as real / 2.0, RankOutOfPool))
    + When(close.Some? && close.value <= ExitPrice(entryPrice, drawdownExit), EntryDrawdown)
    + When(streak >= 2, MarketSwitchOff)
  }

  function TrendExit(maxHoldingDays: int, close: Option<real>, shortMean: Option<real>, heldDays: int): seq<Reason> {
    When(close.Some? && shortMean.Some? && close.value < shortMean.value, CloseBelowShortMean)
    + When(heldDays >= maxHoldingDays, MaxHoldingDays)
  }

  // ----- the ranking and exit loops

  /** The scoring loop over the candidates' percentile ranks. */
  method ScoreStrong(eligible: seq<Feature>) returns (scored: seq<EntrySignal>)
    requires forall f | f in eligible :: Measured(f)
    ensures scored == StrongSignals(eligible, eligible)
  {
    hide Rank, Column, ValueOf, Measured, StrongSignals;
    var returns5, returns20, ratios := Column(eligible, Return5), Column(eligible, Return20), Column(eligible, Ratio);
    scored := [];
    var i := 0;
    while i < |eligible|
      invariant 0 <= i <= |eligible|
      invariant |scored| == i
      invariant forall j | 0 <= j < i :: scored[j] == StrongSignals(eligible, eligible)[j]
    {
      var f := eligible[i];
      assert f in eligible;
      var score := 0.50 * Rank(returns5, ValueOf(f, Return5));
      score := score + 0.25 * Rank(returns20, ValueOf(f, Return20));
      score := score + 0.25 * Rank(ratios, ValueOf(f, Ratio));
      scored := scored + [EntrySignal(f.symbol, f.date, score, 0, f.industry)];
      i := i + 1;
    }
  }

  /** Scores every candidate, then sorts and numbers the list. */
  method RankStrongCandidates(p: StrategyConfig, fs: seq<Feature>, cutoff: Cutoff) returns (ranked: seq<EntrySignal>)
    requires p.StrongTrend?
    ensures RankCandidates(p, fs, cutoff) == Ok(ranked)
  {
    var eligible := Candidates(p, fs, cutoff);
    assert forall f | f in eligible :: IsCandidate(p, f, cutoff) && Measured(f);
    if eligible == [] { return []; }
    var scored := ScoreStrong(eligible);
    ranked := Number(Sort(ByScore, scored));
  }

  function Joined(first: seq<EntrySignal>, rest: Result<seq<EntrySignal>, StrategyError>)
    : Result<seq<EntrySignal>, StrategyError>
  {
    match rest case Ok(xs) => Ok(first + xs) case Err(e) => Err(e)
  }

  /** Scores the candidates in one pass over the features, then sorts and numbers the list. */
  method RankTrendCandidates(p: StrategyConfig, fs: seq<Feature>, cutoff: Cutoff)
    returns (r: Result<seq<EntrySignal>, StrategyError>)
    requires p.MovingAverageTrend?
    ensures r == RankCandidates(p, fs, cutoff)
  {
    var scored: seq<EntrySignal> := [];
    ghost var all := TrendSignals(Candidates(p, fs, cutoff));
    if all.Ok? { assert [] + all.value == all.value; }
    assert Joined([], all) == all;
    assert fs[0..] == fs;
    var i := 0;
    while i < |fs|
      invariant 0 <= i <= |fs|
      invariant Joined(scored, TrendSignals(Candidates(p, fs[i..], cutoff))) == all
    {
      assert fs[i..][0] == fs[i] && fs[i..][1..] == fs[i + 1..];
      var f := fs[i];
      i := i + 1;
      if !IsCandidate(p, f, cutoff) { continue; }
      var score := TrendScore(f);
      if score.Err? { return Err(DivisionByZero); }
      ghost var rest := TrendSignals(Candidates(p, fs[i..], cutoff));
      var signal := EntrySignal(f.symbol, f.date, score.value, 0, f.industry);
      if rest.Ok? { assert scored + ([signal] + rest.value) == (scored + [signal]) + rest.value; }
      scored := scored + [signal];
    }
    assert scored + [] == scored;
    r := Ok(Number(Sort(ByScore, scored)));
  }
}
