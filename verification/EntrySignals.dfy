/** Who enters the ranked list of a close: told from the bars' histories, prices and amounts. */
module EntrySignals {
  import opened Common
  import opened Sorting
  import opened Simulator
  import opened Selection
  import opened Strategy
  import opened StrategyProofs
  import opened EventLoop
  import opened RunSafety
  import opened NoLookAhead
  import opened BarLists
  import opened Marking

  // ----- what a history is

  /** The bar counts for the symbol's history on the date. */
  predicate Counts(b: MarketBar, s: Symbol, date: Date, cutoff: Cutoff) {
    && b.symbol == s && b.date <= date && b.close.Some?
    && b.availableAt.Some? && b.availableAt.value <= cutoff.at
  }

  /** What the strategies see of a bar. */
  predicate SeenAs(b: MarketBar, d: DailyBar) {
    && d.symbol == b.symbol && d.date == b.date && b.close == Some(d.close) && d.availableAt == b.availableAt
    && d.amount == (if b.amount.Some? then b.amount.value else 0.0)
    && d.suspended == b.suspended && d.st == b.st && d.delisted == b.delisted && d.industry == b.industry
    && (d.limitUp <==> b.closeLimitUp != Some(false))
  }

  /** `at` are the places, in order, of the bars that count, and the history shows them. */
  ghost predicate ShownAt(bars: seq<MarketBar>, s: Symbol, date: Date, cutoff: Cutoff, h: seq<DailyBar>, at: seq<nat>) {
    && |at| == |h|
    && (forall i | 0 <= i < |at| :: at[i] < |bars| && Counts(bars[at[i]], s, date, cutoff) && SeenAs(bars[at[i]], h[i]))
    && (forall i, j | 0 <= i < j < |at| :: at[i] < at[j])
    && (forall k: nat | k < |bars| && Counts(bars[k], s, date, cutoff) :: k in at)
  }

  lemma {:induction false} HistorySnoc(bars: seq<MarketBar>, b: MarketBar, s: Symbol, date: Date, cutoff: Cutoff)
    ensures History(bars + [b], s, date, cutoff) == History(bars, s, date, cutoff) + History([b], s, date, cutoff)
  {
    if bars == [] {
      assert bars + [b] == [b];
    } else {
      assert (bars + [b])[1..] == bars[1..] + [b];
      HistorySnoc(bars[1..], b, s, date, cutoff);
    }
  }

  lemma OneShown(b: MarketBar, s: Symbol, date: Date, cutoff: Cutoff)
    ensures if Counts(b, s, date, cutoff)
            then |History([b], s, date, cutoff)| == 1 && SeenAs(b, History([b], s, date, cutoff)[0])
            else History([b], s, date, cutoff) == []
  {
    assert [b][1..] == [] && History([], s, date, cutoff) == [];
  }

  lemma {:induction false} OneMoreShown(bars: seq<MarketBar>, b: MarketBar, s: Symbol, date: Date, cutoff: Cutoff,
                                        h: seq<DailyBar>, at: seq<nat>, d: DailyBar)
    requires ShownAt(bars, s, date, cutoff, h, at)
    ensures Counts(b, s, date, cutoff) && SeenAs(b, d) ==>
              ShownAt(bars + [b], s, date, cutoff, h + [d], at + [|bars|])
    ensures !Counts(b, s, date, cutoff) ==> ShownAt(bars + [b], s, date, cutoff, h, at)
  {
    hide Counts, SeenAs;
    var next, more := bars + [b], at + [|bars|];
    forall i | 0 <= i < |at| ensures at[i] < |bars| && next[at[i]] == bars[at[i]] {
    }
    assert more[|at|] == |bars|;
    forall k: nat | k < |bars| && Counts(next[k], s, date, cutoff) ensures k in at {
      assert next[k] == bars[k];
    }
    assert forall k | k in at :: k in more;
  }

  /** A history shows every bar that counts, once and in the bars' order, and no other. */
  lemma {:induction false} HistoryShows(bars: seq<MarketBar>, s: Symbol, date: Date, cutoff: Cutoff)
    returns (at: seq<nat>)
    ensures ShownAt(bars, s, date, cutoff, History(bars, s, date, cutoff), at)
  {
    if bars == [] {
      at := [];
    } else {
      var n := |bars| - 1;
      at := HistoryShows(bars[..n], s, date, cutoff);
      assert bars == bars[..n] + [bars[n]];
      HistorySnoc(bars[..n], bars[n], s, date, cutoff);
      OneShown(bars[n], s, date, cutoff);
      var h, last := History(bars[..n], s, date, cutoff), History([bars[n]], s, date, cutoff);
      hide History, ShownAt, SeenAs;
      if Counts(bars[n], s, date, cutoff) {
        OneMoreShown(bars[..n], bars[n], s, date, cutoff, h, at, last[0]);
        assert last == [last[0]];
        at := at + [n];
      } else {
        OneMoreShown(bars[..n], bars[n], s, date, cutoff, h, at, SomeDay());
        assert h + [] == h;
      }
    }
  }

  function SomeDay(): DailyBar {
    DailyBar(0, 0, 0.0, 0.0, None, false, false, false, false, None)
  }

  // ----- what the strategies ask of it

  function LastCloses(h: seq<DailyBar>, n: nat): (r: seq<real>)
    requires n <= |h|
  {
    seq(n, i requires 0 <= i < n => h[|h| - n + i].close)
  }

  function LastAmounts(h: seq<DailyBar>, n: nat): (r: seq<real>)
    requires n <= |h|
  {
    seq(n, i requires 0 <= i < n => h[|h| - n + i].amount)
  }

  /** There is a bar on the date. */
  predicate Current(h: seq<DailyBar>, date: Date) {
    h != [] && h[|h| - 1].date == date
  }

  /** The day's close is above the mean of the last `n`. */
  predicate AboveMean(h: seq<DailyBar>, n: nat) {
    |h| >= n > 0 && h[|h| - 1].close * n as real > Sum(LastCloses(h, n))
  }

  /** The day's close over that of `n` bars before. */
  predicate ReturnWithin(h: seq<DailyBar>, n: nat, low: real, high: real) {
    |h| > n && h[|h| - n - 1].close != 0.0 && low <= h[|h| - 1].close / h[|h| - n - 1].close - 1.0 <= high
  }

  /** The mean amount of the last 5 bars over that of the last 20. */
  predicate AmountsWithin(h: seq<DailyBar>, least: real, most: real) {
    |h| >= 20 && Sum(LastAmounts(h, 20)) != 0.0
    && least <= (Sum(LastAmounts(h, 5)) / 5.0) / (Sum(LastAmounts(h, 20)) / 20.0) <= most
  }

  /** Nothing about the day's bar keeps the stock from being bought. */
  predicate Unhindered(b: DailyBar) {
    !b.st && !b.suspended && !b.delisted && !b.limitUp
  }

  /** The strategy wants the stock, given its history and the benchmark's. */
  predicate Wanted(p: StrategyConfig, h: seq<DailyBar>, g: seq<DailyBar>, date: Date, cutoff: Cutoff) {
    && Current(h, date) && Unhindered(h[|h| - 1]) && Current(g, date)
    && match p
       case StrongTrend(_, _, _, low, high, least, most, _) =>
         && date <= cutoff.day
         && AboveMean(g, 20) && AboveMean(h, 10)
         && ReturnWithin(h, 5, low, high) && AmountsWithin(h, least, most)
         && |h| > 20
       case MovingAverageTrend(_, _, _, short, long, marketFilter) =>
         && |h| >= long && |g| >= long
         && (marketFilter ==> AboveMean(g, long))
         && AboveMean(h, short)
         && Sum(LastCloses(h, short)) * long as real > Sum(LastCloses(h, long)) * short as real
  }

  /** The stock is in the pool of the date: its bar stands, says so, and is no benchmark's. */
  ghost predicate Pooled(m: Market, s: Symbol, date: Date) {
    && s != m.x.benchmark && m.x.secondaryBenchmark != Some(s)
    && exists j: nat :: StandsFor(m.bars, s, date, j) && m.bars[j].universeEligible == Some(true)
  }

  // ----- the features compute it

  lemma {:induction false} LastOfDated(h: seq<DailyBar>, date: Date)
    requires forall i, j | 0 <= i < j < |h| :: h[i].date <= h[j].date
    requires forall b | b in h :: b.date <= date
    ensures BarOn(h, date) == if Current(h, date) then Some(h[|h| - 1]) else None
  {
    if h != [] && h[|h| - 1].date != date {
      assert h[|h| - 1] in h;
      EarlierUndated(h, date);
    }
  }

  lemma {:induction false} EarlierUndated(h: seq<DailyBar>, date: Date)
    requires forall b | b in h :: b.date < date
    ensures BarOn(h, date) == None
  {
    if h == [] {
    } else {
      assert h[|h| - 1] in h;
      EarlierUndated(h[..|h| - 1], date);
    }
  }

  lemma {:induction false} TailsAre(h: seq<DailyBar>, n: nat)
    requires n <= |h|
    ensures Closes(h)[|h| - n..] == LastCloses(h, n) && Amounts(h)[|h| - n..] == LastAmounts(h, n)
  {
    ColumnsAt(h);
  }

  lemma MeanComparison(total: real, n: nat, c: real)
    requires n > 0
    ensures c > total / n as real <==> c * n as real > total
  {
    var mean := total / n as real;
    assert mean * n as real == total;
    assert (c - mean) * n as real == c * n as real - total;
    if c > mean {
      assert (c - mean) * n as real > 0.0;
    } else {
      MulMonotone(c, mean, n as real);
    }
  }

  lemma {:induction false} TailMeanIs(h: seq<DailyBar>, n: nat)
    requires n > 0
    ensures TailMean(Closes(h), n) == if |h| < n then None else Some(Sum(LastCloses(h, n)) / n as real)
  {
    hide Closes, LastCloses, Sum;
    if |h| >= n { TailsAre(h, n); }
  }

  lemma {:induction false} MeanAbove(h: seq<DailyBar>, n: nat)
    requires n > 0 && h != []
    ensures TailMean(Closes(h), n).Some? <==> |h| >= n
    ensures AboveMean(h, n) <==> |h| >= n && h[|h| - 1].close > TailMean(Closes(h), n).value
  {
    hide Closes, LastCloses, Sum, TailMean;
    TailMeanIs(h, n);
    if |h| >= n { MeanComparison(Sum(LastCloses(h, n)), n, h[|h| - 1].close); }
  }

  lemma CrossMeans(a: real, n: nat, b: real, k: nat)
    requires n > 0 && k > 0
    ensures a / n as real > b / k as real <==> a * k as real > b * n as real
  {
    MeanComparison(b, k, a / n as real);
    var x := a / n as real;
    assert x * n as real == a;
    assert (x * k as real) * n as real == a * k as real;
    if x * k as real > b {
      assert (x * k as real - b) * n as real > 0.0;
      assert (x * k as real - b) * n as real == (x * k as real) * n as real - b * n as real;
    } else {
      MulMonotone(x * k as real, b, n as real);
    }
  }

  /** A history in date order whose bars are all visible and not after the date. */
  ghost predicate InOrder(h: seq<DailyBar>, date: Date, cutoff: Cutoff) {
    && (forall i, j | 0 <= i < j < |h| :: h[i].date <= h[j].date)
    && (forall b | b in h :: b.date <= date && Visible(b.availableAt, cutoff))
  }

  lemma {:induction false} MarketClose(g: seq<DailyBar>, date: Date, cutoff: Cutoff)
    requires InOrder(g, date, cutoff)
    ensures MarketCloseOn(g, date) == if Current(g, date) then Some(g[|g| - 1].close) else None
  {
    LastOfDated(g, date);
  }

  lemma {:induction false} AmountRatioIs(h: seq<DailyBar>)
    ensures AmountRatio(Amounts(h))
         == if |h| >= 20 && Sum(LastAmounts(h, 20)) != 0.0
            then Some((Sum(LastAmounts(h, 5)) / 5.0) / (Sum(LastAmounts(h, 20)) / 20.0)) else None
  {
    if |h| >= 5 { TailsAre(h, 5); }
    if |h| >= 20 {
      TailsAre(h, 20);
      MeanComparison(Sum(LastAmounts(h, 20)), 20, 0.0);
      var total := Sum(LastAmounts(h, 20));
      assert total / 20.0 * 20.0 == total;
    }
  }

  lemma {:induction false} TailReturnIs(h: seq<DailyBar>, n: nat)
    requires n > 0 && TailReturn(Closes(h), n).Ok?
    ensures |h| <= n ==> TailReturn(Closes(h), n) == Ok(None)
    ensures |h| > n ==> && h[|h| - n - 1].close != 0.0
                        && TailReturn(Closes(h), n) == Ok(Some(h[|h| - 1].close / h[|h| - n - 1].close - 1.0))
  {
    ColumnsAt(h);
  }

  /** A strong-trend feature carries the figures of its two histories. */
  ghost predicate StrongFigures(f: Feature, h: seq<DailyBar>, g: seq<DailyBar>, date: Date) {
    && f.StrongFeature? && f.date == date
    && (if !Current(h, date) then f.close.None?
        else
          var today := h[|h| - 1];
          && f.close == Some(today.close) && f.availableAt == today.availableAt && f.industry == today.industry
          && f.marketClose == (if Current(g, date) then Some(g[|g| - 1].close) else None)
          && f.st == today.st && f.suspended == today.suspended && f.delisted == today.delisted
              && f.limitUp == today.limitUp
          && (f.buyable <==> !today.suspended && !today.limitUp)
          && f.mean10 == TailMean(Closes(h), 10) && f.marketMean == TailMean(Closes(g), 20)
          && Ok(f.return5) == TailReturn(Closes(h), 5) && Ok(f.return20) == TailReturn(Closes(h), 20)
          && f.amountRatio == AmountRatio(Amounts(h)))
  }

  lemma {:induction false} StrongFeatureIs(h: seq<DailyBar>, g: seq<DailyBar>, s: Symbol, date: Date, cutoff: Cutoff,
                                           f: Feature)
    requires InOrder(h, date, cutoff) && InOrder(g, date, cutoff) && BuildStrong(h, g, s, date) == Ok(f)
    ensures StrongFigures(f, h, g, date)
  {
    hide BarOn, TailMean, TailReturn, AmountRatio, Closes, Amounts, MarketCloseOn, InOrder;
    LastOfDated(h, date) by { InOrderMeans(h, date, cutoff); }
    MarketClose(g, date, cutoff);
  }

  lemma InOrderMeans(h: seq<DailyBar>, date: Date, cutoff: Cutoff)
    requires InOrder(h, date, cutoff)
    ensures forall i, j | 0 <= i < j < |h| :: h[i].date <= h[j].date
    ensures forall b | b in h :: b.date <= date
    ensures Current(h, date) ==> Visible(h[|h| - 1].availableAt, cutoff)
  {
    if Current(h, date) { assert h[|h| - 1] in h; }
  }

  /** The figures that a strong-trend candidate is judged by, one by one. */
  lemma {:induction false} StrongTests(h: seq<DailyBar>, g: seq<DailyBar>, date: Date, f: Feature, low: real,
                                       high: real,
                                       least: real, most: real)
    requires StrongFigures(f, h, g, date) && Current(h, date)
    ensures Current(g, date) ==> (f.marketMean.Some? && f.marketClose.value > f.marketMean.value <==> AboveMean(g, 20))
    ensures f.mean10.Some? && f.close.value > f.mean10.value <==> AboveMean(h, 10)
    ensures f.return5.Some? && low <= f.return5.value <= high <==> ReturnWithin(h, 5, low, high)
    ensures f.return20.Some? <==> |h| > 20
    ensures f.amountRatio.Some? && least <= f.amountRatio.value <= most <==> AmountsWithin(h, least, most)
  {
    hide TailMean, TailReturn, AmountRatio, Closes, Amounts, AboveMean, LastAmounts, Sum;
    MeanAbove(h, 10);
    if Current(g, date) { MeanAbove(g, 20); }
    TailReturnIs(h, 5);
    TailReturnIs(h, 20);
    AmountRatioIs(h);
  }

  lemma {:induction false} StrongWanted(p: StrategyConfig, h: seq<DailyBar>, g: seq<DailyBar>, s: Symbol, date: Date,
                                        cutoff: Cutoff, f: Feature)
    requires p.StrongTrend? && InOrder(h, date, cutoff) && InOrder(g, date, cutoff)
    requires BuildStrong(h, g, s, date) == Ok(f)
    ensures IsCandidate(p, f, cutoff) <==> Wanted(p, h, g, date, cutoff)
  {
    hide BuildStrong, TailMean, TailReturn, AmountRatio, Closes, Amounts, AboveMean, ReturnWithin, AmountsWithin,
      InOrder,
      Visible;
    StrongFeatureIs(h, g, s, date, cutoff, f);
    InOrderMeans(h, date, cutoff);
    if Current(h, date) {
      StrongTests(h, g, date, f, p.minReturn5, p.maxReturn5, p.minAmountRatio, p.maxAmountRatio);
    }
  }

  /** A moving-average feature likewise. */
  ghost predicate TrendFigures(f: Feature, h: seq<DailyBar>, g: seq<DailyBar>, date: Date, short: nat, long: nat)
    requires short > 0 && long > 0
  {
    && f.TrendFeature? && f.date == date
    && (if !Current(h, date) then f.close.None?
        else
          var today := h[|h| - 1];
          && f.close == Some(today.close) && f.availableAt == today.availableAt && f.industry == today.industry
          && f.marketClose == (if Current(g, date) then Some(g[|g| - 1].close) else None)
          && f.st == today.st && f.suspended == today.suspended && f.delisted == today.delisted
              && f.limitUp == today.limitUp
          && f.shortMean == TailMean(Closes(h), short) && f.longMean == TailMean(Closes(h), long)
          && f.marketMean == TailMean(Closes(g), long))
  }

  lemma {:induction false} TrendFeatureIs(h: seq<DailyBar>, g: seq<DailyBar>, s: Symbol, date: Date, cutoff: Cutoff,
                                          short: nat, long: nat)
    requires InOrder(h, date, cutoff) && InOrder(g, date, cutoff) && short > 0 && long > 0
    ensures TrendFigures(BuildTrend(h, g, s, date, short, long), h, g, date, short, long)
  {
    hide BarOn, TailMean, Closes, MarketCloseOn, InOrder;
    LastOfDated(h, date) by { InOrderMeans(h, date, cutoff); }
    MarketClose(g, date, cutoff);
  }

  lemma {:induction false} TrendTests(h: seq<DailyBar>, g: seq<DailyBar>, date: Date, f: Feature, short: nat, long: nat)
    requires 0 < short <= long && TrendFigures(f, h, g, date, short, long) && Current(h, date)
    ensures f.marketMean.Some? <==> |g| >= long
    ensures Current(g, date) ==> (f.marketMean.Some? && f.marketClose.value > f.marketMean.value
                                  <==> AboveMean(g, long))
    ensures (f.shortMean.Some? <==> |h| >= short) && (f.longMean.Some? <==> |h| >= long)
    ensures f.shortMean.Some? && f.close.value > f.shortMean.value <==> AboveMean(h, short)
    ensures |h| >= long ==>
              (f.shortMean.value > f.longMean.value <==>
                 Sum(LastCloses(h, short)) * long as real > Sum(LastCloses(h, long)) * short as real)
  {
    hide TailMean, Closes, AboveMean, LastCloses, Sum;
    MeanAbove(h, short);
    TailMeanIs(h, long);
    TailMeanIs(g, long);
    if Current(g, date) { MeanAbove(g, long); }
    if |h| >= long { MeansCross(h, short, long); }
  }

  lemma {:induction false} TrendWanted(p: StrategyConfig, h: seq<DailyBar>, g: seq<DailyBar>, s: Symbol, date: Date,
                                       cutoff: Cutoff)
    requires p.MovingAverageTrend? && InOrder(h, date, cutoff) && InOrder(g, date, cutoff)
    ensures IsCandidate(p, BuildTrend(h, g, s, date, p.shortWindow, p.longWindow), cutoff)
       <==> Wanted(p, h, g, date, cutoff)
  {
    hide BuildTrend, TailMean, Closes, AboveMean, LastCloses, Sum, InOrder, Visible;
    var f := BuildTrend(h, g, s, date, p.shortWindow, p.longWindow);
    TrendFeatureIs(h, g, s, date, cutoff, p.shortWindow, p.longWindow);
    InOrderMeans(h, date, cutoff);
    if Current(h, date) { TrendTests(h, g, date, f, p.shortWindow, p.longWindow); }
  }

  lemma {:induction false} MeansCross(h: seq<DailyBar>, short: nat, long: nat)
    requires 0 < short <= long <= |h|
    ensures TailMean(Closes(h), short).Some? && TailMean(Closes(h), long).Some?
    ensures TailMean(Closes(h), short).value > TailMean(Closes(h), long).value
       <==> Sum(LastCloses(h, short)) * long as real > Sum(LastCloses(h, long)) * short as real
  {
    hide TailMean, Closes, LastCloses, Sum;
    TailMeanIs(h, short);
    TailMeanIs(h, long);
    CrossMeans(Sum(LastCloses(h, short)), short, Sum(LastCloses(h, long)), long);
  }

  // ----- who is ranked

  function HistoryIn(m: Market, s: Symbol, date: Date): seq<DailyBar> {
    History(m.bars, s, date, m.x.cutoff)
  }

  lemma {:induction false} HistoriesInOrder(x: Inputs, s: Symbol, date: Date)
    ensures InOrder(HistoryIn(MarketOf(x), s, date), date, x.cutoff)
  {
    var bars := MarketOf(x).bars;
    BarsInDateOrder(x);
    HistoryInOrder(bars, s, date, x.cutoff);
    var at := HistoryShows(bars, s, date, x.cutoff);
    var h := History(bars, s, date, x.cutoff);
    forall b | b in h ensures Visible(b.availableAt, x.cutoff) {
      var i :| 0 <= i < |h| && h[i] == b;
      assert SeenAs(bars[at[i]], h[i]);
    }
  }

  lemma BarsInDateOrder(x: Inputs)
    ensures var bars := MarketOf(x).bars;
            forall i, j | 0 <= i < j < |bars| :: bars[i].date <= bars[j].date
  {
    BarOrderIsTotal();
    SortSorts(BarOrder, Admitted(x.bars, x.end, x.cutoff));
    var bars := MarketOf(x).bars;
    forall i, j | 0 <= i < j < |bars| ensures bars[i].date <= bars[j].date {
      assert BarOrder(bars[i], bars[j]);
    }
  }

  /** The strategy wants the stock at the close of the date, and the pool has it. */
  ghost predicate Qualifies(m: Market, s: Symbol, date: Date) {
    && Pooled(m, s, date)
    && Wanted(m.x.strategy, HistoryIn(m, s, date), HistoryIn(m, m.x.benchmark, date), date, m.x.cutoff)
  }

  lemma {:induction false} PooledIff(m: Market, s: Symbol, date: Date)
    ensures s in EligibleOn(m.x, BarsOn(m.bars, date)) <==> Pooled(m, s, date)
  {
    hide BarsOn;
    BarsOnStands(m.bars, date, s);
    if Pooled(m, s, date) {
      var j: nat :| StandsFor(m.bars, s, date, j) && m.bars[j].universeEligible == Some(true);
      assert m.bars[j] in m.bars;
    }
  }

  lemma {:induction false} CandidateIff(x: Inputs, s: Symbol, date: Date)
    requires FeatureOf(x.strategy, MarketOf(x).bars, x.benchmark, s, date, x.cutoff).Ok?
    ensures IsCandidate(x.strategy, FeatureOf(x.strategy, MarketOf(x).bars, x.benchmark, s, date, x.cutoff).value,
                        x.cutoff)
       <==> Wanted(x.strategy, HistoryIn(MarketOf(x), s, date), HistoryIn(MarketOf(x), x.benchmark, date), date,
                   x.cutoff)
  {
    hide MarketOf, InOrder, IsCandidate, Wanted, BuildStrong, BuildTrend, History;
    var m := MarketOf(x);
    MarketIsOf(x);
    HistoriesInOrder(x, s, date);
    HistoriesInOrder(x, x.benchmark, date);
    var h, g := HistoryIn(m, s, date), HistoryIn(m, x.benchmark, date);
    var f := FeatureOf(x.strategy, m.bars, x.benchmark, s, date, x.cutoff).value;
    if x.strategy.StrongTrend? {
      StrongWanted(x.strategy, h, g, s, date, x.cutoff, f);
    } else {
      TrendWanted(x.strategy, h, g, s, date, x.cutoff);
    }
  }

  lemma {:induction false} CandidatesHave(p: StrategyConfig, fs: seq<Feature>, cutoff: Cutoff)
    ensures forall f :: f in Candidates(p, fs, cutoff) <==> f in fs && IsCandidate(p, f, cutoff)
  {
    hide IsCandidate;
    if fs == [] {
    } else {
      CandidatesHave(p, fs[1..], cutoff);
      assert forall f :: f in fs <==> f == fs[0] || f in fs[1..];
    }
  }

  lemma {:induction false} RestrictHas(fs: seq<Feature>, pool: set<Symbol>)
    ensures forall f :: f in Restrict(fs, pool) <==> f in fs && f.symbol in pool
  {
    if fs == [] {
    } else {
      RestrictHas(fs[1..], pool);
      assert forall f :: f in fs <==> f == fs[0] || f in fs[1..];
    }
  }

  lemma {:induction false} FeaturesHave(m: Market, symbols: seq<Symbol>, date: Date)
    requires Features(m, symbols, date).Ok?
    ensures forall f :: f in Features(m, symbols, date).value <==>
              f.symbol in symbols && FeatureOf(m.x.strategy, m.bars, m.x.benchmark, f.symbol, date, m.x.cutoff) == Ok(f)
  {
    hide FeatureOf;
    if symbols == [] {
    } else {
      FeaturesHave(m, symbols[1..], date);
      assert forall s :: s in symbols <==> s == symbols[0] || s in symbols[1..];
      var fs := Features(m, symbols, date).value;
      assert forall f :: f in fs <==> f == fs[0] || f in fs[1..];
    }
  }

  /** The features that are ranked at a close. */
  function RankedFeatures(m: Market, date: Date): seq<Feature>
    requires Features(m, m.symbols, date).Ok?
  {
    Candidates(m.x.strategy, Restrict(Features(m, m.symbols, date).value, EligibleOn(m.x, BarsOn(m.bars, date))),
               m.x.cutoff)
  }

  lemma {:induction false} RankedFeaturesAre(x: Inputs, date: Date)
    requires SignalsOn(MarketOf(x), date).Ok?
    ensures Features(MarketOf(x), MarketOf(x).symbols, date).Ok?
    ensures forall f | f in RankedFeatures(MarketOf(x), date) :: Qualifies(MarketOf(x), f.symbol, date)
    ensures forall f | f in RankedFeatures(MarketOf(x), date) ::
              FeatureOf(x.strategy, MarketOf(x).bars, x.benchmark, f.symbol, date, x.cutoff) == Ok(f)
    ensures forall s | Qualifies(MarketOf(x), s, date) :: HasFeature(RankedFeatures(MarketOf(x), date), s)
  {
    hide MarketOf, FeatureOf, IsCandidate, Wanted, EligibleOn, BarsOn, Pooled, RankCandidates, HistoryIn;
    var m := MarketOf(x);
    MarketIsOf(x);
    PoolIsFollowed(x, date);
    var fs := Features(m, m.symbols, date).value;
    var pool := EligibleOn(m.x, BarsOn(m.bars, date));
    FeaturesHave(m, m.symbols, date);
    RestrictHas(fs, pool);
    CandidatesHave(m.x.strategy, Restrict(fs, pool), m.x.cutoff);
    forall f | f in RankedFeatures(m, date) ensures Qualifies(m, f.symbol, date) {
      CandidateIff(x, f.symbol, date);
      PooledIff(m, f.symbol, date);
    }
    forall s | Qualifies(m, s, date) ensures HasFeature(RankedFeatures(m, date), s) {
      PooledIff(m, s, date);
      LookupIsFeature(m, m.symbols, date, s);
      CandidateIff(x, s, date);
      var f := FeatureOf(x.strategy, m.bars, x.benchmark, s, date, x.cutoff).value;
      assert f in fs;
    }
  }

  ghost predicate Ranks(ranked: seq<EntrySignal>, s: Symbol) {
    exists e | e in ranked :: e.symbol == s
  }

  ghost predicate HasFeature(fs: seq<Feature>, s: Symbol) {
    exists f | f in fs :: f.symbol == s
  }

  lemma {:induction false} NumberedRanks(signals: seq<EntrySignal>, s: Symbol)
    ensures Ranks(Number(Sort(ByScore, signals)), s) <==> Ranks(signals, s)
  {
    SortKeepsElements(ByScore, signals);
    var sorted := Sort(ByScore, signals);
    var ranked := Number(sorted);
    if e :| e in ranked && e.symbol == s {
      var i :| 0 <= i < |ranked| && ranked[i] == e;
      assert sorted[i] in signals;
    }
    if e :| e in signals && e.symbol == s {
      assert e in sorted;
      var i :| 0 <= i < |sorted| && sorted[i] == e;
      assert ranked[i] in ranked;
    }
  }

  lemma {:induction false} RankedHas(p: StrategyConfig, fs: seq<Feature>, cutoff: Cutoff, s: Symbol)
    requires RankCandidates(p, fs, cutoff).Ok?
    ensures Ranks(RankCandidates(p, fs, cutoff).value, s) <==> HasFeature(Candidates(p, fs, cutoff), s)
  {
    hide Candidates, StrongScore, TrendScore, Number, Sort, ByScore;
    var candidates := Candidates(p, fs, cutoff);
    var signals := Scored(p, candidates, cutoff).value;
    assert |signals| == |candidates| && forall i | 0 <= i < |signals| :: signals[i].symbol == candidates[i].symbol;
    NumberedRanks(signals, s);
    if Ranks(signals, s) {
      var j :| 0 <= j < |signals| && signals[j].symbol == s;
      assert candidates[j] in candidates;
    }
    if HasFeature(candidates, s) {
      var j :| 0 <= j < |candidates| && candidates[j].symbol == s;
      assert signals[j] in signals;
    }
  }

  /** At every close a symbol is ranked exactly when it qualifies: it is in the day's pool with a bar that can be
      bought, and the benchmark's and its own closes and amounts are what the strategy asks for. */
  lemma {:induction false} RankedIff(x: Inputs, date: Date, s: Symbol)
    requires SignalsOn(MarketOf(x), date).Ok?
    ensures Ranks(SignalsOn(MarketOf(x), date).value.ranked, s) <==> Qualifies(MarketOf(x), s, date)
  {
    hide MarketOf, Qualifies, RankCandidates, Candidates, Restrict, EligibleOn, Ranks, FeatureOf;
    var m := MarketOf(x);
    RankedFeaturesAre(x, date);
    RankedHas(m.x.strategy, Restrict(Features(m, m.symbols, date).value, EligibleOn(m.x, BarsOn(m.bars, date))),
              m.x.cutoff, s);
  }
}
