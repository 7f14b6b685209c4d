/** An input on which the strong-trend strategy does look ahead: a symbol that joins on the last day decides whether
    the run sells a stock the day before or goes on holding it. */
module LookAheadExample {
  import opened Common
  import opened Sorting
  import opened Costs
  import opened Simulator
  import opened Drawdown
  import opened Allocation
  import opened Strategy
  import opened EventLoop
  import opened OrderBook
  import opened RunSafety
  import opened RunTheorems
  import opened Progress
  import opened BarLists
  import opened NoLookAhead
  import opened RunExits
  import opened TradesAlike
  import opened Backtest
  import opened Quotes
  import opened FirstPurchase

  // ----- the two inputs

  /** The benchmark stands at 10 for twenty days, jumps to 20, falls to 9 for days 22 and 23, and is back at 20.
      The stocks stand at 10 for twenty days and at 20 ever after. */
  function Price(s: Symbol, d: Date): real {
    if d <= 20 then 10.0 else if s == 1 && (d == 22 || d == 23) then 9.0 else 20.0
  }

  /** Stock 5 is always in the pool, stock 4 on day 22 only, stock 6 from day 24 on, stock 3 when it is quoted. */
  predicate InPool(s: Symbol, d: Date) {
    s == 3 || s == 5 || (s == 4 && d == 22) || (s == 6 && d >= 24)
  }

  /** On days 23 and 24 stock 5 opens limit-down, so that it cannot be sold. */
  function Quote(s: Symbol, d: Date): MarketBar {
    MarketBar(s, d, Some(Price(s, d)), Some(Price(s, d)), Some(Price(s, d)), Some(Price(s, d)), false, false,
              s == 5 && (d == 23 || d == 24),
              true, Some(false), None, Some(1.0), Some(0), false, false, None, Some(InPool(s, d)))
  }

  /** Stock 4, the first of the followed symbols, is not quoted any more from day 24 on. */
  function Regulars(d: Date): seq<Symbol> {
    if d <= 23 then [1, 4, 5, 6] else [1, 5, 6]
  }

  function ShortListing(d: Date): seq<Symbol> {
    if d <= 24 then Regulars(d) else [1]
  }

  /** In the longer run stock 3 joins on the last day. */
  function LongListing(d: Date): seq<Symbol> {
    if d <= 24 then Regulars(d) else [1, 3]
  }

  function FiveDays(l: Listing): Inputs {
    Inputs(21, 25, 20000.0, 1, None, Daily(Quote, l, 25), [21, 22, 23, 24, 25], Cutoff(0, 25),
           StrongTrend(4, 2, 20, -1.0, 5.0, 0.0, 100.0, 0.04),
           AllocationLimits(0.70, 4, 3500.0, 0.20, 0.35, 0.01, 100),
           CostModel(0.0, 0.0, 0.0, 0.0, 0.0, 0.0, true, true, 0.0, 0.0), Thresholds(0.06, 0.08), false, map[])
  }

  function Short(): Inputs {
    FiveDays(ShortListing)
  }

  function Long(): Inputs {
    FiveDays(LongListing)
  }

  /** What the two listings have in common. */
  ghost predicate Usual(l: Listing) {
    && Ordered(l)
    && (forall d | d <= 24 :: l(d) == Regulars(d))
    && (forall d | d > 24 :: 1 in l(d) && forall s | s in l(d) :: s == 1 || s == 3)
  }

  lemma ListingsAreUsual()
    ensures Usual(ShortListing) && Usual(LongListing)
  {
  }

  lemma WhoIsListed(d: Date)
    ensures 3 !in ShortListing(25) && 3 in LongListing(25)
    ensures d <= 24 ==> 3 !in LongListing(d)
    ensures 4 !in ShortListing(24)
  {
    assert [1, 3][1] == 3;
  }

  lemma RegularsAre(d: Date)
    ensures 1 in Regulars(d) && 5 in Regulars(d) && 6 in Regulars(d) && (d <= 23 ==> 4 in Regulars(d))
    ensures d > 23 ==> forall s | s in Regulars(d) :: s == 1 || s == 5 || s == 6
    ensures forall s | s in Regulars(d) :: s == 1 || s == 4 || s == 5 || s == 6
  {
    var r := Regulars(d);
    if d <= 23 {
      assert r[0] == 1 && r[1] == 4 && r[2] == 5 && r[3] == 6;
    } else {
      assert r[0] == 1 && r[1] == 5 && r[2] == 6;
    }
  }

  lemma QuotesAreRegular()
    ensures Regular(Quote)
  {
    hide Price, Daily, InPool;
  }

  lemma QuotedAt(s: Symbol, d: Date)
    ensures var b := Quote(s, d);
            && b.symbol == s && b.date == d && b.close == Some(Price(s, d)) && b.amount == Some(1.0)
            && Priced(b) && b.universeEligible == Some(InPool(s, d))
  {
    hide InPool;
  }

  lemma InputsOf(l: Listing)
    ensures var x := FiveDays(l);
            && x.bars == Daily(Quote, l, 25) && x.start == 21 && x.end == 25 && x.cutoff == Cutoff(0, 25)
            && x.benchmark == 1 && x.secondaryBenchmark == None && x.tradingDates == [21, 22, 23, 24, 25]
            && x.initialEquity == 20000.0 && x.thresholds.Ordered() && !x.universeBenchmark
            && x.strategy == StrongTrend(4, 2, 20, -1.0, 5.0, 0.0, 100.0, 0.04)
            && x.limits == AllocationLimits(0.70, 4, 3500.0, 0.20, 0.35, 0.01, 100)
            && x.costs == CostModel(0.0, 0.0, 0.0, 0.0, 0.0, 0.0, true, true, 0.0, 0.0)
            && Sane(x.costs) && x.costs.commissionRate + OtherRates(x.costs) == 0.0
  {
    hide Daily, Quote;
  }

  // ----- their markets

  lemma {:induction false} BarsAre(l: Listing)
    requires Usual(l)
    ensures Regular(Quote) && Sorted(BarOrder, Daily(Quote, l, 25))
    ensures forall b | b in Daily(Quote, l, 25) ::
              && 1 <= b.date <= 25 && b.symbol in l(b.date) && b == Quote(b.symbol, b.date) && b.availableAt == Some(0)
  {
    hide Quote, Daily, BarOrder;
    QuotesAreRegular();
    DailyIsSorted(Quote, l, 25);
  }

  lemma {:induction false} MarketBars(l: Listing)
    requires Usual(l)
    ensures MarketOf(FiveDays(l)).bars == Daily(Quote, l, 25) && MarketOf(FiveDays(l)).x == FiveDays(l)
    ensures MarketOf(FiveDays(l)).dates == [21, 22, 23, 24, 25]
  {
    InputsOf(l);
    BarsAre(l);
    hide FiveDays, Daily, Quote, Regular, Usual, SortedUnique, Within, Sorted;
    AllAdmitted(Daily(Quote, l, 25), 25, Cutoff(0, 25));
    SortOfSorted(BarOrder, Daily(Quote, l, 25));
    FiveDates();
  }

  lemma FiveDates()
    ensures SortedUnique(Within([21, 22, 23, 24, 25], 21, 25)) == [21, 22, 23, 24, 25]
  {
    AllWithin([21, 22, 23, 24, 25], 21, 25);
    var dates := [21, 22, 23, 24, 25];
    hide Within, SortedUnique;
    SortedUniqueElements(dates);
    SortedUniqueAscends(dates);
    AscendingIsUnique(SortedUnique(dates), dates);
  }

  lemma {:induction false} AllWithin(dates: seq<Date>, start: Date, end: Date)
    requires forall d | d in dates :: start <= d <= end
    ensures Within(dates, start, end) == dates
  {
    if dates == [] {
    } else {
      assert dates[0] in dates && forall d | d in dates[1..] :: d in dates;
      AllWithin(dates[1..], start, end);
    }
  }

  /** Who is in the pool on some day. */
  ghost predicate EverInPool(l: Listing, s: Symbol) {
    exists d: nat | 1 <= d <= 25 :: s in l(d) && InPool(s, d)
  }

  lemma {:induction false} MarketSymbols(l: Listing, symbols: seq<Symbol>)
    requires Usual(l) && Ascending(symbols) && forall s :: s in symbols <==> EverInPool(l, s)
    ensures MarketOf(FiveDays(l)).symbols == symbols
  {
    MarketBars(l);
    InputsOf(l);
    BarsAre(l);
    var x, bars := FiveDays(l), Daily(Quote, l, 25);
    hide Daily, MarketOf, FiveDays, Quote, Usual, Ascending, Regular, Sorted, InPool;
    EligibleAreOf(x, bars);
    forall s ensures s in symbols <==> s in EverEligible(x, bars) {
      if s in EverEligible(x, bars) {
        var b :| b in bars && b.symbol == s && !IsBenchmark(x, s) && b.universeEligible == Some(true);
        QuotedAt(s, b.date);
        assert s in l(b.date) && InPool(s, b.date);
      }
      if EverInPool(l, s) {
        var d: nat :| 1 <= d <= 25 && s in l(d) && InPool(s, d);
        QuotedOn(Quote, l, 25, s, d);
        QuotedAt(s, d);
        NotBenchmark(s, d);
      }
    }
    FollowedAre(x, bars, symbols);
    MarketFollows(x);
  }

  lemma NotBenchmark(s: Symbol, d: Date)
    requires InPool(s, d)
    ensures s != 1
  {
  }

  lemma MarketFollows(x: Inputs)
    ensures MarketOf(x).symbols == SortedUnique(EverEligible(x, MarketOf(x).bars))
  {
  }

  lemma {:induction false} ListedInPool(l: Listing, s: Symbol)
    requires Usual(l)
    ensures EverInPool(l, s) <==> s == 4 || s == 5 || s == 6 || (s == 3 && 3 in l(25))
  {
    RegularsAre(22);
    RegularsAre(24);
    assert l(22) == Regulars(22) && l(24) == Regulars(24);
    if s == 4 { assert 4 in l(22) && InPool(4, 22); }
    if s == 5 { assert 5 in l(22) && InPool(5, 22); }
    if s == 6 { assert 6 in l(24) && InPool(6, 24); }
    if s == 3 && 3 in l(25) { assert InPool(3, 25); }
    if EverInPool(l, s) {
      var d: nat :| 1 <= d <= 25 && s in l(d) && InPool(s, d);
      RegularsAre(d);
      if d <= 24 { assert l(d) == Regulars(d); }
    }
  }

  lemma {:induction false} ShortMarket()
    ensures var m := MarketOf(Short());
            && m.bars == Daily(Quote, ShortListing, 25) && m.dates == [21, 22, 23, 24, 25] && m.symbols == [4, 5, 6]
            && m.x == Short()
  {
    hide MarketOf, FiveDays, ShortListing, LongListing, Daily, Quote, Usual, EverInPool;
    ListingsAreUsual();
    WhoIsListed(25);
    MarketBars(ShortListing);
    forall s ensures s in [4, 5, 6] <==> EverInPool(ShortListing, s) {
      ListedInPool(ShortListing, s);
    }
    MarketSymbols(ShortListing, [4, 5, 6]);
  }

  lemma {:induction false} LongMarket()
    ensures var m := MarketOf(Long());
            && m.bars == Daily(Quote, LongListing, 25) && m.dates == [21, 22, 23, 24, 25] && m.symbols == [3, 4, 5, 6]
            && m.x == Long()
  {
    hide MarketOf, FiveDays, ShortListing, LongListing, Daily, Quote, Usual, EverInPool;
    ListingsAreUsual();
    WhoIsListed(25);
    MarketBars(LongListing);
    forall s ensures s in [3, 4, 5, 6] <==> EverInPool(LongListing, s) {
      ListedInPool(LongListing, s);
    }
    MarketSymbols(LongListing, [3, 4, 5, 6]);
  }

  lemma {:induction false} BarsArePriced(l: Listing)
    requires Usual(l)
    ensures AllPriced(Daily(Quote, l, 25)) && forall b | b in Daily(Quote, l, 25) :: b.universeEligible.Some?
  {
    hide Daily, Quote, Usual, Sorted, Priced;
    BarsAre(l);
    forall b | b in Daily(Quote, l, 25) ensures Priced(b) && b.universeEligible.Some? {
      QuotedAt(b.symbol, b.date);
    }
  }

  // ----- what their days read

  lemma {:induction false} Histories(l: Listing, s: Symbol, date: nat)
    requires Usual(l) && 1 <= date <= 24 && (s == 1 || s == 5 || s == 6 || (s == 4 && date <= 23))
    ensures Regular(Quote) && History(Daily(Quote, l, 25), s, date, Cutoff(0, 25)) == Days(Quote, s, date)
  {
    hide Quote, Daily, History;
    QuotesAreRegular();
    forall d | 1 <= d <= 25 && d <= date ensures s in l(d) {
      RegularsAre(d);
      assert l(d) == Regulars(d);
    }
    HistoryOfDaily(Quote, l, 25, s, date, Cutoff(0, 25));
  }

  /** A symbol that is not listed on a day has no bar then. */
  lemma {:induction false} Unseen(l: Listing, s: Symbol, date: nat)
    requires Usual(l) && 1 <= date <= 25 && s !in l(date)
    ensures BarOn(History(Daily(Quote, l, 25), s, date, Cutoff(0, 25)), date) == None
  {
    hide Quote, Daily, History, BarOn, Usual, Sorted, Regular;
    BarsAre(l);
    NoBarThere(Daily(Quote, l, 25), s, date, Cutoff(0, 25));
  }

  lemma {:induction false} DayOf(l: Listing, date: nat)
    requires Usual(l) && 1 <= date <= 25
    ensures BarsOn(Daily(Quote, l, 25), date) == map s | s in l(date) :: Quote(s, date)
  {
    hide Quote, Daily, BarsOn;
    QuotesAreRegular();
    BarsOfDaily(Quote, l, 25, date);
  }

  /** The closes are the prices. */
  lemma {:induction false} ClosesArePrices(s: Symbol, date: nat)
    ensures Regular(Quote)
    ensures forall i | 0 <= i < date ::
              Closes(Days(Quote, s, date))[i] == Price(s, i + 1) && Amounts(Days(Quote, s, date))[i] == 1.0
  {
    hide Closes, Amounts, Days, Quote, Price, InPool;
    QuotesAreRegular();
    ColumnsOfDays(Quote, s, date);
    forall i | 0 <= i < date
      ensures Closes(Days(Quote, s, date))[i] == Price(s, i + 1) && Amounts(Days(Quote, s, date))[i] == 1.0
    {
      QuotedAt(s, i + 1);
    }
  }

  // ----- the market filter

  lemma {:induction false} ShownOf(s: Symbol, date: Date)
    ensures var b := ToDaily(Quote(s, date));
            && b.close == Price(s, date) && b.availableAt == Some(0) && b.industry == None
            && !b.suspended && !b.st && !b.delisted && !b.limitUp
  {
    hide Price, InPool;
  }

  lemma {:induction false} TodayIs(s: Symbol, date: nat)
    requires 0 < date
    ensures Regular(Quote) && BarOn(Days(Quote, s, date), date) == Some(ToDaily(Quote(s, date)))
  {
    hide Price, InPool, Daily;
    QuotesAreRegular();
    assert Days(Quote, s, date)[date - 1] == ToDaily(Quote(s, date));
  }

  /** The benchmark's close against its mean: closed on days 22 and 23, open on days 21 and 24. */
  lemma {:induction false} FilterOn(date: nat)
    requires 21 <= date <= 24
    ensures Regular(Quote)
    ensures var market := Days(Quote, 1, date);
            && MarketCloseOn(market, date) == Some(Price(1, date))
            && TailMean(Closes(market), 20).Some?
            && (Price(1, date) > TailMean(Closes(market), 20).value <==> date == 21 || date == 24)
  {
    hide Closes, Amounts, TailMean, Days, Regular, Quote, Daily, BarOn;
    ClosesArePrices(1, date);
    TodayIs(1, date);
    ShownOf(1, date);
    var closes := Closes(Days(Quote, 1, date));
    if date == 21 || date == 24 {
      TailMeanBelow(closes, 20, 20.0);
    } else {
      TailMeanAbove(closes, 20, 9.0);
    }
  }

  // ----- features

  lemma {:induction false} Returns(s: Symbol, date: nat, n: nat)
    requires 21 <= date <= 24 && 5 <= n <= 20
    ensures Regular(Quote)
    ensures TailReturn(Closes(Days(Quote, s, date)), n).Ok? && TailReturn(Closes(Days(Quote, s, date)), n).value.Some?
    ensures s == 5 || s == 6 ==> TailReturn(Closes(Days(Quote, s, date)), n) == Ok(Some(1.0))
  {
    hide Closes, Amounts, Days, Regular, Quote, Daily;
    ClosesArePrices(s, date);
  }

  /** The stocks stand above their means, and their amounts do not change. */
  lemma {:induction false} Means(s: Symbol, date: nat)
    requires (s == 5 || s == 6) && 21 <= date <= 24
    ensures Regular(Quote)
    ensures var stock := Days(Quote, s, date);
            && TailMean(Closes(stock), 10).Some? && TailMean(Closes(stock), 10).value < 20.0
            && AmountRatio(Amounts(stock)) == Some(1.0)
  {
    hide Closes, Amounts, TailMean, Days, Regular, Quote, Daily;
    ClosesArePrices(s, date);
    var stock := Days(Quote, s, date);
    TailMeanBelow(Closes(stock), 10, 20.0);
    TailMeanOfSame(Amounts(stock), 5, 1.0);
    TailMeanOfSame(Amounts(stock), 20, 1.0);
  }

  /** What makes a feature a candidate under the example's parameters. */
  lemma {:induction false} MeasuresMakeCandidate(p: StrategyConfig, f: Feature, cutoff: Cutoff)
    requires p == StrongTrend(4, 2, 20, -1.0, 5.0, 0.0, 100.0, 0.04) && cutoff == Cutoff(0, 25)
    requires f.StrongFeature? && f.date <= 25 && f.availableAt == Some(0) && Tradable(f) && f.buyable
    requires f.marketClose.Some? && f.marketMean.Some? && f.marketClose.value > f.marketMean.value
    requires f.close == Some(20.0) && f.mean10.Some? && f.mean10.value < 20.0
    requires f.return5 == Some(1.0) && f.return20 == Some(1.0) && f.amountRatio == Some(1.0)
    ensures IsCandidate(p, f, cutoff)
  {
    hide Tradable;
  }

  /** Stocks 5 and 6 have the same figures, and are candidates whenever the filter is open. */
  lemma {:induction false} FeatureOfStock(l: Listing, s: Symbol, date: nat)
    requires Usual(l) && (s == 5 || s == 6) && (date == 21 || date == 24)
    ensures var x := FiveDays(l);
            var r := FeatureOf(x.strategy, Daily(Quote, l, 25), 1, s, date, x.cutoff);
            && r.Ok? && r.value.close == Some(20.0) && r.value.industry == None
            && r.value.StrongFeature? && r.value.return5 == Some(1.0) && r.value.return20 == Some(1.0)
            && r.value.amountRatio == Some(1.0) && IsCandidate(x.strategy, r.value, x.cutoff)
  {
    hide FiveDays, Days, History, Quote, IsCandidate, Usual, Daily, Tradable, Regular, TailMean, Closes, Amounts,
      AmountRatio, TailReturn, BarOn, ToDaily;
    InputsOf(l);
    Histories(l, s, date);
    Histories(l, 1, date);
    FilterOn(date);
    TodayIs(s, date);
    ShownOf(s, date);
    Returns(s, date, 5);
    Returns(s, date, 20);
    Means(s, date);
    var x := FiveDays(l);
    var f := BuildStrong(Days(Quote, s, date), Days(Quote, 1, date), s, date).value;
    assert Tradable(f) by { Tradeables(f); }
    MeasuresMakeCandidate(x.strategy, f, x.cutoff);
  }

  lemma Tradeables(f: Feature)
    requires !f.st && !f.suspended && !f.delisted && !f.limitUp
    ensures Tradable(f)
  {
  }

  // ----- what is seen of the market

  /** Stock 4 shows the filter until it is not quoted any more. */
  lemma {:induction false} FeatureOfFourth(l: Listing, date: nat)
    requires Usual(l) && 21 <= date <= 23
    ensures var x := FiveDays(l);
            var r := FeatureOf(x.strategy, Daily(Quote, l, 25), 1, 4, date, x.cutoff);
            && r.Ok? && r.value.marketClose.Some? && r.value.marketMean.Some?
            && (r.value.marketClose.value > r.value.marketMean.value <==> date == 21)
  {
    hide FiveDays, Days, History, Quote, Usual, Daily, Regular, TailMean, Closes, Amounts, AmountRatio, TailReturn,
      BarOn, ToDaily, MarketCloseOn;
    InputsOf(l);
    Histories(l, 4, date);
    Histories(l, 1, date);
    FilterOn(date);
    TodayIs(4, date);
    Returns(4, date, 5);
    Returns(4, date, 20);
  }

  /** A symbol without a bar shows nothing of the market. */
  lemma {:induction false} FeatureOfUnseen(l: Listing, s: Symbol, date: nat)
    requires Usual(l) && 1 <= date <= 25 && s !in l(date)
    ensures var x := FiveDays(l);
            var r := FeatureOf(x.strategy, Daily(Quote, l, 25), 1, s, date, x.cutoff);
            r.Ok? && r.value.marketClose == None
  {
    hide FiveDays, History, Quote, Usual, Daily, BarOn;
    InputsOf(l);
    Unseen(l, s, date);
  }

  /** The first followed symbol decides what is seen of the market. */
  lemma {:induction false} FirstDecides(m: Market, date: Date)
    requires m.symbols != [] && Features(m, m.symbols, date).Ok?
    ensures FeatureOf(m.x.strategy, m.bars, m.x.benchmark, m.symbols[0], date, m.x.cutoff).Ok?
    ensures var f := FeatureOf(m.x.strategy, m.bars, m.x.benchmark, m.symbols[0], date, m.x.cutoff).value;
            SeenOn(m, date) == if f.marketClose.None? then None
                               else Some(f.marketMean.Some? && f.marketClose.value > f.marketMean.value)
  {
    hide FeatureOf;
  }

  lemma {:induction false} ShortSees(date: nat)
    requires 21 <= date <= 24
    ensures SeenOn(MarketOf(Short()), date) == if date == 24 then None else Some(date == 21)
  {
    hide MarketOf, FeatureOf, FiveDays, Quote, Daily, Usual, ShortListing, LongListing, SeenOn, Features, AllPriced,
      Regulars;
    ListingsAreUsual();
    WhoIsListed(24);
    ShortMarket();
    InputsOf(ShortListing);
    BarsArePriced(ShortListing);
    FeaturesCompute(MarketOf(Short()), [4, 5, 6], date);
    FirstDecides(MarketOf(Short()), date);
    if date == 24 { FeatureOfUnseen(ShortListing, 4, date); } else { FeatureOfFourth(ShortListing, date); }
  }

  lemma {:induction false} LongMisses(date: nat)
    requires 21 <= date <= 24
    ensures SeenOn(MarketOf(Long()), date) == None
  {
    hide MarketOf, FeatureOf, FiveDays, Quote, Daily, Usual, ShortListing, LongListing, SeenOn, Features, AllPriced,
      Regulars;
    ListingsAreUsual();
    WhoIsListed(date);
    LongMarket();
    InputsOf(LongListing);
    BarsArePriced(LongListing);
    FeaturesCompute(MarketOf(Long()), [3, 4, 5, 6], date);
    FirstDecides(MarketOf(Long()), date);
    FeatureOfUnseen(LongListing, 3, date);
  }

  lemma {:induction false} Streaks()
    ensures |MarketOf(Short()).dates| == |MarketOf(Long()).dates| == 5
    ensures StreakBefore(MarketOf(Short()), 4) == 2 && StreakBefore(MarketOf(Long()), 4) == 0
  {
    hide MarketOf, SeenOn, FiveDays, Quote, Daily, ShortListing, LongListing;
    ShortMarket();
    LongMarket();
    InputsOf(ShortListing);
    InputsOf(LongListing);
    ShortSees(21);
    ShortSees(22);
    ShortSees(23);
    ShortSees(24);
    LongMisses(21);
    LongMisses(22);
    LongMisses(23);
    LongMisses(24);
    var m, n := MarketOf(Short()), MarketOf(Long());
    assert StreakBefore(m, 0) == 0 && StreakBefore(m, 1) == 0 && StreakBefore(m, 2) == 1 && StreakBefore(m, 3) == 2;
    assert StreakBefore(n, 0) == 0 && StreakBefore(n, 1) == 0 && StreakBefore(n, 2) == 0 && StreakBefore(n, 3) == 0;
  }

  // ----- both runs complete

  lemma {:induction false} SalesCovered(l: Listing)
    requires AllPriced(Daily(Quote, l, 25))
    ensures AllCovered(FiveDays(l))
  {
    hide Daily, Quote, ExecutionPrice, Notional, SaleCovered;
    InputsOf(l);
    var x := FiveDays(l);
    hide FiveDays;
    forall b | b in x.bars ensures SaleCovered(x.costs, b, x.limits.lotSize) {
      if b.open.Some? {
        assert Priced(b);
        PricesStayPositive(x.costs, Sell, b.open.value);
        LotIsWorth(ExecutionPrice(x.costs, Sell, b.open.value), x.limits.lotSize);
        CoveredByOneLot(x.costs, b, x.limits.lotSize);
      } else {
        NothingToCover(x.costs, b, x.limits.lotSize);
      }
    }
  }

  lemma LotIsWorth(price: real, lot: int)
    requires price > 0.0 && lot > 0
    ensures 0.0 <= Notional(price, lot) * 1.0
  {
  }

  lemma NothingToCover(costs: CostModel, b: MarketBar, lot: int)
    requires b.open.None?
    ensures SaleCovered(costs, b, lot)
  {
  }

  lemma {:induction false} DaysComplete(l: Listing, k: nat)
    requires Usual(l) && k <= 5
    ensures |MarketOf(FiveDays(l)).dates| == 5
    ensures FiveDays(l).initialEquity > 0.0 && RunTo(MarketOf(FiveDays(l)), k).Ok?
  {
    hide FiveDays, MarketOf, RunTo, AllCovered, AllPriced, Daily, Quote, Priced, Usual;
    BarsArePriced(l);
    SalesCovered(l);
    InputsOf(l);
    MarketBars(l);
    RunNeverStuck(FiveDays(l), k);
  }

  lemma {:induction false} BacktestReturns(l: Listing)
    requires Usual(l)
    ensures Outcome(FiveDays(l)).Ok?
  {
    hide FiveDays, Outcome, MarketOf, AllCovered, AllPriced, SalesPayable, Daily, Priced, BarsOn, Quote;
    var x := FiveDays(l);
    BarsArePriced(l);
    SalesCovered(l);
    InputsOf(l);
    MarketBars(l);
    forall d | d in [21, 22, 23, 24, 25]
      ensures 1 in BarsOn(Daily(Quote, l, 25), d) && BarsOn(Daily(Quote, l, 25), d)[1].close.Some?
    {
      RegularsAre(d);
      DayOf(l, d);
      QuotedAt(1, d);
      if d <= 24 { assert l(d) == Regulars(d); }
    }
    hide Usual;
    CoveredSalesPayable(x);
    ReturnsResultIff(x);
  }

  // ----- what they hold

  lemma {:induction false} PoolOn(l: Listing, date: nat)
    requires Usual(l) && (date == 21 || date == 24)
    ensures EligibleOn(FiveDays(l), BarsOn(Daily(Quote, l, 25), date)) == if date == 21 then {5} else {5, 6}
  {
    hide BarsOn, Daily, Quote, FiveDays;
    InputsOf(l);
    DayOf(l, date);
    RegularsAre(date);
    assert l(date) == Regulars(date);
    forall s: Symbol | s in l(date) ensures Quote(s, date).universeEligible == Some(InPool(s, date)) {
      QuotedAt(s, date);
    }
  }

  lemma CapOfFirst(m: Market, l: Listing)
    requires m.x == FiveDays(l)
    ensures var r := FirstRequest(m, 5, 20.0);
            && !Blocked(r) && NotionalCap(r) == 3500.0 && r.price == 20.0 && r.limits.lotSize == 100
            && BuyTotal(r.costs, 20.0, 100) <= r.cash
  {
    hide FiveDays;
    InputsOf(l);
  }

  lemma SizeOfFirst(m: Market, l: Listing)
    requires m.x == FiveDays(l)
    ensures Quantity(FirstRequest(m, 5, 20.0)) == 100
  {
    hide FiveDays, NotionalCap, Blocked, BuyTotal, Quantity;
    CapOfFirst(m, l);
    var r := FirstRequest(m, 5, 20.0);
    assert MaxShares(r) == 175;
    assert LotFloor(175, 100) == 100;
    SizeAtOnce(r, 100);
  }

  /** The bar at which the purchase is filled, and the later ones at which no sale is. */
  lemma Fillable(l: Listing)
    ensures var x := FiveDays(l);
            var bar := Quote(5, 22);
            && ExecutionPrice(x.costs, Buy, 20.0) == 20.0 && bar.open == Some(20.0) && bar.availableQuantity.None?
            && bar.symbol == 5 && !bar.suspended && bar.low == Some(20.0) && bar.high == Some(20.0)
            && bar.limitStatusKnown && !bar.limitUp
            && BuyTotal(x.costs, 20.0, 100) <= 20000.0
            && Quote(5, 23).limitDown && Quote(5, 24).limitDown
  {
    InputsOf(l);
    hide FiveDays, Daily;
  }

  /** The entry of stock 5. */
  function EntryOfFive(): EntryState {
    EntryState(20.0, 22, 1, None)
  }

  /** Stock 5 is held from day 22 on. */
  lemma {:induction false} FiveIsBought(l: Listing)
    requires Usual(l) && 5 in MarketOf(FiveDays(l)).symbols && Keep(MarketOf(FiveDays(l)).symbols, {5}) == [5]
    ensures |MarketOf(FiveDays(l)).dates| == 5 && FiveDays(l).initialEquity > 0.0
    ensures RunTo(MarketOf(FiveDays(l)), 2).Ok?
    ensures var st := RunTo(MarketOf(FiveDays(l)), 2).value;
            HeldOn(st.ledger.positions, st.entries, 5, EntryOfFive())
  {
    hide FiveDays, MarketOf, Daily, Quote, Priced, AllPriced, SignalsOn, FeatureOf, IsCandidate, EligibleOn, BarsOn,
      Quantity, BuyTotal, ExecutionPrice, NextDay, OnlyCandidate, RunTo;
    var m := MarketOf(FiveDays(l));
    InputsOf(l);
    MarketBars(l);
    BarsArePriced(l);
    RegularsAre(22);
    assert l(22) == Regulars(22);
    hide Usual, Regulars;
    SignalsCompute(m, 21);
    SignalsCompute(m, 22);
    FeatureOfStock(l, 5, 21);
    PoolOn(l, 21);
    SoleCandidate(m, 21, 5, 20.0);
    SizeOfFirst(m, l);
    DayOf(l, 22);
    Fillable(l);
    HeldAfterTwo(m, 5, 20.0, Quote(5, 22));
  }

  /** It stays held through its limit-down opens. */
  lemma {:induction false} FiveIsHeld(l: Listing)
    requires Usual(l) && 5 in MarketOf(FiveDays(l)).symbols && Keep(MarketOf(FiveDays(l)).symbols, {5}) == [5]
    ensures |MarketOf(FiveDays(l)).dates| == 5 && FiveDays(l).initialEquity > 0.0
    ensures RunTo(MarketOf(FiveDays(l)), 4).Ok?
    ensures var st := RunTo(MarketOf(FiveDays(l)), 4).value;
            HeldOn(st.ledger.positions, st.entries, 5, EntryOfFive())
  {
    hide FiveDays, MarketOf, Daily, Quote, BarsOn, NextDay, HeldOn, EntryOfFive;
    var x, m := FiveDays(l), MarketOf(FiveDays(l));
    MarketBars(l);
    FiveIsBought(l);
    Fillable(l);
    DaysComplete(l, 3);
    DaysComplete(l, 4);
    DayOf(l, 23);
    DayOf(l, 24);
    RunIsOrderly(x, 2);
    HeldAtLimitDown(m, 2, RunTo(m, 2).value, 5, EntryOfFive());
    RunIsOrderly(x, 3);
    HeldAtLimitDown(m, 3, RunTo(m, 3).value, 5, EntryOfFive());
  }

  // ----- whether they sell it

  /** At the close of day 24 nothing but a closed market filter would give stock 5 up. */
  lemma {:induction false} OnlySwitchDecides(l: Listing, streak: nat)
    requires Usual(l) && 5 in MarketOf(FiveDays(l)).symbols && 6 in MarketOf(FiveDays(l)).symbols
    requires Keep(MarketOf(FiveDays(l)).symbols, {5, 6}) == [5, 6]
    ensures SignalsOn(MarketOf(FiveDays(l)), 24).Ok?
    ensures GivenUp(MarketOf(FiveDays(l)), SignalsOn(MarketOf(FiveDays(l)), 24).value, 5, EntryOfFive(), 3, streak)
       <==> streak >= 2
  {
    hide FiveDays, MarketOf, Daily, Quote, Priced, AllPriced, SignalsOn, FeatureOf, IsCandidate, EligibleOn,
      InBetterHalf, BarOn, Days, History, ToDaily;
    var m := MarketOf(FiveDays(l));
    InputsOf(l);
    MarketBars(l);
    BarsArePriced(l);
    SignalsCompute(m, 24);
    FeatureOfStock(l, 5, 24);
    FeatureOfStock(l, 6, 24);
    PoolOn(l, 24);
    FirstOfTwo(m, 24, 5, 6);
    SignalsAreDated(m, 24);
    Histories(l, 5, 24);
    TodayIs(5, 24);
    ShownOf(5, 24);
    assert Today(m, 5, 24) == Some(ToDaily(Quote(5, 24)));
    hide Today, Usual;
  }

  lemma {:induction false} SoldIff(l: Listing)
    requires Usual(l) && 5 in MarketOf(FiveDays(l)).symbols && 6 in MarketOf(FiveDays(l)).symbols
    requires Keep(MarketOf(FiveDays(l)).symbols, {5}) == [5] && Keep(MarketOf(FiveDays(l)).symbols, {5, 6}) == [5, 6]
    ensures |MarketOf(FiveDays(l)).dates| == 5 && FiveDays(l).initialEquity > 0.0
    ensures RunTo(MarketOf(FiveDays(l)), 4).Ok? && 5 in RunTo(MarketOf(FiveDays(l)), 4).value.entries
    ensures SoldWhole(RunTo(MarketOf(FiveDays(l)), 4).value, 5) <==> StreakBefore(MarketOf(FiveDays(l)), 4) >= 2
  {
    hide FiveDays, MarketOf, RunTo, SignalsOn, GivenUp, SoldWhole, StreakBefore, Usual;
    MarketBars(l);
    FiveIsHeld(l);
    SaleQueuedIff(FiveDays(l), 4, 5);
    OnlySwitchDecides(l, StreakBefore(MarketOf(FiveDays(l)), 4));
  }

  /** Whether the close of day 24 queues an order that names the closed market filter. */
  lemma {:induction false} SwitchedOffIff(l: Listing)
    requires Usual(l) && 5 in MarketOf(FiveDays(l)).symbols && Keep(MarketOf(FiveDays(l)).symbols, {5}) == [5]
    ensures |MarketOf(FiveDays(l)).dates| == 5 && FiveDays(l).initialEquity > 0.0
    ensures RunTo(MarketOf(FiveDays(l)), 4).Ok?
    ensures SwitchedOff(RunTo(MarketOf(FiveDays(l)), 4).value.pending) <==> StreakBefore(MarketOf(FiveDays(l)), 4) >= 2
  {
    hide FiveDays, MarketOf, NextDay, Queue, SignalsOn, Trade, SwitchedOff, StreakBefore, AllFit, Usual;
    var x, m := FiveDays(l), MarketOf(FiveDays(l));
    InputsOf(l);
    FiveIsHeld(l);
    var before := RunTo(m, 3).value;
    RunIsOrderly(x, 3);
    EndsQueueing(m, 3, before);
    MarkKeepsOrderly(m, 3, before);
    var closed := Mark(m, 3, before, Trade(m, 3, before).value);
    PositionsAreSeen(m, m.dates[3], closed);
    QueueSwitchedOff(m, 3, closed, SignalsOn(m, m.dates[3]).value);
    QueueChangesOrders(m, 3, closed, SignalsOn(m, m.dates[3]).value);
    StreakOfRun(m, 4);
  }

  /** Nothing but the market filter gives up the position in stock 5. */
  lemma {:induction false} FiveIsUndecided(l: Listing)
    requires Usual(l) && 5 in MarketOf(FiveDays(l)).symbols && 6 in MarketOf(FiveDays(l)).symbols
    requires Keep(MarketOf(FiveDays(l)).symbols, {5}) == [5] && Keep(MarketOf(FiveDays(l)).symbols, {5, 6}) == [5, 6]
    ensures |MarketOf(FiveDays(l)).dates| == 5 && FiveDays(l).initialEquity > 0.0
    ensures RunTo(MarketOf(FiveDays(l)), 4).Ok? && SignalsOn(MarketOf(FiveDays(l)), 24).Ok?
    ensures Undecided(MarketOf(FiveDays(l)), SignalsOn(MarketOf(FiveDays(l)), 24).value,
                      RunTo(MarketOf(FiveDays(l)), 4).value, 3)
  {
    hide FiveDays, MarketOf, RunTo, SignalsOn, GivenUp, Usual;
    FiveIsHeld(l);
    OnlySwitchDecides(l, 0);
  }

  lemma {:induction false} TurnDiffers(x: Inputs, y: Inputs, i: nat)
    requires x.initialEquity > 0.0 && x.strategy.StrongTrend? && i < |MarketOf(x).dates| && i < |MarketOf(y).dates|
    requires RunTo(MarketOf(x), i + 1).Ok? && SignalsOn(MarketOf(x), MarketOf(x).dates[i]).Ok?
    requires Undecided(MarketOf(x), SignalsOn(MarketOf(x), MarketOf(x).dates[i]).value, RunTo(MarketOf(x), i + 1).value,
                       i)
    requires StreakBefore(MarketOf(x), i + 1) >= 2 > StreakBefore(MarketOf(y), i + 1)
    ensures !TurnsAlike(x, y, i)
  {
    hide MarketOf, RunTo, SignalsOn, Undecided, StreakBefore;
  }

  /** The position in stock 5 makes the two runs trade differently. */
  lemma {:induction false} TurnsDiffer()
    requires AgreeThrough(Short(), Long(), 24)
    ensures MarketOf(Short()).dates == MarketOf(Long()).dates == [21, 22, 23, 24, 25]
    ensures Short().initialEquity > 0.0 && Long().initialEquity > 0.0
    ensures RunTo(MarketOf(Short()), 4).Ok? && RunTo(MarketOf(Long()), 4).Ok?
    ensures !TurnsAlike(Short(), Long(), 3)
    ensures exists j: nat | j <= 4 :: !SameBareReport(Short(), Long(), j)
  {
    hide FiveDays, MarketOf, RunTo, AgreeThrough, Usual, ShortListing, LongListing, Quote, Daily, SignalsOn, Keep,
      StreakBefore, TurnsAlike, SameBareReport, Undecided;
    ListingsAreUsual();
    InputsOf(ShortListing);
    ShortMarket();
    LongMarket();
    Kept();
    Streaks();
    FiveIsUndecided(ShortListing);
    FiveIsUndecided(LongListing);
    TurnDiffers(Short(), Long(), 3);
    TradesAlikeIff(Short(), Long(), 24, 4);
  }

  // ----- the two runs

  lemma {:induction false} BarsAgree()
    ensures AgreeThrough(Short(), Long(), 24)
  {
    hide Daily, Quote, ShortListing, LongListing, UpTo;
    BarsThrough(ShortListing);
    BarsThrough(LongListing);
    assert forall d | 1 <= d <= 24 :: ShortListing(d) == LongListing(d) by { SameThrough(); }
    SameListing(Quote, ShortListing, LongListing, 24);
  }

  lemma SameThrough()
    ensures forall d | 1 <= d <= 24 :: ShortListing(d) == LongListing(d)
  {
  }

  lemma {:induction false} BarsThrough(l: Listing)
    requires l == ShortListing || l == LongListing
    ensures UpTo(Daily(Quote, l, 25), 24) == Daily(Quote, l, 24)
  {
    hide Quote, Block, ShortListing, LongListing;
    ListingsAreUsual();
    QuotesAreRegular();
    assert Daily(Quote, l, 25) == Daily(Quote, l, 24) + Block(Quote, l(25), 25);
    hide Daily;
    DailyIsSorted(Quote, l, 24);
    forall b | b in Block(Quote, l(25), 25) ensures b.date > 24 {
      BarsOfBlockAre(Quote, l(25), 25, b);
    }
    hide Regular, Usual, Ordered, Sorted;
    LaterBarsDrop(Block(Quote, l(25), 25), 24);
    UpToConcat(Daily(Quote, l, 24), Block(Quote, l(25), 25), 24);
    EarlierBarsStay(Daily(Quote, l, 24), 24);
  }

  lemma {:induction false} UpToConcat(xs: seq<MarketBar>, ys: seq<MarketBar>, t: Date)
    ensures UpTo(xs + ys, t) == UpTo(xs, t) + UpTo(ys, t)
  {
    if xs == [] {
      assert xs + ys == ys;
    } else {
      assert (xs + ys)[1..] == xs[1..] + ys;
      UpToConcat(xs[1..], ys, t);
    }
  }

  lemma {:induction false} EarlierBarsStay(bars: seq<MarketBar>, t: Date)
    requires forall b | b in bars :: b.date <= t
    ensures UpTo(bars, t) == bars
  {
    if bars == [] {
    } else {
      assert bars[0] in bars;
      EarlierBarsStay(bars[1..], t);
    }
  }

  /** The bars of the two inputs agree through day 24 and both backtests return results, and yet after day 24 both hold
      stock 5 and only the run that does not know of stock 3 has queued its sale. */
  lemma {:induction false} StrongCanLookAhead()
    ensures AgreeThrough(Short(), Long(), 24) && Short().strategy.StrongTrend?
    ensures Outcome(Short()).Ok? && Outcome(Long()).Ok?
    ensures MarketOf(Short()).dates == MarketOf(Long()).dates == [21, 22, 23, 24, 25]
    ensures Short().initialEquity > 0.0 && Long().initialEquity > 0.0
    ensures RunTo(MarketOf(Short()), 4).Ok? && RunTo(MarketOf(Long()), 4).Ok?
    ensures 5 in RunTo(MarketOf(Short()), 4).value.entries && 5 in RunTo(MarketOf(Long()), 4).value.entries
    ensures SoldWhole(RunTo(MarketOf(Short()), 4).value, 5)
    ensures !SoldWhole(RunTo(MarketOf(Long()), 4).value, 5)
    ensures SwitchedOff(RunTo(MarketOf(Short()), 4).value.pending)
    ensures !SwitchedOff(RunTo(MarketOf(Long()), 4).value.pending)
    ensures exists j: nat | j <= 4 :: !SameBareReport(Short(), Long(), j)
  {
    hide FiveDays, MarketOf, Outcome, RunTo, AgreeThrough, Usual, ShortListing, LongListing, Quote, Daily, SoldWhole,
      StreakBefore, SwitchedOff, SameBareReport;
    ListingsAreUsual();
    InputsOf(ShortListing);
    BarsAgree();
    BacktestReturns(ShortListing);
    BacktestReturns(LongListing);
    ShortMarket();
    LongMarket();
    Kept();
    SoldIff(ShortListing);
    SoldIff(LongListing);
    SwitchedOffIff(ShortListing);
    SwitchedOffIff(LongListing);
    Streaks();
    TurnsDiffer();
  }

  lemma Kept()
    ensures Keep([4, 5, 6], {5}) == Keep([3, 4, 5, 6], {5}) == [5]
    ensures Keep([4, 5, 6], {5, 6}) == Keep([3, 4, 5, 6], {5, 6}) == [5, 6]
  {
    assert [3, 4, 5, 6][1..] == [4, 5, 6] && [4, 5, 6][1..] == [5, 6] && [5, 6][1..] == [6] && [6][1..] == [];
    assert Keep([6], {5}) == [] && Keep([6], {5, 6}) == [6];
    assert Keep([5, 6], {5}) == [5] && Keep([5, 6], {5, 6}) == [5, 6];
    assert Keep([4, 5, 6], {5}) == [5] && Keep([4, 5, 6], {5, 6}) == [5, 6];
  }
}
