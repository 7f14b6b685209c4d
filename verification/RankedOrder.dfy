/** The order of the ranked list of a close, and the scores behind it, told from histories and by counting. */
module RankedOrder {
  import opened Common
  import opened Sorting
  import opened Ranking
  import opened Selection
  import opened Strategy
  import opened StrategyProofs
  import opened EventLoop
  import opened RunSafety
  import opened NoLookAhead
  import opened EntrySignals

  // ----- every symbol once

  ghost predicate SymbolsRise(fs: seq<Feature>) {
    forall i, j | 0 <= i < j < |fs| :: fs[i].symbol < fs[j].symbol
  }

  lemma {:induction false} FeaturesInOrder(m: Market, symbols: seq<Symbol>, date: Date)
    requires Ascending(symbols) && Features(m, symbols, date).Ok?
    ensures forall i | 0 <= i < |symbols| :: Features(m, symbols, date).value[i].symbol == symbols[i]
    ensures SymbolsRise(Features(m, symbols, date).value)
  {
    hide FeatureOf;
    if symbols == [] {
    } else {
      FeaturesInOrder(m, symbols[1..], date);
      var fs := Features(m, symbols, date).value;
      forall i | 0 <= i < |symbols| ensures fs[i].symbol == symbols[i] {
        if i > 0 { assert symbols[1..][i - 1] == symbols[i]; }
      }
    }
  }

  lemma {:induction false} RestrictRises(fs: seq<Feature>, pool: set<Symbol>)
    requires SymbolsRise(fs)
    ensures SymbolsRise(Restrict(fs, pool))
  {
    if fs == [] {
    } else {
      RestrictRises(fs[1..], pool);
      RestrictInPool(fs[1..], pool);
      var rest := Restrict(fs[1..], pool);
      forall i | 0 <= i < |rest| ensures fs[0].symbol < rest[i].symbol {
        assert rest[i] in fs[1..];
      }
    }
  }

  lemma {:induction false} CandidatesRise(p: StrategyConfig, fs: seq<Feature>, cutoff: Cutoff)
    requires SymbolsRise(fs)
    ensures SymbolsRise(Candidates(p, fs, cutoff))
  {
    hide IsCandidate;
    if fs == [] {
    } else {
      CandidatesRise(p, fs[1..], cutoff);
      var rest := Candidates(p, fs[1..], cutoff);
      CandidatesHave(p, fs[1..], cutoff);
      forall i | 0 <= i < |rest| ensures fs[0].symbol < rest[i].symbol {
        assert rest[i] in fs[1..];
      }
    }
  }

  lemma {:induction false} RankedFeaturesRise(x: Inputs, date: Date)
    requires SignalsOn(MarketOf(x), date).Ok?
    ensures Features(MarketOf(x), MarketOf(x).symbols, date).Ok?
    ensures SymbolsRise(RankedFeatures(MarketOf(x), date))
  {
    SymbolsAscend(x);
    hide MarketOf, Candidates, Restrict, EligibleOn, RankCandidates, FeatureOf;
    var m := MarketOf(x);
    var pool := EligibleOn(m.x, BarsOn(m.bars, date));
    FeaturesInOrder(m, m.symbols, date);
    RestrictRises(Features(m, m.symbols, date).value, pool);
    CandidatesRise(m.x.strategy, Restrict(Features(m, m.symbols, date).value, pool), m.x.cutoff);
  }

  lemma SymbolsAscend(x: Inputs)
    ensures Ascending(MarketOf(x).symbols)
  {
    SortedUniqueAscends(EverEligible(x, MarketOf(x).bars));
  }

  // ----- sorted and numbered

  /** Best score first, the lower symbol of equals; numbered from one. */
  ghost predicate BestFirst(ranked: seq<EntrySignal>) {
    && (forall i | 0 <= i < |ranked| :: ranked[i].rank == i + 1)
    && (forall i, j | 0 <= i < j < |ranked| ::
          ranked[i].score > ranked[j].score
              || (ranked[i].score == ranked[j].score && ranked[i].symbol < ranked[j].symbol))
  }

  lemma {:induction false} OnceInMultiset(signals: seq<EntrySignal>, e: EntrySignal)
    requires forall i, j | 0 <= i < j < |signals| :: signals[i].symbol != signals[j].symbol
    ensures multiset(signals)[e] <= 1
  {
    if signals == [] {
    } else {
      OnceInMultiset(signals[1..], e);
      assert signals == [signals[0]] + signals[1..];
      assert forall j | 0 <= j < |signals[1..]| :: signals[1..][j].symbol != signals[0].symbol;
    }
  }

  lemma {:induction false} DistinctSorted(signals: seq<EntrySignal>)
    requires forall i, j | 0 <= i < j < |signals| :: signals[i].symbol != signals[j].symbol
    ensures BestFirst(Number(Sort(ByScore, signals)))
    ensures var ranked := Number(Sort(ByScore, signals));
            forall i, j | 0 <= i < j < |ranked| :: ranked[i].symbol != ranked[j].symbol
  {
    ByScoreIsTotal();
    SortSorts(ByScore, signals);
    SortKeepsElements(ByScore, signals);
    var sorted := Sort(ByScore, signals);
    forall i, j | 0 <= i < j < |sorted|
      ensures sorted[i].score > sorted[j].score
                || (sorted[i].score == sorted[j].score && sorted[i].symbol < sorted[j].symbol)
      ensures sorted[i].symbol != sorted[j].symbol
    {
      assert ByScore(sorted[i], sorted[j]);
      if sorted[i].symbol == sorted[j].symbol {
        assert sorted[i] in signals && sorted[j] in signals;
        SameSignal(signals, sorted[i], sorted[j]);
        TwiceInSorted(sorted, i, j);
        OnceInMultiset(signals, sorted[i]);
      }
    }
  }

  lemma SameSignal(signals: seq<EntrySignal>, a: EntrySignal, b: EntrySignal)
    requires forall i, j | 0 <= i < j < |signals| :: signals[i].symbol != signals[j].symbol
    requires a in signals && b in signals && a.symbol == b.symbol
    ensures a == b
  {
  }

  lemma TwiceInSorted(xs: seq<EntrySignal>, i: nat, j: nat)
    requires i < j < |xs| && xs[i] == xs[j]
    ensures multiset(xs)[xs[i]] >= 2
  {
    assert xs == xs[..i] + [xs[i]] + xs[i + 1..j] + [xs[j]] + xs[j + 1..];
  }

  /** The signals of the features that are ranked, before they are sorted. */
  lemma {:induction false} SignalsOf(x: Inputs, date: Date) returns (all: seq<Feature>, signals: seq<EntrySignal>)
    requires SignalsOn(MarketOf(x), date).Ok?
    ensures Features(MarketOf(x), MarketOf(x).symbols, date).Ok? && all == RankedFeatures(MarketOf(x), date)
    ensures forall f | f in all :: IsCandidate(x.strategy, f, x.cutoff)
    ensures Scored(x.strategy, all, x.cutoff) == Ok(signals)
    ensures SignalsOn(MarketOf(x), date).value.ranked == Number(Sort(ByScore, signals))
    ensures |signals| == |all|
    ensures forall i | 0 <= i < |all| ::
              signals[i] == EntrySignal(all[i].symbol, all[i].date, signals[i].score, 0, all[i].industry)
  {
    hide MarketOf, FeatureOf, Restrict, EligibleOn, IsCandidate, StrongScore, TrendScore, Number, Sort, ByScore;
    var m := MarketOf(x);
    MarketIsOf(x);
    all := RankedFeatures(m, date);
    signals := Scored(x.strategy, all, x.cutoff).value;
    CandidatesHave(x.strategy, Restrict(Features(m, m.symbols, date).value, EligibleOn(m.x, BarsOn(m.bars, date))),
                   x.cutoff);
  }

  /** The ranked list of every close is in order of score, every symbol once, of the day, and in the industry that the
      stock's last bar gives it. */
  lemma {:induction false} RankedInOrder(x: Inputs, date: Date)
    requires SignalsOn(MarketOf(x), date).Ok?
    ensures var ranked := SignalsOn(MarketOf(x), date).value.ranked;
            && BestFirst(ranked)
            && (forall i, j | 0 <= i < j < |ranked| :: ranked[i].symbol != ranked[j].symbol)
            && forall e | e in ranked ::
                 && e.date == date && HistoryIn(MarketOf(x), e.symbol, date) != []
                 && var h := HistoryIn(MarketOf(x), e.symbol, date); e.industry == h[|h| - 1].industry
  {
    hide MarketOf, RankedFeatures, IsCandidate, Number, Sort, ByScore, Scored, HistoryIn, BestFirst, Qualifies;
    var all, signals := SignalsOf(x, date);
    RankedFeaturesRise(x, date);
    DistinctSorted(signals);
    var ranked := Number(Sort(ByScore, signals));
    SortedSignalsAre(signals);
    forall e | e in ranked
      ensures e.date == date && HistoryIn(MarketOf(x), e.symbol, date) != []
      ensures var h := HistoryIn(MarketOf(x), e.symbol, date); e.industry == h[|h| - 1].industry
    {
      var k :| 0 <= k < |signals| && signals[k].symbol == e.symbol && signals[k].date == e.date
          && signals[k].industry == e.industry;
      FeatureOfRanked(x, date, all[k]);
    }
  }

  /** A ranked feature is of the day, and its symbol's last bar is the day's. */
  lemma {:induction false} FeatureOfRanked(x: Inputs, date: Date, f: Feature)
    requires SignalsOn(MarketOf(x), date).Ok?
    requires Features(MarketOf(x), MarketOf(x).symbols, date).Ok? && f in RankedFeatures(MarketOf(x), date)
    ensures var h := HistoryIn(MarketOf(x), f.symbol, date);
            h != [] && f.date == date && f.industry == h[|h| - 1].industry
  {
    hide MarketOf, RankedFeatures, IsCandidate, InOrder, BuildStrong, BuildTrend, History, TailMean, TailReturn,
      AmountRatio;
    var m := MarketOf(x);
    MarketIsOf(x);
    RankedFeaturesAre(x, date);
    HistoriesInOrder(x, f.symbol, date);
    HistoriesInOrder(x, x.benchmark, date);
    var h, g := HistoryIn(m, f.symbol, date), HistoryIn(m, x.benchmark, date);
    assert Wanted(x.strategy, h, g, date, x.cutoff);
    match x.strategy {
      case StrongTrend(_, _, _, _, _, _, _, _) => StrongFeatureIs(h, g, f.symbol, date, x.cutoff, f);
      case MovingAverageTrend(_, _, _, short, long, _) => TrendFeatureIs(h, g, f.symbol, date, x.cutoff, short, long);
    }
  }

  lemma {:induction false} SortedSignalsAre(signals: seq<EntrySignal>)
    ensures var ranked := Number(Sort(ByScore, signals));
            && |ranked| == |signals|
            && forall e | e in ranked :: exists k | 0 <= k < |signals| ::
                 signals[k].symbol == e.symbol && signals[k].date == e.date && signals[k].industry == e.industry
                 && signals[k].score == e.score
  {
    hide Sort, ByScore;
    SortKeepsElements(ByScore, signals);
    var sorted := Sort(ByScore, signals);
    var ranked := Number(sorted);
    forall e | e in ranked
      ensures exists k | 0 <= k < |signals| :: signals[k].symbol == e.symbol && signals[k].date == e.date
                && signals[k].industry == e.industry && signals[k].score == e.score
    {
      var i :| 0 <= i < |ranked| && ranked[i] == e;
      assert sorted[i] in signals;
      var k :| 0 <= k < |signals| && signals[k] == sorted[i];
    }
  }

  // ----- the scores

  function MeanClose(h: seq<DailyBar>, n: nat): real
    requires 0 < n <= |h|
  {
    Sum(LastCloses(h, n)) / n as real
  }

  /** A moving-average candidate scores how far its close is above its short mean and that above its long mean. */
  lemma {:induction false} TrendScores(x: Inputs, date: Date, e: EntrySignal)
    requires x.strategy.MovingAverageTrend? && SignalsOn(MarketOf(x), date).Ok?
    requires e in SignalsOn(MarketOf(x), date).value.ranked
    ensures var h := HistoryIn(MarketOf(x), e.symbol, date);
            && |h| >= x.strategy.longWindow
            && MeanClose(h, x.strategy.shortWindow) != 0.0 && MeanClose(h, x.strategy.longWindow) != 0.0
            && e.score == h[|h| - 1].close / MeanClose(h, x.strategy.shortWindow)
                          + MeanClose(h, x.strategy.shortWindow) / MeanClose(h, x.strategy.longWindow) - 2.0
  {
    hide MarketOf, RankedFeatures, IsCandidate, Number, Sort, ByScore, HistoryIn, MeanClose, Qualifies, TrendScore,
      Features;
    var all, signals := SignalsOf(x, date);
    SortedSignalsAre(signals);
    var k :| 0 <= k < |signals| && signals[k].symbol == e.symbol && signals[k].score == e.score;
    TrendFeatureOfRanked(x, date, all[k]);
    assert TrendScore(all[k]) == Ok(e.score);
    TrendScoreIs(all[k]);
  }

  lemma TrendScoreIs(f: Feature)
    requires Averaged(f) && TrendScore(f).Ok?
    ensures f.shortMean.value != 0.0 && f.longMean.value != 0.0
    ensures TrendScore(f).value == f.close.value / f.shortMean.value + f.shortMean.value / f.longMean.value - 2.0
  {
  }

  lemma {:induction false} TrendFeatureOfRanked(x: Inputs, date: Date, f: Feature)
    requires x.strategy.MovingAverageTrend? && SignalsOn(MarketOf(x), date).Ok?
    requires Features(MarketOf(x), MarketOf(x).symbols, date).Ok? && f in RankedFeatures(MarketOf(x), date)
    ensures var h := HistoryIn(MarketOf(x), f.symbol, date);
            && |h| >= x.strategy.longWindow && Averaged(f)
            && f.close.value == h[|h| - 1].close && f.shortMean.value == MeanClose(h, x.strategy.shortWindow)
            && f.longMean.value == MeanClose(h, x.strategy.longWindow)
  {
    hide MarketOf, RankedFeatures, IsCandidate, InOrder, BuildTrend, History, TailMean, Sum, LastCloses, AboveMean;
    var m := MarketOf(x);
    MarketIsOf(x);
    RankedFeaturesAre(x, date);
    HistoriesInOrder(x, f.symbol, date);
    HistoriesInOrder(x, x.benchmark, date);
    var h, g := HistoryIn(m, f.symbol, date), HistoryIn(m, x.benchmark, date);
    assert Wanted(x.strategy, h, g, date, x.cutoff);
    TrendFeatureIs(h, g, f.symbol, date, x.cutoff, x.strategy.shortWindow, x.strategy.longWindow);
    TailMeanIs(h, x.strategy.shortWindow);
    TailMeanIs(h, x.strategy.longWindow);
  }

  /** A stock's figure in one of the three respects. */
  function Figure(h: seq<DailyBar>, measure: Measure): real {
    match measure
    case Return5 => if |h| > 5 && h[|h| - 6].close != 0.0 then h[|h| - 1].close / h[|h| - 6].close - 1.0 else 0.0
    case Return20 => if |h| > 20 && h[|h| - 21].close != 0.0 then h[|h| - 1].close / h[|h| - 21].close - 1.0 else 0.0
    case Ratio =>
      if |h| >= 20 && Sum(LastAmounts(h, 20)) != 0.0 && Sum(LastAmounts(h, 20)) / 20.0 != 0.0
      then (Sum(LastAmounts(h, 5)) / 5.0) / (Sum(LastAmounts(h, 20)) / 20.0) else 0.0
  }

  /** Two points for every ranked symbol with a lower figure, one for every other with the same. */
  ghost function Points(m: Market, ranked: seq<EntrySignal>, s: Symbol, date: Date, measure: Measure): int {
    var mine := Figure(HistoryIn(m, s, date), measure);
    var all := set e | e in ranked :: e.symbol;
    2 * |set u | u in all && Figure(HistoryIn(m, u, date), measure) < mine|
    + |set u | u in all && Figure(HistoryIn(m, u, date), measure) == mine| - 1
  }

  function SymbolsBelow(all: seq<Feature>, measure: Measure, v: real): set<Symbol>
    requires forall f | f in all :: Measured(f)
  {
    set f | f in all && ValueOf(f, measure) < v :: f.symbol
  }

  function SymbolsSame(all: seq<Feature>, measure: Measure, v: real): set<Symbol>
    requires forall f | f in all :: Measured(f)
  {
    set f | f in all && ValueOf(f, measure) == v :: f.symbol
  }

  lemma {:induction false} SetsSplit(all: seq<Feature>, measure: Measure, v: real)
    requires all != [] && SymbolsRise(all) && forall f | f in all :: Measured(f)
    ensures SymbolsBelow(all, measure, v)
         == (if ValueOf(all[0], measure) < v then {all[0].symbol} else {}) + SymbolsBelow(all[1..], measure, v)
    ensures SymbolsSame(all, measure, v)
         == (if ValueOf(all[0], measure) == v then {all[0].symbol} else {}) + SymbolsSame(all[1..], measure, v)
    ensures all[0].symbol !in SymbolsBelow(all[1..], measure, v) && all[0].symbol !in SymbolsSame(all[1..], measure, v)
  {
    hide ValueOf, Measured;
    assert forall g :: g in all <==> g == all[0] || g in all[1..];
  }

  lemma {:induction false} CountsAreSets(all: seq<Feature>, measure: Measure, v: real)
    requires SymbolsRise(all) && forall f | f in all :: Measured(f)
    ensures CountBelow(Column(all, measure), v) == |SymbolsBelow(all, measure, v)|
    ensures CountEqual(Column(all, measure), v) == |SymbolsSame(all, measure, v)|
  {
    hide ValueOf, Measured;
    if all == [] {
      assert SymbolsBelow(all, measure, v) == {} && SymbolsSame(all, measure, v) == {};
    } else {
      CountsAreSets(all[1..], measure, v);
      SetsSplit(all, measure, v);
      assert Column(all, measure)[1..] == Column(all[1..], measure);
      hide SymbolsBelow, SymbolsSame, Column;
    }
  }

  lemma {:induction false} StrongFeatureOfRanked(x: Inputs, date: Date, f: Feature)
    requires x.strategy.StrongTrend? && SignalsOn(MarketOf(x), date).Ok?
    requires Features(MarketOf(x), MarketOf(x).symbols, date).Ok? && f in RankedFeatures(MarketOf(x), date)
    ensures Measured(f)
    ensures forall measure: Measure :: ValueOf(f, measure) == Figure(HistoryIn(MarketOf(x), f.symbol, date), measure)
  {
    hide MarketOf, RankedFeatures, IsCandidate, InOrder, BuildStrong, History, TailMean, TailReturn, AmountRatio,
      AboveMean, Sum,
      LastAmounts;
    var m := MarketOf(x);
    MarketIsOf(x);
    RankedFeaturesAre(x, date);
    HistoriesInOrder(x, f.symbol, date);
    HistoriesInOrder(x, x.benchmark, date);
    var h, g := HistoryIn(m, f.symbol, date), HistoryIn(m, x.benchmark, date);
    assert Wanted(x.strategy, h, g, date, x.cutoff);
    StrongFeatureIs(h, g, f.symbol, date, x.cutoff, f);
    TailReturnIs(h, 5);
    TailReturnIs(h, 20);
    AmountRatioIs(h);
  }

  /** Over the ranked features' symbols the two ways of counting are the same. */
  lemma {:induction false} PointsAre(x: Inputs, date: Date, all: seq<Feature>, f: Feature, measure: Measure)
    requires x.strategy.StrongTrend? && SignalsOn(MarketOf(x), date).Ok?
    requires Features(MarketOf(x), MarketOf(x).symbols, date).Ok? && all == RankedFeatures(MarketOf(x), date)
               && f in all
    ensures forall g | g in all :: Measured(g)
    ensures Weight(Column(all, measure), ValueOf(f, measure)) - 1
         == Points(MarketOf(x), SignalsOn(MarketOf(x), date).value.ranked, f.symbol, date, measure)
  {
    hide MarketOf, RankedFeatures, HistoryIn, Figure, Column, ValueOf, Measured, RankCandidates, Qualifies;
    var m, ranked := MarketOf(x), SignalsOn(MarketOf(x), date).value.ranked;
    RankedFeaturesAre(x, date);
    RankedFeaturesRise(x, date);
    forall g | g in all ensures Measured(g) && ValueOf(g, measure) == Figure(HistoryIn(m, g.symbol, date), measure) {
      StrongFeatureOfRanked(x, date, g);
    }
    var v := ValueOf(f, measure);
    CountsAreSets(all, measure, v);
    forall s ensures Ranks(ranked, s) <==> HasFeature(all, s) {
      RankedIff(x, date, s);
      if HasFeature(all, s) {
        var g :| g in all && g.symbol == s;
      }
    }
    var symbols := set e | e in ranked :: e.symbol;
    assert forall s :: s in symbols <==> HasFeature(all,
                                                    s) by { assert forall s :: s in symbols <==> Ranks(ranked, s); }
    assert SymbolsBelow(all, measure, v) == set u | u in symbols && Figure(HistoryIn(m, u, date), measure) < v;
    assert SymbolsSame(all, measure, v) == set u | u in symbols && Figure(HistoryIn(m, u, date), measure) == v;
  }

  lemma WeighedScore(n: int, a: int, b: int, c: int, score: real)
    requires n >= 2
    requires score == 0.50 * (a as real / (2 * n - 2) as real) + 0.25 * (b as real / (2 * n - 2) as real)
                      + 0.25 * (c as real / (2 * n - 2) as real)
    ensures score * (8 * n - 8) as real == (2 * a + b + c) as real
  {
    var d := (2 * n - 2) as real;
    var p, q, r := a as real / d, b as real / d, c as real / d;
    assert p * d == a as real && q * d == b as real && r * d == c as real;
    assert (8 * n - 8) as real == 4.0 * d;
    assert (0.50 * p + 0.25 * q + 0.25 * r) * (4.0 * d) == 2.0 * (p * d) + q * d + r * d;
  }

  lemma {:induction false} SignalScore(all: seq<Feature>, k: nat)
    requires k < |all| && forall g | g in all :: Measured(g)
    ensures all[k] in all && StrongSignals(all, all)[k].score == StrongScore(all, all[k])
  {
    hide StrongScore, Measured;
  }

  /** Half of a strong-trend score is for the 5-bar return and a quarter each for the 20-bar return and the amounts; in
      each respect a ranked symbol has two points for every one it beats and one for every one it ties with, of two for
      every other. A lone candidate scores 1. */
  lemma {:induction false} StrongScores(x: Inputs, date: Date, e: EntrySignal)
    requires x.strategy.StrongTrend? && SignalsOn(MarketOf(x), date).Ok?
    requires e in SignalsOn(MarketOf(x), date).value.ranked
    ensures var m, ranked := MarketOf(x), SignalsOn(MarketOf(x), date).value.ranked;
            var n := |ranked|;
            && (n == 1 ==> e.score == 1.0)
            && (n >= 2 ==>
                  e.score * (8 * n - 8) as real
                  == (2 * Points(m, ranked, e.symbol, date, Return5) + Points(m, ranked, e.symbol, date, Return20)
                      + Points(m, ranked, e.symbol, date, Ratio)) as real)
  {
    hide MarketOf, RankedFeatures, IsCandidate, Number, Sort, ByScore, HistoryIn, Points, Rank, Column, ValueOf, Weight,
      Features,
      StrongSignals;
    var all, signals := SignalsOf(x, date);
    SortedSignalsAre(signals);
    var k :| 0 <= k < |signals| && signals[k].symbol == e.symbol && signals[k].score == e.score;
    var f := all[k];
    PointsAre(x, date, all, f, Return5);
    PointsAre(x, date, all, f, Return20);
    PointsAre(x, date, all, f, Ratio);
    SignalScore(all, k);
    ScoreParts(all, f);
    if |all| >= 2 {
      WeighedScore(|all|, Weight(Column(all, Return5), ValueOf(f, Return5)) - 1,
                   Weight(Column(all, Return20),
                          ValueOf(f, Return20)) - 1, Weight(Column(all, Ratio), ValueOf(f, Ratio)) - 1,
                   e.score);
    }
  }

  /** One respect's part of a score, by how many are beaten and tied. */
  function RankPart(all: seq<Feature>, f: Feature, measure: Measure): real
    requires f in all && |all| >= 1 && forall g | g in all :: Measured(g)
  {
    if |all| == 1 then 1.0
    else (Weight(Column(all, measure), ValueOf(f, measure)) - 1) as real / (2 * |all| - 2) as real
  }

  lemma {:induction false} RankIsPart(all: seq<Feature>, f: Feature, measure: Measure)
    requires f in all && forall g | g in all :: Measured(g)
    ensures Rank(Column(all, measure), ValueOf(f, measure)) == RankPart(all, f, measure)
  {
    hide Rank, Column, ValueOf, Weight, Measured;
    if |all| == 1 {
      LoneRank(Column(all, measure), ValueOf(f, measure));
    } else {
      RankCounts(Column(all, measure), ValueOf(f, measure));
    }
  }

  lemma {:induction false} ScoreParts(all: seq<Feature>, f: Feature)
    requires f in all && forall g | g in all :: Measured(g)
    ensures StrongScore(all, f)
         == 0.50 * RankPart(all, f, Return5) + 0.25 * RankPart(all, f, Return20) + 0.25 * RankPart(all, f, Ratio)
  {
    hide Rank, Column, ValueOf, Weight, Measured, RankPart;
    RankIsPart(all, f, Return5);
    RankIsPart(all, f, Return20);
    RankIsPart(all, f, Ratio);
  }

  lemma LoneRank(values: seq<real>, v: real)
    requires |values| == 1 && v in values
    ensures Rank(values, v) == 1.0
  {
    SortKeepsElements(Descending, values);
  }
}
