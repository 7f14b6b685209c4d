/** What the strategies' scores and selections amount to. */
module StrategyProofs {
  import opened Common
  import opened Sorting
  import opened Ranking
  import opened Selection
  import opened Simulator
  import opened Strategy

  // ----- scores of the strong-trend strategy

  lemma StrongScoreInUnit(all: seq<Feature>, f: Feature)
    requires f in all && forall g | g in all :: Measured(g)
    ensures 0.0 <= StrongScore(all, f) <= 1.0
  {
    hide Rank;
    RankInUnit(Column(all, Return5), ValueOf(f, Return5));
    RankInUnit(Column(all, Return20), ValueOf(f, Return20));
    RankInUnit(Column(all, Ratio), ValueOf(f, Ratio));
  }

  /** Scores of a stretch of the candidates are the weighted sum of its three rank totals. */
  lemma {:induction false} ScoreTotalSplits(all: seq<Feature>, fs: seq<Feature>)
    requires forall g | g in all :: Measured(g)
    requires forall f | f in fs :: f in all
    ensures forall m | m in [Return5, Return20, Ratio] :: forall v | v in Column(fs, m) :: v in Column(all, m)
    ensures Sum(ScoresOf(StrongSignals(all, fs))) ==
              0.50 * RankTotal(Column(all, Return5), Column(fs, Return5))
            + 0.25 * RankTotal(Column(all, Return20), Column(fs, Return20))
            + 0.25 * RankTotal(Column(all, Ratio), Column(fs, Ratio))
  {
    hide Rank;
    if fs == [] {
    } else {
      ScoreTotalSplits(all, fs[1..]);
      var head := EntrySignal(fs[0].symbol, fs[0].date, StrongScore(all, fs[0]), 0, fs[0].industry);
      assert StrongSignals(all, fs) == [head] + StrongSignals(all, fs[1..]);
      assert ScoresOf(StrongSignals(all, fs)) == [head.score] + ScoresOf(StrongSignals(all, fs[1..]));
    }
  }

  function ScoresOf(xs: seq<EntrySignal>): seq<real> {
    if xs == [] then [] else [xs[0].score] + ScoresOf(xs[1..])
  }

  /** Over `n` candidates the scores add up to exactly n/2; a lone candidate scores 1. */
  lemma StrongScoresSumToHalf(all: seq<Feature>)
    requires forall g | g in all :: Measured(g)
    ensures |all| >= 2 ==> Sum(ScoresOf(StrongSignals(all, all))) == |all| as real / 2.0
    ensures |all| == 1 ==> Sum(ScoresOf(StrongSignals(all, all))) == 1.0
  {
    hide Rank, StrongSignals, ScoresOf;
    ScoreTotalSplits(all, all);
    RanksSumToHalf(Column(all, Return5));
    RanksSumToHalf(Column(all, Return20));
    RanksSumToHalf(Column(all, Ratio));
  }

  // ----- ranked lists and greedy selection

  lemma ByScoreIsTotal()
    ensures TotalPreorder(ByScore)
  {
  }

  /** Sorting signals with non-negative scores gives the kind of list greedy selection needs. */
  lemma SortedSignalsAreRanked(xs: seq<EntrySignal>)
    requires forall x | x in xs :: x.score >= 0.0
    ensures RankedByScore(Number(Sort(ByScore, xs)))
  {
    ByScoreIsTotal();
    SortSorts(ByScore, xs);
    SortKeepsElements(ByScore, xs);
    var s := Sort(ByScore, xs);
    forall i | 0 <= i < |s| ensures s[i].score >= 0.0 {
      assert s[i] in s;
    }
    forall i, j | 0 <= i < j < |s| ensures s[i].score >= s[j].score {
      assert ByScore(s[i], s[j]);
    }
  }

  lemma QuotientAboveOne(a: real, b: real)
    requires a > b > 0.0
    ensures a / b > 1.0
  {
    assert a / b * b == a;
    assert (a / b - 1.0) * b == a - b;
  }

  /** A moving-average candidate scores above zero when its long average is positive. */
  lemma TrendScorePositive(p: StrategyConfig, f: Feature, cutoff: Cutoff)
    requires p.MovingAverageTrend? && IsCandidate(p, f, cutoff) && f.longMean.value > 0.0
    ensures TrendScore(f).Ok? && TrendScore(f).value > 0.0
  {
    QuotientAboveOne(f.close.value, f.shortMean.value);
    QuotientAboveOne(f.shortMean.value, f.longMean.value);
  }

  /** Both strategies: what is selected from the ranked candidates has the highest total score of all
      choices within the position and industry limits. Averages of the moving-average strategy are
      taken to be positive, as averages of prices are. */
  lemma SelectionIsOptimal(p: StrategyConfig, fs: seq<Feature>, cutoff: Cutoff, c: Choice)
    requires RankCandidates(p, fs, cutoff).Ok?
    requires p.MovingAverageTrend? ==> forall f | f in fs && Averaged(f) :: f.longMean.value > 0.0
    requires Feasible(RankCandidates(p, fs, cutoff).value, c, p.maxPositions, p.maxPerIndustry)
    ensures var ranked := RankCandidates(p, fs, cutoff).value;
            Score(ranked, c) <= TotalScore(Select(ranked, p.maxPositions, p.maxPerIndustry))
  {
    var candidates := Candidates(p, fs, cutoff);
    var signals := Scored(p, candidates, cutoff).value;
    forall x | x in signals ensures x.score >= 0.0 {
      var i :| 0 <= i < |signals| && signals[i] == x;
      assert IsCandidate(p, candidates[i], cutoff);
      if p.StrongTrend? {
        assert forall f | f in candidates :: IsCandidate(p, f, cutoff) ==> Measured(f);
        StrongScoreInUnit(candidates, candidates[i]);
      } else {
        TrendScorePositive(p, candidates[i], cutoff);
      }
    }
    SortedSignalsAreRanked(signals);
    GreedyIsOptimal(RankCandidates(p, fs, cutoff).value, c, p.maxPositions, p.maxPerIndustry);
  }

  // ----- histories

  /** Bars in date order give histories in date order, so sorting a history by date changes nothing. */
  lemma {:induction false} HistoryInOrder(bars: seq<MarketBar>, s: Symbol, date: Date, cutoff: Cutoff)
    requires forall i, j | 0 <= i < j < |bars| :: bars[i].date <= bars[j].date
    ensures forall h | h in History(bars, s, date, cutoff) :: h.symbol == s && h.date <= date
    ensures bars != [] ==> forall h | h in History(bars, s, date, cutoff) :: bars[0].date <= h.date
    ensures forall i, j | 0 <= i < j < |History(bars, s, date, cutoff)| ::
              History(bars, s, date, cutoff)[i].date <= History(bars, s, date, cutoff)[j].date
    ensures Sort((a: DailyBar, b: DailyBar) => a.date <= b.date, History(bars, s, date, cutoff))
              == History(bars, s, date, cutoff)
  {
    if bars != [] {
      HistoryInOrder(bars[1..], s, date, cutoff);
    }
    SortOfSorted((a: DailyBar, b: DailyBar) => a.date <= b.date, History(bars, s, date, cutoff));
  }

  // ----- exits

  lemma JoinedReasons(a: seq<Reason>, b: seq<Reason>, c: seq<Reason>, d: seq<Reason>)
    ensures forall r :: r in a + b + c + d <==> r in a || r in b || r in c || r in d
  {
  }

  lemma WhenHas(condition: bool, reason: Reason)
    ensures forall r :: r in When(condition, reason) <==> condition && r == reason
  {
  }

  /** Each reason to sell is given exactly under its own condition; a position out of the pool is not
      also reported for its rank. */
  lemma StrongExitIff(drawdownExit: real, maxHoldingDays: int, close: Option<real>, entryPrice: real, heldDays: int,
                      rank: nat, count: nat, streak: nat, eligible: bool)
    ensures var reasons := StrongExit(drawdownExit, maxHoldingDays, close, entryPrice, heldDays, rank, count, streak,
                                      eligible);
            && (MaxHoldingDays in reasons <==> heldDays >= maxHoldingDays)
            && (NotEligible in reasons <==> !eligible)
            && (RankOutOfPool in reasons <==> eligible && count > 0 && 2 * rank > count)
            && (EntryDrawdown in reasons <==> close.Some? && close.value <= ExitPrice(entryPrice, drawdownExit))
            && (MarketSwitchOff in reasons <==> streak >= 2)
  {
    var outOfPool := count > 0 && rank as real > count as real / 2.0;
    var fallen := close.Some? && close.value <= ExitPrice(entryPrice, drawdownExit);
    assert outOfPool <==> count > 0 && 2 * rank > count;
    WhenHas(heldDays >= maxHoldingDays, MaxHoldingDays);
    WhenHas(outOfPool, RankOutOfPool);
    WhenHas(fallen, EntryDrawdown);
    WhenHas(streak >= 2, MarketSwitchOff);
    hide When, ExitPrice;
    JoinedReasons(When(heldDays >= maxHoldingDays, MaxHoldingDays),
                  if !eligible then [NotEligible] else When(outOfPool, RankOutOfPool),
                  When(fallen, EntryDrawdown), When(streak >= 2, MarketSwitchOff));
  }

  lemma {:induction false} ColumnsAt(h: seq<DailyBar>)
    ensures forall i | 0 <= i < |h| :: Closes(h)[i] == h[i].close && Amounts(h)[i] == h[i].amount
  {
    if h == [] {
    } else {
      ColumnsAt(h[1..]);
    }
  }
}
