/** Preparing a run: which bars, dates and symbols its day loop sees, told from the inputs alone. */
module Preparation {
  import opened Common
  import opened Sorting
  import opened Simulator
  import opened EventLoop
  import opened BarLists
  import opened Marking

  /** The run may use the bar: it is not after the end, and was known by the cutoff. */
  predicate Usable(x: Inputs, b: MarketBar) {
    b.date <= x.end && b.availableAt.Some? && b.availableAt.value <= x.cutoff.at
  }

  /** The last usable bar the inputs give for a symbol and date. */
  ghost predicate LastGiven(x: Inputs, bars: seq<MarketBar>, s: Symbol, d: Date, j: nat) {
    && j < |bars| && bars[j].symbol == s && bars[j].date == d && Usable(x, bars[j])
    && forall i | j < i < |bars| && Usable(x, bars[i]) :: bars[i].symbol != s || bars[i].date != d
  }

  ghost predicate Given(x: Inputs, bars: seq<MarketBar>, s: Symbol, d: Date, b: MarketBar) {
    exists j: nat :: LastGiven(x, bars, s, d, j) && bars[j] == b
  }

  ghost predicate Stands(bars: seq<MarketBar>, s: Symbol, d: Date, b: MarketBar) {
    exists j: nat :: StandsFor(bars, s, d, j) && bars[j] == b
  }

  predicate Stock(x: Inputs, s: Symbol) {
    s != x.benchmark && Some(s) != x.secondaryBenchmark
  }

  // ----- admission and sorting

  lemma {:induction false} InsertedBarsOn(b: MarketBar, bars: seq<MarketBar>, d: Date)
    ensures BarsOn(Insert(BarOrder, b, bars), d) == BarsOn([b] + bars, d)
  {
    assert ([b] + bars)[1..] == bars;
    if bars == [] || BarOrder(b, bars[0]) {
    } else {
      InsertedBarsOn(b, bars[1..], d);
      var rest := Insert(BarOrder, b, bars[1..]);
      assert ([bars[0]] + rest)[1..] == rest && ([b] + bars[1..])[1..] == bars[1..];
      assert bars[0].date == b.date ==> bars[0].symbol != b.symbol;
    }
  }

  /** Sorting by date and symbol is stable: the later of two bars for a symbol and date still stands. */
  lemma {:induction false} SortedBarsOn(bars: seq<MarketBar>, d: Date)
    ensures BarsOn(Sort(BarOrder, bars), d) == BarsOn(bars, d)
  {
    if bars == [] {
    } else {
      var sorted := Sort(BarOrder, bars[1..]);
      SortedBarsOn(bars[1..], d);
      InsertedBarsOn(bars[0], sorted, d);
      assert ([bars[0]] + sorted)[1..] == sorted;
    }
  }

  lemma {:induction false} AdmittedGiven(x: Inputs, bars: seq<MarketBar>, s: Symbol, d: Date, b: MarketBar)
    ensures Given(x, bars, s, d, b)
       <==> s in BarsOn(Admitted(bars, x.end, x.cutoff), d) && BarsOn(Admitted(bars, x.end, x.cutoff), d)[s] == b
  {
    if bars == [] {
    } else {
      AdmittedGiven(x, bars[1..], s, d, b);
      var rest := Admitted(bars[1..], x.end, x.cutoff);
      assert ([bars[0]] + rest)[1..] == rest;
      GivenLater(x, bars, s, d, b);
      if s !in BarsOn(rest, d) { NoneGiven(x, bars[1..], s, d); }
      else { AdmittedGiven(x, bars[1..], s, d, BarsOn(rest, d)[s]); }
    }
  }

  lemma {:induction false} NoneGiven(x: Inputs, bars: seq<MarketBar>, s: Symbol, d: Date)
    requires s !in BarsOn(Admitted(bars, x.end, x.cutoff), d)
    ensures forall b | b in bars && Usable(x, b) :: b.symbol != s || b.date != d
  {
    if bars == [] {
    } else {
      var rest := Admitted(bars[1..], x.end, x.cutoff);
      assert ([bars[0]] + rest)[1..] == rest;
      NoneGiven(x, bars[1..], s, d);
      assert forall b | b in bars :: b == bars[0] || b in bars[1..];
    }
  }

  /** Only a list without a later bar for the symbol and date has its first bar stand. */
  lemma {:induction false} GivenLater(x: Inputs, bars: seq<MarketBar>, s: Symbol, d: Date, b: MarketBar)
    requires bars != []
    ensures Given(x, bars, s, d, b)
       <==> || Given(x, bars[1..], s, d, b)
            || (b == bars[0] && bars[0].symbol == s && bars[0].date == d && Usable(x, bars[0])
                && forall e | e in bars[1..] && Usable(x, e) :: e.symbol != s || e.date != d)
  {
    hide Usable;
    var rest := bars[1..];
    if Given(x, bars, s, d, b) {
      var j: nat :| LastGiven(x, bars, s, d, j) && bars[j] == b;
      if j > 0 {
        forall i | j - 1 < i < |rest| && Usable(x, rest[i]) ensures rest[i].symbol != s || rest[i].date != d {
          assert rest[i] == bars[i + 1];
        }
        assert LastGiven(x, rest, s, d, j - 1);
      } else {
        forall e | e in rest && Usable(x, e) ensures e.symbol != s || e.date != d {
          var i :| 0 <= i < |rest| && rest[i] == e;
          assert bars[i + 1] == e;
        }
      }
    }
    if Given(x, rest, s, d, b) {
      var j: nat :| LastGiven(x, rest, s, d, j) && rest[j] == b;
      forall i | j + 1 < i < |bars| && Usable(x, bars[i]) ensures bars[i].symbol != s || bars[i].date != d {
        assert rest[i - 1] == bars[i];
      }
      assert LastGiven(x, bars, s, d, j + 1);
    }
    if b == bars[0] && bars[0].symbol == s && bars[0].date == d && Usable(x, bars[0])
       && forall e | e in rest && Usable(x, e) :: e.symbol != s || e.date != d
    {
      forall i | 0 < i < |bars| && Usable(x, bars[i]) ensures bars[i].symbol != s || bars[i].date != d {
        assert rest[i - 1] == bars[i] && rest[i - 1] in rest;
      }
      assert LastGiven(x, bars, s, d, 0);
    }
  }

  lemma {:induction false} StandsIff(bars: seq<MarketBar>, s: Symbol, d: Date, b: MarketBar)
    ensures Stands(bars, s, d, b) <==> s in BarsOn(bars, d) && BarsOn(bars, d)[s] == b
  {
    hide BarsOn;
    BarsOnStands(bars, d, s);
    if Stands(bars, s, d, b) {
      var j: nat :| StandsFor(bars, s, d, j) && bars[j] == b;
      assert bars[j] in bars;
      var k: nat :| StandsFor(bars, s, d, k) && BarsOn(bars, d)[s] == bars[k];
      assert j == k;
    }
  }

  /** The run's bars are the usable ones, each as often as it is given, by date and then symbol; and of two bars for
      a symbol and date the one given later stands. */
  lemma {:induction false} BarsAreUsable(x: Inputs)
    ensures var m := MarketOf(x);
            && (forall b :: multiset(m.bars)[b] == if Usable(x, b) then multiset(x.bars)[b] else 0)
            && (forall i, j | 0 <= i < j < |m.bars| ::
                  m.bars[i].date < m.bars[j].date
                  || (m.bars[i].date == m.bars[j].date && m.bars[i].symbol <= m.bars[j].symbol))
            && (forall s, d, b :: Stands(m.bars, s, d, b) <==> Given(x, x.bars, s, d, b))
  {
    hide Stands, Given, SortedUnique, EverEligible, Within;
    var m, admitted := MarketOf(x), Admitted(x.bars, x.end, x.cutoff);
    SortKeepsElements(BarOrder, admitted);
    forall b ensures multiset(m.bars)[b] == if Usable(x, b) then multiset(x.bars)[b] else 0 {
      AdmittedCount(x.bars, x.end, x.cutoff, b);
    }
    BarOrderIsTotal();
    SortSorts(BarOrder, admitted);
    forall i, j | 0 <= i < j < |m.bars| ensures BarOrder(m.bars[i], m.bars[j]) {
    }
    forall s, d, b ensures Stands(m.bars, s, d, b) <==> Given(x, x.bars, s, d, b) {
      StandsIff(m.bars, s, d, b);
      SortedBarsOn(admitted, d);
      AdmittedGiven(x, x.bars, s, d, b);
    }
  }

  // ----- dates and symbols

  lemma {:induction false} WithinHas(dates: seq<Date>, start: Date, end: Date, d: Date)
    ensures d in Within(dates, start, end) <==> d in dates && start <= d <= end
  {
    if dates == [] {
    } else {
      WithinHas(dates[1..], start, end, d);
      assert dates == [dates[0]] + dates[1..];
    }
  }

  lemma {:induction false} EligibleHas(x: Inputs, bars: seq<MarketBar>, s: Symbol)
    ensures s in EverEligible(x, bars)
       <==> Stock(x, s) && exists b :: b in bars && b.symbol == s && b.universeEligible == Some(true)
  {
    if bars == [] {
    } else {
      EligibleHas(x, bars[1..], s);
      assert forall b :: b in bars <==> b == bars[0] || b in bars[1..];
      assert bars[0] in bars;
    }
  }

  /** The run's dates are the calendar's from the start through the end, and its symbols the stocks that a usable bar
      ever reports to be eligible; both ascending, each once. */
  lemma {:induction false} DatesAndSymbols(x: Inputs)
    ensures var m := MarketOf(x);
            && Ascending(m.dates) && (forall d :: d in m.dates <==> d in x.tradingDates && x.start <= d <= x.end)
            && Ascending(m.symbols)
            && (forall s :: s in m.symbols
                       <==> Stock(x, s) && exists b :: b in x.bars && Usable(x, b) && b.symbol == s
                                                       && b.universeEligible == Some(true))
  {
    hide SortedUnique, Sort, Admitted, Within, EverEligible, Ascending, Usable, Stock;
    var m := MarketOf(x);
    var within, ever := Within(x.tradingDates, x.start, x.end), EverEligible(x, m.bars);
    SortedUniqueAscends(within);
    SortedUniqueElements(within);
    SortedUniqueAscends(ever);
    SortedUniqueElements(ever);
    forall d ensures d in m.dates <==> d in x.tradingDates && x.start <= d <= x.end {
      WithinHas(x.tradingDates, x.start, x.end, d);
    }
    forall s ensures s in m.symbols <==> Stock(x, s) && exists b :: b in x.bars && Usable(x, b) && b.symbol == s
                                                                    && b.universeEligible == Some(true)
    {
      EligibleHas(x, m.bars, s);
      UsableBars(x);
    }
  }

  lemma {:induction false} UsableBars(x: Inputs)
    ensures forall b :: b in MarketOf(x).bars <==> b in x.bars && Usable(x, b)
  {
    hide MarketOf, Usable;
    BarsAreUsable(x);
    forall b ensures b in MarketOf(x).bars <==> b in x.bars && Usable(x, b) {
      assert b in MarketOf(x).bars <==> b in multiset(MarketOf(x).bars);
      assert b in x.bars <==> b in multiset(x.bars);
    }
  }

  // ----- what a run is refused for

  /** Every trading day has a close of the benchmark. */
  ghost predicate Benchmarked(x: Inputs) {
    forall d | d in x.tradingDates && x.start <= d <= x.end ::
      exists b :: Given(x, x.bars, x.benchmark, d, b) && b.close.Some?
  }

  /** Every usable bar of a stock says whether the stock is in the pool. */
  ghost predicate PoolKnown(x: Inputs) {
    forall b | b in x.bars && Usable(x, b) && Stock(x, b.symbol) :: b.universeEligible.Some?
  }

  /** The fault a run is refused for: the first that it has. */
  ghost predicate Fault(x: Inputs, e: RunError) {
    match e
    case EmptyCalendar => forall d | d in x.tradingDates :: !(x.start <= d <= x.end)
    case PrimaryBenchmarkMissing => !Benchmarked(x)
    case EligibilityUnknown => !PoolKnown(x)
    case NoEquity => x.initialEquity <= 0.0
    case UnorderedThresholds =>
      !(0.0 < x.thresholds.warning && x.thresholds.warning < x.thresholds.stop && x.thresholds.stop < 1.0)
    case _ => false
  }

  function Faults(): seq<RunError> {
    [EmptyCalendar, PrimaryBenchmarkMissing, EligibilityUnknown, NoEquity, UnorderedThresholds]
  }

  /** A run is prepared, or refused for the first of its faults. */
  lemma {:induction false} PrepareIs(x: Inputs)
    ensures match Prepare(x)
            case Ok(m) => m == MarketOf(x) && forall e | e in Faults() :: !Fault(x, e)
            case Err(e) =>
              exists i :: 0 <= i < |Faults()| && e == Faults()[i] && Fault(x, e)
                          && forall j | 0 <= j < i :: !Fault(x, Faults()[j])
  {
    hide MarketOf, PrimaryComplete, EligibilityKnown, Benchmarked, PoolKnown;
    CompleteIff(x);
    KnownIff(x);
    CalendarIff(x);
    var faults := Faults();
    assert faults[0] == EmptyCalendar && faults[1] == PrimaryBenchmarkMissing && faults[2] == EligibilityUnknown
        && faults[3] == NoEquity && faults[4] == UnorderedThresholds;
  }

  lemma {:induction false} CalendarIff(x: Inputs)
    ensures MarketOf(x).dates == [] <==> forall d | d in x.tradingDates :: !(x.start <= d <= x.end)
  {
    hide MarketOf, Stock, Usable;
    DatesAndSymbols(x);
    if MarketOf(x).dates != [] { assert MarketOf(x).dates[0] in MarketOf(x).dates; }
  }

  lemma {:induction false} CompleteIff(x: Inputs)
    ensures PrimaryComplete(x, MarketOf(x).bars, MarketOf(x).dates) <==> Benchmarked(x)
  {
    hide MarketOf, Given, Stands, BarsOn, Stock, Usable;
    var m := MarketOf(x);
    DatesAndSymbols(x);
    BarsAreUsable(x);
    forall d ensures (x.benchmark in BarsOn(m.bars, d) && BarsOn(m.bars, d)[x.benchmark].close.Some?)
                <==> exists b :: Given(x, x.bars, x.benchmark, d, b) && b.close.Some?
    {
      forall b ensures Given(x, x.bars, x.benchmark, d, b)
                  <==> x.benchmark in BarsOn(m.bars, d) && BarsOn(m.bars, d)[x.benchmark] == b
      {
        StandsIff(m.bars, x.benchmark, d, b);
      }
    }
  }

  lemma {:induction false} KnownIff(x: Inputs)
    ensures EligibilityKnown(x, MarketOf(x).bars) <==> PoolKnown(x)
  {
    hide MarketOf, Usable;
    UsableBars(x);
  }
}
