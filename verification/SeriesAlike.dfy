/** The comparison series do not look ahead: through a date they depend only on bars through that date. */
module SeriesAlike {
  import opened Common
  import opened Sorting
  import opened EventLoop
  import opened RunSafety
  import opened NoLookAhead
  import opened Series
  import opened Backtest

  // ----- what a day of a series reads

  lemma ClosesReadAlike(m: Market, n: Market, s: Symbol, date: Date, t: Date)
    requires Alike(m, n, t) && date <= t
    ensures CloseOn(m, s, date) == CloseOn(n, s, date)
  {
    hide EligibleOn, BarsOn;
    DayReadsAlike(m, n, date, t);
  }

  lemma MembersAlike(x: Inputs, y: Inputs, date: Date, t: Date)
    requires AgreeThrough(x, y, t) && date <= t
    ensures Members(MarketOf(x), date) == Members(MarketOf(y), date)
  {
    SortedUniqueAscends(EverEligible(x, MarketOf(x).bars));
    SortedUniqueAscends(EverEligible(y, MarketOf(y).bars));
    var m, n := MarketOf(x), MarketOf(y);
    assert Ascending(m.symbols) && Ascending(n.symbols);
    hide MarketOf, AgreeThrough, Ascending, BarsOn;
    MarketsAgree(x, y, t);
    MarketIsOf(x);
    MarketIsOf(y);
    PoolIsFollowed(x, date);
    PoolIsFollowed(y, date);
    DayReadsAlike(m, n, date, t);
    var pool := EligibleOn(m.x, BarsOn(m.bars, date));
    KeepAscends(m.symbols, pool);
    KeepAscends(n.symbols, pool);
    AscendingIsUnique(Keep(m.symbols, pool), Keep(n.symbols, pool));
  }

  lemma {:induction false} ReturnsAlike(m: Market, n: Market, ss: seq<Symbol>, from: Date, to: Date,
                                        suspended: map<Date, set<Symbol>>, t: Date)
    requires Alike(m, n, t) && from <= t && to <= t
    ensures Returns(m, ss, from, to, suspended) == Returns(n, ss, from, to, suspended)
  {
    hide ReturnOf, BarsOn, EligibleOn;
    if ss == [] {
    } else {
      ReturnsAlike(m, n, ss[..|ss| - 1], from, to, suspended, t);
      ClosesReadAlike(m, n, ss[|ss| - 1], from, t);
      DayReadsAlike(m, n, to, t);
    }
  }

  // ----- the series

  /** The equal-weight series through a day, or its error. */
  lemma {:induction false} PoolValuesAlike(x: Inputs, y: Inputs, suspended: map<Date, set<Symbol>>, t: Date, k: nat)
    requires AgreeThrough(x, y, t)
    requires k < |MarketOf(x).dates| == |MarketOf(y).dates| && forall i | 0 <= i <= k :: MarketOf(x).dates[i] <= t
    ensures PoolValues(MarketOf(x), suspended, k) == PoolValues(MarketOf(y), suspended, k)
  {
    hide MarketOf, AgreeThrough, Members, Returns, Advanced;
    var m, n := MarketOf(x), MarketOf(y);
    MarketsAgree(x, y, t);
    MarketIsOf(x);
    MarketIsOf(y);
    if k == 0 {
    } else {
      PoolValuesAlike(x, y, suspended, t, k - 1);
      MembersAlike(x, y, m.dates[k - 1], t);
      ReturnsAlike(m, n, Members(m, m.dates[k - 1]), m.dates[k - 1], m.dates[k], suspended, t);
    }
  }

  /** A longer series goes on from the shorter one. */
  lemma {:induction false} PoolValuesGrow(m: Market, suspended: map<Date, set<Symbol>>, j: nat, k: nat)
    requires j <= k < |m.dates| && PoolValues(m, suspended, k).Ok?
    ensures PoolValues(m, suspended, j) == Ok(PoolValues(m, suspended, k).value[..j + 1])
    decreases k
  {
    hide Members, Returns, Advanced;
    var values := PoolValues(m, suspended, k).value;
    if j == k {
      assert values[..k + 1] == values;
    } else {
      PoolValuesGrow(m, suspended, j, k - 1);
      assert values[..k] == PoolValues(m, suspended, k - 1).value;
      assert values[..k][..j + 1] == values[..j + 1];
    }
  }

  lemma {:induction false} MarketValuesAlike(x: Inputs, y: Inputs, s: Symbol, t: Date, k: nat)
    requires AgreeThrough(x, y, t) && MarketOf(x).dates != [] && MarketOf(y).dates != []
    requires MarketValues(MarketOf(x), s).Ok? && MarketValues(MarketOf(y), s).Ok?
    requires k <= |MarketOf(x).dates| && forall i | 0 <= i < k :: MarketOf(x).dates[i] <= t
    ensures |MarketValues(MarketOf(x), s).value| == |MarketValues(MarketOf(y), s).value| == |MarketOf(x).dates|
    ensures MarketValues(MarketOf(x), s).value[..k] == MarketValues(MarketOf(y), s).value[..k]
  {
    hide MarketOf, AgreeThrough, Scaled, CloseOn, Quoted;
    var m, n := MarketOf(x), MarketOf(y);
    MarketsAgree(x, y, t);
    MarketIsOf(x);
    MarketIsOf(y);
    var v, u := MarketValues(m, s).value, MarketValues(n, s).value;
    forall i | 0 <= i < k ensures v[i] == u[i] {
      ClosesReadAlike(m, n, s, m.dates[i], t);
      ClosesReadAlike(m, n, s, m.dates[0], t);
    }
  }

  /** Both or neither of two optional series are there, and they begin alike. */
  ghost predicate BeginAlike(a: Option<seq<real>>, b: Option<seq<real>>, k: nat) {
    && (a.Some? <==> b.Some?)
    && (a.Some? ==> k <= |a.value| && k <= |b.value| && a.value[..k] == b.value[..k])
  }

  /** Two returned results whose bars agree through `t` carry the same primary and equal-weight series through
      `t`, whatever the strategy. So does the secondary benchmark's, where both results have it. */
  lemma {:induction false} SeriesNeverLookAhead(x: Inputs, y: Inputs, t: Date, k: nat)
    requires Outcome(x).Ok? && Outcome(y).Ok? && AgreeThrough(x, y, t)
    requires k <= |MarketOf(x).dates| && forall i | 0 <= i < k :: MarketOf(x).dates[i] <= t
    ensures var r, s := Outcome(x).value, Outcome(y).value;
            && BeginAlike(Some(r.primary), Some(s.primary), k)
            && BeginAlike(r.universe, s.universe, k)
            && (r.secondary.Some? && s.secondary.Some? ==> BeginAlike(r.secondary, s.secondary, k))
  {
    hide MarketOf, AgreeThrough, RunTo, MarketValues, PoolValues, Quoted;
    var m, n := MarketOf(x), MarketOf(y);
    MarketsAgree(x, y, t);
    MarketIsOf(x);
    MarketIsOf(y);
    MarketValuesAlike(x, y, x.benchmark, t, k);
    var r, s := Outcome(x).value, Outcome(y).value;
    if r.secondary.Some? && s.secondary.Some? {
      MarketValuesAlike(x, y, x.secondaryBenchmark.value, t, k);
    }
    if x.universeBenchmark && k > 0 {
      var last := |m.dates| - 1;
      PoolValuesGrow(m, x.suspended, k - 1, last);
      PoolValuesGrow(n, x.suspended, k - 1, last);
      PoolValuesAlike(x, y, x.suspended, t, k - 1);
    }
  }
}
