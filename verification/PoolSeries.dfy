/** What the comparison series are made of, told from the bars. */
module PoolSeries {
  import opened Common
  import opened Sorting
  import opened Simulator
  import opened EventLoop
  import opened Marking
  import opened EntrySignals
  import opened RankedOrder
  import opened Series
  import NoLookAhead

  /** A close read for a series is that of the bar that stands for the day. */
  lemma {:induction false} CloseIsStanding(m: Market, s: Symbol, date: Date)
    ensures forall c :: CloseOn(m, s, date) == Some(c) <==> ClosedAt(m.bars, s, date, c)
  {
    hide BarsOn;
    forall c ensures CloseOn(m, s, date) == Some(c) <==> ClosedAt(m.bars, s, date, c) {
      ClosesOfDay(m, date, s, c);
    }
  }

  /** The symbol has no bar on the date. */
  ghost predicate Barless(bars: seq<MarketBar>, s: Symbol, date: Date) {
    forall b | b in bars :: b.symbol != s || b.date != date
  }

  /** From one day to the next a share of the symbol has grown by a factor: of its closes, or none while it is
      suspended. */
  ghost predicate GrewBy(m: Market, suspended: map<Date, set<Symbol>>, s: Symbol, from: Date, to: Date, factor: real) {
    exists c :: ClosedAt(m.bars, s, from, c) && MovedBy(m, suspended, s, c, to, factor)
  }

  ghost predicate MovedBy(m: Market, suspended: map<Date, set<Symbol>>, s: Symbol, c: real, to: Date, factor: real) {
    || (Barless(m.bars, s, to) && to in suspended && s in suspended[to] && factor == 1.0)
    || (exists j: nat :: StandsFor(m.bars, s, to, j)
                         && if m.bars[j].suspended then factor == 1.0
                            else m.bars[j].close.Some? && c != 0.0 && c * factor == m.bars[j].close.value)
  }

  lemma {:induction false} ReturnIs(m: Market, suspended: map<Date, set<Symbol>>, s: Symbol, from: Date, to: Date)
    requires MemberReturn(m, s, from, to, suspended).Ok?
    ensures GrewBy(m, suspended, s, from, to, 1.0 + MemberReturn(m, s, from, to, suspended).value)
  {
    hide BarsOn;
    CloseIsStanding(m, s, from);
    BarsOnStands(m.bars, to, s);
    var c := CloseOn(m, s, from).value;
    var factor := 1.0 + MemberReturn(m, s, from, to, suspended).value;
    if s in BarsOn(m.bars, to) {
      var j: nat :| StandsFor(m.bars, s, to, j) && BarsOn(m.bars, to)[s] == m.bars[j];
      if !m.bars[j].suspended { assert c * (m.bars[j].close.value / c) == m.bars[j].close.value; }
    }
    assert MovedBy(m, suspended, s, c, to, factor);
  }

  lemma {:induction false} ReturnsAre(m: Market, ss: seq<Symbol>, from: Date, to: Date,
                                      suspended: map<Date, set<Symbol>>)
    returns (factors: seq<real>)
    requires Returns(m, ss, from, to, suspended).Ok?
    ensures |factors| == |ss| && forall i | 0 <= i < |ss| :: GrewBy(m, suspended, ss[i], from, to, factors[i])
    ensures Sum(factors) == |ss| as real + Sum(Returns(m, ss, from, to, suspended).value)
  {
    hide MemberReturn, GrewBy;
    if ss == [] {
      factors := [];
    } else {
      var n := |ss| - 1;
      factors := ReturnsAre(m, ss[..n], from, to, suspended);
      ReturnIs(m, suspended, ss[n], from, to);
      var gain := MemberReturn(m, ss[n], from, to, suspended).value;
      SumSnoc(factors, 1.0 + gain);
      SumSnoc(Returns(m, ss[..n], from, to, suspended).value, gain);
      factors := factors + [1.0 + gain];
    }
  }

  lemma {:induction false} KeepAscends(xs: seq<Symbol>, pool: set<Symbol>)
    requires Ascending(xs)
    ensures Ascending(Keep(xs, pool))
  {
    if xs == [] {
    } else {
      KeepAscends(xs[1..], pool);
      KeepHas(xs[1..], pool);
      var rest := Keep(xs[1..], pool);
      assert forall i | 0 <= i < |rest| :: rest[i] in rest && rest[i] in xs[1..];
    }
  }

  /** The day's members are its pool, each once, in symbol order. */
  lemma {:induction false} MembersAre(x: Inputs, date: Date)
    ensures var m := MarketOf(x);
            && Ascending(Members(m, date))
            && forall s :: s in Members(m, date) <==> Pooled(m, s, date)
  {
    hide MarketOf, Keep, EligibleOn, Pooled, Ascending;
    var m := MarketOf(x);
    NoLookAhead.MarketIsOf(x);
    SymbolsAscend(x);
    KeepAscends(m.symbols, EligibleOn(x, BarsOn(m.bars, date)));
    MembersArePool(x, date);
    forall s ensures s in Members(m, date) <==> Pooled(m, s, date) {
      PooledIff(m, s, date);
    }
  }

  function Times(value: real, n: real): real {
    value * n
  }

  lemma AdvancedTimes(value: real, gains: seq<real>, n: real)
    requires gains != [] && n == |gains| as real
    ensures Times(Advanced(value, gains), n) == Times(value, n + Sum(gains))
  {
    var sum := Sum(gains);
    assert sum / n * n == sum;
    assert value * (1.0 + sum / n) * n == value * (n + sum / n * n);
  }

  /** In the equal-weight series each day's value, as many times as the day before had members in its pool, is the value
      before times the sum of their factors. */
  lemma {:induction false} ValuesGrow(x: Inputs, suspended: map<Date, set<Symbol>>, k: nat)
    returns (members: seq<Symbol>, factors: seq<real>)
    requires 0 < k < |MarketOf(x).dates| && PoolValues(MarketOf(x), suspended, k).Ok?
    ensures var m := MarketOf(x);
            var values := PoolValues(m, suspended, k).value;
            && members != [] && Ascending(members) && (forall s :: s in members <==> Pooled(m, s, m.dates[k - 1]))
            && |factors| == |members|
            && (forall i | 0 <= i < |members| ::
                  GrewBy(m, suspended, members[i], m.dates[k - 1], m.dates[k], factors[i]))
            && Times(values[k], |members| as real) == Times(values[k - 1], Sum(factors))
            && values[0] == x.initialEquity
  {
    hide MarketOf, Members, Returns, GrewBy, Pooled, Ascending, Times;
    var m := MarketOf(x);
    NoLookAhead.MarketIsOf(x);
    members := Members(m, m.dates[k - 1]);
    MembersAre(x, m.dates[k - 1]);
    StartsAtEquity(m, suspended, k);
    factors := ReturnsAre(m, members, m.dates[k - 1], m.dates[k], suspended);
    var gains := Returns(m, members, m.dates[k - 1], m.dates[k], suspended).value;
    var value, n := PoolValues(m, suspended, k - 1).value[k - 1], |members| as real;
    AdvancedTimes(value, gains, n);
    hide Advanced;
    assert PoolValues(m, suspended, k).value[k] == Advanced(value, gains);
    assert Sum(factors) == n + Sum(gains);
  }

  lemma {:induction false} StartsAtEquity(m: Market, suspended: map<Date, set<Symbol>>, k: nat)
    requires k < |m.dates| && PoolValues(m, suspended, k).Ok?
    ensures PoolValues(m, suspended, k).value[0] == m.x.initialEquity
  {
    hide Members, Returns, Advanced;
    if k > 0 { StartsAtEquity(m, suspended, k - 1); }
  }
}
