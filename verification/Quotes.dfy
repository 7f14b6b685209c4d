/** Regular quotes, one bar for every symbol listed on a day: what runs over them read. */
module Quotes {
  import opened Common
  import opened Sorting
  import opened Simulator
  import opened Strategy
  import opened StrategyProofs
  import opened EventLoop

  type QuoteTable = (Symbol, Date) -> MarketBar

  /** A quote is of its symbol and date, has a close, and was available from the start. */
  ghost predicate Regular(q: QuoteTable) {
    forall s, d :: q(s, d).symbol == s && q(s, d).date == d && q(s, d).close.Some? && q(s, d).availableAt == Some(0)
  }

  /** Which symbols are quoted on which day. */
  type Listing = Date -> seq<Symbol>

  ghost predicate Ordered(l: Listing) {
    forall d :: Ascending(l(d))
  }

  /** One day's quotes. */
  function Block(q: QuoteTable, ss: seq<Symbol>, d: Date): (r: seq<MarketBar>)
    ensures |r| == |ss| && forall i | 0 <= i < |ss| :: r[i] == q(ss[i], d)
  {
    seq(|ss|, i requires 0 <= i < |ss| => q(ss[i], d))
  }

  /** The quotes of the first `n` days. */
  function Daily(q: QuoteTable, l: Listing, n: nat): seq<MarketBar> {
    if n == 0 then [] else Daily(q, l, n - 1) + Block(q, l(n), n)
  }

  /** One symbol's quotes on the first `n` days, as the strategies see them. */
  ghost function Days(q: QuoteTable, s: Symbol, n: nat): (r: seq<DailyBar>)
    requires Regular(q)
    ensures |r| == n
    ensures forall i | 0 <= i < n :: r[i] == ToDaily(q(s, i + 1))
  {
    if n == 0 then [] else Days(q, s, n - 1) + [ToDaily(q(s, n))]
  }

  // ----- histories

  lemma {:induction false} HistoryConcat(xs: seq<MarketBar>, ys: seq<MarketBar>, s: Symbol, date: Date, cutoff: Cutoff)
    ensures History(xs + ys, s, date, cutoff) == History(xs, s, date, cutoff) + History(ys, s, date, cutoff)
  {
    if xs == [] {
      assert xs + ys == ys;
    } else {
      assert (xs + ys)[1..] == xs[1..] + ys;
      HistoryConcat(xs[1..], ys, s, date, cutoff);
    }
  }

  lemma {:induction false} HistoryOfBlock(q: QuoteTable, ss: seq<Symbol>, d: Date, s: Symbol, date: Date,
                                          cutoff: Cutoff)
    requires Regular(q) && Ascending(ss) && cutoff.at >= 0
    ensures History(Block(q, ss, d), s, date, cutoff) == if s in ss && d <= date then [ToDaily(q(s, d))] else []
  {
    if ss == [] {
    } else {
      assert Block(q, ss, d)[1..] == Block(q, ss[1..], d);
      assert s in ss <==> s == ss[0] || s in ss[1..];
      assert s == ss[0] ==> s !in ss[1..];
      HistoryOfBlock(q, ss[1..], d, s, date, cutoff);
    }
  }

  lemma EmptyHistory(s: Symbol, date: Date, cutoff: Cutoff)
    ensures History([], s, date, cutoff) == []
  {
  }

  /** The history on a date of a symbol that has been listed every day. */
  lemma {:induction false} HistoryOfDaily(q: QuoteTable, l: Listing, n: nat, s: Symbol, date: nat, cutoff: Cutoff)
    requires Regular(q) && Ordered(l) && cutoff.at >= 0
    requires forall d | 1 <= d <= n && d <= date :: s in l(d)
    ensures History(Daily(q, l, n), s, date, cutoff) == Days(q, s, if date < n then date else n)
  {
    hide History, ToDaily, Block;
    if n == 0 {
      assert History([], s, date, cutoff) == [] by { EmptyHistory(s, date, cutoff); }
    } else {
      HistoryOfDaily(q, l, n - 1, s, date, cutoff);
      HistoryConcat(Daily(q, l, n - 1), Block(q, l(n), n), s, date, cutoff);
      HistoryOfBlock(q, l(n), n, s, date, cutoff);
      hide Regular, Ordered;
      if n > date {
        assert Days(q, s, date) + [] == Days(q, s, date);
      }
    }
  }

  /** A symbol without a bar on a date has none in its history. */
  lemma {:induction false} NoBarThere(bars: seq<MarketBar>, s: Symbol, date: Date, cutoff: Cutoff)
    requires forall b | b in bars :: b.symbol != s || b.date != date
    ensures BarOn(History(bars, s, date, cutoff), date) == None
  {
    NoneDated(bars, s, date, cutoff);
    hide History;
    NoBarDated(History(bars, s, date, cutoff), date);
  }

  lemma {:induction false} NoneDated(bars: seq<MarketBar>, s: Symbol, date: Date, cutoff: Cutoff)
    requires forall b | b in bars :: b.symbol != s || b.date != date
    ensures forall b | b in History(bars, s, date, cutoff) :: b.date != date
  {
    if bars == [] {
    } else {
      NoneDated(bars[1..], s, date, cutoff);
    }
  }

  lemma {:induction false} NoBarDated(h: seq<DailyBar>, date: Date)
    requires forall b | b in h :: b.date != date
    ensures BarOn(h, date) == None
  {
    if h == [] {
    } else {
      NoBarDated(h[..|h| - 1], date);
    }
  }

  /** The closes and amounts of a symbol's days. */
  lemma {:induction false} ColumnsOfDays(q: QuoteTable, s: Symbol, n: nat)
    requires Regular(q)
    ensures forall i | 0 <= i < n :: Closes(Days(q, s, n))[i] == q(s, i + 1).close.value
    ensures forall i | 0 <= i < n ::
              Amounts(Days(q, s, n))[i] == if q(s, i + 1).amount.Some? then q(s, i + 1).amount.value else 0.0
  {
    hide Closes, Amounts;
    var days := Days(q, s, n);
    ColumnsAt(days);
    forall i | 0 <= i < n
      ensures Closes(days)[i] == q(s, i + 1).close.value
      ensures Amounts(days)[i] == if q(s, i + 1).amount.Some? then q(s, i + 1).amount.value else 0.0
    {
      assert days[i] == ToDaily(q(s, i + 1));
    }
  }

  // ----- one day's bars

  lemma {:induction false} BarsOnConcat(xs: seq<MarketBar>, ys: seq<MarketBar>, date: Date)
    ensures BarsOn(xs + ys, date) == BarsOn(xs, date) + BarsOn(ys, date)
  {
    if xs == [] {
      assert xs + ys == ys;
    } else {
      assert (xs + ys)[1..] == xs[1..] + ys;
      BarsOnConcat(xs[1..], ys, date);
    }
  }

  lemma {:induction false} BarsOfBlock(q: QuoteTable, ss: seq<Symbol>, d: Date, date: Date)
    requires Regular(q) && Ascending(ss)
    ensures BarsOn(Block(q, ss, d), date) == if d == date then map s | s in ss :: q(s, d) else map[]
  {
    if ss == [] {
    } else {
      assert Block(q, ss, d)[1..] == Block(q, ss[1..], d);
      assert forall s :: s in ss <==> s == ss[0] || s in ss[1..];
      BarsOfBlock(q, ss[1..], d, date);
    }
  }

  lemma NoBarsOn(date: Date)
    ensures BarsOn([], date) == map[]
  {
  }

  lemma {:induction false} BarsOfDaily(q: QuoteTable, l: Listing, n: nat, date: nat)
    requires Regular(q) && Ordered(l)
    ensures BarsOn(Daily(q, l, n), date) == if 1 <= date <= n then map s | s in l(date) :: q(s, date) else map[]
  {
    hide BarsOn, Regular, Block;
    if n == 0 {
      NoBarsOn(date);
    } else {
      BarsOfDaily(q, l, n - 1, date);
      BarsOnConcat(Daily(q, l, n - 1), Block(q, l(n), n), date);
      BarsOfBlock(q, l(n), n, date);
      hide Daily;
      if date == n {
        assert BarsOn(Daily(q, l, n - 1), date) == map[];
      } else {
        assert BarsOn(Block(q, l(n), n), date) == map[];
      }
    }
  }

  // ----- the market

  lemma {:induction false} BlockIsSorted(q: QuoteTable, ss: seq<Symbol>, d: Date)
    requires Regular(q) && Ascending(ss)
    ensures Sorted(BarOrder, Block(q, ss, d))
  {
  }

  lemma {:induction false} BarsOfBlockAre(q: QuoteTable, ss: seq<Symbol>, d: Date, x: MarketBar)
    requires Regular(q) && x in Block(q, ss, d)
    ensures x.date == d && x.symbol in ss && x == q(x.symbol, d) && x.availableAt == Some(0)
  {
    var i :| 0 <= i < |ss| && Block(q, ss, d)[i] == x;
    assert x == q(ss[i], d) && ss[i] in ss;
    assert q(ss[i], d).symbol == ss[i] && q(ss[i], d).date == d;
  }

  lemma {:induction false} DailyIsSorted(q: QuoteTable, l: Listing, n: nat)
    requires Regular(q) && Ordered(l)
    ensures Sorted(BarOrder, Daily(q, l, n))
    ensures forall x | x in Daily(q, l, n) ::
              1 <= x.date <= n && x.symbol in l(x.date) && x == q(x.symbol, x.date) && x.availableAt == Some(0)
  {
    if n == 0 {
    } else {
      DailyIsSorted(q, l, n - 1);
      BlockIsSorted(q, l(n), n);
      forall x | x in Block(q, l(n), n)
        ensures x.date == n && x.symbol in l(n) && x == q(x.symbol, n) && x.availableAt == Some(0)
      {
        BarsOfBlockAre(q, l(n), n, x);
      }
      hide Block, BarOrder, Sorted, Regular;
      SortedJoin(Daily(q, l, n - 1), Block(q, l(n), n), n - 1);
    }
  }

  /** Bars of later days may follow sorted bars. */
  lemma {:induction false} SortedJoin(xs: seq<MarketBar>, ys: seq<MarketBar>, n: Date)
    requires Sorted(BarOrder, xs) && Sorted(BarOrder, ys)
    requires (forall b | b in xs :: b.date <= n) && (forall b | b in ys :: b.date > n)
    ensures Sorted(BarOrder, xs + ys)
  {
    var r := xs + ys;
    forall i, j | 0 <= i < j < |r| ensures BarOrder(r[i], r[j]) {
      if j < |xs| {
        assert r[i] == xs[i] && r[j] == xs[j];
      } else if i >= |xs| {
        assert r[i] == ys[i - |xs|] && r[j] == ys[j - |xs|];
      } else {
        assert r[i] == xs[i] && xs[i] in xs && r[j] == ys[j - |xs|] && ys[j - |xs|] in ys;
      }
    }
  }

  /** Every listed symbol is quoted. */
  lemma {:induction false} QuotedOn(q: QuoteTable, l: Listing, n: nat, s: Symbol, d: nat)
    requires 1 <= d <= n && s in l(d)
    ensures q(s, d) in Daily(q, l, n)
  {
    if d == n {
      var i :| 0 <= i < |l(n)| && l(n)[i] == s;
      assert Block(q, l(n), n)[i] == q(s, n);
    } else {
      QuotedOn(q, l, n - 1, s, d);
    }
  }

  /** Listings that agree through a day give the same quotes through it. */
  lemma {:induction false} SameListing(q: QuoteTable, l: Listing, k: Listing, n: nat)
    requires forall d | 1 <= d <= n :: l(d) == k(d)
    ensures Daily(q, l, n) == Daily(q, k, n)
  {
    if n == 0 {
    } else {
      SameListing(q, l, k, n - 1);
    }
  }

  lemma {:induction false} AllAdmitted(bars: seq<MarketBar>, end: Date, cutoff: Cutoff)
    requires forall b | b in bars :: b.date <= end && Visible(b.availableAt, cutoff)
    ensures Admitted(bars, end, cutoff) == bars
  {
    if bars == [] {
    } else {
      assert bars[0] in bars;
      AllAdmitted(bars[1..], end, cutoff);
    }
  }

  lemma {:induction false} EligibleAreOf(x: Inputs, bars: seq<MarketBar>)
    ensures forall s :: s in EverEligible(x, bars) <==>
              exists b | b in bars :: b.symbol == s && !IsBenchmark(x, s) && b.universeEligible == Some(true)
  {
    if bars == [] {
    } else {
      EligibleAreOf(x, bars[1..]);
      assert forall b :: b in bars <==> b == bars[0] || b in bars[1..];
    }
  }

  /** An ascending list of symbols is what a run follows if they are the ones that are ever eligible. */
  lemma FollowedAre(x: Inputs, bars: seq<MarketBar>, symbols: seq<Symbol>)
    requires Ascending(symbols) && forall s :: s in symbols <==> s in EverEligible(x, bars)
    ensures SortedUnique(EverEligible(x, bars)) == symbols
  {
    SortedUniqueElements(EverEligible(x, bars));
    SortedUniqueAscends(EverEligible(x, bars));
    AscendingIsUnique(SortedUnique(EverEligible(x, bars)), symbols);
  }

  // ----- means

  /** Values that start below `v` and never exceed it add up to less than so many times `v`. */
  lemma {:induction false} SumBelow(xs: seq<real>, v: real)
    requires forall i | 0 <= i < |xs| :: xs[i] <= v
    ensures Sum(xs) <= Times(|xs|, v)
    ensures xs != [] && xs[0] < v ==> Sum(xs) < Times(|xs|, v)
  {
    if xs == [] {
    } else {
      SumBelow(xs[1..], v);
      OneMoreTime(|xs| - 1, v);
    }
  }

  lemma {:induction false} SumAbove(xs: seq<real>, v: real)
    requires forall i | 0 <= i < |xs| :: xs[i] >= v
    ensures Sum(xs) >= Times(|xs|, v)
    ensures xs != [] && xs[0] > v ==> Sum(xs) > Times(|xs|, v)
  {
    if xs == [] {
    } else {
      SumAbove(xs[1..], v);
      OneMoreTime(|xs| - 1, v);
    }
  }

  function Times(n: nat, v: real): real {
    n as real * v
  }

  lemma OneMoreTime(n: nat, v: real)
    ensures Times(n + 1, v) == Times(n, v) + v
  {
  }

  /** The mean of the last values lies below a bound that they start below and never exceed. */
  lemma TailMeanBelow(xs: seq<real>, n: nat, v: real)
    requires 0 < n <= |xs| && xs[|xs| - n] < v && forall i | |xs| - n <= i < |xs| :: xs[i] <= v
    ensures TailMean(xs, n).Some? && TailMean(xs, n).value < v
  {
    var tail := xs[|xs| - n..];
    SumBelow(tail, v);
    assert Sum(tail) / n as real * n as real == Sum(tail);
    if Sum(tail) / n as real >= v { MulMonotone(v, Sum(tail) / n as real, n as real); }
  }

  lemma TailMeanAbove(xs: seq<real>, n: nat, v: real)
    requires 0 < n <= |xs| && xs[|xs| - n] > v && forall i | |xs| - n <= i < |xs| :: xs[i] >= v
    ensures TailMean(xs, n).Some? && TailMean(xs, n).value > v
  {
    var tail := xs[|xs| - n..];
    SumAbove(tail, v);
    assert Sum(tail) / n as real * n as real == Sum(tail);
    if Sum(tail) / n as real <= v { MulMonotone(Sum(tail) / n as real, v, n as real); }
  }

  lemma TailMeanOfSame(xs: seq<real>, n: nat, v: real)
    requires 0 < n <= |xs| && forall i | |xs| - n <= i < |xs| :: xs[i] == v
    ensures TailMean(xs, n) == Some(v)
  {
    var tail := xs[|xs| - n..];
    SumBelow(tail, v);
    SumAbove(tail, v);
    assert Times(n, v) / n as real == v;
  }
}
