/** The comparison series of a run: a benchmark scaled to the initial equity, and the equal-weight pool. */
module Series {
  import opened Common
  import opened Simulator
  import opened EventLoop
  import opened RunSafety

  datatype SeriesError = MissingPrice | NoConstituents | NoPreviousClose | ZeroClose

  // ----- a benchmark

  function CloseOn(m: Market, s: Symbol, date: Date): Option<real> {
    var day := BarsOn(m.bars, date);
    if s in day then day[s].close else None
  }

  ghost predicate Quoted(m: Market, s: Symbol) {
    forall i | 0 <= i < |m.dates| :: CloseOn(m, s, m.dates[i]).Some?
  }

  function Scaled(initialEquity: real, close: real, first: real): real
    requires first != 0.0
  {
    initialEquity * close / first
  }

  /** Every close of the symbol over the first one, times the initial equity. */
  ghost function MarketValues(m: Market, s: Symbol): Result<seq<real>, SeriesError>
    requires m.dates != []
  {
    if !Quoted(m, s) then Err(MissingPrice)
    else if CloseOn(m, s, m.dates[0]).value == 0.0 then Err(ZeroClose)
    else
      Ok(seq(|m.dates|, i requires 0 <= i < |m.dates| =>
               Scaled(m.x.initialEquity, CloseOn(m, s, m.dates[i]).value, CloseOn(m, s, m.dates[0]).value)))
  }

  /** A scaled close of the first day is the initial equity, and scaled closes are in the ratio of the closes. */
  lemma ScalingKeepsRatios(initialEquity: real, first: real, a: real, b: real)
    requires first != 0.0
    ensures Scaled(initialEquity, first, first) == initialEquity
    ensures Scaled(initialEquity, a, first) * b == Scaled(initialEquity, b, first) * a
  {
    assert initialEquity * a / first * b == initialEquity * a * b / first;
    assert initialEquity * b / first * a == initialEquity * b * a / first;
  }

  /** Any two points are in the ratio of their days' closes. */
  ghost predicate FollowsCloses(m: Market, s: Symbol, values: seq<real>)
    requires Quoted(m, s) && |values| == |m.dates|
  {
    forall i, j | 0 <= i < |values| && 0 <= j < |values| ::
      values[i] * CloseOn(m, s, m.dates[j]).value == values[j] * CloseOn(m, s, m.dates[i]).value
  }

  lemma {:induction false} ScalingFollowsCloses(m: Market, s: Symbol, values: seq<real>)
    requires m.dates != [] && MarketValues(m, s) == Ok(values)
    ensures Quoted(m, s) && |values| == |m.dates|
    ensures values[0] == m.x.initialEquity && FollowsCloses(m, s, values)
  {
    hide Scaled, BarsOn;
    var first := CloseOn(m, s, m.dates[0]).value;
    ScalingKeepsRatios(m.x.initialEquity, first, first, first);
    forall i, j | 0 <= i < |values| && 0 <= j < |values|
      ensures values[i] * CloseOn(m, s, m.dates[j]).value == values[j] * CloseOn(m, s, m.dates[i]).value
    {
      ScalingKeepsRatios(m.x.initialEquity, first, CloseOn(m, s, m.dates[i]).value, CloseOn(m, s, m.dates[j]).value);
    }
  }

  method MarketSeries(m: Market, s: Symbol) returns (r: Result<seq<real>, SeriesError>)
    requires m.dates != []
    ensures r == MarketValues(m, s)
    ensures r == Err(MissingPrice) <==> !Quoted(m, s)
    ensures r == Err(ZeroClose) <==> Quoted(m, s) && CloseOn(m, s, m.dates[0]) == Some(0.0)
    ensures r.Ok? ==>
              && |r.value| == |m.dates| && CloseOn(m, s, m.dates[0]).Some? && CloseOn(m, s, m.dates[0]).value != 0.0
              && forall i | 0 <= i < |m.dates| ::
                   && CloseOn(m, s, m.dates[i]).Some?
                   && r.value[i] == Scaled(m.x.initialEquity, CloseOn(m, s, m.dates[i]).value,
                                           CloseOn(m, s, m.dates[0]).value)
    ensures r.Ok? ==> r.value[0] == m.x.initialEquity && FollowsCloses(m, s, r.value)
  {
    var closes: seq<real> := [];
    var i := 0;
    while i < |m.dates|
      invariant 0 <= i <= |m.dates| && |closes| == i
      invariant forall j | 0 <= j < i :: CloseOn(m, s, m.dates[j]) == Some(closes[j])
    {
      var close := CloseOn(m, s, m.dates[i]);
      if close.None? { return Err(MissingPrice); }
      closes := closes + [close.value];
      i := i + 1;
    }
    var first := closes[0];
    if first == 0.0 { return Err(ZeroClose); }
    var points: seq<real> := [];
    i := 0;
    while i < |closes|
      invariant 0 <= i <= |closes| && |points| == i
      invariant forall j | 0 <= j < i :: points[j] == Scaled(m.x.initialEquity, closes[j], first)
    {
      points := points + [Scaled(m.x.initialEquity, closes[i], first)];
      i := i + 1;
    }
    assert Quoted(m, s);
    assert points == MarketValues(m, s).value;
    ScalingFollowsCloses(m, s, points);
    r := Ok(points);
  }

  /** The run's preparation makes sure that the primary benchmark's series has every price. */
  lemma PrimaryIsQuoted(x: Inputs)
    requires Prepare(x).Ok?
    ensures Quoted(Prepare(x).value, x.benchmark)
  {
    var m := MarketOf(x);
    forall i | 0 <= i < |m.dates| ensures CloseOn(m, x.benchmark, m.dates[i]).Some? {
      assert m.dates[i] in m.dates;
    }
  }

  // ----- the equal-weight pool

  lemma {:induction false} KeepHas(xs: seq<Symbol>, pool: set<Symbol>)
    ensures forall s :: s in Keep(xs, pool) <==> s in xs && s in pool
  {
    if xs == [] {
    } else {
      KeepHas(xs[1..], pool);
      assert forall s :: s in xs <==> s == xs[0] || s in xs[1..];
    }
  }

  /** The day's pool in symbol order. */
  function Members(m: Market, date: Date): seq<Symbol> {
    Keep(m.symbols, EligibleOn(m.x, BarsOn(m.bars, date)))
  }

  /** The members are the pool, and every one has a bar that day. */
  lemma MembersArePool(x: Inputs, date: Date)
    ensures var m := MarketOf(x);
            && (forall s :: s in Members(m, date) <==> s in EligibleOn(x, BarsOn(m.bars, date)))
            && forall s | s in Members(m, date) :: s in BarsOn(m.bars, date)
  {
    var m := MarketOf(x);
    KeepHas(m.symbols, EligibleOn(x, BarsOn(m.bars, date)));
    PoolIsFollowed(x, date);
  }

  /** A member's return from one trading day to the next; a suspension counts as none. */
  function ReturnOf(previous: Option<real>, current: Option<MarketBar>, suspended: bool): Result<real, SeriesError> {
    if previous.None? then Err(NoPreviousClose)
    else if current.None? then if suspended then Ok(0.0) else Err(MissingPrice)
    else if current.value.suspended then Ok(0.0)
    else if current.value.close.None? then Err(MissingPrice)
    else if previous.value == 0.0 then Err(ZeroClose)
    else Ok(current.value.close.value / previous.value - 1.0)
  }

  function MemberReturn(m: Market, s: Symbol, from: Date, to: Date,
                        suspended: map<Date, set<Symbol>>): Result<real, SeriesError> {
    var day := BarsOn(m.bars, to);
    ReturnOf(CloseOn(m, s, from), if s in day then Some(day[s]) else None, to in suspended && s in suspended[to])
  }

  function Returns(m: Market, ss: seq<Symbol>, from: Date, to: Date, suspended: map<Date, set<Symbol>>)
    : (r: Result<seq<real>, SeriesError>)
    ensures r.Ok? ==> |r.value| == |ss|
  {
    if ss == [] then Ok([])
    else
      match Returns(m, ss[..|ss| - 1], from, to, suspended)
      case Err(e) => Err(e)
      case Ok(rest) =>
        match MemberReturn(m, ss[|ss| - 1], from, to, suspended)
        case Err(e) => Err(e)
        case Ok(r) => Ok(rest + [r])
  }

  function Advanced(value: real, gains: seq<real>): real
    requires gains != []
  {
    value * (1.0 + Sum(gains) / |gains| as real)
  }

  /** The value at each of the first `k + 1` dates. */
  function PoolValues(m: Market, suspended: map<Date, set<Symbol>>, k: nat): (r: Result<seq<real>, SeriesError>)
    requires k < |m.dates|
    ensures r.Ok? ==> |r.value| == k + 1
  {
    if k == 0 then Ok([m.x.initialEquity])
    else
      match PoolValues(m, suspended, k - 1)
      case Err(e) => Err(e)
      case Ok(values) =>
        var members := Members(m, m.dates[k - 1]);
        if members == [] then Err(NoConstituents)
        else
          match Returns(m, members, m.dates[k - 1], m.dates[k], suspended)
          case Err(e) => Err(e)
          case Ok(gains) => Ok(values + [Advanced(values[k - 1], gains)])
  }

  method DayReturns(m: Market, members: seq<Symbol>, from: Date, to: Date, suspended: map<Date, set<Symbol>>)
    returns (r: Result<seq<real>, SeriesError>)
    ensures r == Returns(m, members, from, to, suspended)
  {
    hide MemberReturn;
    var gains: seq<real> := [];
    var i := 0;
    while i < |members|
      invariant 0 <= i <= |members|
      invariant Returns(m, members[..i], from, to, suspended) == Ok(gains)
    {
      assert members[..i + 1][..i] == members[..i];
      var next := MemberReturn(m, members[i], from, to, suspended);
      i := i + 1;
      if next.Err? {
        FailedReturn(m, members, i, from, to, suspended);
        return Err(next.error);
      }
      gains := gains + [next.value];
    }
    assert members[..i] == members;
    r := Ok(gains);
  }

  lemma {:induction false} FailedReturn(m: Market, ss: seq<Symbol>, k: nat, from: Date, to: Date,
                                        suspended: map<Date, set<Symbol>>)
    requires k <= |ss| && Returns(m, ss[..k], from, to, suspended).Err?
    ensures Returns(m, ss, from, to, suspended) == Returns(m, ss[..k], from, to, suspended)
  {
    if k == |ss| {
      assert ss[..k] == ss;
    } else {
      assert ss[..|ss| - 1][..k] == ss[..k];
      FailedReturn(m, ss[..|ss| - 1], k, from, to, suspended);
    }
  }

  lemma {:induction false} FailedPool(m: Market, suspended: map<Date, set<Symbol>>, k: nat, n: nat)
    requires k <= n < |m.dates| && PoolValues(m, suspended, k).Err?
    ensures PoolValues(m, suspended, n) == PoolValues(m, suspended, k)
  {
    if k < n { FailedPool(m, suspended, k, n - 1); }
  }

  /** The equal-weight series of the pool that was known a day before. */
  method UniverseSeries(m: Market, suspended: map<Date, set<Symbol>>) returns (r: Result<seq<real>, SeriesError>)
    requires m.dates != []
    ensures r == PoolValues(m, suspended, |m.dates| - 1)
  {
    hide Members, Returns, Advanced;
    var value := m.x.initialEquity;
    var points := [value];
    var k := 1;
    while k < |m.dates|
      invariant 1 <= k <= |m.dates|
      invariant PoolValues(m, suspended, k - 1) == Ok(points) && value == points[k - 1]
    {
      var members := Members(m, m.dates[k - 1]);
      if members == [] {
        FailedPool(m, suspended, k, |m.dates| - 1);
        return Err(NoConstituents);
      }
      var gains := DayReturns(m, members, m.dates[k - 1], m.dates[k], suspended);
      if gains.Err? {
        FailedPool(m, suspended, k, |m.dates| - 1);
        return Err(gains.error);
      }
      value := Advanced(value, gains.value);
      points := points + [value];
      k := k + 1;
    }
    r := Ok(points);
  }

  // ----- what the equal-weight series is worth

  /** What a slice becomes by a return. */
  function Grown(slice: real, gain: real): real {
    slice * (1.0 + gain)
  }

  /** What equal slices of a value become, each earning its own return. */
  function Slices(slice: real, gains: seq<real>): seq<real> {
    if gains == [] then [] else Slices(slice, gains[..|gains| - 1]) + [Grown(slice, gains[|gains| - 1])]
  }

  lemma SumSnoc(xs: seq<real>, x: real)
    ensures Sum(xs + [x]) == Sum(xs) + x
  {
    SumConcat(xs, [x]);
    assert [x][1..] == [] && Sum([x]) == x + Sum([]);
  }

  function Total(slice: real, n: real, sum: real): real {
    slice * (n + sum)
  }

  lemma {:induction false} SlicesAddUp(slice: real, gains: seq<real>)
    ensures Sum(Slices(slice, gains)) == Total(slice, |gains| as real, Sum(gains))
  {
    if gains == [] {
    } else {
      var n := |gains| - 1;
      SlicesAddUp(slice, gains[..n]);
      SumSnoc(Slices(slice, gains[..n]), Grown(slice, gains[n]));
      assert gains == gains[..n] + [gains[n]];
      SumSnoc(gains[..n], gains[n]);
      SliceGrows(slice, n as real, Sum(gains[..n]), gains[n]);
    }
  }

  lemma SliceGrows(slice: real, n: real, sum: real, r: real)
    ensures Total(slice, n, sum) + Grown(slice, r) == Total(slice, n + 1.0, sum + r)
  {
  }

  /** Every day the whole value is split into equal slices, one for each member of the day before, and the
      next value is what the slices have become. */
  lemma {:induction false} RebalancedDaily(m: Market, suspended: map<Date, set<Symbol>>, k: nat)
    requires 0 < k < |m.dates| && PoolValues(m, suspended, k).Ok?
    ensures var members := Members(m, m.dates[k - 1]);
            var values := PoolValues(m, suspended, k).value;
            && members != [] && Returns(m, members, m.dates[k - 1], m.dates[k], suspended).Ok?
            && values[k] == Sum(Slices(values[k - 1] / |members| as real,
                                       Returns(m, members, m.dates[k - 1], m.dates[k], suspended).value))
  {
    hide Members, Returns, Slices;
    var members := Members(m, m.dates[k - 1]);
    var gains := Returns(m, members, m.dates[k - 1], m.dates[k], suspended).value;
    var value := PoolValues(m, suspended, k).value[k - 1];
    SlicesAddUp(value / |members| as real, gains);
    EqualSlices(value, |members| as real, Sum(gains));
  }

  lemma EqualSlices(value: real, n: real, sum: real)
    requires n > 0.0
    ensures Total(value / n, n, sum) == value * (1.0 + sum / n)
  {
    var slice := value / n;
    assert slice * n == value;
    assert value * (sum / n) == slice * sum by {
      assert sum / n * n == sum;
      assert value * (sum / n) == slice * n * (sum / n);
    }
  }

  lemma {:induction false} ReturnsAboveMinusOne(m: Market, ss: seq<Symbol>, from: Date, to: Date,
                                                suspended: map<Date, set<Symbol>>)
    requires Returns(m, ss, from, to, suspended).Ok?
    requires forall b | b in m.bars && b.close.Some? :: b.close.value > 0.0
    ensures forall i | 0 <= i < |ss| :: Returns(m, ss, from, to, suspended).value[i] > -1.0
  {
    if ss == [] {
    } else {
      ReturnsAboveMinusOne(m, ss[..|ss| - 1], from, to, suspended);
      BarsOnAreBars(m.bars, from);
      BarsOnAreBars(m.bars, to);
      var previous, s := CloseOn(m, ss[|ss| - 1], from), ss[|ss| - 1];
      var day := BarsOn(m.bars, to);
      if s in day && !day[s].suspended {
        QuotientPositive(day[s].close.value, previous.value);
      }
    }
  }

  lemma QuotientPositive(a: real, b: real)
    requires a > 0.0 && b > 0.0
    ensures a / b > 0.0
  {
    assert a / b * b == a;
  }

  lemma {:induction false} SlicesPositive(slice: real, gains: seq<real>)
    requires slice > 0.0 && forall i | 0 <= i < |gains| :: gains[i] > -1.0
    ensures Sum(Slices(slice, gains)) >= 0.0 && (gains != [] ==> Sum(Slices(slice, gains)) > 0.0)
  {
    if gains == [] {
    } else {
      var n := |gains| - 1;
      SlicesPositive(slice, gains[..n]);
      SumSnoc(Slices(slice, gains[..n]), Grown(slice, gains[n]));
      assert Grown(slice, gains[n]) > 0.0;
    }
  }

  /** Over positive closes the series never falls to zero. */
  lemma {:induction false} PoolStaysPositive(m: Market, suspended: map<Date, set<Symbol>>, k: nat)
    requires m.x.initialEquity > 0.0 && k < |m.dates| && PoolValues(m, suspended, k).Ok?
    requires forall b | b in m.bars && b.close.Some? :: b.close.value > 0.0
    ensures forall v | v in PoolValues(m, suspended, k).value :: v > 0.0
  {
    hide Members, Returns, Slices, Advanced;
    if k == 0 {
    } else {
      PoolStaysPositive(m, suspended, k - 1);
      RebalancedDaily(m, suspended, k);
      var members := Members(m, m.dates[k - 1]);
      var values := PoolValues(m, suspended, k - 1).value;
      assert values[k - 1] in values;
      ReturnsAboveMinusOne(m, members, m.dates[k - 1], m.dates[k], suspended);
      QuotientPositive(values[k - 1], |members| as real);
      SlicesPositive(values[k - 1] / |members| as real,
                     Returns(m, members, m.dates[k - 1], m.dates[k], suspended).value);
    }
  }
}
