/** Percentile ranks with ties, as the strong-trend score uses them. */
module Ranking {
  import opened Sorting

  predicate Descending(x: real, y: real) {
    x >= y
  }

  function CountBelow(xs: seq<real>, v: real): nat {
    if xs == [] then 0 else (if xs[0] < v then 1 else 0) + CountBelow(xs[1..], v)
  }

  function CountEqual(xs: seq<real>, v: real): nat {
    if xs == [] then 0 else (if xs[0] == v then 1 else 0) + CountEqual(xs[1..], v)
  }

  function CountAbove(xs: seq<real>, v: real): nat {
    if xs == [] then 0 else (if xs[0] > v then 1 else 0) + CountAbove(xs[1..], v)
  }

  /** The positions, counted from `first`, at which `v` stands. */
  function Places(ordered: seq<real>, v: real, first: nat): (ps: seq<nat>)
    ensures |ps| == CountEqual(ordered, v)
  {
    if ordered == [] then []
    else if ordered[0] == v then [first] + Places(ordered[1..], v, first + 1)
    else Places(ordered[1..], v, first + 1)
  }

  function Total(ps: seq<nat>): nat {
    if ps == [] then 0 else ps[0] + Total(ps[1..])
  }

  /** The percentile rank of one of the values: 1 for the highest, ties sharing their average place. */
  function Rank(values: seq<real>, v: real): real
    requires v in values
  {
    var ordered := Sort(Descending, values);
    CountsOfSort(values, v);
    EqualPositive(values, v);
    SortKeepsElements(Descending, values);
    var places := Places(ordered, v, 1);
    var average := Total(places) as real / |places| as real;
    if |ordered| == 1 then 1.0
    else (|ordered| as real - average) / (|ordered| as real - 1.0)
  }

  lemma {:induction false} EqualPositive(xs: seq<real>, v: real)
    ensures v in xs <==> CountEqual(xs, v) > 0
  {
    if xs == [] {
    } else {
      assert xs == [xs[0]] + xs[1..];
      EqualPositive(xs[1..], v);
    }
  }

  lemma {:induction false} CountsOfInsert(x: real, xs: seq<real>, v: real)
    ensures CountEqual(Insert(Descending, x, xs), v) == CountEqual([x] + xs, v)
    ensures CountAbove(Insert(Descending, x, xs), v) == CountAbove([x] + xs, v)
  {
    assert ([x] + xs)[1..] == xs;
    if xs != [] && !Descending(x, xs[0]) {
      CountsOfInsert(x, xs[1..], v);
      assert ([x] + xs[1..])[1..] == xs[1..];
    }
  }

  lemma {:induction false} CountsOfSort(xs: seq<real>, v: real)
    ensures CountEqual(Sort(Descending, xs), v) == CountEqual(xs, v)
    ensures CountAbove(Sort(Descending, xs), v) == CountAbove(xs, v)
  {
    if xs == [] {
    } else {
      CountsOfSort(xs[1..], v);
      CountsOfInsert(xs[0], Sort(Descending, xs[1..]), v);
      assert ([xs[0]] + Sort(Descending, xs[1..]))[1..] == Sort(Descending, xs[1..]);
    }
  }

  lemma {:induction false} CountsAddUp(xs: seq<real>, v: real)
    ensures CountBelow(xs, v) + CountEqual(xs, v) + CountAbove(xs, v) == |xs|
  {
    if xs == [] {
    } else {
      CountsAddUp(xs[1..], v);
    }
  }

  /** From a value on, a descending list holds nothing greater; past it, nothing equal. */
  lemma {:induction false} CountsBehind(xs: seq<real>, v: real)
    requires Sorted(Descending, xs) && xs != []
    ensures xs[0] <= v ==> CountAbove(xs, v) == 0
    ensures xs[0] < v ==> CountEqual(xs, v) == 0
  {
    if |xs| > 1 {
      assert Descending(xs[0], xs[1]);
      CountsBehind(xs[1..], v);
    }
  }

  /** first + (first + 1) + ... over `count` numbers. */
  function Consecutive(first: nat, count: nat): nat
    decreases count
  {
    if count == 0 then 0 else first + Consecutive(first + 1, count - 1)
  }

  lemma {:induction false} ConsecutiveSum(first: nat, count: nat)
    ensures 2 * Consecutive(first, count) == count * (2 * first + count - 1)
    decreases count
  {
    if count == 0 {
    } else {
      ConsecutiveSum(first + 1, count - 1);
      assert 2 * first + (count - 1) * (2 * (first + 1) + (count - 1) - 1) == count * (2 * first + count - 1);
    }
  }

  /** In a descending list the places of a value are consecutive and follow everything greater. */
  lemma {:induction false} PlacesSum(xs: seq<real>, v: real, first: nat)
    requires Sorted(Descending, xs)
    ensures Total(Places(xs, v, first)) == Consecutive(first + CountAbove(xs, v), CountEqual(xs, v))
  {
    if xs == [] {
    } else {
      PlacesSum(xs[1..], v, first + 1);
      CountsBehind(xs, v);
    }
  }

  /** Points from the bottom: two for every value below, one for every tie. */
  function Weight(values: seq<real>, v: real): nat {
    2 * CountBelow(values, v) + CountEqual(values, v)
  }

  /** The rank of a value depends only on how many values lie below it and how many tie with it. */
  lemma RankCounts(values: seq<real>, v: real)
    requires v in values && |values| >= 2
    ensures Rank(values, v) == (Weight(values, v) - 1) as real / (2 * |values| - 2) as real
  {
    var ordered := Sort(Descending, values);
    CountsOfSort(values, v);
    EqualPositive(values, v);
    SortKeepsElements(Descending, values);
    SortSorts(Descending, values);
    PlacesSum(ordered, v, 1);
    CountsAddUp(values, v);
    var e, above := CountEqual(values, v), CountAbove(values, v);
    ConsecutiveSum(1 + above, e);
    RankFraction(|values|, e, above, Consecutive(1 + above, e));
  }

  lemma RankFraction(n: int, e: int, above: int, total: int)
    requires n >= 2 && e > 0 && 2 * total == e * (2 * (1 + above) + e - 1)
    ensures (n as real - total as real / e as real) / (n as real - 1.0)
         == (2 * (n - above - e) + e - 1) as real / (2 * n - 2) as real
  {
    var twice := 2 * (1 + above) + e - 1;
    MeanPlace(e, twice, total);
    HalfFraction(n as real - twice as real / 2.0, n as real - 1.0);
    assert 2.0 * (n as real - twice as real / 2.0) == (2 * (n - above - e) + e - 1) as real;
  }

  lemma MeanPlace(e: int, twice: int, total: int)
    requires e > 0 && 2 * total == e * twice
    ensures total as real / e as real == twice as real / 2.0
  {
    assert total as real * 2.0 == e as real * twice as real;
    assert total as real / e as real * e as real == total as real;
    assert (total as real / e as real * 2.0 - twice as real) * e as real == 0.0;
  }

  lemma HalfFraction(a: real, b: real)
    requires b > 0.0
    ensures a / b == (2.0 * a) / (2.0 * b)
  {
    assert a == a / b * b;
    assert 2.0 * a == a / b * (2.0 * b);
  }

  lemma {:induction false} BelowGrows(xs: seq<real>, v: real, w: real)
    requires v < w
    ensures CountBelow(xs, v) + CountEqual(xs, v) <= CountBelow(xs, w)
  {
    if xs == [] {
    } else {
      BelowGrows(xs[1..], v, w);
    }
  }

  lemma QuotientOrder(a: real, b: real, d: real)
    requires d > 0.0
    ensures a / d < b / d <==> a < b
  {
    assert b / d - a / d == (b - a) / d;
    assert (b - a) / d * d == b - a;
  }

  lemma QuotientInUnit(a: real, d: real)
    requires d > 0.0
    ensures 0.0 <= a / d <= 1.0 <==> 0.0 <= a <= d
  {
    assert a / d * d == a;
    assert (1.0 - a / d) * d == d - a;
  }

  /** Ranks lie between 0 and 1. */
  lemma RankInUnit(values: seq<real>, v: real)
    requires v in values
    ensures 0.0 <= Rank(values, v) <= 1.0
  {
    if |values| == 1 {
      SortKeepsElements(Descending, values);
    } else {
      hide Rank;
      EqualPositive(values, v);
      CountsAddUp(values, v);
      RankCounts(values, v);
      QuotientInUnit((Weight(values, v) - 1) as real, (2 * |values| - 2) as real);
    }
  }

  /** Ranks order values strictly, and give equal values the same rank. */
  lemma RankOrders(values: seq<real>, v: real, w: real)
    requires v in values && w in values
    ensures Rank(values, v) < Rank(values, w) <==> v < w
  {
    hide Rank;
    if |values| >= 2 {
      EqualPositive(values, v);
      EqualPositive(values, w);
      RankCounts(values, v);
      RankCounts(values, w);
      QuotientOrder((Weight(values, v) - 1) as real, (Weight(values, w) - 1) as real, (2 * |values| - 2) as real);
      if v < w { BelowGrows(values, v, w); }
      if w < v { BelowGrows(values, w, v); }
    }
  }

  function Beats(a: real, x: real): nat {
    if a < x then 2 else if a == x then 1 else 0
  }

  function BeatenBy(a: real, xs: seq<real>): nat {
    if xs == [] then 0 else Beats(a, xs[0]) + BeatenBy(a, xs[1..])
  }

  function WeightTotal(values: seq<real>, xs: seq<real>): nat {
    if xs == [] then 0 else Weight(values, xs[0]) + WeightTotal(values, xs[1..])
  }

  /** Two points are shared out by every ordered pair. */
  lemma {:induction false} PairsShareTwo(a: real, xs: seq<real>)
    ensures Weight(xs, a) + BeatenBy(a, xs) == 2 * |xs|
  {
    if xs == [] {
    } else {
      PairsShareTwo(a, xs[1..]);
    }
  }

  lemma {:induction false} OneMoreValue(a: real, values: seq<real>, xs: seq<real>)
    ensures WeightTotal([a] + values, xs) == BeatenBy(a, xs) + WeightTotal(values, xs)
  {
    if xs == [] {
    } else {
      OneMoreValue(a, values, xs[1..]);
      assert ([a] + values)[1..] == values;
    }
  }

  function Square(n: nat): nat {
    n * n
  }

  lemma NextSquare(n: nat)
    ensures Square(n + 1) == Square(n) + 2 * n + 1 && Square(0) == 0
  {
  }

  /** A value draws against itself. */
  lemma OwnWeight(a: real, xs: seq<real>)
    ensures Weight([a] + xs, a) == Weight(xs, a) + 1
  {
    assert ([a] + xs)[1..] == xs;
  }

  lemma {:induction false} WeightsAddUp(values: seq<real>)
    ensures WeightTotal(values, values) == Square(|values|)
  {
    hide Square, Weight, BeatenBy;
    NextSquare(|values|);
    if values == [] {
    } else {
      var a, rest := values[0], values[1..];
      assert values == [a] + rest;
      WeightsAddUp(rest);
      PairsShareTwo(a, rest);
      OneMoreValue(a, rest, rest);
      NextSquare(|rest|);
      assert WeightTotal(values, values) == Weight(values, a) + WeightTotal([a] + rest, rest);
      OwnWeight(a, rest);
    }
  }

  /** The ranks of all values of `xs` within `values`, added up. */
  function RankTotal(values: seq<real>, xs: seq<real>): real
    requires forall x | x in xs :: x in values
  {
    if xs == [] then 0.0 else Rank(values, xs[0]) + RankTotal(values, xs[1..])
  }

  lemma {:induction false} RankTotalCounts(values: seq<real>, xs: seq<real>)
    requires |values| >= 2 && forall x | x in xs :: x in values
    ensures RankTotal(values, xs) == (WeightTotal(values, xs) - |xs|) as real / (2 * |values| - 2) as real
  {
    hide Rank;
    if xs == [] {
    } else {
      RankTotalCounts(values, xs[1..]);
      RankCounts(values, xs[0]);
      AddQuotients((Weight(values, xs[0]) - 1) as real, (WeightTotal(values, xs[1..]) - |xs[1..]|) as real,
                   (2 * |values| - 2) as real);
    }
  }

  lemma AddQuotients(a: real, b: real, d: real)
    requires d > 0.0
    ensures a / d + b / d == (a + b) / d
  {
  }

  /** Over two or more values the ranks add up to exactly half their number; a single value ranks 1. */
  lemma RanksSumToHalf(values: seq<real>)
    ensures |values| >= 2 ==> RankTotal(values, values) == |values| as real / 2.0
    ensures |values| == 1 ==> RankTotal(values, values) == 1.0
  {
    if |values| >= 2 {
      HalfOfMany(values);
    } else if |values| == 1 {
      SortKeepsElements(Descending, values);
      assert RankTotal(values, values) == Rank(values, values[0]) + RankTotal(values, values[1..]);
    }
  }

  lemma HalfOfMany(values: seq<real>)
    requires |values| >= 2
    ensures RankTotal(values, values) == |values| as real / 2.0
  {
    hide *;
    RankTotalCounts(values, values);
    WeightsAddUp(values);
    SquareFraction(|values|);
  }

  lemma SquareFraction(n: int)
    requires n >= 2
    ensures (Square(n) - n) as real / (2 * n - 2) as real == n as real / 2.0
  {
    assert n * n - n == n * (n - 1);
    assert (n * n - n) as real == n as real / 2.0 * (2 * n - 2) as real;
  }
}
