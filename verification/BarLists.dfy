/** Lists of bars: what their admission and sorting make of the bars through a date. */
module BarLists {
  import opened Common
  import opened Sorting
  import opened Simulator
  import opened Strategy
  import opened EventLoop

  /** The bars dated `t` or earlier. */
  function UpTo(bars: seq<MarketBar>, t: Date): seq<MarketBar> {
    if bars == [] then []
    else if bars[0].date <= t then [bars[0]] + UpTo(bars[1..], t)
    else UpTo(bars[1..], t)
  }

  // ----- preparation looks at each bar by itself

  lemma {:induction false} AdmittedUpTo(bars: seq<MarketBar>, end: Date, cutoff: Cutoff, t: Date)
    ensures UpTo(Admitted(bars, end, cutoff), t) == Admitted(UpTo(bars, t), end, cutoff)
  {
    if bars == [] {
    } else {
      AdmittedUpTo(bars[1..], end, cutoff, t);
      assert ([bars[0]] + Admitted(bars[1..], end, cutoff))[1..] == Admitted(bars[1..], end, cutoff);
      assert ([bars[0]] + UpTo(bars[1..], t))[1..] == UpTo(bars[1..], t);
    }
  }

  lemma {:induction false} LaterBarsDrop(bars: seq<MarketBar>, t: Date)
    requires forall b | b in bars :: b.date > t
    ensures UpTo(bars, t) == []
  {
    if bars == [] {
    } else {
      LaterBarsDrop(bars[1..], t);
    }
  }

  lemma {:induction false} InsertUpTo(b: MarketBar, bars: seq<MarketBar>, t: Date)
    requires Sorted(BarOrder, bars)
    ensures UpTo(Insert(BarOrder, b, bars), t)
         == if b.date <= t then Insert(BarOrder, b, UpTo(bars, t)) else UpTo(bars, t)
  {
    if bars == [] {
    } else if BarOrder(b, bars[0]) {
      assert ([b] + bars)[1..] == bars;
      if b.date <= t < bars[0].date {
        assert forall i | 0 < i < |bars| :: BarOrder(bars[0], bars[i]);
        LaterBarsDrop(bars, t);
      }
    } else {
      var rest := Insert(BarOrder, b, bars[1..]);
      InsertUpTo(b, bars[1..], t);
      assert ([bars[0]] + rest)[1..] == rest;
      assert ([bars[0]] + UpTo(bars[1..], t))[1..] == UpTo(bars[1..], t);
    }
  }

  lemma BarOrderIsTotal()
    ensures TotalPreorder(BarOrder)
  {
  }

  lemma {:induction false} SortUpTo(bars: seq<MarketBar>, t: Date)
    ensures UpTo(Sort(BarOrder, bars), t) == Sort(BarOrder, UpTo(bars, t))
  {
    if bars == [] {
    } else {
      BarOrderIsTotal();
      SortSorts(BarOrder, bars[1..]);
      SortUpTo(bars[1..], t);
      InsertUpTo(bars[0], Sort(BarOrder, bars[1..]), t);
      assert ([bars[0]] + UpTo(bars[1..], t))[1..] == UpTo(bars[1..], t);
    }
  }

  /** No two bars for one symbol and date. */
  ghost predicate OneBarEach(bars: seq<MarketBar>) {
    forall i, j | 0 <= i < j < |bars| :: bars[i].date != bars[j].date || bars[i].symbol != bars[j].symbol
  }

  /** The same bars, in whatever order if there is only one for each symbol and date. */
  ghost predicate SameBars(a: seq<MarketBar>, b: seq<MarketBar>) {
    a == b || (OneBarEach(a) && multiset(a) == multiset(b))
  }

  lemma {:induction false} AdmittedCount(bars: seq<MarketBar>, end: Date, cutoff: Cutoff, b: MarketBar)
    ensures multiset(Admitted(bars, end, cutoff))[b]
         == if b.date <= end && Visible(b.availableAt, cutoff) then multiset(bars)[b] else 0
  {
    if bars == [] {
    } else {
      AdmittedCount(bars[1..], end, cutoff, b);
      assert bars == [bars[0]] + bars[1..];
    }
  }

  lemma {:induction false} SortedListsStartAlike(a: seq<MarketBar>, b: seq<MarketBar>)
    requires Sorted(BarOrder, a) && Sorted(BarOrder, b) && multiset(a) == multiset(b) && OneBarEach(a) && a != []
    ensures b != [] && a[0] == b[0]
  {
    assert a[0] in multiset(a) && a[0] in multiset(b);
    var j :| 0 <= j < |b| && b[j] == a[0];
    assert b[0] in multiset(b) && b[0] in multiset(a);
    var i :| 0 <= i < |a| && a[i] == b[0];
    assert i > 0 ==> BarOrder(a[0], a[i]);
    assert j > 0 ==> BarOrder(b[0], b[j]);
  }

  lemma Tails(a: seq<MarketBar>)
    requires a != [] && Sorted(BarOrder, a)
    ensures multiset(a[1..]) == multiset(a) - multiset{a[0]} && Sorted(BarOrder, a[1..])
    ensures OneBarEach(a) ==> OneBarEach(a[1..])
  {
    assert a == [a[0]] + a[1..];
    hide BarOrder;
  }

  /** Sorting does not tell apart what has the same elements, if no two of them share a key. */
  lemma {:induction false} SortedListsAgree(a: seq<MarketBar>, b: seq<MarketBar>)
    requires Sorted(BarOrder, a) && Sorted(BarOrder, b) && multiset(a) == multiset(b) && OneBarEach(a)
    ensures a == b
  {
    assert |a| == |multiset(a)| == |multiset(b)| == |b|;
    if a == [] {
    } else {
      SortedListsStartAlike(a, b);
      Tails(a);
      Tails(b);
      hide Sorted, OneBarEach, BarOrder;
      SortedListsAgree(a[1..], b[1..]);
      assert a == [a[0]] + a[1..] && b == [b[0]] + b[1..];
    }
  }

  lemma {:induction false} KeysKept(a: seq<MarketBar>, b: seq<MarketBar>)
    requires OneBarEach(a) && multiset(b) <= multiset(a)
    ensures OneBarEach(b)
  {
    forall i, j | 0 <= i < j < |b| ensures b[i].date != b[j].date || b[i].symbol != b[j].symbol {
      assert b == b[..i] + [b[i]] + b[i + 1..j] + [b[j]] + b[j + 1..];
      if b[i] == b[j] {
        assert multiset(b)[b[i]] >= 2;
        TwiceIsTwice(a, b[i]);
      } else {
        assert b[i] in multiset(b) && b[j] in multiset(b);
        assert b[i] in a && b[j] in a;
      }
    }
  }

  lemma {:induction false} TwiceIsTwice(a: seq<MarketBar>, b: MarketBar)
    requires multiset(a)[b] >= 2
    ensures exists i, j | 0 <= i < j < |a| :: a[i] == b && a[j] == b
  {
    assert b in multiset(a);
    var i :| 0 <= i < |a| && a[i] == b;
    assert a == a[..i] + [b] + a[i + 1..];
    var rest := a[..i] + a[i + 1..];
    assert multiset(rest)[b] >= 1;
    assert b in multiset(rest) && b in rest;
    var k :| 0 <= k < |rest| && rest[k] == b;
    var j := if k < i then k else k + 1;
    assert a[j] == b && j != i;
    if j < i { assert a[j] == b && a[i] == b; }
  }

  /** The same bars are admitted and sorted alike. */
  lemma {:induction false} SameBarsPrepared(a: seq<MarketBar>, b: seq<MarketBar>, end: Date, cutoff: Cutoff)
    requires SameBars(a, b)
    ensures Sort(BarOrder, Admitted(a, end, cutoff)) == Sort(BarOrder, Admitted(b, end, cutoff))
  {
    if a != b {
      var p, q := Admitted(a, end, cutoff), Admitted(b, end, cutoff);
      forall x ensures multiset(p)[x] == multiset(q)[x] && multiset(p)[x] <= multiset(a)[x] {
        AdmittedCount(a, end, cutoff, x);
        AdmittedCount(b, end, cutoff, x);
      }
      assert multiset(p) == multiset(q) && multiset(p) <= multiset(a);
      SortKeepsElements(BarOrder, p);
      SortKeepsElements(BarOrder, q);
      BarOrderIsTotal();
      SortSorts(BarOrder, p);
      SortSorts(BarOrder, q);
      KeysKept(a, Sort(BarOrder, p));
      SortedListsAgree(Sort(BarOrder, p), Sort(BarOrder, q));
    }
  }
}
