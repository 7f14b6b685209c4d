/** Stable sorting by a comparison, as Python's `sorted` with a key. */
module Sorting {

  function Insert<T>(le: (T, T) -> bool, x: T, xs: seq<T>): seq<T> {
    if xs == [] then [x]
    else if le(x, xs[0]) then [x] + xs
    else [xs[0]] + Insert(le, x, xs[1..])
  }

  function Sort<T>(le: (T, T) -> bool, xs: seq<T>): seq<T> {
    if xs == [] then [] else Insert(le, xs[0], Sort(le, xs[1..]))
  }

  ghost predicate Sorted<T>(le: (T, T) -> bool, xs: seq<T>) {
    forall i, j | 0 <= i < j < |xs| :: le(xs[i], xs[j])
  }

  ghost predicate TotalPreorder<T(!new)>(le: (T, T) -> bool) {
    && (forall x, y :: le(x, y) || le(y, x))
    && (forall x, y, z :: le(x, y) && le(y, z) ==> le(x, z))
  }

  lemma {:induction false} InsertKeepsElements<T>(le: (T, T) -> bool, x: T, xs: seq<T>)
    ensures multiset(Insert(le, x, xs)) == multiset(xs) + multiset{x}
    ensures |Insert(le, x, xs)| == |xs| + 1
  {
    if xs == [] {
    } else {
      assert xs == [xs[0]] + xs[1..];
      InsertKeepsElements(le, x, xs[1..]);
    }
  }

  lemma {:induction false} InsertSorts<T(!new)>(le: (T, T) -> bool, x: T, xs: seq<T>)
    requires TotalPreorder(le) && Sorted(le, xs)
    ensures Sorted(le, Insert(le, x, xs))
  {
    if xs == [] {
    } else if le(x, xs[0]) {
      var r := [x] + xs;
      forall i, j | 0 <= i < j < |r| ensures le(r[i], r[j]) {
        assert j == 1 || le(xs[0], xs[j - 1]);
      }
    } else {
      InsertSorts(le, x, xs[1..]);
      var t := Insert(le, x, xs[1..]);
      InsertKeepsElements(le, x, xs[1..]);
      forall j | 0 <= j < |t| ensures le(xs[0], t[j]) {
        assert t[j] in multiset(t);
        assert t[j] == x || t[j] in xs[1..];
      }
    }
  }

  lemma {:induction false} SortSorts<T(!new)>(le: (T, T) -> bool, xs: seq<T>)
    requires TotalPreorder(le)
    ensures Sorted(le, Sort(le, xs))
  {
    if xs == [] {
    } else {
      SortSorts(le, xs[1..]);
      InsertSorts(le, xs[0], Sort(le, xs[1..]));
    }
  }

  lemma {:induction false} SortKeepsElements<T>(le: (T, T) -> bool, xs: seq<T>)
    ensures multiset(Sort(le, xs)) == multiset(xs)
    ensures |Sort(le, xs)| == |xs|
    ensures forall x :: x in Sort(le, xs) <==> x in xs
  {
    if xs != [] {
      assert xs == [xs[0]] + xs[1..];
      SortKeepsElements(le, xs[1..]);
      InsertKeepsElements(le, xs[0], Sort(le, xs[1..]));
    }
    assert forall x :: x in Sort(le, xs) <==> x in multiset(Sort(le, xs));
  }

  /** Sorting what is already in order changes nothing. */
  lemma {:induction false} SortOfSorted<T>(le: (T, T) -> bool, xs: seq<T>)
    requires Sorted(le, xs)
    ensures Sort(le, xs) == xs
  {
    if xs == [] {
    } else {
      SortOfSorted(le, xs[1..]);
      assert |xs| == 1 || le(xs[0], xs[1]);
      assert xs == [xs[0]] + xs[1..];
    }
  }

  // ----- sorted sets of integers

  function InsertUnique(x: int, xs: seq<int>): seq<int> {
    if xs == [] || x < xs[0] then [x] + xs
    else if x == xs[0] then xs
    else [xs[0]] + InsertUnique(x, xs[1..])
  }

  /** The distinct values in ascending order. */
  function SortedUnique(xs: seq<int>): seq<int> {
    if xs == [] then [] else InsertUnique(xs[0], SortedUnique(xs[1..]))
  }

  ghost predicate Ascending(xs: seq<int>) {
    forall i, j | 0 <= i < j < |xs| :: xs[i] < xs[j]
  }

  lemma {:induction false} InsertUniqueElements(x: int, xs: seq<int>)
    ensures forall y :: y in InsertUnique(x, xs) <==> y == x || y in xs
  {
    if xs != [] && x > xs[0] {
      InsertUniqueElements(x, xs[1..]);
      assert xs == [xs[0]] + xs[1..];
    }
  }

  lemma {:induction false} SortedUniqueElements(xs: seq<int>)
    ensures forall y :: y in SortedUnique(xs) <==> y in xs
  {
    if xs == [] {
    } else {
      SortedUniqueElements(xs[1..]);
      InsertUniqueElements(xs[0], SortedUnique(xs[1..]));
    }
  }

  lemma HasElement(xs: seq<int>)
    ensures xs != [] ==> xs[0] in xs
  {
  }

  lemma {:induction false} AscendingIsUnique(xs: seq<int>, ys: seq<int>)
    requires Ascending(xs) && Ascending(ys)
    requires forall x :: x in xs <==> x in ys
    ensures xs == ys
  {
    if xs == [] {
      HasElement(ys);
    } else {
      assert xs[0] in xs && xs[0] in ys;
      assert ys[0] in ys && ys[0] in xs;
      forall x ensures x in xs[1..] <==> x in ys[1..] {
        assert x in xs <==> x == xs[0] || x in xs[1..];
        assert x in ys <==> x == ys[0] || x in ys[1..];
        assert x in xs[1..] ==> x > xs[0];
        assert x in ys[1..] ==> x > ys[0];
      }
      AscendingIsUnique(xs[1..], ys[1..]);
    }
  }

  lemma {:induction false} SortedUniqueAscends(xs: seq<int>)
    ensures Ascending(SortedUnique(xs))
  {
    if xs == [] {
    } else {
      SortedUniqueAscends(xs[1..]);
      InsertUniqueAscends(xs[0], SortedUnique(xs[1..]));
    }
  }

  lemma {:induction false} InsertUniqueAscends(y: int, xs: seq<int>)
    requires Ascending(xs)
    ensures Ascending(InsertUnique(y, xs))
  {
    if xs != [] && y > xs[0] {
      InsertUniqueAscends(y, xs[1..]);
      InsertUniqueElements(y, xs[1..]);
      var r := InsertUnique(y, xs[1..]);
      assert forall j | 0 <= j < |r| :: r[j] in r;
    }
  }
}
