/** Which value ends each period of a curve, and what each period's return is a return over. */
module PeriodEnds {
  import opened Returns

  /** The `i`-th value is the last of its period. */
  ghost predicate LastOf(periods: seq<Period>, p: Period, i: nat) {
    i < |periods| && periods[i] == p && forall j | i < j < |periods| :: periods[j] != p
  }

  /** The `i`-th value is the first of its period. */
  ghost predicate FirstOf(periods: seq<Period>, p: Period, i: nat) {
    i < |periods| && periods[i] == p && forall j | 0 <= j < i :: periods[j] != p
  }

  ghost predicate EndedAt(values: seq<real>, periods: seq<Period>, e: PeriodEnd)
    requires |values| == |periods|
  {
    exists i: nat :: LastOf(periods, e.period, i) && values[i] == e.value
  }

  /** The first period comes up before the second. */
  ghost predicate Before(periods: seq<Period>, p: Period, q: Period) {
    exists i: nat, j: nat :: FirstOf(periods, p, i) && FirstOf(periods, q, j) && i < j
  }

  lemma {:induction false} LastOfMore(periods: seq<Period>, p: Period, next: Period, i: nat)
    requires p != next && LastOf(periods, p, i)
    ensures LastOf(periods + [next], p, i)
  {
  }

  lemma {:induction false} EndedMore(values: seq<real>, v: real, periods: seq<Period>, next: Period, e: PeriodEnd)
    requires |values| == |periods| && EndedAt(values, periods, e) && e.period != next
    ensures EndedAt(values + [v], periods + [next], e)
  {
    var i: nat :| LastOf(periods, e.period, i) && values[i] == e.value;
    LastOfMore(periods, e.period, next, i);
    assert (values + [v])[i] == e.value;
  }

  lemma {:induction false} BeforeMore(periods: seq<Period>, next: Period, p: Period, q: Period)
    requires Before(periods, p, q)
    ensures Before(periods + [next], p, q)
  {
    var i: nat, j: nat :| FirstOf(periods, p, i) && FirstOf(periods, q, j) && i < j;
    assert FirstOf(periods + [next], p, i) && FirstOf(periods + [next], q, j);
  }

  lemma {:induction false} FirstExists(periods: seq<Period>, p: Period) returns (i: nat)
    requires p in periods
    ensures FirstOf(periods, p, i)
  {
    var n := |periods| - 1;
    if p in periods[..n] {
      i := FirstExists(periods[..n], p);
    } else {
      i := n;
      forall j | 0 <= j < n ensures periods[j] != p { assert periods[..n][j] == periods[j]; }
    }
  }

  /** Every period that comes up has one end, the periods in the order in which they come up first; and the end is the
      value of the period's last date, wherever else in the list the period's dates lie. */
  lemma {:induction false} EndsAreLast(values: seq<real>, periods: seq<Period>)
    requires |values| == |periods|
    ensures var ends := Ends(values, periods);
            && (forall p | p in periods :: exists e :: e in ends && e.period == p)
            && (forall e | e in ends :: e.period in periods && EndedAt(values, periods, e))
            && forall i, j | 0 <= i < j < |ends| :: Before(periods, ends[i].period, ends[j].period)
  {
    hide LastOf, EndedAt, Before;
    if values == [] {
      assert periods == [];
    } else {
      var n := |values| - 1;
      var vs, ps, v, p := values[..n], periods[..n], values[n], periods[n];
      assert values == vs + [v] && periods == ps + [p];
      EndsAreLast(vs, ps);
      var before, ends := Ends(vs, ps), Ends(values, periods);
      var k := IndexOf(before, p);
      LastIsLast(values, periods);
      forall e | e in ends ensures e.period in periods && EndedAt(values, periods, e) {
        var i :| 0 <= i < |ends| && ends[i] == e;
        if i != k {
          assert e == before[i] && e in before;
          if e.period == p { DistinctPeriods(vs, ps); }
          EndedMore(vs, v, ps, p, e);
        }
      }
      forall i, j | 0 <= i < j < |ends| ensures Before(periods, ends[i].period, ends[j].period) {
        if j < |before| {
          assert ends[i].period == before[i].period && ends[j].period == before[j].period;
          BeforeMore(ps, p, ends[i].period, ends[j].period);
        } else {
          assert before[i] in before;
          FirstBefore(ps, before[i].period, p, before);
        }
      }
      forall q | q in periods ensures exists e :: e in ends && e.period == q {
        if q == p {
          assert ends[k] in ends && ends[k].period == p;
        } else {
          assert q in ps;
          var e :| e in before && e.period == q;
          var i :| 0 <= i < |before| && before[i] == e;
          assert ends[i] == e;
        }
      }
    }
  }

  lemma {:induction false} FirstBefore(ps: seq<Period>, q: Period, p: Period, before: seq<PeriodEnd>)
    requires q in ps && q != p && p !in ps
    ensures Before(ps + [p], q, p)
  {
    var i := FirstExists(ps, q);
    var n: nat := |ps|;
    assert FirstOf(ps + [p], q, i) && FirstOf(ps + [p], p, n);
  }

  lemma LastIsLast(values: seq<real>, periods: seq<Period>)
    requires |values| == |periods| > 0
    ensures var n := |values| - 1;
            EndedAt(values, periods, PeriodEnd(periods[n], values[n]))
  {
    var n: nat := |values| - 1;
    assert LastOf(periods, periods[n], n);
  }

  ghost predicate OneEndEach(ends: seq<PeriodEnd>) {
    forall i, j | 0 <= i < j < |ends| :: ends[i].period != ends[j].period
  }

  /** No period has two ends. */
  lemma {:induction false} DistinctPeriods(values: seq<real>, periods: seq<Period>)
    requires |values| == |periods|
    ensures OneEndEach(Ends(values, periods))
  {
    if values == [] {
    } else {
      var n := |values| - 1;
      DistinctPeriods(values[..n], periods[..n]);
      var before := Ends(values[..n], periods[..n]);
      var ends, k := Ends(values, periods), IndexOf(before, periods[n]);
      forall i, j | 0 <= i < j < |ends| ensures ends[i].period != ends[j].period {
        assert ends[i].period == before[i].period && before[i] in before;
        if j < |before| {
          assert ends[j].period == before[j].period;
        } else {
          assert k == |before| && ends[j] == PeriodEnd(periods[n], values[n]);
        }
      }
    }
  }

  /** Each period's return carries the end of the period before, or the start, to its own end. */
  lemma {:induction false} ReturnsCarry(start: real, ends: seq<PeriodEnd>)
    requires start != 0.0 && forall e | e in ends :: e.value != 0.0
    ensures var rs := ReturnsOver(start, ends);
            && |rs| == |ends|
            && forall i | 0 <= i < |rs| ::
                 && rs[i].period == ends[i].period
                 && (1.0 + rs[i].value) * (if i == 0 then start else ends[i - 1].value) == ends[i].value
    decreases ends
  {
    if ends == [] {
    } else {
      assert ends[0] in ends;
      ReturnsCarry(ends[0].value, ends[1..]);
    }
  }
}
