/** What a streamed verdict rests on: the status in force at the end of the day, and the rules one by one. */
module EligibilityRules {
  import opened Common
  import opened Universe
  import opened UniverseRules
  import opened Eligibility

  // ----- the status of a day

  /** The row was known by the end of the day and by the cutoff, and takes effect by the day. */
  predicate Known(c: Context, row: StatusRow, date: Date) {
    && row.batch in c.priority && row.effectiveDate <= date && row.observedAt <= c.cutoff
    && (date in c.endOfDay ==> row.observedAt <= c.endOfDay[date])
  }

  /** A later effective date counts for more, and of equal ones the later batch. */
  predicate Above(c: Context, a: StatusRow, b: StatusRow)
    requires a.batch in c.priority && b.batch in c.priority
  {
    a.effectiveDate > b.effectiveDate || (a.effectiveDate == b.effectiveDate
                                          && c.priority[a.batch] > c.priority[b.batch])
  }

  /** The `i`-th row is the first of the highest ones known. */
  ghost predicate FirstHighest(c: Context, rows: seq<StatusRow>, date: Date, i: nat) {
    && i < |rows| && Known(c, rows[i], date)
    && (forall j | 0 <= j < |rows| && Known(c, rows[j], date) :: !Above(c, rows[j], rows[i]))
    && (forall j | 0 <= j < i && Known(c, rows[j], date) :: Above(c, rows[i], rows[j]))
  }

  lemma {:induction false} HighestAsOf(c: Context, rows: seq<StatusRow>, date: Date)
    ensures var r := StatusAsOf(rows, c.priority, date, CutoffOn(c, date));
            && (r.Some? ==> exists i: nat :: FirstHighest(c, rows, date, i) && rows[i] == r.value)
            && (r.None? ==> forall row | row in rows :: !Known(c, row, date))
  {
    if rows == [] {
    } else {
      var n := |rows| - 1;
      var before, last := rows[..n], rows[n];
      HighestAsOf(c, before, date);
      assert forall row :: row in rows <==> row == last || row in before;
      assert InForce(last, c.priority, date, CutoffOn(c, date)) <==> Known(c, last, date);
      var best := StatusAsOf(before, c.priority, date, CutoffOn(c, date));
      if best.Some? {
        var i: nat :| FirstHighest(c, before, date, i) && before[i] == best.value;
        StillHighest(c, rows, date, i);
      } else {
        if Known(c, last, date) { assert FirstHighest(c, rows, date,
                                                      n) by { assert forall j | 0 <= j < n :: rows[j] in before; } }
      }
    }
  }

  lemma {:induction false} StillHighest(c: Context, rows: seq<StatusRow>, date: Date, i: nat)
    requires rows != [] && FirstHighest(c, rows[..|rows| - 1], date, i)
    ensures var n := |rows| - 1;
            FirstHighest(c, rows, date, if Known(c, rows[n], date) && Above(c, rows[n], rows[i]) then n else i)
  {
    var n := |rows| - 1;
    forall j | 0 <= j < n ensures rows[..n][j] == rows[j] {
    }
    hide Known;
  }

  /** The status of a security on a date is the first of its highest rows known by then; a row that was observed after
      the end of the day or after the cutoff is not asked. */
  lemma {:induction false} StatusIsHighestKnown(c: Context, s: Symbol, date: Date)
    ensures var rows := Entry(c.statuses, s);
            var r := StatusOn(c, s, date);
            && (r.Some? ==> exists i: nat :: FirstHighest(c, rows, date, i) && rows[i] == r.value)
            && (r.None? ==> forall row | row in rows :: !Known(c, row, date))
  {
    hide FirstHighest, Known, StatusAsOf, CutoffOn;
    HighestAsOf(c, Entry(c.statuses, s), date);
  }

  // ----- the verdict

  /** The rules of the loop, on the status, the dates and the amounts so far. */
  ghost predicate Passes(c: Context, row: Row, status: Status, window: seq<real>)
    requires row.security.listDate.Some?
  {
    && row.security.securityType == "COMMON" && status.board == Some("MAIN")
    && !status.st && !status.suspended && !status.delistPeriod
    && (row.security.delistDate.Some? ==> row.security.delistDate.value > row.bar.date)
    && |ListedAt(c.calendar, row.security.listDate.value, row.bar.date)| >= 60
    && |window| >= 20 && !(exists m: real :: m < 20000000.0 && IsMedian(window, m))
  }

  /** The amounts of a symbol's bars so far, in the rows' order. */
  ghost predicate CollectedAt(rows: seq<Row>, s: Symbol, amounts: seq<real>, at: seq<nat>) {
    && |at| == |amounts|
    && (forall i | 0 <= i < |at| ::
          at[i] < |rows| && rows[at[i]].bar.symbol == s && amounts[i] == rows[at[i]].bar.amount)
    && (forall i, j | 0 <= i < j < |at| :: at[i] < at[j])
    && (forall k: nat | k < |rows| && rows[k].bar.symbol == s :: k in at)
  }

  lemma {:induction false} AmountsCollected(rows: seq<Row>, s: Symbol) returns (at: seq<nat>)
    ensures CollectedAt(rows, s, AmountsSoFar(rows, s), at)
  {
    if rows == [] {
      at := [];
    } else {
      var n := |rows| - 1;
      at := AmountsCollected(rows[..n], s);
      forall k: nat | k < n ensures rows[..n][k] == rows[k] {
      }
      if rows[n].bar.symbol == s {
        assert forall k | k in at :: k in at + [n];
        assert (at + [n])[|at|] == n;
        at := at + [n];
      }
    }
  }

  /** A streamed verdict is yes exactly when there is a known status and it, the dates and the last twenty amounts
      through the row pass the rules. */
  lemma {:induction false} VerdictIff(c: Context, rows: seq<Row>, i: nat) returns (at: seq<nat>)
    requires Calendar(c.calendar) && InOrder(rows) && i < |rows|
    requires forall j | 0 <= j < |rows| :: rows[j].security.listDate.Some?
    ensures CollectedAt(rows[..i + 1], rows[i].bar.symbol, AmountsSoFar(rows[..i + 1], rows[i].bar.symbol), at)
    ensures KeyOf(rows[i]) in Verdicts(c, rows)
    ensures var status := StatusOn(c, rows[i].bar.symbol, rows[i].bar.date);
            var amounts := AmountsSoFar(rows[..i + 1], rows[i].bar.symbol);
            Verdicts(c, rows)[KeyOf(rows[i])] <==>
              status.Some? && Passes(c, rows[i], status.value.status,
                                     if |amounts| <= 20 then amounts else amounts[|amounts| - 20..])
  {
    hide StatusOn, Median, IsMedian, AmountsSoFar, ListingDays, ListedAt, Verdicts;
    var b := rows[i].bar;
    at := AmountsCollected(rows[..i + 1], b.symbol);
    VerdictAt(c, rows, i);
    ListingDaysCount(c.calendar, rows[i].security.listDate.value, b.date);
    ListedCount(c.calendar, rows[i].security.listDate.value, b.date);
    var window := Last(20, AmountsSoFar(rows[..i + 1], b.symbol));
    if window != [] { MedianDecides(window); }
    hide CountFrom, Through, CollectedAt;
  }

  // ----- rows that come too late

  /** The rows observed by a time. */
  function ObservedBy(rows: seq<StatusRow>, t: Timestamp): seq<StatusRow> {
    if rows == [] then []
    else
      var last := rows[|rows| - 1];
      ObservedBy(rows[..|rows| - 1], t) + if last.observedAt <= t then [last] else []
  }

  lemma {:induction false} LateRowsUnasked(rows: seq<StatusRow>, priority: map<int, nat>, date: Date, cutoff: Timestamp,
                                           t: Timestamp)
    requires cutoff <= t
    ensures StatusAsOf(ObservedBy(rows, t), priority, date, cutoff) == StatusAsOf(rows, priority, date, cutoff)
  {
    if rows == [] {
    } else {
      var before, last := rows[..|rows| - 1], rows[|rows| - 1];
      LateRowsUnasked(before, priority, date, cutoff, t);
      if last.observedAt <= t {
        assert (ObservedBy(before, t) + [last])[..|ObservedBy(before, t)|] == ObservedBy(before, t);
      } else {
        assert ObservedBy(before, t) + [] == ObservedBy(before, t);
      }
    }
  }

  /** No row observed after the end of a trading day changes the day's verdict. */
  lemma {:induction false} LateRowsDecideNothing(c: Context, other: Context, row: Row, window: seq<real>)
    requires row.security.listDate.Some? && row.bar.date in c.endOfDay
    requires other == c.(statuses := other.statuses)
    requires ObservedBy(Entry(c.statuses, row.bar.symbol), c.endOfDay[row.bar.date])
          == ObservedBy(Entry(other.statuses, row.bar.symbol), c.endOfDay[row.bar.date])
    ensures StreamVerdict(c, row, window) == StreamVerdict(other, row, window)
  {
    hide StatusAsOf, ObservedBy, Median;
    var t := c.endOfDay[row.bar.date];
    LateRowsUnasked(Entry(c.statuses, row.bar.symbol), c.priority, row.bar.date, CutoffOn(c, row.bar.date), t);
    LateRowsUnasked(Entry(other.statuses, row.bar.symbol), c.priority, row.bar.date, CutoffOn(c, row.bar.date), t);
  }
}
