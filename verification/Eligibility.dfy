/** The one-pass eligibility loop of a backtest run, and its agreement with the point-in-time selector. */
module Eligibility {
  import opened Common
  import opened Sorting
  import opened Universe

  /** A stored bar joined with its security. */
  datatype Row = Row(bar: PriceBar, security: Security)

  // ----- the status in force

  predicate InForce(row: StatusRow, priority: map<int, nat>, date: Date, cutoff: Timestamp) {
    row.batch in priority && row.effectiveDate <= date && row.observedAt <= cutoff
  }

  /** Later effective date first, then higher batch priority. */
  predicate Outranks(a: StatusRow, b: StatusRow, priority: map<int, nat>)
    requires a.batch in priority && b.batch in priority
  {
    a.effectiveDate > b.effectiveDate || (a.effectiveDate == b.effectiveDate && priority[a.batch] > priority[b.batch])
  }

  /** The first greatest of the rows in force. */
  function StatusAsOf(rows: seq<StatusRow>, priority: map<int, nat>, date: Date,
                      cutoff: Timestamp): (r: Option<StatusRow>)
    ensures r.Some? ==> r.value in rows && InForce(r.value, priority, date, cutoff)
    ensures r.Some? ==> forall row | row in rows && InForce(row, priority, date, cutoff) ::
              !Outranks(row, r.value, priority)
    ensures r.None? ==> forall row | row in rows :: !InForce(row, priority, date, cutoff)
  {
    if rows == [] then None
    else
      var last := rows[|rows| - 1];
      var best := StatusAsOf(rows[..|rows| - 1], priority, date, cutoff);
      assert forall row :: row in rows <==> row == last || row in rows[..|rows| - 1];
      if InForce(last, priority, date, cutoff) && (best.None? || Outranks(last, best.value, priority))
      then Some(last) else best
  }

  // ----- listing days by bisection

  /** The first index at or after `lo` whose date is not before `x`. */
  function BisectLeft(dates: seq<Date>, x: Date, lo: nat, hi: nat): nat
    requires lo <= hi <= |dates|
    decreases hi - lo
  {
    if lo == hi then lo
    else
      var mid := (lo + hi) / 2;
      if dates[mid] < x then BisectLeft(dates, x, mid + 1, hi) else BisectLeft(dates, x, lo, mid)
  }

  /** The first index at or after `lo` whose date is after `x`. */
  function BisectRight(dates: seq<Date>, x: Date, lo: nat, hi: nat): nat
    requires lo <= hi <= |dates|
    decreases hi - lo
  {
    if lo == hi then lo
    else
      var mid := (lo + hi) / 2;
      if x < dates[mid] then BisectRight(dates, x, lo, mid) else BisectRight(dates, x, mid + 1, hi)
  }

  function ListingDays(calendar: seq<Date>, listed: Date, date: Date): int {
    BisectRight(calendar, date, 0, |calendar|) - BisectLeft(calendar, listed, 0, |calendar|)
  }

  ghost predicate Calendar(dates: seq<Date>) {
    forall i, j | 0 <= i < j < |dates| :: dates[i] < dates[j]
  }

  // ----- the streaming loop

  /** What the loop is given beside its rows; `endOfDay` is the last instant of a trading day. */
  datatype Context = Context(
    calendar: seq<Date>,
    statuses: map<Symbol, seq<StatusRow>>,
    priority: map<int, nat>,
    cutoff: Timestamp,
    endOfDay: map<Date, Timestamp>
  )

  function CutoffOn(c: Context, date: Date): Timestamp {
    if date in c.endOfDay && c.endOfDay[date] < c.cutoff then c.endOfDay[date] else c.cutoff
  }

  function StatusOn(c: Context, s: Symbol, date: Date): Option<StatusRow> {
    StatusAsOf(Entry(c.statuses, s), c.priority, date, CutoffOn(c, date))
  }

  /** The loop's test, given the sliding window of amounts. */
  predicate StreamVerdict(c: Context, row: Row, window: seq<real>)
    requires row.security.listDate.Some?
  {
    var status := StatusOn(c, row.bar.symbol, row.bar.date);
    && IsCommon(row.security.securityType)
    && status.Some?
    && status.value.status.board.Some? && IsMain(status.value.status.board.value)
    && !status.value.status.st
    && !status.value.status.suspended
    && !status.value.status.delistPeriod
    && (row.security.delistDate.None? || row.security.delistDate.value > row.bar.date)
    && ListingDays(c.calendar, row.security.listDate.value, row.bar.date) >= 60
    && |window| >= 20
    && Median(window) >= 20000000.0
  }

  /** Every amount of a symbol so far. */
  function AmountsSoFar(rows: seq<Row>, s: Symbol): seq<real> {
    if rows == [] then []
    else
      var before := AmountsSoFar(rows[..|rows| - 1], s);
      var last := rows[|rows| - 1].bar;
      if last.symbol == s then before + [last.amount] else before
  }

  function KeyOf(row: Row): (Symbol, Date) {
    (row.bar.symbol, row.bar.date)
  }

  /** The verdict table as each row leaves it. */
  function Verdicts(c: Context, rows: seq<Row>): map<(Symbol, Date), bool>
    requires forall i | 0 <= i < |rows| :: rows[i].security.listDate.Some?
  {
    if rows == [] then map[]
    else
      var row := rows[|rows| - 1];
      Verdicts(c, rows[..|rows| - 1])[KeyOf(row) := StreamVerdict(c, row, Last(20, AmountsSoFar(rows, row.bar.symbol)))]
  }

  lemma LastSnoc<T>(xs: seq<T>, x: T)
    ensures var window := Last(20, xs) + [x];
            Last(20, xs + [x]) == if |window| > 20 then window[1..] else window
  {
  }

  lemma EmptyWindow()
    ensures Last<real>(20, []) == []
  {
  }

  /** One pass with a twenty-element window per security. */
  method StreamEligibility(c: Context, rows: seq<Row>) returns (verdicts: map<(Symbol, Date), bool>)
    requires forall i | 0 <= i < |rows| :: rows[i].security.listDate.Some?
    ensures verdicts == Verdicts(c, rows)
  {
    hide StreamVerdict, Last;
    EmptyWindow();
    verdicts := map[];
    var amountHistory: map<Symbol, seq<real>> := map[];
    var i := 0;
    while i < |rows|
      invariant 0 <= i <= |rows|
      invariant verdicts == Verdicts(c, rows[..i])
      invariant forall s :: Entry(amountHistory, s) == Last(20, AmountsSoFar(rows[..i], s))
    {
      var row := rows[i];
      var s := row.bar.symbol;
      assert rows[..i + 1][..i] == rows[..i];
      ghost var was := amountHistory;
      LastSnoc(AmountsSoFar(rows[..i], s), row.bar.amount);
      var history := Entry(amountHistory, s) + [row.bar.amount];
      if |history| > 20 {
        history := history[1..];
      }
      amountHistory := amountHistory[s := history];
      i := i + 1;
      forall x ensures Entry(amountHistory, x) == Last(20, AmountsSoFar(rows[..i], x)) {
        assert Entry(was, x) == Last(20, AmountsSoFar(rows[..i - 1], x));
      }
      verdicts := verdicts[KeyOf(row) := StreamVerdict(c, row, history)];
    }
    assert rows[..i] == rows;
  }

  // ----- the loop against the selector

  /** Rows as the query returns them, one per security and date. */
  ghost predicate InOrder(rows: seq<Row>) {
    forall i, j | 0 <= i < j < |rows| ::
      rows[i].bar.date < rows[j].bar.date || (rows[i].bar.date == rows[j].bar.date
                                              && rows[i].bar.symbol < rows[j].bar.symbol)
  }

  function BarsOf(rows: seq<Row>): (r: seq<PriceBar>)
    ensures |r| == |rows|
    ensures forall i | 0 <= i < |rows| :: r[i] == rows[i].bar
  {
    if rows == [] then [] else [rows[0].bar] + BarsOf(rows[1..])
  }

  /** Every bar of the symbol dated through `date` can be seen on `date`. */
  ghost predicate SeenInTime(rows: seq<Row>, s: Symbol, date: Date) {
    forall j | 0 <= j < |rows| && rows[j].bar.symbol == s && rows[j].bar.date <= date ::
        AvailableBy(rows[j].bar.availableOn, date)
  }

  ghost predicate StrictlyDated(xs: seq<Dated>, before: Date) {
    && (forall i, j | 0 <= i < j < |xs| :: xs[i].date < xs[j].date)
    && forall i | 0 <= i < |xs| :: xs[i].date < before
  }

  lemma BarsSnoc(rows: seq<Row>)
    requires rows != []
    ensures var n := |rows| - 1; BarsOf(rows)[..n] == BarsOf(rows[..n])
  {
  }

  /** The amounts the loop has collected of a symbol are those the selector sees of it. */
  lemma {:induction false} SoFarIsSeen(rows: seq<Row>, s: Symbol, date: Date)
    requires SeenInTime(rows, s, date)
    requires forall j | 0 <= j < |rows| :: rows[j].bar.date <= date
    ensures AmountsSoFar(rows, s) == AmountsOf(AmountsSeen(BarsOf(rows), s, date))
  {
    if rows == [] {
    } else {
      SoFarIsSeen(rows[..|rows| - 1], s, date);
      BarsSnoc(rows);
    }
  }

  ghost predicate AscendingFor(rows: seq<Row>, s: Symbol) {
    forall i, j | 0 <= i < j < |rows| && rows[i].bar.symbol == s && rows[j].bar.symbol == s ::
        rows[i].bar.date < rows[j].bar.date
  }

  lemma DatedSnoc(xs: seq<Dated>, x: Dated, bound: Date)
    ensures StrictlyDated(xs, x.date) && x.date < bound ==> StrictlyDated(xs, bound) && StrictlyDated(xs + [x], bound)
  {
  }

  /** What the selector sees of a symbol in the first `k` rows is in date order. */
  lemma {:induction false} SeenInOrder(rows: seq<Row>, k: nat, s: Symbol, date: Date, bound: Date)
    requires k <= |rows| && AscendingFor(rows, s)
    requires forall j | 0 <= j < k && rows[j].bar.symbol == s :: rows[j].bar.date < bound
    ensures StrictlyDated(AmountsSeen(BarsOf(rows[..k]), s, date), bound)
    decreases k
  {
    if k == 0 {
    } else {
      assert rows[..k][..k - 1] == rows[..k - 1];
      BarsSnoc(rows[..k]);
      var last := rows[k - 1].bar;
      SeenInOrder(rows, k - 1, s, date, if last.symbol == s then last.date else bound);
      DatedSnoc(AmountsSeen(BarsOf(rows[..k - 1]), s, date), Dated(last.date, last.amount), bound);
      hide StrictlyDated, AscendingFor;
    }
  }

  /** Later rows of other dates add nothing to what is seen of a symbol on a date. */
  lemma {:induction false} LaterRowsUnseen(rows: seq<Row>, k: nat, s: Symbol, date: Date)
    requires k <= |rows|
    requires forall j | k <= j < |rows| :: rows[j].bar.symbol == s ==> rows[j].bar.date > date
    ensures AmountsSeen(BarsOf(rows), s, date) == AmountsSeen(BarsOf(rows[..k]), s, date)
  {
    if k == |rows| {
      assert rows[..k] == rows;
    } else {
      var n := |rows| - 1;
      assert rows[..n][..k] == rows[..k];
      LaterRowsUnseen(rows[..n], k, s, date);
      BarsSnoc(rows);
    }
  }

  lemma AmountsOfLast(xs: seq<Dated>)
    ensures AmountsOf(Last(20, xs)) == Last(20, AmountsOf(xs))
  {
  }

  /** The window at a row is the selector's list of recent amounts on the row's date. */
  lemma {:induction false} WindowIsRecent(rows: seq<Row>, i: nat)
    requires InOrder(rows) && i < |rows| && SeenInTime(rows, rows[i].bar.symbol, rows[i].bar.date)
    ensures var b := rows[i].bar;
            Last(20, AmountsSoFar(rows[..i + 1], b.symbol))
                == RecentAmounts(AmountsSeen(BarsOf(rows), b.symbol, b.date))
  {
    var b := rows[i].bar;
    var prefix := rows[..i + 1];
    SoFarIsSeen(prefix, b.symbol, b.date);
    SeenInOrder(rows, i + 1, b.symbol, b.date, b.date + 1);
    LaterRowsUnseen(rows, i + 1, b.symbol, b.date);
    var seen := AmountsSeen(BarsOf(prefix), b.symbol, b.date);
    SortOfSorted(DatedOrder, seen);
    AmountsOfLast(seen);
  }

  lemma {:induction false} BisectsLeft(dates: seq<Date>, x: Date, lo: nat, hi: nat)
    requires Calendar(dates) && lo <= hi <= |dates|
    requires forall i | 0 <= i < lo :: dates[i] < x
    requires forall i | hi <= i < |dates| :: dates[i] >= x
    ensures var k := BisectLeft(dates, x, lo, hi);
            k <= |dates| && (forall i | 0 <= i < k :: dates[i] < x) && forall i | k <= i < |dates| :: dates[i] >= x
    decreases hi - lo
  {
    if lo < hi {
      var mid := (lo + hi) / 2;
      if dates[mid] < x { BisectsLeft(dates, x, mid + 1, hi); } else { BisectsLeft(dates, x, lo, mid); }
    }
  }

  lemma {:induction false} BisectsRight(dates: seq<Date>, x: Date, lo: nat, hi: nat)
    requires Calendar(dates) && lo <= hi <= |dates|
    requires forall i | 0 <= i < lo :: dates[i] <= x
    requires forall i | hi <= i < |dates| :: dates[i] > x
    ensures var k := BisectRight(dates, x, lo, hi);
            k <= |dates| && (forall i | 0 <= i < k :: dates[i] <= x) && forall i | k <= i < |dates| :: dates[i] > x
    decreases hi - lo
  {
    if lo < hi {
      var mid := (lo + hi) / 2;
      if x < dates[mid] { BisectsRight(dates, x, lo, mid); } else { BisectsRight(dates, x, mid + 1, hi); }
    }
  }

  lemma {:induction false} ThroughIsPrefix(dates: seq<Date>, asOf: Date, k: nat)
    requires k <= |dates|
    requires (forall i | 0 <= i < k :: dates[i] <= asOf) && forall i | k <= i < |dates| :: dates[i] > asOf
    ensures Through(dates, asOf) == dates[..k]
  {
    if dates == [] {
    } else {
      ThroughIsPrefix(dates[1..], asOf, if k == 0 then 0 else k - 1);
    }
  }

  lemma {:induction false} CountIsSuffix(dates: seq<Date>, listed: Date, k: nat)
    requires (forall i | 0 <= i < |dates| :: dates[i] < listed <==> i < k)
    ensures CountFrom(dates, listed) == if k <= |dates| then |dates| - k else 0
  {
    if dates == [] {
    } else {
      CountIsSuffix(dates[1..], listed, if k == 0 then 0 else k - 1);
    }
  }

  /** Bisected listing days are the open dates since the listing, except that they are negative where
      the security was listed after the date by more than no open dates. */
  lemma {:induction false} ListingDaysCount(calendar: seq<Date>, listed: Date, date: Date)
    requires Calendar(calendar)
    ensures var days := ListingDays(calendar, listed, date);
            CountFrom(Through(calendar, date), listed) == if days >= 0 then days else 0
  {
    BisectsLeft(calendar, listed, 0, |calendar|);
    BisectsRight(calendar, date, 0, |calendar|);
    var through, from := BisectRight(calendar, date, 0, |calendar|), BisectLeft(calendar, listed, 0, |calendar|);
    ThroughIsPrefix(calendar, date, through);
    CountIsSuffix(calendar[..through], listed, from);
  }

  /** In an ascending calendar that holds the date, the open dates through it are in order and end with it. */
  lemma {:induction false} OpenDatesEndWith(calendar: seq<Date>, date: Date)
    requires Calendar(calendar) && date in calendar
    ensures var open := Through(calendar, date);
            Sort(DateOrder, open) == open && open != [] && open[|open| - 1] == date
  {
    hide Through, Sort, BisectRight;
    BisectsRight(calendar, date, 0, |calendar|);
    var k := BisectRight(calendar, date, 0, |calendar|);
    ThroughIsPrefix(calendar, date, k);
    var i :| 0 <= i < |calendar| && calendar[i] == date;
    assert i < k && calendar[k - 1] <= date;
    assert i == k - 1;
    hide Calendar;
    SortOfSorted(DateOrder, calendar[..k]);
  }

  ghost predicate StockRow(c: Context, rows: seq<Row>, i: nat) {
    && InOrder(rows) && Calendar(c.calendar)
    && i < |rows|
    && rows[i].security.symbol == rows[i].bar.symbol && rows[i].security.listDate.Some?
    && rows[i].bar.date in c.calendar
    && SeenInTime(rows, rows[i].bar.symbol, rows[i].bar.date)
  }

  /** The selector's reason on the date of a row, for a given status. */
  function ReasonAt(c: Context, rows: seq<Row>, i: nat, status: Status): Option<Exclusion>
    requires i < |rows|
  {
    var b := rows[i].bar;
    ExclusionReason(rows[i].security, status, Sort(DateOrder, Through(c.calendar, b.date)),
                    RecentAmounts(AmountsSeen(BarsOf(rows), b.symbol, b.date)))
  }

  ghost predicate Canonical(security: Security, status: Status) {
    IsCommon(security.securityType) && status.board.Some? && IsMain(status.board.value)
  }

  /** The loop's verdict is the selector's, except that the loop takes only the exact codes of a common
      stock on the main board and never guesses a missing status. */
  lemma {:induction false} VerdictIsSelectors(c: Context, rows: seq<Row>, i: nat)
    requires StockRow(c, rows, i)
    ensures var b := rows[i].bar;
            var status := StatusOn(c, b.symbol, b.date);
            StreamVerdict(c, rows[i], Last(20, AmountsSoFar(rows[..i + 1], b.symbol)))
            <==> (status.Some? && Canonical(rows[i].security, status.value.status)
                  && ReasonAt(c, rows, i, status.value.status).None?)
  {
    var b := rows[i].bar;
    WindowIsRecent(rows, i);
    ListingDaysCount(c.calendar, rows[i].security.listDate.value, b.date);
    OpenDatesEndWith(c.calendar, b.date);
    var status := StatusOn(c, b.symbol, b.date);
    if status.Some? && Canonical(rows[i].security, status.value.status) {
      ReasonNoneIff(rows[i].security, status.value.status, Through(c.calendar, b.date),
                    RecentAmounts(AmountsSeen(BarsOf(rows), b.symbol, b.date)));
    }
    hide ExclusionReason, CountFrom, IsCommon, IsMain, RecentAmounts, AmountsSeen, AmountsSoFar, Sort, Through, Median,
      Last, ListingDays, StatusOn;
  }

  lemma CommonIsUpper(text: string)
    ensures IsCommon(text) ==> IsCommon(Upper(text))
  {
    assert Upper("COMMON") == ['C'] + Upper("OMMON");
  }

  lemma MainIsUpper(text: string)
    ensures IsMain(text) ==> text != "" && IsMain(Upper(text))
  {
    assert Upper("MAIN") == ['M'] + Upper("AIN");
  }

  /** When no rule excludes a security with canonical codes. */
  lemma ReasonNoneIff(security: Security, status: Status, openDates: seq<Date>, amounts: seq<real>)
    requires Canonical(security, status) && security.listDate.Some? && openDates != []
    ensures ExclusionReason(security, status, openDates, amounts).None? <==>
              && !status.st && !status.suspended && !status.delistPeriod
              && (security.delistDate.None? || security.delistDate.value > openDates[|openDates| - 1])
              && CountFrom(openDates, security.listDate.value) >= 60
              && |amounts| >= 20 && Median(amounts) >= 20000000.0
  {
    CommonIsUpper(security.securityType);
    MainIsUpper(TextOf(status.board));
    hide IsCommon, IsMain, Upper, Median, CountFrom;
  }

  lemma {:induction false} VerdictAt(c: Context, rows: seq<Row>, i: nat)
    requires InOrder(rows) && i < |rows|
    requires forall j | 0 <= j < |rows| :: rows[j].security.listDate.Some?
    ensures KeyOf(rows[i]) in Verdicts(c, rows)
    ensures Verdicts(c, rows)[KeyOf(rows[i])]
         == StreamVerdict(c, rows[i], Last(20, AmountsSoFar(rows[..i + 1], rows[i].bar.symbol)))
  {
    hide StreamVerdict, AmountsSoFar, Last;
    var n := |rows| - 1;
    if i < n {
      assert KeyOf(rows[i]) != KeyOf(rows[n]);
      VerdictAt(c, rows[..n], i);
      assert rows[..n][..i + 1] == rows[..i + 1];
    } else {
      assert rows[..i + 1] == rows;
    }
  }

  // ----- with the statuses

  /** The status rows of one security, in their stored order. */
  function RowsOf(rows: seq<StatusRow>, s: Symbol): seq<StatusRow> {
    if rows == [] then []
    else if rows[0].symbol == s then [rows[0]] + RowsOf(rows[1..], s)
    else RowsOf(rows[1..], s)
  }

  lemma {:induction false} RowsOfHas(rows: seq<StatusRow>, s: Symbol)
    ensures forall row :: row in RowsOf(rows, s) <==> row in rows && row.symbol == s
  {
    if rows == [] {
    } else {
      RowsOfHas(rows[1..], s);
      assert forall row :: row in rows <==> row == rows[0] || row in rows[1..];
    }
  }

  /** On a date both sides see the same status rows of a security, no two of them from one effective date. */
  ghost predicate SameStatuses(c: Context, rows: seq<StatusRow>, s: Symbol, date: Date) {
    && Entry(c.statuses, s) == RowsOf(rows, s)
    && (forall row | row in rows && row.symbol == s ::
          InForce(row, c.priority, date, CutoffOn(c, date)) <==> StatusSeen(row, date))
    && (forall a, b | a in rows && b in rows && a.symbol == b.symbol == s
                      && StatusSeen(a, date) && StatusSeen(b, date) ::
          a.effectiveDate == b.effectiveDate ==> a == b)
  }

  /** Greatest by effective date and batch priority, or latest and first of its date: the same row. */
  lemma {:induction false} StatusesAgree(c: Context, rows: seq<StatusRow>, s: Symbol, date: Date)
    requires SameStatuses(c, rows, s, date)
    ensures StatusOn(c, s, date) == LatestStatus(rows, s, date)
  {
    RowsOfHas(rows, s);
    var best, latest := StatusOn(c, s, date), LatestStatus(rows, s, date);
    if best.Some? && latest.Some? {
      assert !Outranks(latest.value, best.value, c.priority);
    }
    hide StatusAsOf, LatestStatus;
  }

  /** The streaming loop refines the selector: for every row of a followed security on an open date, its
      verdict is the selector's decision as of that date, given a status row with canonical codes;
      without one the loop says no. */
  lemma {:induction false} StreamingRefinesSelector(c: Context, rows: seq<Row>, statuses: seq<StatusRow>, i: nat)
    requires StockRow(c, rows, i)
    requires forall j | 0 <= j < |rows| :: rows[j].security.listDate.Some?
    requires AvailableBy(rows[i].security.availableOn, rows[i].bar.date)
    requires SameStatuses(c, statuses, rows[i].bar.symbol, rows[i].bar.date)
    ensures var b := rows[i].bar;
            var status := LatestStatus(statuses, b.symbol, b.date);
            && KeyOf(rows[i]) in Verdicts(c, rows)
            && (Verdicts(c, rows)[KeyOf(rows[i])] <==>
                  && Decide(rows[i].security, statuses, BarsOf(rows), c.calendar, b.date).eligible
                  && status.Some? && Canonical(rows[i].security, status.value.status))
  {
    VerdictAt(c, rows, i);
    VerdictIsSelectors(c, rows, i);
    StatusesAgree(c, statuses, rows[i].bar.symbol, rows[i].bar.date);
    hide Verdicts, StreamVerdict, ExclusionReason, RecentAmounts, AmountsSeen, AmountsSoFar, Sort, Through, Median,
      LatestStatus, StatusOn;
  }
}
