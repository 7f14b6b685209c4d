/** What the stock-pool rules decide, told by counting: medians, listing days, and the first rule that fails. */
module UniverseRules {
  import opened Common
  import opened Sorting
  import opened Ranking
  import opened Universe

  // ----- the median

  function AtOrBelow(xs: seq<real>, v: real): nat {
    CountBelow(xs, v) + CountEqual(xs, v)
  }

  /** `v` is the middle one of an odd number of values, or half-way between the middle two of an even number. */
  ghost predicate IsMedian(xs: seq<real>, v: real) {
    var h := |xs| / 2;
    if |xs| % 2 == 1 then
      v in xs && CountBelow(xs, v) <= h && CountAbove(xs, v) <= h
    else
      exists lo, hi | lo in xs && hi in xs ::
        && CountBelow(xs, lo) < h <= AtOrBelow(xs, lo)
        && CountBelow(xs, hi) <= h < AtOrBelow(xs, hi)
        && v + v == lo + hi
  }

  lemma {:induction false} InsertCounts(x: real, xs: seq<real>, v: real)
    ensures CountBelow(Insert(AtMost, x, xs), v) == CountBelow([x] + xs, v)
    ensures CountEqual(Insert(AtMost, x, xs), v) == CountEqual([x] + xs, v)
  {
    assert ([x] + xs)[1..] == xs;
    if xs == [] || AtMost(x, xs[0]) {
    } else {
      InsertCounts(x, xs[1..], v);
      assert ([x] + xs[1..])[1..] == xs[1..];
    }
  }

  lemma {:induction false} SortCounts(xs: seq<real>, v: real)
    ensures CountBelow(Sort(AtMost, xs), v) == CountBelow(xs, v) && CountEqual(Sort(AtMost, xs), v) == CountEqual(xs, v)
  {
    if xs == [] {
    } else {
      SortCounts(xs[1..], v);
      InsertCounts(xs[0], Sort(AtMost, xs[1..]), v);
      assert ([xs[0]] + Sort(AtMost, xs[1..]))[1..] == Sort(AtMost, xs[1..]);
    }
  }

  /** How many values lie below the `i`-th smallest. */
  lemma {:induction false} PlaceCounts(s: seq<real>, i: nat)
    requires Sorted(AtMost, s) && i < |s|
    ensures CountBelow(s, s[i]) <= i < AtOrBelow(s, s[i])
  {
    if i == 0 {
      NoneBelow(s, s[0]);
      EqualPositive(s, s[0]);
    } else {
      assert s[1..][i - 1] == s[i] && AtMost(s[0], s[i]);
      PlaceCounts(s[1..], i - 1);
    }
  }

  lemma {:induction false} NoneBelow(s: seq<real>, v: real)
    requires forall i | 0 <= i < |s| :: s[i] >= v
    ensures CountBelow(s, v) == 0
  {
    if s == [] {
    } else {
      NoneBelow(s[1..], v);
    }
  }

  lemma AtMostIsTotal()
    ensures TotalPreorder(AtMost)
  {
  }

  /** The `i`-th smallest value, by counts over the unsorted list. */
  lemma {:induction false} SmallestAt(xs: seq<real>, i: nat)
    requires i < |xs|
    ensures |Sort(AtMost, xs)| == |xs|
    ensures var v := Sort(AtMost, xs)[i];
            v in xs && CountBelow(xs, v) <= i < AtOrBelow(xs, v) && CountAbove(xs, v) == |xs| - AtOrBelow(xs, v)
  {
    hide CountBelow, CountEqual, CountAbove, Sort;
    AtMostIsTotal();
    SortSorts(AtMost, xs);
    SortKeepsElements(AtMost, xs);
    var s := Sort(AtMost, xs);
    PlaceCounts(s, i);
    SortCounts(xs, s[i]);
    CountsAddUp(xs, s[i]);
    assert s[i] in s;
  }

  /** The median of an odd number of values is one with at most half of the others on either side; that of an even
      number lies half-way between the two values that split the others evenly. */
  lemma {:induction false} MedianIsMiddle(xs: seq<real>)
    requires xs != []
    ensures IsMedian(xs, Median(xs))
  {
    hide CountBelow, CountEqual, CountAbove, Sort;
    var h := |xs| / 2;
    SmallestAt(xs, h);
    if |xs| % 2 == 0 { SmallestAt(xs, h - 1); }
  }

  lemma {:induction false} LowerHalf(xs: seq<real>, v: real, w: real, h: int)
    requires v in xs && w in xs && v < w && h <= AtOrBelow(xs, v)
    ensures CountBelow(xs, w) >= h
  {
    BelowGrows(xs, v, w);
  }

  /** There is no other. */
  lemma {:induction false} OneMedian(xs: seq<real>, v: real, w: real)
    requires IsMedian(xs, v) && IsMedian(xs, w)
    ensures v == w
  {
    var h := |xs| / 2;
    if |xs| % 2 == 1 {
      CountsAddUp(xs, v);
      CountsAddUp(xs, w);
      if v < w { LowerHalf(xs, v, w, h + 1); }
      if w < v { LowerHalf(xs, w, v, h + 1); }
    } else {
      var lo, hi :| lo in xs && hi in xs && CountBelow(xs, lo) < h <= AtOrBelow(xs, lo)
                    && CountBelow(xs, hi) <= h < AtOrBelow(xs, hi) && v + v == lo + hi;
      var lo', hi' :| lo' in xs && hi' in xs && CountBelow(xs, lo') < h <= AtOrBelow(xs, lo')
                      && CountBelow(xs, hi') <= h < AtOrBelow(xs, hi') && w + w == lo' + hi';
      if lo < lo' { LowerHalf(xs, lo, lo', h); }
      if lo' < lo { LowerHalf(xs, lo', lo, h); }
      if hi < hi' { LowerHalf(xs, hi, hi', h + 1); }
      if hi' < hi { LowerHalf(xs, hi', hi, h + 1); }
    }
  }

  // ----- the rules

  /** The open dates from the listing through the date, by their places. */
  ghost function ListedAt(open: seq<Date>, listed: Date, asOf: Date): set<nat> {
    set i: nat | i < |open| && listed <= open[i] <= asOf
  }

  /** Two letters are the same but for their case. */
  predicate SameLetter(c: char, capital: char) {
    c == capital || ('A' <= capital <= 'Z' && c == capital - 'A' + 'a')
  }

  ghost predicate SameText(text: string, capitals: string) {
    |text| == |capitals| && forall i | 0 <= i < |text| :: SameLetter(text[i], capitals[i])
  }

  /** The board: the status's if it names one, else the security master's. */
  predicate OnBoard(security: Security, status: Status, board: string) {
    if status.board.Some? && status.board.value != "" then board == status.board.value
    else board == (if security.board.Some? then security.board.value else "")
  }

  /** The security has been taken off by the last open date through the date. */
  ghost predicate Gone(security: Security, open: seq<Date>, asOf: Date) {
    security.delistDate.Some?
    && ((exists d | d in open :: d <= asOf && security.delistDate.value <= d)
        || ((forall d | d in open :: d > asOf) && security.delistDate.value <= 1))
  }

  /** The rule that gives the reason excludes the security. */
  ghost predicate Excludes(rule: Exclusion, security: Security, status: Status, open: seq<Date>, asOf: Date,
                           amounts: seq<real>)
  {
    match rule
    case DataNotAvailable => security.availableOn.Some? && security.availableOn.value > asOf
    case NonCommonStock => !SameText(security.securityType, "COMMON")
    case NonMainBoard => forall board | OnBoard(security, status, board) :: !SameText(board, "MAIN")
    case SpecialTreatment => status.st
    case Suspended => status.suspended
    case DelistPeriod => status.delistPeriod
    case Delisted => Gone(security, open, asOf)
    case MissingListDate => security.listDate.None?
    case ListedTooRecently => security.listDate.Some? && |ListedAt(open, security.listDate.value, asOf)| < 60
    case InsufficientHistory => |amounts| < 20
    case MedianAmountTooLow => exists m: real :: m < 20000000.0 && IsMedian(amounts, m)
  }

  /** The rules in the order in which they are asked. */
  function Turn(rule: Exclusion): nat {
    match rule
    case DataNotAvailable => 0
    case NonCommonStock => 1
    case NonMainBoard => 2
    case SpecialTreatment => 3
    case Suspended => 4
    case DelistPeriod => 5
    case Delisted => 6
    case MissingListDate => 7
    case ListedTooRecently => 8
    case InsufficientHistory => 9
    case MedianAmountTooLow => 10
  }

  lemma {:induction false} UpperIs(text: string, capitals: string)
    requires forall i | 0 <= i < |capitals| :: 'A' <= capitals[i] <= 'Z'
    ensures Upper(text) == capitals <==> SameText(text, capitals)
  {
    if text == "" {
    } else if capitals == "" {
    } else {
      UpperIs(text[1..], capitals[1..]);
      assert Upper(text) == [UpperChar(text[0])] + Upper(text[1..]);
      assert capitals == [capitals[0]] + capitals[1..];
      if SameText(text, capitals) {
        assert SameLetter(text[0], capitals[0]);
        assert forall i | 0 <= i < |text[1..]| :: text[1..][i] == text[i + 1] && capitals[1..][i] == capitals[i + 1];
      }
      if Upper(text) == capitals {
        assert Upper(text)[1..] == Upper(text[1..]);
        forall i | 0 <= i < |text| ensures SameLetter(text[i], capitals[i]) {
          if i > 0 { assert text[1..][i - 1] == text[i] && capitals[1..][i - 1] == capitals[i]; }
        }
      }
    }
  }

  lemma {:induction false} ListedSnoc(open: seq<Date>, d: Date, listed: Date, asOf: Date)
    ensures |ListedAt(open + [d], listed, asOf)| == |ListedAt(open, listed, asOf)| + if listed <= d <= asOf then 1
              else 0
  {
    assert |open| !in ListedAt(open, listed, asOf);
    assert ListedAt(open + [d], listed, asOf) == ListedAt(open, listed, asOf) + if listed <= d <= asOf then {|open|}
           else {};
  }

  lemma {:induction false} CountInsert(d: Date, open: seq<Date>, listed: Date)
    ensures CountFrom(Insert(DateOrder, d, open), listed) == CountFrom(open, listed) + if listed <= d then 1 else 0
  {
    if open == [] || DateOrder(d, open[0]) {
      assert ([d] + open)[1..] == open;
    } else {
      CountInsert(d, open[1..], listed);
    }
  }

  lemma {:induction false} CountSorted(open: seq<Date>, listed: Date)
    ensures CountFrom(Sort(DateOrder, open), listed) == CountFrom(open, listed)
  {
    if open == [] {
    } else {
      CountSorted(open[1..], listed);
      CountInsert(open[0], Sort(DateOrder, open[1..]), listed);
    }
  }

  lemma {:induction false} ThroughSnoc(open: seq<Date>, d: Date, asOf: Date)
    ensures Through(open + [d], asOf) == Through(open, asOf) + if d <= asOf then [d] else []
  {
    if open == [] {
      assert open + [d] == [d] && [d][1..] == [];
    } else {
      assert (open + [d])[1..] == open[1..] + [d];
      ThroughSnoc(open[1..], d, asOf);
    }
  }

  lemma {:induction false} CountFromSnoc(open: seq<Date>, d: Date, listed: Date)
    ensures CountFrom(open + [d], listed) == CountFrom(open, listed) + if listed <= d then 1 else 0
  {
    if open == [] {
      assert open + [d] == [d] && [d][1..] == [];
    } else {
      assert (open + [d])[1..] == open[1..] + [d];
      CountFromSnoc(open[1..], d, listed);
    }
  }

  lemma {:induction false} ListedCount(open: seq<Date>, listed: Date, asOf: Date)
    ensures CountFrom(Through(open, asOf), listed) == |ListedAt(open, listed, asOf)|
  {
    if open == [] {
      assert ListedAt(open, listed, asOf) == {};
    } else {
      var n := |open| - 1;
      assert open == open[..n] + [open[n]];
      ListedCount(open[..n], listed, asOf);
      ListedSnoc(open[..n], open[n], listed, asOf);
      ThroughSnoc(open[..n], open[n], asOf);
      if open[n] <= asOf {
        CountFromSnoc(Through(open[..n], asOf), open[n], listed);
      } else {
        assert Through(open[..n], asOf) + [] == Through(open[..n], asOf);
      }
    }
  }

  lemma {:induction false} ThroughHas(open: seq<Date>, asOf: Date)
    ensures forall d :: d in Through(open, asOf) <==> d in open && d <= asOf
  {
    if open == [] {
    } else {
      ThroughHas(open[1..], asOf);
      assert forall d :: d in open <==> d == open[0] || d in open[1..];
    }
  }

  lemma DateOrderIsTotal()
    ensures TotalPreorder(DateOrder)
  {
  }

  /** The latest open date through the date, or the earliest date there is. */
  lemma {:induction false} GoneIff(security: Security, open: seq<Date>, asOf: Date)
    requires security.delistDate.Some?
    ensures var dates := Sort(DateOrder, Through(open, asOf));
            security.delistDate.value <= (if dates != [] then dates[|dates| - 1] else MIN_DATE) <==>
              Gone(security, open, asOf)
  {
    var through := Through(open, asOf);
    ThroughHas(open, asOf);
    DateOrderIsTotal();
    SortSorts(DateOrder, through);
    SortKeepsElements(DateOrder, through);
    var dates := Sort(DateOrder, through);
    if dates != [] {
      var last := dates[|dates| - 1];
      assert last in through;
      forall d | d in through ensures d <= last {
        assert d in dates;
        var i :| 0 <= i < |dates| && dates[i] == d;
        if i < |dates| - 1 { assert DateOrder(dates[i], last); }
      }
    } else {
      assert |through| == 0;
    }
  }

  /** The rules that the selector goes through, each in its own terms. */
  lemma {:induction false} RulesAre(security: Security, status: Status, open: seq<Date>, asOf: Date, amounts: seq<real>)
    ensures var dates := Sort(DateOrder, Through(open, asOf));
            var board := TextOf(if TextOf(status.board) != "" then status.board else security.board);
            && (!IsCommon(Upper(security.securityType))
                <==> Excludes(NonCommonStock, security, status, open, asOf, amounts))
            && (!IsMain(Upper(board)) <==> Excludes(NonMainBoard, security, status, open, asOf, amounts))
            && (security.delistDate.Some?
                && security.delistDate.value <= (if dates != [] then dates[|dates| - 1] else MIN_DATE)
                <==> Excludes(Delisted, security, status, open, asOf, amounts))
            && (security.listDate.Some? && CountFrom(dates, security.listDate.value) < 60
                <==> Excludes(ListedTooRecently, security, status, open, asOf, amounts))
            && (amounts != [] ==>
                  (Median(amounts) < 20000000.0 <==> Excludes(MedianAmountTooLow, security, status, open, asOf,
                                                              amounts)))
  {
    UpperIs(security.securityType, "COMMON");
    var board := TextOf(if TextOf(status.board) != "" then status.board else security.board);
    UpperIs(board, "MAIN");
    assert OnBoard(security, status, board);
    if security.delistDate.Some? { GoneIff(security, open, asOf); }
    if security.listDate.Some? {
      CountSorted(Through(open, asOf), security.listDate.value);
      ListedCount(open, security.listDate.value, asOf);
    }
    if amounts != [] { MedianDecides(amounts); }
    hide Upper, SameText, Sort, Through, CountFrom, Median, IsMedian, Gone, ListedAt;
  }

  lemma {:induction false} MedianDecides(amounts: seq<real>)
    requires amounts != []
    ensures Median(amounts) < 20000000.0 <==> exists m: real :: m < 20000000.0 && IsMedian(amounts, m)
  {
    hide Median, IsMedian;
    MedianIsMiddle(amounts);
    if m: real :| m < 20000000.0 && IsMedian(amounts, m) { OneMedian(amounts, m, Median(amounts)); }
  }

  lemma PlainRules(security: Security, status: Status, open: seq<Date>, asOf: Date, amounts: seq<real>)
    ensures Excludes(DataNotAvailable, security, status, open, asOf, amounts)
       <==> security.availableOn.Some? && security.availableOn.value > asOf
    ensures Excludes(SpecialTreatment, security, status, open, asOf, amounts) <==> status.st
    ensures Excludes(Suspended, security, status, open, asOf, amounts) <==> status.suspended
    ensures Excludes(DelistPeriod, security, status, open, asOf, amounts) <==> status.delistPeriod
    ensures Excludes(MissingListDate, security, status, open, asOf, amounts) <==> security.listDate.None?
    ensures Excludes(InsufficientHistory, security, status, open, asOf, amounts) <==> |amounts| < 20
  {
  }

  /** The reason is that of the first rule that excludes; `from` leaves out the rules before it. */
  ghost predicate FirstRule(reason: Option<Exclusion>, from: nat, security: Security, status: Status, open: seq<Date>,
                            asOf: Date, amounts: seq<real>)
  {
    match reason
    case None => forall rule: Exclusion | from <= Turn(rule) :: !Excludes(rule, security, status, open, asOf, amounts)
    case Some(first) =>
      && from <= Turn(first) && Excludes(first, security, status, open, asOf, amounts)
      && forall rule: Exclusion | from <= Turn(rule) < Turn(first) ::
          !Excludes(rule, security, status, open, asOf, amounts)
  }

  lemma {:induction false} ReasonIsFirst(security: Security, status: Status, open: seq<Date>, asOf: Date,
                                         amounts: seq<real>)
    ensures FirstRule(ExclusionReason(security, status, Sort(DateOrder, Through(open, asOf)), amounts), 1,
                      security, status, open, asOf, amounts)
  {
    hide Upper, IsCommon, IsMain, Sort, Through, CountFrom, Median, Excludes, TextOf;
    RulesAre(security, status, open, asOf, amounts);
    PlainRules(security, status, open, asOf, amounts);
  }

  /** The selector's decision: the reason it gives is the first rule that excludes the security, and there is none
      exactly when no rule does. The status is the latest visible one, or a blank one; the amounts are the recent
      ones. */
  lemma {:induction false} DecisionIsFirstRule(security: Security, rows: seq<StatusRow>, bars: seq<PriceBar>,
                                               open: seq<Date>,
                                               asOf: Date)
    ensures var decision := Decide(security, rows, bars, open, asOf);
            var latest := LatestStatus(rows, security.symbol, asOf);
            var status := if latest.Some? then latest.value.status else Status(None, false, false, false);
            var amounts := RecentAmounts(AmountsSeen(bars, security.symbol, asOf));
            && decision.symbol == security.symbol && (decision.eligible <==> decision.reason.None?)
            && FirstRule(decision.reason, 0, security, status, open, asOf, amounts)
            && (amounts != [] ==> decision.medianAmount.Some? && IsMedian(amounts, decision.medianAmount.value))
            && (amounts == [] ==> decision.medianAmount.None?)
  {
    hide LatestStatus, RecentAmounts, AmountsSeen, Sort, Through, Median, IsMedian, Excludes, ExclusionReason;
    var latest := LatestStatus(rows, security.symbol, asOf);
    var status := if latest.Some? then latest.value.status else NO_STATUS;
    var amounts := RecentAmounts(AmountsSeen(bars, security.symbol, asOf));
    PlainRules(security, status, open, asOf, amounts);
    ReasonIsFirst(security, status, open, asOf, amounts);
    if amounts != [] { MedianIsMiddle(amounts); }
  }

  // ----- the status

  /** The status row may be asked about the symbol on the date. */
  predicate Askable(row: StatusRow, s: Symbol, asOf: Date) {
    row.symbol == s && row.effectiveDate <= asOf && (row.availableOn.Some? ==> row.availableOn.value <= asOf)
  }

  /** Of the rows that may be asked, the `i`-th is the first of the latest. */
  ghost predicate FirstOfLatest(rows: seq<StatusRow>, s: Symbol, asOf: Date, i: nat) {
    && i < |rows| && Askable(rows[i], s, asOf)
    && (forall j | 0 <= j < |rows| && Askable(rows[j], s, asOf) :: rows[j].effectiveDate <= rows[i].effectiveDate)
    && (forall j | 0 <= j < i && Askable(rows[j], s, asOf) :: rows[j].effectiveDate < rows[i].effectiveDate)
  }

  lemma {:induction false} StaysFirst(rows: seq<StatusRow>, last: StatusRow, s: Symbol, asOf: Date, i: nat)
    requires FirstOfLatest(rows, s, asOf, i)
    requires Askable(last, s, asOf) ==> last.effectiveDate <= rows[i].effectiveDate
    ensures FirstOfLatest(rows + [last], s, asOf, i)
  {
    hide Askable;
  }

  lemma {:induction false} ComesFirst(rows: seq<StatusRow>, last: StatusRow, s: Symbol, asOf: Date)
    requires Askable(last, s, asOf)
    requires forall row | row in rows && Askable(row, s, asOf) :: row.effectiveDate < last.effectiveDate
    ensures FirstOfLatest(rows + [last], s, asOf, |rows|)
  {
    hide Askable;
    forall j | 0 <= j < |rows| ensures rows[j] in rows && (rows + [last])[j] == rows[j] {
    }
  }

  /** The selector asks the first of the latest rows that may be asked. */
  lemma {:induction false} StatusIsLatest(rows: seq<StatusRow>, s: Symbol, asOf: Date)
    ensures var r := LatestStatus(rows, s, asOf);
            && (r.Some? ==> exists i: nat :: FirstOfLatest(rows, s, asOf, i) && rows[i] == r.value)
            && (r.None? ==> forall row | row in rows :: !Askable(row, s, asOf))
  {
    if rows == [] {
    } else {
      var n: nat := |rows| - 1;
      var before, last := rows[..n], rows[n];
      assert rows == before + [last];
      StatusIsLatest(before, s, asOf);
      var prior := LatestStatus(before, s, asOf);
      if Askable(last, s, asOf) && (prior.None? || last.effectiveDate > prior.value.effectiveDate) {
        ComesFirst(before, last, s, asOf);
      } else if prior.Some? {
        var i: nat :| FirstOfLatest(before, s, asOf, i) && before[i] == prior.value;
        StaysFirst(before, last, s, asOf, i);
        assert rows[i] == before[i];
      }
    }
  }

  // ----- the recent amounts

  /** The bar counts on the date. */
  predicate Seen(b: PriceBar, s: Symbol, asOf: Date) {
    b.symbol == s && b.date <= asOf && (b.availableOn.Some? ==> b.availableOn.value <= asOf)
  }

  /** `at` are the places, in order, of the symbol's bars that count, and `xs` their dates and amounts. */
  ghost predicate SeenAt(bars: seq<PriceBar>, s: Symbol, asOf: Date, xs: seq<Dated>, at: seq<nat>) {
    && |at| == |xs|
    && (forall i | 0 <= i < |at| ::
          at[i] < |bars| && Seen(bars[at[i]], s, asOf) && xs[i] == Dated(bars[at[i]].date, bars[at[i]].amount))
    && (forall i, j | 0 <= i < j < |at| :: at[i] < at[j])
    && (forall k: nat | k < |bars| && Seen(bars[k], s, asOf) :: k in at)
  }

  lemma {:induction false} SeenShows(bars: seq<PriceBar>, s: Symbol, asOf: Date) returns (at: seq<nat>)
    ensures SeenAt(bars, s, asOf, AmountsSeen(bars, s, asOf), at)
  {
    if bars == [] {
      at := [];
    } else {
      var n := |bars| - 1;
      at := SeenShows(bars[..n], s, asOf);
      OneMoreSeen(bars, s, asOf, AmountsSeen(bars[..n], s, asOf), at);
      if Seen(bars[n], s, asOf) { at := at + [n]; }
      hide SeenAt;
    }
  }

  lemma {:induction false} OneMoreSeen(bars: seq<PriceBar>, s: Symbol, asOf: Date, xs: seq<Dated>, at: seq<nat>)
    requires bars != [] && SeenAt(bars[..|bars| - 1], s, asOf, xs, at)
    ensures var n := |bars| - 1;
            if Seen(bars[n], s, asOf)
            then SeenAt(bars, s, asOf, xs + [Dated(bars[n].date, bars[n].amount)], at + [n])
            else SeenAt(bars, s, asOf, xs, at)
  {
    hide Seen;
    var n := |bars| - 1;
    var more := at + [n];
    assert more[|at|] == n && forall k | k in at :: k in more;
    forall k: nat | k < n && Seen(bars[k], s, asOf) ensures k in at {
      assert bars[..n][k] == bars[k];
    }
  }

  lemma DatedOrderIsTotal()
    ensures TotalPreorder(DatedOrder)
  {
  }

  /** The recent amounts of a symbol are those of its last twenty bars that count, in order of date and, on one date, of
      amount. */
  lemma {:induction false} RecentAre(bars: seq<PriceBar>, s: Symbol,
                                     asOf: Date) returns (at: seq<nat>, sorted: seq<Dated>)
    ensures SeenAt(bars, s, asOf, AmountsSeen(bars, s, asOf), at)
              && multiset(sorted) == multiset(AmountsSeen(bars, s, asOf))
    ensures forall i, j | 0 <= i < j < |sorted| ::
              sorted[i].date < sorted[j].date
                  || (sorted[i].date == sorted[j].date && sorted[i].amount <= sorted[j].amount)
    ensures var recent := RecentAmounts(AmountsSeen(bars, s, asOf));
            && |recent| == (if |sorted| < 20 then |sorted| else 20)
            && forall i | 0 <= i < |recent| :: recent[i] == sorted[|sorted| - |recent| + i].amount
  {
    at := SeenShows(bars, s, asOf);
    var seen := AmountsSeen(bars, s, asOf);
    sorted := Sort(DatedOrder, seen);
    DatedOrderIsTotal();
    SortSorts(DatedOrder, seen);
    SortKeepsElements(DatedOrder, seen);
    forall i, j | 0 <= i < j < |sorted|
      ensures sorted[i].date < sorted[j].date
                || (sorted[i].date == sorted[j].date && sorted[i].amount <= sorted[j].amount)
    {
      assert DatedOrder(sorted[i], sorted[j]);
    }
    hide Sort, AmountsSeen;
  }
}
