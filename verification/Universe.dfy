/** The point-in-time stock-pool selector: what makes a security ineligible on a date. */
module Universe {
  import opened Common
  import opened Sorting

  /** The earliest representable date. */
  const MIN_DATE: Date := 1

  datatype Security = Security(
    symbol: Symbol,
    securityType: string,
    board: Option<string>,
    listDate: Option<Date>,
    delistDate: Option<Date>,
    availableOn: Option<Date>
  )

  datatype Status = Status(board: Option<string>, st: bool, suspended: bool, delistPeriod: bool)

  /** One row of a security's status history, as the selector reads it. */
  datatype StatusRow = StatusRow(symbol: Symbol, effectiveDate: Date, status: Status, availableOn: Option<Date>,
                                 observedAt: Timestamp, batch: int)

  datatype PriceBar = PriceBar(symbol: Symbol, date: Date, amount: real, availableOn: Option<Date>)

  datatype Exclusion =
    | DataNotAvailable
    | NonCommonStock
    | NonMainBoard
    | SpecialTreatment
    | Suspended
    | DelistPeriod
    | Delisted
    | MissingListDate
    | ListedTooRecently
    | InsufficientHistory
    | MedianAmountTooLow

  // ----- values

  function UpperChar(c: char): char {
    if 'a' <= c <= 'z' then c - 'a' + 'A' else c
  }

  function Upper(s: string): (r: string)
    ensures |r| == |s|
  {
    if s == "" then "" else [UpperChar(s[0])] + Upper(s[1..])
  }

  predicate IsCommon(securityType: string) {
    securityType == "COMMON"
  }

  predicate IsMain(board: string) {
    board == "MAIN"
  }

  function TextOf(value: Option<string>): string {
    match value case Some(s) => s case None => ""
  }

  predicate AvailableBy(availableOn: Option<Date>, date: Date) {
    availableOn.None? || availableOn.value <= date
  }

  predicate AtMost(x: real, y: real) {
    x <= y
  }

  /** The middle value, or the mean of the two middle values. */
  function Median(xs: seq<real>): real
    requires xs != []
  {
    var sorted := Sort(AtMost, xs);
    SortKeepsElements(AtMost, xs);
    var half := |sorted| / 2;
    if |sorted| % 2 == 1 then sorted[half] else (sorted[half - 1] + sorted[half]) / 2.0
  }

  function Last<T>(n: nat, xs: seq<T>): (r: seq<T>)
    ensures |r| <= n
  {
    if |xs| <= n then xs else xs[|xs| - n..]
  }

  // ----- the selector's views of its inputs

  datatype Dated = Dated(date: Date, amount: real)

  predicate DatedOrder(a: Dated, b: Dated) {
    a.date < b.date || (a.date == b.date && a.amount <= b.amount)
  }

  predicate BarSeen(b: PriceBar, asOf: Date) {
    b.date <= asOf && AvailableBy(b.availableOn, asOf)
  }

  /** A symbol's visible amounts, in the order of the bars. */
  function AmountsSeen(bars: seq<PriceBar>, s: Symbol, asOf: Date): seq<Dated> {
    if bars == [] then []
    else
      var last := bars[|bars| - 1];
      var before := AmountsSeen(bars[..|bars| - 1], s, asOf);
      if last.symbol == s && BarSeen(last, asOf) then before + [Dated(last.date, last.amount)] else before
  }

  function AmountsOf(xs: seq<Dated>): (r: seq<real>)
    ensures |r| == |xs|
    ensures forall i | 0 <= i < |xs| :: r[i] == xs[i].amount
  {
    if xs == [] then [] else [xs[0].amount] + AmountsOf(xs[1..])
  }

  /** The amounts of the last twenty dates. */
  function RecentAmounts(seen: seq<Dated>): seq<real> {
    AmountsOf(Last(20, Sort(DatedOrder, seen)))
  }

  function Entry<T>(m: map<Symbol, seq<T>>, s: Symbol): seq<T> {
    if s in m then m[s] else []
  }

  method AmountsBySymbol(bars: seq<PriceBar>, asOf: Date) returns (r: map<Symbol, seq<real>>)
    ensures forall s :: Entry(r, s) == RecentAmounts(AmountsSeen(bars, s, asOf))
  {
    var bySymbol: map<Symbol, seq<Dated>> := map[];
    var i := 0;
    while i < |bars|
      invariant 0 <= i <= |bars|
      invariant forall s :: Entry(bySymbol, s) == AmountsSeen(bars[..i], s, asOf)
    {
      var b := bars[i];
      assert bars[..i + 1][..i] == bars[..i];
      ghost var was := bySymbol;
      if BarSeen(b, asOf) {
        bySymbol := bySymbol[b.symbol := Entry(bySymbol, b.symbol) + [Dated(b.date, b.amount)]];
      }
      i := i + 1;
      forall s ensures Entry(bySymbol, s) == AmountsSeen(bars[..i], s, asOf) {
        assert Entry(was, s) == AmountsSeen(bars[..i - 1], s, asOf);
      }
    }
    assert bars[..i] == bars;
    r := map s | s in bySymbol :: RecentAmounts(bySymbol[s]);
  }

  predicate StatusSeen(row: StatusRow, asOf: Date) {
    row.effectiveDate <= asOf && AvailableBy(row.availableOn, asOf)
  }

  /** The latest visible status row of a symbol; of several from one date the first. */
  function LatestStatus(rows: seq<StatusRow>, s: Symbol, asOf: Date): (r: Option<StatusRow>)
    ensures r.Some? ==> r.value in rows && r.value.symbol == s && StatusSeen(r.value, asOf)
    ensures r.None? ==> forall row | row in rows :: row.symbol == s ==> !StatusSeen(row, asOf)
    ensures r.Some? ==> forall row | row in rows ::
              row.symbol == s && StatusSeen(row, asOf) ==> row.effectiveDate <= r.value.effectiveDate
  {
    if rows == [] then None
    else
      var last := rows[|rows| - 1];
      var prior := LatestStatus(rows[..|rows| - 1], s, asOf);
      assert forall row :: row in rows <==> row == last || row in rows[..|rows| - 1];
      if last.symbol == s && StatusSeen(last, asOf) && (prior.None? || last.effectiveDate > prior.value.effectiveDate)
      then Some(last) else prior
  }

  function StatusEntry(m: map<Symbol, (Date, StatusRow)>, s: Symbol): Option<StatusRow> {
    if s in m then Some(m[s].1) else None
  }

  method StatusBySymbol(rows: seq<StatusRow>, asOf: Date) returns (r: map<Symbol, StatusRow>)
    ensures forall s :: (if s in r then Some(r[s]) else None) == LatestStatus(rows, s, asOf)
  {
    var selected: map<Symbol, (Date, StatusRow)> := map[];
    var i := 0;
    while i < |rows|
      invariant 0 <= i <= |rows|
      invariant forall s :: StatusEntry(selected, s) == LatestStatus(rows[..i], s, asOf)
      invariant forall s | s in selected :: selected[s].0 == selected[s].1.effectiveDate
    {
      var row := rows[i];
      assert rows[..i + 1][..i] == rows[..i];
      ghost var was := selected;
      assert StatusEntry(was, row.symbol) == LatestStatus(rows[..i], row.symbol, asOf);
      if StatusSeen(row, asOf) && (row.symbol !in selected || row.effectiveDate > selected[row.symbol].0) {
        selected := selected[row.symbol := (row.effectiveDate, row)];
      }
      i := i + 1;
      forall s ensures StatusEntry(selected, s) == LatestStatus(rows[..i], s, asOf) {
        assert StatusEntry(was, s) == LatestStatus(rows[..i - 1], s, asOf);
      }
    }
    assert rows[..i] == rows;
    assert forall s :: StatusEntry(selected, s) == LatestStatus(rows, s, asOf);
    r := map s | s in selected :: selected[s].1;
  }

  // ----- the verdict

  function CountFrom(dates: seq<Date>, listedOn: Date): nat {
    if dates == [] then 0 else (if listedOn <= dates[0] then 1 else 0) + CountFrom(dates[1..], listedOn)
  }

  const NO_STATUS := Status(None, false, false, false)

  /** The rules in their order; a missing or empty board falls back on the security master's. */
  function ExclusionReason(security: Security, status: Status, openDates: seq<Date>,
                           amounts: seq<real>): Option<Exclusion> {
    var board := TextOf(if TextOf(status.board) != "" then status.board else security.board);
    if !IsCommon(Upper(security.securityType)) then Some(NonCommonStock)
    else if !IsMain(Upper(board)) then Some(NonMainBoard)
    else if status.st then Some(SpecialTreatment)
    else if status.suspended then Some(Suspended)
    else if status.delistPeriod then Some(DelistPeriod)
    else if security.delistDate.Some?
      && security.delistDate.value <= (if openDates != [] then openDates[|openDates| - 1] else MIN_DATE) then
      Some(Delisted)
    else if security.listDate.None? then Some(MissingListDate)
    else if CountFrom(openDates, security.listDate.value) < 60 then Some(ListedTooRecently)
    else if |amounts| < 20 then Some(InsufficientHistory)
    else if Median(amounts) < 20000000.0 then Some(MedianAmountTooLow)
    else None
  }

  function Through(dates: seq<Date>, asOf: Date): seq<Date> {
    if dates == [] then []
    else if dates[0] <= asOf then [dates[0]] + Through(dates[1..], asOf)
    else Through(dates[1..], asOf)
  }

  predicate DateOrder(a: Date, b: Date) {
    a <= b
  }

  datatype Decision = Decision(symbol: Symbol, eligible: bool, reason: Option<Exclusion>, medianAmount: Option<real>)

  /** The selector's decision on one security. */
  function Decide(security: Security, rows: seq<StatusRow>, bars: seq<PriceBar>, openTradeDates: seq<Date>,
                  asOf: Date): Decision {
    var latest := LatestStatus(rows, security.symbol, asOf);
    var amounts := RecentAmounts(AmountsSeen(bars, security.symbol, asOf));
    var reason :=
      if !AvailableBy(security.availableOn, asOf) then Some(DataNotAvailable)
      else ExclusionReason(security, if latest.Some? then latest.value.status else NO_STATUS,
                           Sort(DateOrder, Through(openTradeDates, asOf)), amounts);
    Decision(security.symbol, reason.None?, reason, if amounts == [] then None else Some(Median(amounts)))
  }

  /** Decides all securities as of a date. */
  method SelectUniverse(securities: seq<Security>, rows: seq<StatusRow>, bars: seq<PriceBar>, openTradeDates: seq<Date>,
                        asOf: Date)
    returns (decisions: seq<Decision>)
    ensures |decisions| == |securities|
    ensures forall i | 0 <= i < |securities| :: decisions[i] == Decide(securities[i], rows, bars, openTradeDates, asOf)
  {
    var statuses := StatusBySymbol(rows, asOf);
    var amounts := AmountsBySymbol(bars, asOf);
    var openDates := Sort(DateOrder, Through(openTradeDates, asOf));
    hide LatestStatus, RecentAmounts, AmountsSeen, ExclusionReason, Median, Sort;
    decisions := [];
    var i := 0;
    while i < |securities|
      invariant 0 <= i <= |securities|
      invariant |decisions| == i
      invariant forall j | 0 <= j < i :: decisions[j] == Decide(securities[j], rows, bars, openTradeDates, asOf)
    {
      var security := securities[i];
      var values := Entry(amounts, security.symbol);
      var status := if security.symbol in statuses then statuses[security.symbol].status else NO_STATUS;
      var reason :=
        if !AvailableBy(security.availableOn, asOf) then Some(DataNotAvailable)
        else ExclusionReason(security, status, openDates, values);
      decisions := decisions + [Decision(security.symbol, reason.None?, reason,
                                         if values == [] then None else Some(Median(values)))];
      i := i + 1;
    }
  }
}
