/** Period and segment returns, and how they compound. */
module Returns {
  import opened Common
  import opened Simulator
  import opened Metrics

  // ----- periods

  /** The calendar period of a date (its month or its year), as an ordered number. */
  type Period = int

  datatype PeriodEnd = PeriodEnd(period: Period, value: real)

  function IndexOf(ends: seq<PeriodEnd>, period: Period): (i: nat)
    ensures i <= |ends|
    ensures i < |ends| ==> ends[i].period == period
    ensures i == |ends| ==> forall e | e in ends :: e.period != period
  {
    if ends == [] then 0
    else if ends[0].period == period then 0
    else
      assert forall e :: e in ends <==> e == ends[0] || e in ends[1..];
      1 + IndexOf(ends[1..], period)
  }

  /** The last value seen in each period, periods in order of first appearance. */
  function Ends(values: seq<real>, periods: seq<Period>): seq<PeriodEnd>
    requires |values| == |periods|
  {
    if values == [] then []
    else
      var n := |values| - 1;
      var ends := Ends(values[..n], periods[..n]);
      var i := IndexOf(ends, periods[n]);
      if i < |ends| then ends[i := PeriodEnd(periods[n], values[n])] else ends + [PeriodEnd(periods[n], values[n])]
  }

  datatype PeriodReturn = PeriodReturn(period: Period, value: real)

  function ReturnOver(previous: real, current: real): real
    requires previous != 0.0
  {
    current / previous - 1.0
  }

  /** The return of each period over the end of the one before. */
  function ReturnsOver(start: real, ends: seq<PeriodEnd>): seq<PeriodReturn>
    requires start != 0.0 && forall e | e in ends :: e.value != 0.0
    decreases ends
  {
    if ends == [] then []
    else [PeriodReturn(ends[0].period, ReturnOver(start, ends[0].value))] + ReturnsOver(ends[0].value, ends[1..])
  }

  lemma {:induction false} EndsAreValues(values: seq<real>, periods: seq<Period>)
    requires |values| == |periods|
    ensures forall e | e in Ends(values, periods) :: e.value in values
  {
    if values == [] {
    } else {
      EndsAreValues(values[..|values| - 1], periods[..|values| - 1]);
      assert values[|values| - 1] in values;
    }
  }

  /** The dictionary of last values and the list of its keys in order of first appearance. */
  ghost predicate Collected(values: map<Period, real>, order: seq<Period>, ends: seq<PeriodEnd>) {
    && |order| == |ends|
    && (forall j | 0 <= j < |ends| ::
          order[j] == ends[j].period && order[j] in values && values[order[j]] == ends[j].value)
    && (forall p | p in values :: p in order)
    && (forall j, l | 0 <= j < l < |order| :: order[j] != order[l])
  }

  method CollectEnds(closing: seq<real>, periods: seq<Period>) returns (values: map<Period, real>, order: seq<Period>)
    requires |closing| == |periods|
    ensures Collected(values, order, Ends(closing, periods))
  {
    values, order := map[], [];
    var i := 0;
    while i < |periods|
      invariant 0 <= i <= |periods|
      invariant Collected(values, order, Ends(closing[..i], periods[..i]))
    {
      assert closing[..i + 1][..i] == closing[..i] && periods[..i + 1][..i] == periods[..i];
      ghost var ends := Ends(closing[..i], periods[..i]);
      var period := periods[i];
      ghost var j := IndexOf(ends, period);
      if j < |ends| { assert order[j] == period; }
      if period !in values {
        order := order + [period];
      } else {
        var l :| 0 <= l < |order| && order[l] == period;
        assert ends[l] in ends;
      }
      values := values[period := closing[i]];
      i := i + 1;
    }
    assert closing[..i] == closing && periods[..i] == periods;
  }

  method ChainReturns(start: real, values: map<Period, real>, order: seq<Period>, ghost ends: seq<PeriodEnd>)
    returns (result: seq<PeriodReturn>)
    requires start != 0.0 && (forall e | e in ends :: e.value != 0.0) && Collected(values, order, ends)
    ensures result == ReturnsOver(start, ends)
  {
    result := [];
    var previous := start;
    var i := 0;
    assert ends[0..] == ends;
    while i < |order|
      invariant 0 <= i <= |order|
      invariant previous != 0.0
      invariant result + ReturnsOver(previous, ends[i..]) == ReturnsOver(start, ends)
    {
      assert ends[i..][1..] == ends[i + 1..] && ends[i] in ends;
      var current := values[order[i]];
      result := result + [PeriodReturn(order[i], ReturnOver(previous, current))];
      previous := current;
      i := i + 1;
    }
    assert result + [] == result;
  }

  /** Returns by period; none unless there is exactly one date per step of the curve. */
  method PeriodReturns(curve: seq<real>, periods: seq<Period>) returns (result: seq<PeriodReturn>)
    requires curve != [] && AllPositive(curve)
    ensures |periods| != |curve| - 1 || periods == [] ==> result == []
    ensures |periods| == |curve| - 1 && periods != [] ==>
              && (forall e | e in Ends(curve[1..], periods) :: e.value != 0.0)
              && result == ReturnsOver(curve[0], Ends(curve[1..], periods))
  {
    if |periods| != |curve| - 1 || periods == [] {
      return [];
    }
    EndsAreValues(curve[1..], periods);
    assert forall v | v in curve[1..] :: v != 0.0;
    var values, order := CollectEnds(curve[1..], periods);
    result := ChainReturns(curve[0], values, order, Ends(curve[1..], periods));
  }

  function Grown(rate: real, rest: real): real {
    (1.0 + rate) * rest
  }

  /** One plus each return, multiplied out. */
  function Compound(rs: seq<PeriodReturn>): real {
    if rs == [] then 1.0 else Grown(rs[0].value, Compound(rs[1..]))
  }

  lemma GrowthChains(start: real, next: real, last: real)
    requires start != 0.0 && next != 0.0
    ensures Grown(ReturnOver(start, next), last / next) == last / start
    ensures Grown(ReturnOver(start, next), 1.0) == next / start
  {
    Chain(start, next, last);
  }

  lemma Chain(a: real, b: real, c: real)
    requires a != 0.0 && b != 0.0
    ensures b / a * (c / b) == c / a
  {
    assert b / a * a == b;
    assert c / b * b == c;
    assert b / a * (c / b) * a == c;
    assert c / a * a == c;
  }

  /** Returns over successive ends compound to the return over the last end. */
  lemma {:induction false} ReturnsTelescope(start: real, ends: seq<PeriodEnd>)
    requires start != 0.0 && forall e | e in ends :: e.value != 0.0
    ensures Compound(ReturnsOver(start, ends)) == (if ends == [] then 1.0 else ends[|ends| - 1].value / start)
    decreases ends
  {
    hide Grown, ReturnOver;
    if ends == [] {
    } else {
      assert ends[0] in ends;
      ReturnsTelescope(ends[0].value, ends[1..]);
      var rest := ReturnsOver(ends[0].value, ends[1..]);
      assert ReturnsOver(start, ends)[1..] == rest;
      GrowthChains(start, ends[0].value, ends[|ends| - 1].value);
    }
  }

  /** In calendar order the last period end is the last value. */
  lemma {:induction false} LastEndIsLastValue(values: seq<real>, periods: seq<Period>)
    requires |values| == |periods| && values != []
    requires forall i, j | 0 <= i < j < |periods| :: periods[i] <= periods[j]
    ensures var ends := Ends(values, periods);
            && ends != []
            && ends[|ends| - 1] == PeriodEnd(periods[|periods| - 1], values[|values| - 1])
            && forall i | 0 <= i < |ends| - 1 :: ends[i].period < periods[|periods| - 1]
  {
    if |values| > 1 {
      LastEndIsLastValue(values[..|values| - 1], periods[..|values| - 1]);
    }
  }

  /** For dates in calendar order the period returns, monthly or yearly, multiply out to one plus the
      total return. */
  lemma PeriodReturnsCompound(curve: seq<real>, periods: seq<Period>)
    requires AllPositive(curve) && |periods| == |curve| - 1 && periods != []
    requires forall i, j | 0 <= i < j < |periods| :: periods[i] <= periods[j]
    ensures forall e | e in Ends(curve[1..], periods) :: e.value != 0.0
    ensures Compound(ReturnsOver(curve[0], Ends(curve[1..], periods))) == curve[|curve| - 1] / curve[0]
  {
    hide Ends, Compound, ReturnsOver;
    EndsAreValues(curve[1..], periods);
    assert forall v | v in curve[1..] :: v != 0.0;
    LastEndIsLastValue(curve[1..], periods);
    ReturnsTelescope(curve[0], Ends(curve[1..], periods));
  }

  // ----- the whole report

  datatype Report = Report(
    totalReturn: real,
    maxDrawdown: real,
    matching: Matching,
    monthly: seq<PeriodReturn>,
    yearly: seq<PeriodReturn>
  )

  function PeriodsOf(dates: seq<Date>, periodOf: Date -> Period): (r: seq<Period>)
    ensures |r| == |dates|
    ensures forall i | 0 <= i < |dates| :: r[i] == periodOf(dates[i])
  {
    if dates == [] then [] else [periodOf(dates[0])] + PeriodsOf(dates[1..], periodOf)
  }

  /** Periods follow the calendar, and the dates come in order. */
  ghost predicate Chronological(dates: seq<Date>, periodOf: Date -> Period) {
    forall i, j | 0 <= i < j < |dates| :: periodOf(dates[i]) <= periodOf(dates[j])
  }

  method IsUsable(curve: seq<real>) returns (usable: bool)
    ensures usable <==> |curve| >= 3 && AllPositive(curve)
  {
    if |curve| < 3 { return false; }
    var i := 0;
    while i < |curve|
      invariant 0 <= i <= |curve|
      invariant forall j | 0 <= j < i :: curve[j] > 0.0
    {
      if curve[i] <= 0.0 { return false; }
      i := i + 1;
    }
    return true;
  }

  /** The total return that is reported for a curve: of three or more values, all of them positive. */
  ghost function TotalReturn(curve: seq<real>): Option<real> {
    if |curve| >= 3 && AllPositive(curve) then Some(ReturnOver(curve[0], curve[|curve| - 1])) else None
  }

  /** The figures of a curve and its fills; insufficient data gives none. The returns of each kind of
      period compound to the total return when there is a date per step, in order. */
  method CalculateMetrics(curve: seq<real>, fills: seq<Fill>, dates: seq<Date>, monthOf: Date -> Period,
                          yearOf: Date -> Period)
    returns (r: Option<Report>)
    ensures r.None? <==> |curve| < 3 || !AllPositive(curve)
    ensures TotalReturn(curve) == if r.Some? then Some(r.value.totalReturn) else None
    ensures r.Some? ==> IsMaxDrawdown(curve, r.value.maxDrawdown) && r.value.matching == MatchAll(fills)
                        && (1.0 + r.value.totalReturn) * curve[0] == curve[|curve| - 1]
    ensures r.Some? && |dates| != |curve| - 1 ==> r.value.monthly == r.value.yearly == []
    ensures r.Some? && |dates| == |curve| - 1 && Chronological(dates, monthOf) && Chronological(dates, yearOf) ==>
              Compound(r.value.monthly) == 1.0 + r.value.totalReturn == Compound(r.value.yearly)
  {
    var usable := IsUsable(curve);
    if !usable { return None; }
    var totalReturn := ReturnOver(curve[0], curve[|curve| - 1]);
    TotalReturnScales(curve[0], curve[|curve| - 1]);
    var maxDrawdown := MaxDrawdown(curve);
    var matching := MatchFills(fills);
    var monthly := PeriodReturns(curve, PeriodsOf(dates, monthOf));
    var yearly := PeriodReturns(curve, PeriodsOf(dates, yearOf));
    if |dates| == |curve| - 1 && Chronological(dates, monthOf) && Chronological(dates, yearOf) {
      PeriodReturnsCompound(curve, PeriodsOf(dates, monthOf));
      PeriodReturnsCompound(curve, PeriodsOf(dates, yearOf));
    }
    r := Some(Report(totalReturn, maxDrawdown, matching, monthly, yearly));
  }

  lemma TotalReturnScales(start: real, end: real)
    requires start != 0.0
    ensures (1.0 + ReturnOver(start, end)) * start == end
    ensures 1.0 + ReturnOver(start, end) == end / start
  {
  }

  // ----- segments

  datatype Point = Point(date: Date, value: real)

  predicate Ascending(points: seq<Point>) {
    forall i, j | 0 <= i < j < |points| :: points[i].date < points[j].date
  }

  /** The points dated within (after, through]; a missing bound does not bind. */
  function Between(points: seq<Point>, after: Option<Date>, through: Option<Date>): seq<Point> {
    if points == [] then []
    else
      var rest := Between(points[1..], after, through);
      if (after.Some? ==> after.value < points[0].date) && (through.Some? ==> points[0].date <= through.value)
      then [points[0]] + rest else rest
  }

  /** The last point at or before a date, as a list of at most one. */
  function Anchor(points: seq<Point>, date: Date): seq<Point> {
    var before := Between(points, None, Some(date));
    if before == [] then [] else [before[|before| - 1]]
  }

  /** The three reporting segments for given boundaries. */
  function Train(points: seq<Point>, trainingEnd: Date): seq<Point> {
    Between(points, None, Some(trainingEnd))
  }

  function Validation(points: seq<Point>, trainingEnd: Date, validationEnd: Date): seq<Point> {
    Anchor(points, trainingEnd) + Between(points, Some(trainingEnd), Some(validationEnd))
  }

  function OutOfSample(points: seq<Point>, oosStart: Date): seq<Point> {
    Anchor(points, oosStart - 1) + Between(points, Some(oosStart - 1), None)
  }

  /** Value at the end over value at the start. */
  function Growth(points: seq<Point>): real
    requires points != [] && points[0].value != 0.0
  {
    Ratio(points[|points| - 1].value, points[0].value)
  }

  function Ratio(end: real, start: real): real
    requires start != 0.0
  {
    end / start
  }

  ghost predicate PositiveValues(points: seq<Point>) {
    forall i | 0 <= i < |points| :: points[i].value > 0.0
  }

  /** In date order the points through a date come first. */
  lemma {:induction false} SplitAt(points: seq<Point>, date: Date, through: Option<Date>)
    requires Ascending(points) && (through.Some? ==> date <= through.value)
    ensures Between(points, None, through) == Between(points, None, Some(date)) + Between(points, Some(date), through)
  {
    if points == [] {
    } else {
      SplitAt(points[1..], date, through);
      if points[0].date > date {
        NoneThrough(points[1..], date);
      }
    }
  }

  lemma {:induction false} NoneThrough(points: seq<Point>, date: Date)
    requires forall p | p in points :: p.date > date
    ensures Between(points, None, Some(date)) == []
  {
    if points == [] {
    } else {
      NoneThrough(points[1..], date);
    }
  }

  lemma {:induction false} BetweenAll(points: seq<Point>)
    ensures Between(points, None, None) == points
  {
    if points == [] {
    } else {
      BetweenAll(points[1..]);
    }
  }

  lemma {:induction false} BetweenHas(points: seq<Point>, after: Option<Date>, through: Option<Date>)
    ensures forall p :: p in Between(points, after, through) <==>
              p in points && (after.Some? ==> after.value < p.date) && (through.Some? ==> p.date <= through.value)
  {
    if points == [] {
    } else {
      BetweenHas(points[1..], after, through);
      assert forall p :: p in points <==> p == points[0] || p in points[1..];
    }
  }

  /** The value where validation ends, and the value where out-of-sample starts. */
  function ValueThrough(points: seq<Point>, date: Date): real
    requires Between(points, None, Some(date)) != []
  {
    var before := Between(points, None, Some(date));
    before[|before| - 1].value
  }

  predicate MultiplyTo(x: real, y: real, z: real, product: real) {
    x * y * z == product
  }

  lemma ThreeFactors(a: real, b: real, c: real, d: real, e: real)
    requires a > 0.0 && b > 0.0 && c > 0.0 && d > 0.0 && e > 0.0
    ensures MultiplyTo(Ratio(b, a), Ratio(c, b), Ratio(e, d), Ratio(e, a)) <==> c == d
  {
    Chain(a, b, c);
    assert c / a * a == c && e / d * d == e && e / a * a == e;
    assert c / a * (e / d) * (a * d) == c * e;
    assert e / a * (a * d) == e * d;
    if c == d {
      Chain(a, c, e);
    } else {
      assert (c - d) * e != 0.0;
      assert c * e - e * d == (c - d) * e;
    }
  }

  /** A segment that starts from the last point at or before a date ends where the points through its end do. */
  lemma AnchoredEnds(points: seq<Point>, after: Date, through: Option<Date>)
    requires Ascending(points) && (through.Some? ==> after <= through.value)
    requires Between(points, None, Some(after)) != []
    ensures var before, whole := Between(points, None, Some(after)), Between(points, None, through);
            var segment := Anchor(points, after) + Between(points, Some(after), through);
            && whole != [] && segment[0] == before[|before| - 1]
            && segment[|segment| - 1] == whole[|whole| - 1]
            && whole[0] == before[0]
            && segment[0] in points && segment[|segment| - 1] in points
  {
    SplitAt(points, after, through);
    BetweenHas(points, None, through);
    BetweenHas(points, None, Some(after));
    hide Between;
    var before, whole := Between(points, None, Some(after)), Between(points, None, through);
    assert before[|before| - 1] in before && whole[|whole| - 1] in whole;
  }

  /** Where TRAIN and VALIDATION begin and end. */
  lemma ValidationEnds(points: seq<Point>, trainingEnd: Date, validationEnd: Date)
    requires Ascending(points) && trainingEnd <= validationEnd
    requires Train(points, trainingEnd) != []
    ensures Between(points, None, Some(validationEnd)) != []
    ensures var train, validation := Train(points, trainingEnd), Validation(points, trainingEnd, validationEnd);
            && validation != []
            && validation[0] == train[|train| - 1]
            && validation[|validation| - 1].value == ValueThrough(points, validationEnd)
            && validation[0] in points && validation[|validation| - 1] in points
  {
    AnchoredEnds(points, trainingEnd, Some(validationEnd));
    hide Between;
  }

  /** Where OOS begins, and that it ends where the whole curve does. */
  lemma OutOfSampleEnds(points: seq<Point>, oosStart: Date)
    requires Ascending(points)
    requires Between(points, None, Some(oosStart - 1)) != []
    ensures var oos := OutOfSample(points, oosStart);
            && oos != [] && points != []
            && oos[0].value == ValueThrough(points, oosStart - 1)
            && oos[|oos| - 1] == points[|points| - 1]
            && oos[0] in points
  {
    AnchoredEnds(points, oosStart - 1, None);
    BetweenAll(points);
    hide Between;
  }

  lemma TrainStarts(points: seq<Point>, trainingEnd: Date, oosStart: Date)
    requires Ascending(points) && trainingEnd < oosStart
    requires Train(points, trainingEnd) != []
    ensures Between(points, None, Some(oosStart - 1)) != []
    ensures points != [] && Train(points, trainingEnd)[0] == points[0]
  {
    AnchoredEnds(points, trainingEnd, Some(oosStart - 1));
    AnchoredEnds(points, trainingEnd, None);
    BetweenAll(points);
    hide Between, Anchor;
  }

  lemma NoGapNoChange(points: seq<Point>, validationEnd: Date, oosStart: Date)
    requires Ascending(points) && validationEnd < oosStart
    requires Between(points, Some(validationEnd), Some(oosStart - 1)) == []
    ensures Between(points, None, Some(validationEnd)) == Between(points, None, Some(oosStart - 1))
    ensures Between(points, None, Some(validationEnd)) != [] ==>
              ValueThrough(points, validationEnd) == ValueThrough(points, oosStart - 1)
  {
    SplitAt(points, validationEnd, Some(oosStart - 1));
  }

  /** The growth of the segments multiplies out to the growth of the whole exactly when the value at the end
      of validation is the value at which out-of-sample starts. */
  lemma {:induction false} GrowthCompoundsIff(points: seq<Point>, trainingEnd: Date, validationEnd: Date,
                                              oosStart: Date)
    requires Ascending(points) && PositiveValues(points)
    requires trainingEnd <= validationEnd < oosStart
    requires Train(points, trainingEnd) != []
    ensures Between(points, None, Some(validationEnd)) != [] && Between(points, None, Some(oosStart - 1)) != []
    ensures var train, oos := Train(points, trainingEnd), OutOfSample(points, oosStart);
            var validation := Validation(points, trainingEnd, validationEnd);
            && train[0].value != 0.0 && validation != [] && validation[0].value != 0.0 && oos != []
                && oos[0].value != 0.0
            && points != [] && points[0].value != 0.0
            && (MultiplyTo(Growth(train), Growth(validation), Growth(oos), Growth(points))
                <==> ValueThrough(points, validationEnd) == ValueThrough(points, oosStart - 1))
  {
    TrainStarts(points, trainingEnd, oosStart);
    ValidationEnds(points, trainingEnd, validationEnd);
    OutOfSampleEnds(points, oosStart);
    hide Ratio, MultiplyTo, Between, Train, Validation, OutOfSample, ValueThrough;
    var train, oos := Train(points, trainingEnd), OutOfSample(points, oosStart);
    var validation := Validation(points, trainingEnd, validationEnd);
    var a, b, c := points[0].value, train[|train| - 1].value, validation[|validation| - 1].value;
    var d, e := oos[0].value, points[|points| - 1].value;
    assert points[0] in points && points[|points| - 1] in points;
    assert a > 0.0 && b > 0.0 && c > 0.0 && d > 0.0 && e > 0.0;
    ThreeFactors(a, b, c, d, e);
    assert Growth(train) == Ratio(b, a);
    assert Growth(validation) == Ratio(c, b);
    assert Growth(oos) == Ratio(e, d);
    assert Growth(points) == Ratio(e, a);
  }

  function ValuesOf(points: seq<Point>): (r: seq<real>)
    ensures |r| == |points|
    ensures forall i | 0 <= i < |points| :: r[i] == points[i].value
  {
    if points == [] then [] else [points[0].value] + ValuesOf(points[1..])
  }

  /** The total return that is reported for a segment, if it has enough points. */
  ghost function Reported(points: seq<Point>): Option<real> {
    TotalReturn(ValuesOf(points))
  }

  lemma {:induction false} ReportedIsGrowth(points: seq<Point>)
    requires Reported(points).Some?
    ensures |points| >= 3 && points[0].value > 0.0 && 1.0 + Reported(points).value == Growth(points)
  {
    TotalReturnScales(points[0].value, points[|points| - 1].value);
    assert ValuesOf(points)[0] > 0.0;
  }

  lemma {:induction false} ReportedArePositive(points: seq<Point>)
    requires Reported(points).Some?
    ensures PositiveValues(points)
  {
    assert forall i | 0 <= i < |points| :: ValuesOf(points)[i] == points[i].value;
  }

  /** One plus each reported total return of TRAIN, VALIDATION and OOS multiply out to one plus that of FULL,
      when all of them are reported, exactly when the value at the end of validation is the value at which
      out-of-sample starts; so always when no trading date lies between. */
  lemma {:induction false} SegmentsCompoundIff(points: seq<Point>, trainingEnd: Date, validationEnd: Date,
                                               oosStart: Date)
    requires Ascending(points) && trainingEnd <= validationEnd < oosStart
    requires Reported(Train(points, trainingEnd)).Some?
               && Reported(Validation(points, trainingEnd, validationEnd)).Some?
    requires Reported(OutOfSample(points, oosStart)).Some? && Reported(points).Some?
    ensures Between(points, None, Some(validationEnd)) != [] && Between(points, None, Some(oosStart - 1)) != []
    ensures MultiplyTo(1.0 + Reported(Train(points, trainingEnd)).value,
                       1.0 + Reported(Validation(points, trainingEnd, validationEnd)).value,
                       1.0 + Reported(OutOfSample(points, oosStart)).value, 1.0 + Reported(points).value)
            <==> ValueThrough(points, validationEnd) == ValueThrough(points, oosStart - 1)
    ensures Between(points, Some(validationEnd), Some(oosStart - 1)) == [] ==>
              ValueThrough(points, validationEnd) == ValueThrough(points, oosStart - 1)
  {
    hide *;
    ReportedArePositive(points);
    ReportedIsGrowth(Train(points, trainingEnd));
    ReportedIsGrowth(Validation(points, trainingEnd, validationEnd));
    ReportedIsGrowth(OutOfSample(points, oosStart));
    ReportedIsGrowth(points);
    GrowthCompoundsIff(points, trainingEnd, validationEnd, oosStart);
    if Between(points, Some(validationEnd), Some(oosStart - 1)) == [] {
      NoGapNoChange(points, validationEnd, oosStart);
    }
  }

  // ----- fills by segment

  function DatesOf(points: seq<Point>): set<Date> {
    set p | p in points :: p.date
  }

  /** How many of the three segments report a fill executed on `date`: TRAIN counts all its points'
      dates, the anchored segments all but their first point's. */
  function SegmentsReporting(points: seq<Point>, trainingEnd: Date, validationEnd: Date, oosStart: Date,
                             date: Date): nat {
    var validation, oos := Validation(points, trainingEnd, validationEnd), OutOfSample(points, oosStart);
    (if date in DatesOf(Train(points, trainingEnd)) then 1 else 0)
    + (if validation != [] && date in DatesOf(validation[1..]) then 1 else 0)
    + (if oos != [] && date in DatesOf(oos[1..]) then 1 else 0)
  }

  /** Every fill of the run falls in exactly one segment, except that one between the end of validation and
      the start of out-of-sample falls in none. */
  lemma FillInOneSegment(points: seq<Point>, trainingEnd: Date, validationEnd: Date, oosStart: Date, date: Date)
    requires trainingEnd <= validationEnd < oosStart
    requires Train(points, trainingEnd) != []
    requires date in DatesOf(points)
    ensures SegmentsReporting(points, trainingEnd, validationEnd, oosStart, date)
         == if validationEnd < date < oosStart then 0 else 1
  {
    BetweenHas(points, None, Some(trainingEnd));
    BetweenHas(points, Some(trainingEnd), Some(validationEnd));
    BetweenHas(points, None, Some(oosStart - 1));
    BetweenHas(points, Some(oosStart - 1), None);
    var validation, oos := Validation(points, trainingEnd, validationEnd), OutOfSample(points, oosStart);
    var train := Train(points, trainingEnd);
    var inValidation := Between(points, Some(trainingEnd), Some(validationEnd));
    var inOos := Between(points, Some(oosStart - 1), None);
    assert train[0] in train && train[0] in Between(points, None, Some(oosStart - 1));
    var p :| p in points && p.date == date;
    hide Between;
    assert validation[1..] == inValidation && oos[1..] == inOos;
  }
}
