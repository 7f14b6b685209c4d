/** A curve whose segments do not compound: its whole gain falls on a day between validation and
    out-of-sample. */
module SegmentExample {
  import opened Common
  import opened Returns

  /** Eight days; the sixth lies between the segments and doubles the value. */
  function Curve(): seq<Point> {
    [Point(1, 1.0), Point(2, 1.0), Point(3, 1.0), Point(4, 1.0),
     Point(5, 1.0), Point(6, 2.0), Point(7, 2.0), Point(8, 2.0)]
  }

  /** The points within (after, through], from one index on. */
  function Kept(points: seq<Point>, after: Option<Date>, through: Option<Date>, from: nat): seq<Point>
    requires from <= |points|
    decreases |points| - from
  {
    if from == |points| then []
    else
      var rest := Kept(points, after, through, from + 1);
      if (after.Some? ==> after.value < points[from].date) && (through.Some? ==> points[from].date <= through.value)
      then [points[from]] + rest else rest
  }

  lemma {:induction false} BetweenIsKept(points: seq<Point>, after: Option<Date>, through: Option<Date>, from: nat)
    requires from <= |points|
    ensures Between(points[from..], after, through) == Kept(points, after, through, from)
    decreases |points| - from
  {
    if from == |points| {
    } else {
      BetweenIsKept(points, after, through, from + 1);
      assert points[from..][1..] == points[from + 1..];
    }
  }

  lemma CurveBetween(after: Option<Date>, through: Option<Date>)
    ensures Between(Curve(), after, through) == Kept(Curve(), after, through, 0)
  {
    BetweenIsKept(Curve(), after, through, 0);
    assert Curve()[0..] == Curve();
  }

  lemma TrainOfCurve()
    ensures Train(Curve(), 3) == [Point(1, 1.0), Point(2, 1.0), Point(3, 1.0)]
  {
    CurveBetween(None, Some(3));
  }

  lemma ValidationOfCurve()
    ensures Validation(Curve(), 3, 5) == [Point(3, 1.0), Point(4, 1.0), Point(5, 1.0)]
  {
    CurveBetween(None, Some(3));
    CurveBetween(Some(3), Some(5));
  }

  lemma OutOfSampleOfCurve()
    ensures OutOfSample(Curve(), 7) == [Point(6, 2.0), Point(7, 2.0), Point(8, 2.0)]
  {
    CurveBetween(None, Some(6));
    CurveBetween(Some(6), None);
  }

  lemma ReportOf(points: seq<Point>, first: real, last: real)
    requires |points| >= 3 && PositiveValues(points) && points[0].value == first && points[|points| - 1].value == last
    ensures Reported(points) == Some(last / first - 1.0)
  {
  }

  lemma CurveAscends()
    ensures Ascending(Curve()) && PositiveValues(Curve())
    ensures |Curve()| == 8 && Curve()[0].value == 1.0 && Curve()[7].value == 2.0
  {
  }

  /** The three segments report no gain at all, FULL one of a hundred per cent. */
  lemma SegmentsNeedNotCompound()
    ensures Ascending(Curve())
    ensures Reported(Train(Curve(), 3)) == Some(0.0)
    ensures Reported(Validation(Curve(), 3, 5)) == Some(0.0)
    ensures Reported(OutOfSample(Curve(), 7)) == Some(0.0)
    ensures Reported(Curve()) == Some(1.0)
  {
    CurveAscends();
    hide Curve, Train, Validation, OutOfSample, Reported;
    TrainOfCurve();
    ValidationOfCurve();
    OutOfSampleOfCurve();
    ReportOf(Train(Curve(), 3), 1.0, 1.0);
    ReportOf(Validation(Curve(), 3, 5), 1.0, 1.0);
    ReportOf(OutOfSample(Curve(), 7), 2.0, 2.0);
    ReportOf(Curve(), 1.0, 2.0);
  }
}
