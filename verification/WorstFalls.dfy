/** The maximum drawdown of the metrics: what it is a maximum of, and that it decides the risk state of a run. */
module WorstFalls {
  import opened Common
  import opened EventLoop
  import Drawdown
  import Metrics
  import opened RiskGate

  /** What a fall by a part of it leaves of a value. */
  function Left(value: real, fall: real): real {
    value - fall * value
  }

  lemma PartFallen(a: real, b: real, m: real)
    requires a > 0.0
    ensures (a - b) / a <= m <==> b >= Left(a, m)
    ensures (a - b) / a == m <==> b == Left(a, m)
  {
    var part := (a - b) / a;
    assert part * a == a - b;
    assert b - Left(a, m) == (m - part) * a;
    if part < m {
      assert (m - part) * a > 0.0;
    } else if part > m {
      assert (part - m) * a > 0.0;
    }
  }

  /** No later value has fallen below what the maximum drawdown leaves of an earlier one, and one has fallen so far. */
  lemma {:induction false} MaxDrawdownIs(curve: seq<real>, m: real)
    requires AllPositive(curve)
    ensures Metrics.IsMaxDrawdown(curve, m)
       <==> && (forall i, j | 0 <= i <= j < |curve| :: curve[j] >= Left(curve[i], m))
            && (exists i, j | 0 <= i <= j < |curve| :: curve[j] == Left(curve[i], m))
  {
    forall i, j | 0 <= i <= j < |curve|
      ensures Metrics.Fall(curve, i, j) <= m <==> curve[j] >= Left(curve[i], m)
      ensures Metrics.Fall(curve, i, j) == m <==> curve[j] == Left(curve[i], m)
    {
      PartFallen(curve[i], curve[j], m);
    }
    hide Left, Metrics.Fall;
  }

  /** Over a positive curve there is a fall by a level exactly when the maximum drawdown reaches it. */
  lemma {:induction false} FellByIff(curve: seq<real>, m: real, level: real)
    requires AllPositive(curve) && Metrics.IsMaxDrawdown(curve, m)
    ensures Drawdown.FellBy(curve, level) <==> m >= level
  {
    if Drawdown.FellBy(curve, level) {
      var i, j :| 0 <= i <= j < |curve| && Drawdown.Fall(curve, i, j, level);
      assert Metrics.Fall(curve, i, j) <= m;
    }
    if m >= level {
      var i, j :| 0 <= i <= j < |curve| && Metrics.Fall(curve, i, j) == m;
      assert Drawdown.Fall(curve, i, j, level);
    }
  }

  /** In every run with a positive curve the maximum drawdown of the metrics decides the risk state. */
  lemma {:induction false} MetricDecidesState(m: Market, k: nat, worst: real)
    requires m.x.initialEquity > 0.0 && m.x.thresholds.Ordered() && k <= |m.dates| && RunTo(m, k).Ok?
    requires AllPositive(EquityCurve(m.x, RunTo(m, k).value))
    requires Metrics.IsMaxDrawdown(EquityCurve(m.x, RunTo(m, k).value), worst)
    ensures RunTo(m, k).value.monitor.state ==
              if worst >= m.x.thresholds.stop then Drawdown.ReviewRequired
              else if worst >= m.x.thresholds.warning then Drawdown.StopNew
              else Drawdown.Normal
  {
    hide RunTo, EquityCurve;
    RiskStateOfRun(m, k);
    FellByIff(EquityCurve(m.x, RunTo(m, k).value), worst, m.x.thresholds.stop);
    FellByIff(EquityCurve(m.x, RunTo(m, k).value), worst, m.x.thresholds.warning);
  }
}
