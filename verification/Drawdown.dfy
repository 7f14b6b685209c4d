/** The latching drawdown monitor and what an equity history makes of it. */
module Drawdown {
  import opened Common

  datatype DrawdownState = Normal | StopNew | ReviewRequired

  datatype AuditAction = MarkedReviewRequired | MarkedStopNew | RecoveryConfirmed(confirmationId: string)

  datatype AuditEvent = AuditEvent(action: AuditAction, drawdown: real)

  datatype Thresholds = Thresholds(warning: real, stop: real) {
    predicate Ordered() {
      0.0 < warning < stop < 1.0
    }
  }

  datatype Monitor = Monitor(
    thresholds: Thresholds,
    highWaterMark: real,
    state: DrawdownState,
    drawdown: real,
    confirmations: seq<string>,
    audit: seq<AuditEvent>
  )

  function Fresh(initialEquity: real, thresholds: Thresholds): Monitor {
    Monitor(thresholds, initialEquity, Normal, 0.0, [], [])
  }

  function Observed(m: Monitor, equity: real): Monitor
    requires Max(m.highWaterMark, equity) != 0.0
  {
    var peak := Max(m.highWaterMark, equity);
    var current := (peak - equity) / peak;
    var seen := m.(highWaterMark := peak, drawdown := current);
    if m.state == ReviewRequired then seen
    else if current >= m.thresholds.stop then
      seen.(state := ReviewRequired, audit := m.audit + [AuditEvent(MarkedReviewRequired, current)])
    else if m.state == StopNew then seen
    else if current >= m.thresholds.warning then
      seen.(state := StopNew, audit := m.audit + [AuditEvent(MarkedStopNew, current)])
    else seen
  }

  datatype Confirmation = Confirmation(id: string, authorized: bool, checklistComplete: bool, equity: Option<real>)

  predicate Allowed(m: Monitor, c: Confirmation) {
    && c.authorized && c.checklistComplete
    && c.equity.Some? && c.equity.value > m.highWaterMark * (1.0 - m.thresholds.warning)
  }

  predicate Counts(m: Monitor, c: Confirmation) {
    m.state == ReviewRequired && c.id !in m.confirmations && Allowed(m, c)
  }

  function Confirm(m: Monitor, c: Confirmation): (Monitor, bool) {
    if !Counts(m, c) then (m, false)
    else if |m.confirmations| + 1 < 2 then (m.(confirmations := m.confirmations + [c.id]), false)
    else (m.(state := Normal, confirmations := [],
             audit := m.audit + [AuditEvent(RecoveryConfirmed(c.id), 0.0)]), true)
  }

  class DrawdownMonitor {
    const thresholds: Thresholds
    var highWaterMark: real
    var state: DrawdownState
    var drawdown: real
    var confirmations: seq<string>
    var audit: seq<AuditEvent>

    function View(): Monitor
      reads this
    {
      Monitor(thresholds, highWaterMark, state, drawdown, confirmations, audit)
    }

    constructor (initialEquity: real, thresholds: Thresholds)
      requires thresholds.Ordered()
      ensures View() == Fresh(initialEquity, thresholds)
    {
      this.thresholds := thresholds;
      highWaterMark := initialEquity;
      state := Normal;
      drawdown := 0.0;
      confirmations := [];
      audit := [];
    }

    method Observe(equity: real) returns (r: DrawdownState)
      requires Max(highWaterMark, equity) != 0.0
      modifies this
      ensures View() == Observed(old(View()), equity)
      ensures r == state
    {
      if equity > highWaterMark {
        highWaterMark := equity;
      }
      var current := (highWaterMark - equity) / highWaterMark;
      drawdown := current;
      if state == ReviewRequired {
        return state;
      }
      if current >= thresholds.stop {
        audit := audit + [AuditEvent(MarkedReviewRequired, current)];
        state := ReviewRequired;
      } else if state == StopNew {
        return state;
      } else if current >= thresholds.warning {
        if state == Normal {
          audit := audit + [AuditEvent(MarkedStopNew, current)];
        }
        state := StopNew;
      }
      return state;
    }

    method ConfirmRecovery(c: Confirmation) returns (recovered: bool)
      modifies this
      ensures (View(), recovered) == Confirm(old(View()), c)
    {
      if state != ReviewRequired || c.id in confirmations || !Allowed(View(), c) {
        return false;
      }
      confirmations := confirmations + [c.id];
      if |confirmations| < 2 {
        return false;
      }
      state := Normal;
      audit := audit + [AuditEvent(RecoveryConfirmed(c.id), 0.0)];
      confirmations := [];
      return true;
    }
  }

  // ----- histories of observations only

  function ObserveAll(initialEquity: real, thresholds: Thresholds, history: seq<real>): (m: Monitor)
    requires initialEquity > 0.0
    ensures m.highWaterMark > 0.0
  {
    if history == [] then Fresh(initialEquity, thresholds)
    else
      Observed(ObserveAll(initialEquity, thresholds, history[..|history| - 1]), history[|history| - 1])
  }

  /** Somewhere on the curve the value lies at least `level` below an earlier positive value. */
  ghost predicate FellBy(curve: seq<real>, level: real) {
    exists i, j | 0 <= i <= j < |curve| :: Fall(curve, i, j, level)
  }

  ghost predicate Fall(curve: seq<real>, i: nat, j: nat, level: real)
    requires i < |curve| && j < |curve|
  {
    curve[i] > 0.0 && (curve[i] - curve[j]) / curve[i] >= level
  }

  /** The high-water mark is the greatest value of the curve. */
  lemma {:induction false} MarkIsPeak(initialEquity: real, thresholds: Thresholds, history: seq<real>)
    requires initialEquity > 0.0
    ensures var m := ObserveAll(initialEquity, thresholds, history);
            var curve := [initialEquity] + history;
            && m.highWaterMark in curve
            && (forall v | v in curve :: v <= m.highWaterMark)
            && m.thresholds == thresholds
            && m.confirmations == []
  {
    if history == [] {
    } else {
      MarkIsPeak(initialEquity, thresholds, history[..|history| - 1]);
      assert [initialEquity] + history == [initialEquity] + history[..|history| - 1] + [history[|history| - 1]];
    }
  }

  /** The relative fall to one value is greatest from the highest earlier value. */
  lemma FallGrowsWithPeak(low: real, high: real, value: real, level: real)
    requires 0.0 < low <= high
    requires level < 1.0
    requires (low - value) / low >= level
    ensures (high - value) / high >= level
  {
    assert (low - value) / low * low == low - value;
    MulMonotone(level, (low - value) / low, low);
    MulMonotone(low, high, 1.0 - level);
    assert (high - value) / high - level == (high - value - level * high) / high;
  }

  /** A new value completes a fall exactly when it lies that far below the high-water mark. */
  lemma FallAtEnd(initialEquity: real, thresholds: Thresholds, history: seq<real>, level: real)
    requires initialEquity > 0.0 && history != []
    requires 0.0 < level < 1.0
    ensures var curve := [initialEquity] + history;
            var peak := ObserveAll(initialEquity, thresholds, history).highWaterMark;
            FellBy(curve, level) <==>
              || FellBy(curve[..|curve| - 1], level)
              || (peak - curve[|curve| - 1]) / peak >= level
  {
    var curve := [initialEquity] + history;
    var last := |curve| - 1;
    var peak := ObserveAll(initialEquity, thresholds, history).highWaterMark;
    MarkIsPeak(initialEquity, thresholds, history);
    if FellBy(curve[..last], level) {
      var i, j :| 0 <= i <= j < last && Fall(curve[..last], i, j, level);
      assert Fall(curve, i, j, level);
    }
    if (peak - curve[last]) / peak >= level {
      var i :| 0 <= i < |curve| && curve[i] == peak;
      assert Fall(curve, i, last, level);
    }
    if FellBy(curve, level) {
      var i, j :| 0 <= i <= j < |curve| && Fall(curve, i, j, level);
      if j < last {
        assert Fall(curve[..last], i, j, level);
      } else {
        assert curve[i] in curve;
        FallGrowsWithPeak(curve[i], peak, curve[last], level);
      }
    }
  }

  /** Without recovery the state is decided by the worst fall on the whole curve, in any order of
      gains and losses. */
  lemma {:induction false} WorstFallDecidesState(initialEquity: real, thresholds: Thresholds, history: seq<real>)
    requires initialEquity > 0.0 && thresholds.Ordered()
    ensures var curve := [initialEquity] + history;
            ObserveAll(initialEquity, thresholds, history).state ==
            if FellBy(curve, thresholds.stop) then ReviewRequired
            else if FellBy(curve, thresholds.warning) then StopNew
            else Normal
  {
    var curve := [initialEquity] + history;
    if history == [] {
      forall i, j, level | 0 <= i <= j < |curve| && level > 0.0 ensures !Fall(curve, i, j, level) {
        assert (curve[i] - curve[j]) / curve[i] == 0.0 / curve[i] == 0.0;
      }
    } else {
      var before := history[..|history| - 1];
      WorstFallDecidesState(initialEquity, thresholds, before);
      MarkIsPeak(initialEquity, thresholds, before);
      assert curve[..|curve| - 1] == [initialEquity] + before;
      FallAtEnd(initialEquity, thresholds, history, thresholds.stop);
      FallAtEnd(initialEquity, thresholds, history, thresholds.warning);
    }
  }

  // ----- recovery

  datatype Step = Equity(value: real) | Recover(confirmation: Confirmation)

  function Run(initialEquity: real, thresholds: Thresholds, steps: seq<Step>): (m: Monitor)
    requires initialEquity > 0.0
    ensures m.highWaterMark > 0.0
  {
    if steps == [] then Fresh(initialEquity, thresholds)
    else
      var m := Run(initialEquity, thresholds, steps[..|steps| - 1]);
      match steps[|steps| - 1]
      case Equity(value) => Observed(m, value)
      case Recover(c) => Confirm(m, c).0
  }

  /** The confirmation at step `i` was authorised, complete and high enough, and was recorded. */
  ghost predicate Recorded(initialEquity: real, thresholds: Thresholds, steps: seq<Step>, i: nat)
    requires initialEquity > 0.0 && i < |steps|
  {
    steps[i].Recover? && Counts(Run(initialEquity, thresholds, steps[..i]), steps[i].confirmation)
  }

  /** Whatever is on the confirmation list was recorded by some earlier step. */
  lemma {:induction false} ConfirmationsWereRecorded(initialEquity: real, thresholds: Thresholds, steps: seq<Step>)
    requires initialEquity > 0.0
    ensures var m := Run(initialEquity, thresholds, steps);
            && |m.confirmations| <= 1
            && (m.confirmations != [] ==> m.state == ReviewRequired)
            && forall id | id in m.confirmations ::
                 exists i | 0 <= i < |steps| :: Recorded(initialEquity, thresholds, steps, i)
                     && steps[i].confirmation.id == id
  {
    if steps == [] {
    } else {
      var n := |steps| - 1;
      var before := steps[..n];
      ConfirmationsWereRecorded(initialEquity, thresholds, before);
      var m := Run(initialEquity, thresholds, before);
      forall id | id in Run(initialEquity, thresholds, steps).confirmations
        ensures exists i | 0 <= i < |steps| :: Recorded(initialEquity, thresholds, steps, i)
                  && steps[i].confirmation.id == id
      {
        if id in m.confirmations {
          var i :| 0 <= i < n && Recorded(initialEquity, thresholds, before, i) && before[i].confirmation.id == id;
          assert before[..i] == steps[..i];
          assert Recorded(initialEquity, thresholds, steps, i);
        } else {
          assert Recorded(initialEquity, thresholds, steps, n);
        }
      }
    }
  }

  /** The monitor leaves review only on the second of two recorded confirmations with different ids:
      `i` is the earlier one. */
  lemma RecoveryTakesTwoConfirmations(initialEquity: real, thresholds: Thresholds, steps: seq<Step>) returns (i: nat)
    requires initialEquity > 0.0 && steps != []
    requires Run(initialEquity, thresholds, steps[..|steps| - 1]).state == ReviewRequired
    requires Run(initialEquity, thresholds, steps).state != ReviewRequired
    ensures i < |steps| - 1
    ensures Recorded(initialEquity, thresholds, steps, i)
    ensures Recorded(initialEquity, thresholds, steps, |steps| - 1)
    ensures steps[i].confirmation.id != steps[|steps| - 1].confirmation.id
  {
    var n := |steps| - 1;
    var before := steps[..n];
    var m := Run(initialEquity, thresholds, before);
    ConfirmationsWereRecorded(initialEquity, thresholds, before);
    assert Recorded(initialEquity, thresholds, steps, n);
    var first := m.confirmations[0];
    assert first in m.confirmations;
    i :| 0 <= i < n && Recorded(initialEquity, thresholds, before, i) && before[i].confirmation.id == first;
    assert before[..i] == steps[..i];
    assert steps[i] == before[i];
  }
}
