/** When a drawdown monitor leaves review, and what its audit trail tells, over any run of values and confirmations. */
module Recoveries {
  import opened Common
  import opened Drawdown

  /** `peak` is the greatest of the initial equity and the values observed by the steps. */
  ghost predicate IsPeak(initialEquity: real, steps: seq<Step>, peak: real) {
    && initialEquity <= peak
    && (forall s | s in steps && s.Equity? :: s.value <= peak)
    && (peak == initialEquity || exists s :: s in steps && s.Equity? && s.value == peak)
  }

  /** What the warning threshold leaves of a value. */
  function Rest(peak: real, thresholds: Thresholds): real {
    peak - thresholds.warning * peak
  }

  /** The step is a confirmation that was authorised, complete and of an equity above what the warning threshold
      leaves of the peak. */
  ghost predicate Meets(initialEquity: real, thresholds: Thresholds, steps: seq<Step>, i: nat) {
    && i < |steps| && steps[i].Recover?
    && var c := steps[i].confirmation;
       c.authorized && c.checklistComplete && c.equity.Some?
       && exists peak :: IsPeak(initialEquity, steps[..i], peak) && c.equity.value > Rest(peak, thresholds)
  }

  lemma {:induction false} RunSnoc(initialEquity: real, thresholds: Thresholds, steps: seq<Step>, s: Step)
    requires initialEquity > 0.0
    ensures Run(initialEquity, thresholds, steps + [s])
         == var m := Run(initialEquity, thresholds, steps);
            match s case Equity(v) => Observed(m, v) case Recover(c) => Confirm(m, c).0
  {
    assert (steps + [s])[..|steps|] == steps;
  }

  lemma {:induction false} MarkOfRun(initialEquity: real, thresholds: Thresholds, steps: seq<Step>)
    requires initialEquity > 0.0
    ensures IsPeak(initialEquity, steps, Run(initialEquity, thresholds, steps).highWaterMark)
    ensures Run(initialEquity, thresholds, steps).thresholds == thresholds
  {
    if steps != [] {
      var n := |steps| - 1;
      MarkOfRun(initialEquity, thresholds, steps[..n]);
      assert steps == steps[..n] + [steps[n]] && steps[n] in steps;
      assert forall s | s in steps[..n] :: s in steps;
    }
  }

  lemma OnePeak(initialEquity: real, steps: seq<Step>, p: real, q: real)
    requires IsPeak(initialEquity, steps, p) && IsPeak(initialEquity, steps, q)
    ensures p == q
  {
  }

  lemma AllowedAbove(m: Monitor, c: Confirmation)
    ensures Allowed(m, c) <==> c.authorized && c.checklistComplete && c.equity.Some?
                               && c.equity.value > Rest(m.highWaterMark, m.thresholds)
  {
    assert m.highWaterMark * (1.0 - m.thresholds.warning) == Rest(m.highWaterMark, m.thresholds);
  }

  /** In review, a confirmation that is not on the list is accepted exactly when it meets the conditions. */
  lemma {:induction false} AllowedIff(initialEquity: real, thresholds: Thresholds, steps: seq<Step>, i: nat)
    requires initialEquity > 0.0 && i < |steps| && steps[i].Recover?
    ensures Allowed(Run(initialEquity, thresholds, steps[..i]), steps[i].confirmation)
       <==> Meets(initialEquity, thresholds, steps, i)
  {
    var m := Run(initialEquity, thresholds, steps[..i]);
    MarkOfRun(initialEquity, thresholds, steps[..i]);
    AllowedAbove(m, steps[i].confirmation);
    hide Run, IsPeak, Rest, Allowed;
    forall p | IsPeak(initialEquity, steps[..i], p) ensures p == m.highWaterMark {
      OnePeak(initialEquity, steps[..i], p, m.highWaterMark);
    }
  }

  function StateAt(initialEquity: real, thresholds: Thresholds, steps: seq<Step>, k: nat): DrawdownState
    requires initialEquity > 0.0 && k <= |steps|
  {
    Run(initialEquity, thresholds, steps[..k]).state
  }

  /** The monitor went into review with step `from`, and was in review before every step after it. */
  ghost predicate InReviewSince(initialEquity: real, thresholds: Thresholds, steps: seq<Step>, from: nat, n: nat)
    requires initialEquity > 0.0 && n <= |steps|
  {
    && from < n && StateAt(initialEquity, thresholds, steps, from) != ReviewRequired
    && forall k | from < k <= n :: StateAt(initialEquity, thresholds, steps, k) == ReviewRequired
  }

  function IdOf(s: Step): string {
    if s.Recover? then s.confirmation.id else ""
  }

  /** The list holds the id of the confirmations met since then, which all have the same. */
  ghost predicate Listed(initialEquity: real, thresholds: Thresholds, steps: seq<Step>, from: nat, n: nat,
                         ids: seq<string>)
  {
    if forall i | from < i < n :: !Meets(initialEquity, thresholds, steps, i) then ids == []
    else |ids| == 1 && forall i | from < i < n && Meets(initialEquity, thresholds, steps, i) :: IdOf(steps[i]) == ids[0]
  }

  lemma {:induction false} OneMoreStep(initialEquity: real, thresholds: Thresholds, steps: seq<Step>, from: nat, n: nat)
    requires initialEquity > 0.0 && from + 1 <= n < |steps|
    requires StateAt(initialEquity, thresholds, steps, n) == ReviewRequired
    requires Listed(initialEquity, thresholds, steps, from, n, Run(initialEquity, thresholds, steps[..n]).confirmations)
    ensures var recovers := Meets(initialEquity, thresholds, steps, n)
                            && exists i | from < i < n :: Meets(initialEquity, thresholds, steps, i)
                                                          && IdOf(steps[i]) != IdOf(steps[n]);
            && StateAt(initialEquity, thresholds, steps, n + 1) == (if recovers then Normal else ReviewRequired)
            && (!recovers ==> Listed(initialEquity, thresholds, steps, from, n + 1,
                                     Run(initialEquity, thresholds, steps[..n + 1]).confirmations))
  {
    hide Run, Meets, IsPeak;
    var m := Run(initialEquity, thresholds, steps[..n]);
    assert steps[..n + 1] == steps[..n] + [steps[n]];
    RunSnoc(initialEquity, thresholds, steps[..n], steps[n]);
    match steps[n] {
      case Equity(v) => NotMet(initialEquity, thresholds, steps, n);
      case Recover(c) =>
        AllowedIff(initialEquity, thresholds, steps, n);
        hide Allowed;
    }
  }

  lemma NotMet(initialEquity: real, thresholds: Thresholds, steps: seq<Step>, i: nat)
    requires i < |steps| && steps[i].Equity?
    ensures !Meets(initialEquity, thresholds, steps, i)
  {
  }

  lemma {:induction false} ListedInReview(initialEquity: real, thresholds: Thresholds, steps: seq<Step>, from: nat,
                                          n: nat)
    requires initialEquity > 0.0 && n <= |steps| && InReviewSince(initialEquity, thresholds, steps, from, n)
    ensures Listed(initialEquity, thresholds, steps, from, n, Run(initialEquity, thresholds, steps[..n]).confirmations)
    decreases n
  {
    hide Run, Meets;
    if n == from + 1 {
      EntersEmpty(initialEquity, thresholds, steps, from);
    } else {
      assert InReviewSince(initialEquity, thresholds, steps, from, n - 1);
      ListedInReview(initialEquity, thresholds, steps, from, n - 1);
      OneMoreStep(initialEquity, thresholds, steps, from, n - 1);
    }
  }

  lemma {:induction false} EntersEmpty(initialEquity: real, thresholds: Thresholds, steps: seq<Step>, from: nat)
    requires initialEquity > 0.0 && from < |steps| && StateAt(initialEquity, thresholds, steps, from) != ReviewRequired
    requires StateAt(initialEquity, thresholds, steps, from + 1) == ReviewRequired
    ensures Run(initialEquity, thresholds, steps[..from + 1]).confirmations == []
  {
    ConfirmationsWereRecorded(initialEquity, thresholds, steps[..from]);
    assert steps[..from + 1] == steps[..from] + [steps[from]];
    RunSnoc(initialEquity, thresholds, steps[..from], steps[from]);
    hide Run;
  }

  /** A monitor in review leaves it with a step exactly when the step is a confirmation that meets the conditions and,
      since the review began, one with another id has met them; and then it is back to normal. */
  lemma {:induction false} RecoversIff(initialEquity: real, thresholds: Thresholds, steps: seq<Step>, from: nat, n: nat)
    requires initialEquity > 0.0 && n < |steps| && InReviewSince(initialEquity, thresholds, steps, from, n)
    ensures StateAt(initialEquity, thresholds, steps, n + 1)
         == if Meets(initialEquity, thresholds, steps, n)
               && exists i | from < i < n :: Meets(initialEquity, thresholds, steps, i)
                   && IdOf(steps[i]) != IdOf(steps[n])
            then Normal else ReviewRequired
  {
    hide Run, Meets, StateAt;
    ListedInReview(initialEquity, thresholds, steps, from, n);
    OneMoreStep(initialEquity, thresholds, steps, from, n);
  }

  // ----- the audit trail

  /** The state that an audit event reports. */
  function Reported(e: AuditEvent): DrawdownState {
    match e.action
    case MarkedReviewRequired => ReviewRequired
    case MarkedStopNew => StopNew
    case RecoveryConfirmed(_) => Normal
  }

  /** The drawdown an audit event gives is one that calls for it. */
  predicate Justified(thresholds: Thresholds, e: AuditEvent) {
    match e.action
    case MarkedReviewRequired => e.drawdown >= thresholds.stop
    case MarkedStopNew => thresholds.warning <= e.drawdown < thresholds.stop
    case RecoveryConfirmed(_) => e.drawdown == 0.0
  }

  function EventOf(r: Monitor, s: Step): AuditEvent {
    match r.state
    case ReviewRequired => AuditEvent(MarkedReviewRequired, r.drawdown)
    case StopNew => AuditEvent(MarkedStopNew, r.drawdown)
    case Normal => AuditEvent(RecoveryConfirmed(IdOf(s)), 0.0)
  }

  /** The event reports the state, and gives a drawdown that calls for it. */
  predicate Says(r: Monitor, thresholds: Thresholds, e: AuditEvent) {
    Reported(e) == r.state && Justified(thresholds, e)
  }

  lemma ObservedAudit(m: Monitor, v: real)
    requires m.highWaterMark > 0.0
    ensures var r := Observed(m, v);
            if r.state == m.state then r.audit == m.audit
            else r.audit == m.audit + [EventOf(r, Equity(v))] && Says(r, m.thresholds, EventOf(r, Equity(v)))
  {
  }

  lemma ObservedPart(m: Monitor, v: real)
    requires m.highWaterMark > 0.0
    ensures var r := Observed(m, v);
            r.drawdown * r.highWaterMark == r.highWaterMark - v
  {
    var peak := Max(m.highWaterMark, v);
    assert (peak - v) / peak * peak == peak - v;
  }

  lemma ConfirmedAudit(m: Monitor, c: Confirmation)
    ensures var r := Confirm(m, c).0;
            && r.drawdown == m.drawdown
            && if r.state == m.state then r.audit == m.audit
               else r.audit == m.audit + [EventOf(r, Recover(c))] && Says(r, m.thresholds, EventOf(r, Recover(c)))
  {
    hide Allowed;
  }

  /** A step that changes the state adds one audit event, with the drawdown found or the confirmation's id, and any
      other step none; and the drawdown is how far the last observed value lies below the peak, as a part of it. */
  lemma {:induction false} AuditGrows(initialEquity: real, thresholds: Thresholds, steps: seq<Step>, s: Step)
    requires initialEquity > 0.0
    ensures var m, r := Run(initialEquity, thresholds, steps), Run(initialEquity, thresholds, steps + [s]);
            && r.audit == (if r.state == m.state then m.audit else m.audit + [EventOf(r, s)])
            && (s.Equity? ==> r.drawdown * r.highWaterMark == r.highWaterMark - s.value)
            && (s.Recover? ==> r.drawdown == m.drawdown)
  {
    hide Run, Observed, Confirm, EventOf;
    RunSnoc(initialEquity, thresholds, steps, s);
    var m := Run(initialEquity, thresholds, steps);
    match s {
      case Equity(v) =>
        ObservedAudit(m, v);
        ObservedPart(m, v);
      case Recover(c) => ConfirmedAudit(m, c);
    }
  }

  /** After any run the last audit event reports the state, every two successive ones different states, and each gives a
      drawdown that calls for it. */
  lemma {:induction false} AuditTells(initialEquity: real, thresholds: Thresholds, steps: seq<Step>)
    requires initialEquity > 0.0
    ensures var m := Run(initialEquity, thresholds, steps);
            && m.state == (if m.audit == [] then Normal else Reported(m.audit[|m.audit| - 1]))
            && (forall i | 0 < i < |m.audit| :: Reported(m.audit[i]) != Reported(m.audit[i - 1]))
            && (m.audit != [] ==> Reported(m.audit[0]) != Normal)
            && (forall e | e in m.audit :: Justified(thresholds, e))
  {
    if steps == [] {
    } else {
      var n := |steps| - 1;
      AuditTells(initialEquity, thresholds, steps[..n]);
      MarkOfRun(initialEquity, thresholds, steps[..n]);
      assert steps == steps[..n] + [steps[n]];
      RunSnoc(initialEquity, thresholds, steps[..n], steps[n]);
      var before := Run(initialEquity, thresholds, steps[..n]);
      hide Run, Observed, Confirm, EventOf, Reported, Justified;
      match steps[n] {
        case Equity(v) => ObservedAudit(before, v);
        case Recover(c) => ConfirmedAudit(before, c);
      }
    }
  }

  /** A monitor that has observed nothing is normal, at its initial equity, whatever it was told. */
  lemma {:induction false} NothingObserved(initialEquity: real, thresholds: Thresholds, steps: seq<Step>)
    requires initialEquity > 0.0 && forall s | s in steps :: s.Recover?
    ensures var m := Run(initialEquity, thresholds, steps);
            && m.highWaterMark == initialEquity && m.state == Normal && m.drawdown == 0.0
            && m.confirmations == [] && m.audit == []
  {
    if steps != [] {
      var n := |steps| - 1;
      assert steps[n] in steps && forall s | s in steps[..n] :: s in steps;
      NothingObserved(initialEquity, thresholds, steps[..n]);
    }
  }
}
