/** What each step of the job protocol does to rows and to clients' copies, told by fields and places. */
module StepRows {
  import opened Common
  import opened JobRuns
  import opened JobProtocol
  import opened JobRows
  import opened TableRows

  /** The one row with the id, if there is one, becomes `change` of it, if that is something. */
  ghost predicate Becomes(rows: seq<JobRecord>, next: seq<JobRecord>, id: RunId,
                          change: JobRecord -> Option<JobRecord>)
  {
    && ((forall r | r in rows :: r.runId != id) ==> next == rows)
    && forall i: nat | i < |rows| && rows[i].runId == id ::
         match change(rows[i]) case None => next == rows case Some(r) => OnlyAt(rows, next, i, r)
  }

  /** The one row with the record's id is overwritten. */
  ghost predicate Overwrites(rows: seq<JobRecord>, next: seq<JobRecord>, record: JobRecord) {
    Becomes(rows, next, record.runId, (r: JobRecord) => Some(record))
  }

  function EndedRow(r: JobRecord, status: JobStatus, value: string, error: Option<string>, now: Timestamp): JobRecord {
    JobRecord(r.runId, r.key, r.runNumber, r.attempt, r.phase, status, value, error, r.startedAt, Some(now))
  }

  function AbandonChange(error: string, now: Timestamp): JobRecord -> Option<JobRecord> {
    (r: JobRecord) => if r.status == Running then Some(EndedRow(r, Failed, r.value, Some(error), now)) else None
  }

  ghost predicate MaySubmit(w: World, client: Client, key: string, retryFailed: bool, id: RunId) {
    && client !in w.dispatching && (forall r | r in w.records :: r.runId != id)
    && (Unknown(w.records, key)
        || (retryFailed && exists i: nat :: NewestOf(w.records, key, i) && w.records[i].status == Failed))
  }

  ghost predicate MayStart(w: World, client: Client, id: RunId) {
    && client in w.lookups && (forall r | r in w.records :: r.runId != id)
    && (w.lookups[client].row.Some? ==> w.lookups[client].row.value.status == Failed)
  }

  /** The row a client holds is that of the id. */
  ghost predicate HasRow(rows: seq<JobRecord>, id: RunId, i: nat) {
    i < |rows| && rows[i].runId == id
  }

  ghost predicate Does(w: World, step: Step, u: World) {
    match step
    case Submit(client, key, value, retryFailed, id, now) =>
      if !MaySubmit(w, client, key, retryFailed, id) then u == w
      else exists r :: FreshRow(w.records, r, key, "enqueueing", value, id, now)
                       && u == w.(records := w.records + [r], dispatching := w.dispatching[client := r])
    case RequeueSwap(client, id, expected, now) =>
      if client in w.swapped || client in w.dispatching then u == w
      else
        && Becomes(w.records, u.records, id, RequeueChange(expected, now))
        && (if exists i: nat :: HasRow(w.records, id, i) && RequeueChange(expected, now)(w.records[i]).Some?
            then exists i: nat :: HasRow(u.records, id, i)
                                  && u == w.(records := u.records, swapped := w.swapped[client := u.records[i]])
            else u == w)
    case RequeueWrite(client, value) =>
      if client !in w.swapped then u == w
      else
        var r := w.swapped[client].(value := value);
        Overwrites(w.records, u.records, r)
        && u == w.(records := u.records, swapped := w.swapped - {client}, dispatching := w.dispatching[client := r])
    case Dispatched(client, phase) =>
      if client !in w.dispatching then u == w
      else
        Becomes(w.records, u.records, w.dispatching[client].runId, MarkChange(phase))
        && u == w.(records := u.records, dispatching := w.dispatching - {client})
    case ReadToFail(client, id) =>
      if client !in w.dispatching
         && exists i: nat :: HasRow(w.records, id, i) && w.records[i].status in {Queued, Running}
      then exists i: nat :: HasRow(w.records, id, i) && u == w.(dispatching := w.dispatching[client := w.records[i]])
      else u == w
    case DispatchFailed(client, error, now) =>
      if client !in w.dispatching then u == w
      else
        var copy := w.dispatching[client];
        Overwrites(w.records, u.records, EndedRow(copy, Failed, copy.value, Some(error), now))
        && u == w.(records := u.records, dispatching := w.dispatching - {client})
    case ClaimNext(key, phase, now) =>
      && (Unknown(w.records, key) ==> u == w)
      && forall i: nat | NewestOf(w.records, key, i) ::
           if w.records[i].status != Queued then u == w
           else exists r :: StartedFrom(w.records[i], r, phase, now) && OnlyAt(w.records, u.records, i, r)
                            && u == w.(records := u.records, working := w.working[r.runId := r],
                                       executed := w.executed + [r.runId])
    case ReadBeforeStart(client, key) =>
      && client in u.lookups && u == w.(lookups := w.lookups[client := u.lookups[client]])
      && u.lookups[client].key == key && (u.lookups[client].row.None? <==> Unknown(w.records, key))
      && forall i: nat | NewestOf(w.records, key, i) :: u.lookups[client].row == Some(w.records[i])
    case StartFromRead(client, phase, id, now) =>
      if !MayStart(w, client, id) then u == w
      else exists r :: NumberedOn(w.lookups[client].row, r, w.lookups[client].key, phase, "", Running, id, now)
                       && u == w.(records := w.records + [r], lookups := w.lookups - {client},
                                  working := w.working[id := r], executed := w.executed + [id])
    case Succeed(id, value, now) =>
      if id !in w.working then u == w
      else Overwrites(w.records, u.records, EndedRow(w.working[id], Succeeded, value, None, now))
           && u == w.(records := u.records, working := w.working - {id})
    case Fail(id, error, now) =>
      if id !in w.working then u == w
      else Overwrites(w.records, u.records, EndedRow(w.working[id], Failed, w.working[id].value, Some(error), now))
           && u == w.(records := u.records, working := w.working - {id})
    case WorkerDies(id) => u == w.(working := w.working - {id})
    case FailAbandoned(id, error, now) =>
      Becomes(w.records, u.records, id, AbandonChange(error, now)) && u == w.(records := u.records)
  }

  lemma {:induction false} BecomesIs(rows: seq<JobRecord>, next: seq<JobRecord>, id: RunId,
                                     change: JobRecord -> Option<JobRecord>)
    requires OwnIds(rows)
    requires next == if Get(rows, id).None? || change(Get(rows, id).value).None? then rows
                     else rows[IdAt(rows, id) := change(Get(rows, id).value).value]
    ensures Becomes(rows, next, id, change)
  {
    hide Get;
    FindsRow(rows, id);
  }

  lemma {:induction false} OverwritesIs(rows: seq<JobRecord>, record: JobRecord)
    requires OwnIds(rows)
    ensures Overwrites(rows, Overwritten(rows, record), record)
  {
    hide Becomes;
    BecomesIs(rows, Overwritten(rows, record), record.runId, (r: JobRecord) => Some(record));
  }

  lemma {:induction false} SubmitDoes(w: World, step: Step)
    requires OwnIds(w.records) && step.Submit?
    ensures Does(w, step, Next(w, step))
  {
    hide FreshRow, Reserve, Unused, OwnIds;
    UnusedIff(w.records, step.id);
    ReservationIs(w.records, step.key, "enqueueing", step.value, step.retryFailed, step.id, step.now);
  }

  lemma {:induction false} SwapDoes(w: World, step: Step)
    requires OwnIds(w.records) && step.RequeueSwap?
    ensures Does(w, step, Next(w, step))
  {
    hide ClaimForRequeue;
    RequeueIs(w.records, step.id, step.expected, step.now);
  }

  lemma {:induction false} CopyDoes(w: World, step: Step)
    requires OwnIds(w.records) && (step.RequeueWrite? || step.DispatchFailed? || step.Succeed? || step.Fail?)
    ensures Does(w, step, Next(w, step))
  {
    hide Overwritten, Overwrites;
    forall r ensures Overwrites(w.records, Overwritten(w.records, r), r) {
      OverwritesIs(w.records, r);
    }
  }

  lemma {:induction false} DispatchedDoes(w: World, step: Step)
    requires OwnIds(w.records) && step.Dispatched?
    ensures Does(w, step, Next(w, step))
  {
    hide Becomes;
    if step.client in w.dispatching {
      var id := w.dispatching[step.client].runId;
      BecomesIs(w.records, Next(w, step).records, id, MarkChange(step.phase));
    }
  }

  lemma {:induction false} ReadToFailDoes(w: World, step: Step)
    requires OwnIds(w.records) && step.ReadToFail?
    ensures Does(w, step, Next(w, step))
  {
    hide Get;
    FindsRow(w.records, step.id);
    StatusIs(w.records, step.id, Queued);
    StatusIs(w.records, step.id, Running);
    hide HasStatus;
    if Get(w.records, step.id).Some? {
      var r := Get(w.records, step.id).value;
      assert r in w.records;
      var i :| 0 <= i < |w.records| && w.records[i] == r;
      assert HasRow(w.records, step.id, i);
    } else {
      assert forall i: nat | i < |w.records| :: w.records[i] in w.records;
      assert forall i: nat :: !HasRow(w.records, step.id, i);
    }
  }

  lemma {:induction false} ClaimDoes(w: World, step: Step)
    requires OwnIds(w.records) && step.ClaimNext?
    ensures Does(w, step, Next(w, step))
  {
    hide Claim, Unknown;
    ClaimIs(w.records, step.key, step.phase, step.now);
  }

  lemma {:induction false} ReadDoes(w: World, step: Step)
    requires step.ReadBeforeStart?
    ensures Does(w, step, Next(w, step))
  {
    hide Latest;
    NewestExists(w.records, step.key);
  }

  lemma {:induction false} StartDoes(w: World, step: Step)
    requires OwnIds(w.records) && step.StartFromRead?
    ensures Does(w, step, Next(w, step))
  {
    hide Unused, OwnIds;
    UnusedIff(w.records, step.id);
    if MayStart(w, step.client, step.id) {
      var read := w.lookups[step.client];
      var r := NextAttempt(read.row, read.key, step.phase, "", Running, step.id, step.now);
      assert NumberedOn(read.row, r, read.key, step.phase, "", Running, step.id, step.now);
    }
  }

  lemma {:induction false} AbandonDoes(w: World, step: Step)
    requires OwnIds(w.records) && step.FailAbandoned?
    ensures Does(w, step, Next(w, step))
  {
    hide Becomes;
    StatusIs(w.records, step.id, Running);
    BecomesIs(w.records, Next(w, step).records, step.id, AbandonChange(step.error, step.now));
  }

  /** Over rows with ids of their own, every step does exactly what it says to the rows and to what its client holds,
      and nothing when its client cannot send it. */
  lemma {:induction false} StepDoes(w: World, step: Step)
    requires OwnIds(w.records)
    ensures Does(w, step, Next(w, step))
  {
    match step {
      case Submit(_, _, _, _, _, _) => hide *; SubmitDoes(w, step);
      case RequeueSwap(_, _, _, _) => hide *; SwapDoes(w, step);
      case Dispatched(_, _) => hide *; DispatchedDoes(w, step);
      case ReadToFail(_, _) => hide *; ReadToFailDoes(w, step);
      case ClaimNext(_, _, _) => hide *; ClaimDoes(w, step);
      case ReadBeforeStart(_, _) => hide *; ReadDoes(w, step);
      case StartFromRead(_, _, _, _) => hide *; StartDoes(w, step);
      case FailAbandoned(_, _, _) => hide *; AbandonDoes(w, step);
      case WorkerDies(_) =>
      case _ => hide *; CopyDoes(w, step);
    }
  }
}
