/** One task run: a worker takes its key's row through the store, executes, and records the outcome. */
module JobTask {
  import opened Common
  import opened JobRuns
  import opened JobProtocol

  datatype JobResult = JobResult(runId: RunId, runNumber: int, attempt: int, phase: string, value: string,
                                 replayed: bool)

  datatype TaskError = InProgress | NotClaimed | OperationFailed(error: string)

  /** The rows and the running row when a task may start: a claimed queued row, or a new one after
      nothing or a failure. */
  function Started(records: seq<JobRecord>, key: string, phase: string, id: RunId,
                   now: Timestamp): Option<(seq<JobRecord>, JobRecord)> {
    var previous := Latest(records, key);
    if previous.Some? && previous.value.status in {Succeeded, Running} then None
    else if previous.Some? && previous.value.status == Queued then
      var r := Claimed(previous.value, phase, now);
      Some((records[FirstAt(records, previous.value) := r], r))
    else
      var r := NextAttempt(previous, key, phase, "", Running, id, now);
      Some((records + [r], r))
  }

  function Outcome(r: JobRecord, operation: Result<string, string>, end: Timestamp): JobRecord {
    match operation
    case Ok(value) => Ended(r.(value := value), Succeeded, r.error, end)
    case Err(error) => Ended(r, Failed, Some(error), end)
  }

  /** The store's rows after a task call whose operation, if it is executed at all, ends in `operation`. */
  function AfterTask(records: seq<JobRecord>, key: string, phase: string, id: RunId, now: Timestamp,
                     operation: Result<string, string>, end: Timestamp): seq<JobRecord>
  {
    match Started(records, key, phase, id, now)
    case None => records
    case Some((started, r)) => Overwritten(started, Outcome(r, operation, end))
  }

  /** `operation` is what the caller's operation returns or raises when it is called. */
  method RunTask(store: InMemoryJobRunStore, key: string, phase: string, id: RunId, now: Timestamp,
                 operation: Result<string, string>, end: Timestamp)
    returns (r: Result<JobResult, TaskError>, executed: bool)
    modifies store
    ensures store.records == AfterTask(old(store.records), key, phase, id, now, operation, end)
    ensures executed <==> Started(old(store.records), key, phase, id, now).Some?
    ensures var previous := Latest(old(store.records), key);
            if previous.Some? && previous.value.status == Succeeded then
              r == Ok(JobResult(previous.value.runId, previous.value.runNumber, previous.value.attempt,
                                previous.value.phase, previous.value.value, true))
            else if previous.Some? && previous.value.status == Running then r == Err(InProgress)
            else match operation
                 case Ok(value) => r.Ok? && r.value.value == value && !r.value.replayed
                 case Err(error) => r == Err(OperationFailed(error))
  {
    executed := false;
    var previous := store.ReadLatest(key);
    if previous.Some? && previous.value.status == Succeeded {
      var p := previous.value;
      return Ok(JobResult(p.runId, p.runNumber, p.attempt, p.phase, p.value, true)), false;
    }
    if previous.Some? && previous.value.status == Running {
      return Err(InProgress), false;
    }
    var record;
    if previous.Some? && previous.value.status == Queued {
      var claimed := store.ClaimQueued(key, phase, now);
      record := claimed.value.value;
    } else {
      record := JobRecord(id, key,
                          if previous.Some? then previous.value.runNumber + 1 else 1,
                          if previous.Some? then previous.value.attempt + 1 else 1,
                          phase, Running, "", None, now, None);
      store.Append(record);
    }
    executed := true;
    match operation
    case Err(error) =>
      var replaced := store.ReplaceRow(record.(status := Failed, error := Some(error), finishedAt := Some(end)));
      r := Err(OperationFailed(error));
    case Ok(value) =>
      var replaced := store.ReplaceRow(record.(status := Succeeded, value := value, finishedAt := Some(end)));
      r := Ok(JobResult(record.runId, record.runNumber, record.attempt, phase, value, false));
  }

  /** A started task leaves its outcome as the newest row of its key, in a history that keeps its shape. */
  lemma {:induction false} TaskLeavesOutcome(records: seq<JobRecord>, key: string, phase: string, id: RunId,
                                             now: Timestamp,
                          operation: Result<string, string>, end: Timestamp)
    requires History(records) && Unused(records, id)
    requires Started(records, key, phase, id, now).Some?
    ensures var after := AfterTask(records, key, phase, id, now, operation, end);
            && History(after)
            && Latest(after, key) == Some(Outcome(Started(records, key, phase, id, now).value.1, operation, end))
  {
    var i := LatestAt(records, key);
    var started := Started(records, key, phase, id, now).value;
    var r := Outcome(started.1, operation, end);
    if i >= 0 && records[i].status == Queued {
      RowsAreUnique(records, i);
      UpdateKeepsHistory(records, i, started.1);
      RowsAreUnique(started.0, i);
      assert AfterTask(records, key, phase, id, now, operation, end) == records[i := r];
      UpdateKeepsHistory(records, i, r);
      LatestOfUpdated(records, i, r);
    } else {
      AppendKeepsHistory(records, key, phase, "", Running, id, now);
      var n := |records|;
      RowsAreUnique(started.0, n);
      UpdateKeepsHistory(started.0, n, r);
      LatestOfUpdated(started.0, n, r);
    }
  }

  lemma {:induction false} LatestOfUpdated(records: seq<JobRecord>, i: nat, r: JobRecord)
    requires i < |records| && r.key == records[i].key && LatestAt(records, r.key) == i
    ensures Latest(records[i := r], r.key) == Some(r)
  {
    var next := records[i := r];
    assert forall j | 0 <= j < |records| :: next[j].key == records[j].key;
    assert next[i].key == r.key;
    var k := LatestAt(next, r.key);
    assert k == i;
  }

  /** The operation of a key runs once: after a success a second call executes nothing, changes nothing
      and hands out the recorded value. */
  lemma SecondCallReplays(records: seq<JobRecord>, key: string, phase: string, id: RunId, now: Timestamp, value: string,
                          end: Timestamp,
                          phase': string, id': RunId, now': Timestamp, operation': Result<string, string>,
                          end': Timestamp)
    requires History(records) && Unused(records, id)
    requires Started(records, key, phase, id, now).Some?
    ensures var once := AfterTask(records, key, phase, id, now, Ok(value), end);
            && Started(once, key, phase', id', now').None?
            && AfterTask(once, key, phase', id', now', operation', end') == once
            && Latest(once, key).Some? && Latest(once, key).value.value == value
  {
    TaskLeavesOutcome(records, key, phase, id, now, Ok(value), end);
  }
}
