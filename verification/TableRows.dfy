/** What each statement does to the SQL job-run table, and a task call to the store, told by fields and places. */
module TableRows {
  import opened Common
  import opened JobRuns
  import opened JobProtocol
  import opened JobTask
  import opened JobRows
  import opened ActiveJobs

  // ----- the table

  predicate Idle(r: JobRecord) {
    r.status == Succeeded || r.status == Failed
  }

  /** Every row of the key but the `i`-th is idle. */
  ghost predicate FreeFor(rows: seq<JobRecord>, key: string, i: nat) {
    forall j | 0 <= j < |rows| && j != i && rows[j].key == key :: Idle(rows[j])
  }

  /** The row is written at the place unless another active row of its key is in the way; at the end it is added. */
  ghost predicate WrittenAt(rows: seq<JobRecord>, next: seq<JobRecord>, i: nat, r: JobRecord) {
    if Idle(r) || FreeFor(rows, r.key, i) then if i == |rows| then next == rows + [r] else OnlyAt(rows, next, i, r)
    else next == rows
  }

  /** The `i`-th row is the one of the key that was started last, of several at once that of the greatest id. */
  ghost predicate StartedLast(rows: seq<JobRecord>, key: string, i: nat) {
    && i < |rows| && rows[i].key == key
    && forall j | 0 <= j < |rows| && rows[j].key == key && j != i ::
         rows[j].startedAt < rows[i].startedAt
         || (rows[j].startedAt == rows[i].startedAt && rows[j].runId < rows[i].runId)
  }

  /** A row after what the client had read, if that was nothing or has failed. */
  ghost predicate NumberedOn(read: Option<JobRecord>, r: JobRecord, key: string, phase: string, value: string,
                             status: JobStatus, id: RunId, now: Timestamp)
  {
    && r.runId == id && r.key == key && r.phase == phase && r.value == value && r.status == status
    && r.startedAt == now && r.error.None? && r.finishedAt.None?
    && match read
       case None => r.runNumber == 1 && r.attempt == 1
       case Some(p) => r.runNumber == p.runNumber + 1 && r.attempt == p.attempt + 1
  }

  ghost predicate MayAdd(t: Table, client: Client, id: RunId, retryFailed: bool) {
    && client in t.seen && (forall r | r in t.rows :: r.runId != id)
    && (t.seen[client].Some? ==> retryFailed && t.seen[client].value.status == Failed)
  }

  /** The failed row that a start of a job, unless it is a provider import, takes over. */
  ghost predicate TakesOver(rows: seq<JobRecord>, key: string, i: nat) {
    StartedLast(rows, key, i) && rows[i].status == Failed && !ImportOf(key, "ifind") && !ImportOf(key, "tushare")
  }

  /** The one row with the id becomes `r`, if the statement has one to write. */
  ghost predicate RowBecomes(t: Table, u: Table, id: RunId, change: JobRecord -> Option<JobRecord>) {
    && ((forall r | r in t.rows :: r.runId != id) ==> u.rows == t.rows)
    && forall i: nat | i < |t.rows| && t.rows[i].runId == id ::
         match change(t.rows[i])
         case None => u.rows == t.rows
         case Some(r) => WrittenAt(t.rows, u.rows, i, r)
  }

  function ClaimChange(phase: string, now: Timestamp): JobRecord -> Option<JobRecord> {
    (r: JobRecord) =>
      if r.status == Queued
      then Some(JobRecord(r.runId, r.key, r.runNumber, r.attempt, phase, Running, r.value, None, now, None)) else None
  }

  function RequeueChange(expected: Timestamp, now: Timestamp): JobRecord -> Option<JobRecord> {
    (r: JobRecord) =>
      if r.status == Queued && r.startedAt == expected
      then Some(JobRecord(r.runId, r.key, r.runNumber, r.attempt, "requeueing", Queued, r.value, None, now, None))
          else None
  }

  function MarkChange(phase: string): JobRecord -> Option<JobRecord> {
    (r: JobRecord) =>
      if r.status == Queued
      then Some(JobRecord(r.runId, r.key, r.runNumber, r.attempt, phase, Queued, r.value, r.error, r.startedAt,
                          r.finishedAt))
      else None
  }

  function WriteChange(record: JobRecord): JobRecord -> Option<JobRecord> {
    (r: JobRecord) =>
      Some(JobRecord(r.runId, r.key, record.runNumber, record.attempt, record.phase, record.status, record.value,
                     record.error, record.startedAt, record.finishedAt))
  }

  ghost predicate Does(t: Table, s: Statement, u: Table) {
    match s
    case ReadLatest(client, key) =>
      && u.rows == t.rows && client in u.seen && u.seen == t.seen[client := u.seen[client]]
      && (u.seen[client].None? <==> Unknown(t.rows, key))
      && forall i: nat | StartedLast(t.rows, key, i) :: u.seen[client] == Some(t.rows[i])
    case InsertQueued(client, key, value, retryFailed, id, now) =>
      u.seen == t.seen
      && if !MayAdd(t, client, id, retryFailed) then u.rows == t.rows
         else exists r :: NumberedOn(t.seen[client], r, key, "enqueueing", value, Queued, id, now)
                          && WrittenAt(t.rows, u.rows, |t.rows|, r)
    case AppendRunning(client, key, phase, id, now) =>
      u.seen == t.seen
      && if !MayAdd(t, client, id, true) then u.rows == t.rows
         else exists r :: NumberedOn(t.seen[client], r, key, phase, "", Running, id, now)
                          && StartedAt(t.rows, u.rows, key, r)
    case ClaimRow(id, phase, now) => u.seen == t.seen && RowBecomes(t, u, id, ClaimChange(phase, now))
    case RequeueRow(id, expected, now) => u.seen == t.seen && RowBecomes(t, u, id, RequeueChange(expected, now))
    case MarkRow(id, phase) => u.seen == t.seen && RowBecomes(t, u, id, MarkChange(phase))
    case WriteRow(record) => u.seen == t.seen && RowBecomes(t, u, record.runId, WriteChange(record))
  }

  /** A started row takes over the failed one, or comes at the end. */
  ghost predicate StartedAt(rows: seq<JobRecord>, next: seq<JobRecord>, key: string, r: JobRecord) {
    && (forall i: nat | TakesOver(rows, key, i) :: WrittenAt(rows, next, i, r))
    && ((forall i: nat :: !TakesOver(rows, key, i)) ==> WrittenAt(rows, next, |rows|, r))
  }

  lemma WritesAt(rows: seq<JobRecord>, i: nat, r: JobRecord)
    requires i <= |rows|
    ensures WrittenAt(rows, Written(rows, i, r), i, r)
  {
  }

  lemma {:induction false} LastStarted(rows: seq<JobRecord>, key: string)
    requires OwnIds(rows)
    ensures LatestStarted(rows, key).None? <==> Unknown(rows, key)
    ensures LatestStarted(rows, key).Some? ==> exists i: nat :: StartedLast(rows, key, i)
                                                               && LatestStarted(rows, key) == Some(rows[i])
  {
    if rows == [] {
    } else {
      var n: nat := |rows| - 1;
      var before := rows[..n];
      LastStarted(before, key);
      assert rows == before + [rows[n]] && rows[n] in rows && forall r | r in before :: r in rows;
      var rest := LatestStarted(before, key);
      if rest.Some? {
        var i: nat :| StartedLast(before, key, i) && rest == Some(before[i]);
        assert rows[i].runId != rows[n].runId;
        if rows[n].key == key && StartedLater(rows[n], rest.value) {
          assert StartedLast(rows, key, n);
        } else {
          assert StartedLast(rows, key, i);
        }
      } else if rows[n].key == key {
        forall j | 0 <= j < n ensures rows[j].key != key { assert before[j] in before; }
        assert StartedLast(rows, key, n);
      }
    }
  }

  lemma OneStartedLast(rows: seq<JobRecord>, key: string, i: nat, j: nat)
    requires StartedLast(rows, key, i) && StartedLast(rows, key, j)
    ensures i == j
  {
  }

  lemma ProviderNone(key: string)
    ensures ProviderOf(key).None? <==> !ImportOf(key, "ifind") && !ImportOf(key, "tushare")
  {
    hide ImportOf, ProviderOf;
    ProviderIs(key);
    match ProviderOf(key)
    case None =>
    case Some(Tushare) =>
    case Some(Ifind) =>
  }

  lemma {:induction false} AppendsAt(rows: seq<JobRecord>, key: string)
    requires OwnIds(rows)
    ensures forall i: nat | TakesOver(rows, key, i) :: AppendAt(rows, key) == i
    ensures (forall i: nat :: !TakesOver(rows, key, i)) ==> AppendAt(rows, key) == |rows|
  {
    hide ImportOf, ProviderOf, LatestStarted;
    LastStarted(rows, key);
    ProviderNone(key);
    if LatestStarted(rows, key).Some? {
      var k: nat :| StartedLast(rows, key, k) && LatestStarted(rows, key) == Some(rows[k]);
      assert FirstAt(rows, rows[k]) == k;
      forall i: nat | TakesOver(rows, key, i) ensures i == k { OneStartedLast(rows, key, i, k); }
      assert TakesOver(rows, key, k) <==> rows[k].status == Failed && ProviderOf(key).None?;
    } else {
      forall i: nat ensures !TakesOver(rows, key, i) {
        if TakesOver(rows, key, i) { InRows(rows, key, i); }
      }
    }
  }

  lemma InRows(rows: seq<JobRecord>, key: string, i: nat)
    requires StartedLast(rows, key, i)
    ensures rows[i] in rows && rows[i].key == key
  {
  }

  lemma {:induction false} FindsRow(rows: seq<JobRecord>, id: RunId)
    requires OwnIds(rows)
    ensures Get(rows, id).None? <==> forall r | r in rows :: r.runId != id
    ensures forall i: nat | i < |rows| && rows[i].runId == id :: IdAt(rows, id) == i && Get(rows, id) == Some(rows[i])
  {
    var k := IdAt(rows, id);
    if k >= 0 { assert rows[k] in rows; }
    forall i: nat | i < |rows| && rows[i].runId == id ensures i == k {
      assert rows[i] in rows;
    }
  }

  lemma {:induction false} ChangeIs(t: Table, u: Table, id: RunId, change: JobRecord -> Option<JobRecord>)
    requires OwnIds(t.rows)
    requires u.rows == if Get(t.rows, id).None? || change(Get(t.rows, id).value).None? then t.rows
                       else Written(t.rows, IdAt(t.rows, id), change(Get(t.rows, id).value).value)
    ensures RowBecomes(t, u, id, change)
  {
    hide Get, Written, WrittenAt;
    FindsRow(t.rows, id);
    forall i: nat | i < |t.rows| && t.rows[i].runId == id
      ensures match change(t.rows[i]) case None => u.rows == t.rows case Some(r) => WrittenAt(t.rows, u.rows, i, r)
    {
      if change(t.rows[i]).Some? { WritesAt(t.rows, i, change(t.rows[i]).value); }
    }
  }

  lemma {:induction false} ReadDoes(t: Table, client: Client, key: string)
    requires OwnIds(t.rows)
    ensures Does(t, ReadLatest(client, key), Executed(t, ReadLatest(client, key)))
  {
    hide LatestStarted;
    LastStarted(t.rows, key);
    forall i: nat | StartedLast(t.rows, key, i) ensures LatestStarted(t.rows, key) == Some(t.rows[i]) {
      InRows(t.rows, key, i);
      var k: nat :| StartedLast(t.rows, key, k) && LatestStarted(t.rows, key) == Some(t.rows[k]);
      OneStartedLast(t.rows, key, i, k);
    }
  }

  lemma UnusedIff(rows: seq<JobRecord>, id: RunId)
    ensures Unused(rows, id) <==> forall r | r in rows :: r.runId != id
  {
  }

  lemma {:induction false} InsertDoes(t: Table, s: Statement)
    requires OwnIds(t.rows) && s.InsertQueued?
    ensures Does(t, s, Executed(t, s))
  {
    hide Written, WrittenAt, Unused;
    UnusedIff(t.rows, s.id);
    if MayAdd(t, s.client, s.id, s.retryFailed) {
      var r := NextAttempt(t.seen[s.client], s.key, "enqueueing", s.value, Queued, s.id, s.now);
      WritesAt(t.rows, |t.rows|, r);
      assert NumberedOn(t.seen[s.client], r, s.key, "enqueueing", s.value, Queued, s.id, s.now);
    }
  }

  lemma {:induction false} AppendDoes(t: Table, s: Statement)
    requires OwnIds(t.rows) && s.AppendRunning?
    ensures Does(t, s, Executed(t, s))
  {
    hide Written, WrittenAt, Unused, AppendAt, TakesOver;
    UnusedIff(t.rows, s.id);
    if MayAdd(t, s.client, s.id, true) {
      var r := NextAttempt(t.seen[s.client], s.key, s.phase, "", Running, s.id, s.now);
      AppendsAt(t.rows, s.key);
      WritesAt(t.rows, AppendAt(t.rows, s.key), r);
      assert NumberedOn(t.seen[s.client], r, s.key, s.phase, "", Running, s.id, s.now);
      assert StartedAt(t.rows, Executed(t, s).rows, s.key, r);
    }
  }

  lemma {:induction false} StatusIs(rows: seq<JobRecord>, id: RunId, status: JobStatus)
    ensures HasStatus(rows, id, status) <==> Get(rows, id).Some? && Get(rows, id).value.status == status
  {
  }

  /** Over rows with ids of their own, every statement reads or writes exactly what it says: a read finds the row
      started last; an insert or a start adds a row numbered on from what its client had read, if that was nothing
      or may be tried again, and unless an active row of the key is in the way; a start takes over a failed row of a
      job that is no provider import; and the others change the one row with the id. */
  lemma {:induction false} StatementDoes(t: Table, s: Statement)
    requires OwnIds(t.rows)
    ensures Does(t, s, Executed(t, s))
  {
    hide Does, RowBecomes, Written, Get, HasStatus;
    match s {
      case ReadLatest(client, key) => ReadDoes(t, client, key);
      case InsertQueued(_, _, _, _, _, _) => InsertDoes(t, s);
      case AppendRunning(_, _, _, _, _) => AppendDoes(t, s);
      case _ => RowDoes(t, s);
    }
  }

  lemma {:induction false} RowDoes(t: Table, s: Statement)
    requires OwnIds(t.rows) && !s.ReadLatest? && !s.InsertQueued? && !s.AppendRunning?
    ensures Does(t, s, Executed(t, s))
  {
    hide RowBecomes, Written, Get, HasStatus;
    var u := Executed(t, s);
    match s {
      case ClaimRow(id, phase, now) =>
        StatusIs(t.rows, id, Queued);
        ChangeIs(t, u, id, ClaimChange(phase, now));
      case RequeueRow(id, expected, now) =>
        StatusIs(t.rows, id, Queued);
        ChangeIs(t, u, id, RequeueChange(expected, now));
      case MarkRow(id, phase) =>
        StatusIs(t.rows, id, Queued);
        ChangeIs(t, u, id, MarkChange(phase));
      case WriteRow(record) => ChangeIs(t, u, record.runId, WriteChange(record));
    }
  }

  // ----- a task call

  /** The row with what came of the operation. */
  ghost predicate EndedAs(r: JobRecord, operation: Result<string, string>, end: Timestamp) {
    && r.finishedAt == Some(end)
    && match operation
       case Ok(value) => r.status == Succeeded && r.value == value && r.error.None?
       case Err(error) => r.status == Failed && r.error == Some(error)
  }

  lemma {:induction false} ChangedTwice(records: seq<JobRecord>, i: nat, r: JobRecord, q: JobRecord)
    requires OwnIds(records) && i < |records| && r.runId == q.runId == records[i].runId
    ensures Overwritten(records[i := r], q) == records[i := q]
  {
    var next := records[i := r];
    assert forall j | 0 <= j < |next| && j != i :: next[j].runId != q.runId;
    assert next[i].runId == q.runId;
    var k := IdAt(next, q.runId);
    assert k == i;
    assert next[i := q] == records[i := q];
  }

  lemma {:induction false} AddedChanged(records: seq<JobRecord>, r: JobRecord, q: JobRecord)
    requires Unused(records, q.runId) && r.runId == q.runId
    ensures Overwritten(records + [r], q) == records + [q]
  {
    assert IdAt(records + [r], q.runId) == |records|;
    assert (records + [r])[|records| := q] == records + [q];
  }

  /** The row is the queued one as the call leaves it. */
  ghost predicate EndedFrom(before: JobRecord, r: JobRecord, phase: string, now: Timestamp,
                            operation: Result<string, string>, end: Timestamp)
  {
    && EndedAs(r, operation, end) && (operation.Err? ==> r.value == before.value)
    && r.runId == before.runId && r.key == before.key && r.runNumber == before.runNumber && r.attempt == before.attempt
    && r.phase == phase && r.startedAt == now
  }

  lemma {:induction false} QueuedDoes(records: seq<JobRecord>, key: string, phase: string, id: RunId, now: Timestamp,
                                      operation: Result<string, string>, end: Timestamp, i: nat)
    requires OwnIds(records) && NewestOf(records, key, i) && records[i].status == Queued
    ensures var after := AfterTask(records, key, phase, id, now, operation, end);
            i < |after| && OnlyAt(records, after, i, after[i])
                && EndedFrom(records[i], after[i], phase, now, operation, end)
  {
    hide Latest, Overwritten;
    NewestExists(records, key);
    assert FirstAt(records, records[i]) == i;
    var r := Claimed(records[i], phase, now);
    ChangedTwice(records, i, r, Outcome(r, operation, end));
  }

  lemma {:induction false} AddedDoes(records: seq<JobRecord>, key: string, phase: string, id: RunId, now: Timestamp,
                                     operation: Result<string, string>, end: Timestamp)
    requires Unused(records, id)
    requires Latest(records, key).None? || Latest(records, key).value.status == Failed
    ensures Added(records, AfterTask(records, key, phase, id, now, operation, end), Latest(records, key), key, phase,
                  id,
                  now, operation, end)
  {
    hide Latest, Overwritten, Unused;
    var r := NextAttempt(Latest(records, key), key, phase, "", Running, id, now);
    AddedChanged(records, r, Outcome(r, operation, end));
  }

  /** Over rows with ids of their own, a task call changes nothing when the newest row of its key has succeeded or is
      running. A queued one it ends as the operation does; and after none, or a failed one, it adds a row, numbered on,
      that ends so. */
  lemma {:induction false} TaskDoes(records: seq<JobRecord>, key: string, phase: string, id: RunId, now: Timestamp,
                                    operation: Result<string, string>, end: Timestamp)
    requires OwnIds(records) && Unused(records, id)
    ensures var after := AfterTask(records, key, phase, id, now, operation, end);
            && (forall i: nat | NewestOf(records, key, i) ::
                  match records[i].status
                  case Queued => i < |after| && OnlyAt(records, after, i, after[i])
                                 && EndedFrom(records[i], after[i], phase, now, operation, end)
                  case Failed => Added(records, after, Some(records[i]), key, phase, id, now, operation, end)
                  case _ => after == records)
            && (Unknown(records, key) ==> Added(records, after, None, key, phase, id, now, operation, end))
  {
    hide Latest, Unknown, OnlyAt, EndedFrom, Added, Overwritten, Outcome;
    NewestExists(records, key);
    if Latest(records, key).None? || Latest(records, key).value.status == Failed {
      AddedDoes(records, key, phase, id, now, operation, end);
    }
    forall i: nat | NewestOf(records, key, i) && records[i].status == Queued
      ensures var after := AfterTask(records, key, phase, id, now, operation, end);
              i < |after| && OnlyAt(records, after, i, after[i])
              && EndedFrom(records[i], after[i], phase, now, operation, end)
    {
      QueuedDoes(records, key, phase, id, now, operation, end, i);
    }
  }

  ghost predicate Added(records: seq<JobRecord>, after: seq<JobRecord>, previous: Option<JobRecord>, key: string,
                        phase: string, id: RunId, now: Timestamp, operation: Result<string, string>, end: Timestamp)
  {
    && |after| == |records| + 1 && after[..|records|] == records
    && var r := after[|records|];
       && EndedAs(r, operation, end) && (operation.Err? ==> r.value == "")
       && r.runId == id && r.key == key && r.phase == phase && r.startedAt == now
       && match previous
          case None => r.runNumber == 1 && r.attempt == 1
          case Some(p) => r.runNumber == p.runNumber + 1 && r.attempt == p.attempt + 1
  }
}
