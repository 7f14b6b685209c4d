/** The SQL job-run table under its partial unique index: clients read and write in separate steps. */
module ActiveJobs {
  import opened Common
  import opened JobRuns
  import opened JobProtocol

  predicate Active(r: JobRecord) {
    r.status == Queued || r.status == Running
  }

  /** At most one queued or running row per key. */
  ghost predicate OneActive(rows: seq<JobRecord>) {
    forall i, j | 0 <= i < j < |rows| && rows[i].key == rows[j].key :: !(Active(rows[i]) && Active(rows[j]))
  }

  /** What the index looks up when `r` is written at position `i`: another active row of the key. */
  ghost predicate Conflicts(rows: seq<JobRecord>, i: nat, r: JobRecord) {
    Active(r) && exists j | 0 <= j < |rows| && j != i :: rows[j].key == r.key && Active(rows[j])
  }

  /** A written row, at the end or in place; a conflict is an integrity error and writes nothing. */
  ghost function Written(rows: seq<JobRecord>, i: nat, r: JobRecord): seq<JobRecord>
    requires i <= |rows|
  {
    if Conflicts(rows, i, r) then rows else if i == |rows| then rows + [r] else rows[i := r]
  }

  predicate StartedLater(a: JobRecord, b: JobRecord) {
    a.startedAt > b.startedAt || (a.startedAt == b.startedAt && a.runId > b.runId)
  }

  /** The row of a key that was started last. */
  function LatestStarted(rows: seq<JobRecord>, key: string): (r: Option<JobRecord>)
    ensures r.Some? ==> r.value in rows && r.value.key == key
    ensures r.None? ==> forall row | row in rows :: row.key != key
  {
    if rows == [] then None
    else
      var last := rows[|rows| - 1];
      var rest := LatestStarted(rows[..|rows| - 1], key);
      assert forall row :: row in rows <==> row == last || row in rows[..|rows| - 1];
      if last.key == key && (rest.None? || StartedLater(last, rest.value)) then Some(last) else rest
  }

  datatype Table = Table(rows: seq<JobRecord>, seen: map<Client, Option<JobRecord>>)

  /** Every statement a client sends. Reads are kept and used later, however stale. */
  datatype Statement =
    | ReadLatest(client: Client, key: string)
    | InsertQueued(client: Client, key: string, value: string, retryFailed: bool, id: RunId, now: Timestamp)
    | AppendRunning(client: Client, key: string, phase: string, id: RunId, now: Timestamp)
    | ClaimRow(id: RunId, phase: string, now: Timestamp)
    | RequeueRow(id: RunId, expected: Timestamp, now: Timestamp)
    | MarkRow(id: RunId, phase: string)
    | WriteRow(record: JobRecord)

  /** The place of a row started latest that has failed, where an append of a job that is no provider
      import reuses that row; otherwise the end. */
  function AppendAt(rows: seq<JobRecord>, key: string): (i: nat)
    ensures i <= |rows|
  {
    var latest := LatestStarted(rows, key);
    if latest.Some? && latest.value.status == Failed && ProviderOf(key).None?
    then FirstAt(rows, latest.value) else |rows|
  }

  ghost function Executed(t: Table, s: Statement): Table {
    match s
    case ReadLatest(client, key) => t.(seen := t.seen[client := LatestStarted(t.rows, key)])
    case InsertQueued(client, key, value, retryFailed, id, now) =>
      if client !in t.seen || !Unused(t.rows, id)
         || (t.seen[client].Some? && (!retryFailed || t.seen[client].value.status != Failed)) then t
      else t.(rows := Written(t.rows, |t.rows|, NextAttempt(t.seen[client], key, "enqueueing", value, Queued, id, now)))
    case AppendRunning(client, key, phase, id, now) =>
      if client !in t.seen || !Unused(t.rows, id)
         || (t.seen[client].Some? && t.seen[client].value.status != Failed) then t
      else t.(rows := Written(t.rows, AppendAt(t.rows, key),
                              NextAttempt(t.seen[client], key, phase, "", Running, id, now)))
    case ClaimRow(id, phase, now) =>
      if !HasStatus(t.rows, id, Queued) then t
      else t.(rows := Written(t.rows, IdAt(t.rows, id), Claimed(Get(t.rows, id).value, phase, now)))
    case RequeueRow(id, expected, now) =>
      if !HasStatus(t.rows, id, Queued) || Get(t.rows, id).value.startedAt != expected then t
      else t.(rows := Written(t.rows, IdAt(t.rows, id),
                              Get(t.rows, id).value.(phase := "requeueing", startedAt := now, error := None,
                                                     finishedAt := None)))
    case MarkRow(id, phase) =>
      if !HasStatus(t.rows, id, Queued) then t
      else t.(rows := Written(t.rows, IdAt(t.rows, id), Get(t.rows, id).value.(phase := phase)))
    case WriteRow(record) =>
      if Get(t.rows, record.runId).None? then t
      else t.(rows := Written(t.rows, IdAt(t.rows, record.runId), record.(key := Get(t.rows, record.runId).value.key)))
  }

  ghost function ExecutedAll(t: Table, ss: seq<Statement>): Table {
    if ss == [] then t else Executed(ExecutedAll(t, ss[..|ss| - 1]), ss[|ss| - 1])
  }

  /** The index looks only at the written row, yet no two active rows of a key ever come to be. */
  lemma {:induction false} WriteKeepsOneActive(rows: seq<JobRecord>, i: nat, r: JobRecord)
    requires OneActive(rows) && i <= |rows|
    ensures OneActive(Written(rows, i, r))
  {
    if !Conflicts(rows, i, r) {
      var next := Written(rows, i, r);
      forall j, k | 0 <= j < k < |next| && next[j].key == next[k].key ensures !(Active(next[j]) && Active(next[k])) {
        if j != i && k != i {
          assert next[j] == rows[j] && next[k] == rows[k];
        } else {
          var other := if j == i then k else j;
          assert next[other] == rows[other] && next[i] == r;
        }
      }
    }
  }

  /** Whatever the clients send, in whatever order, and however stale what they had read. */
  lemma {:induction false} AtMostOneActive(t: Table, ss: seq<Statement>)
    requires OneActive(t.rows)
    ensures OneActive(ExecutedAll(t, ss).rows)
  {
    if ss == [] {
    } else {
      var before := ExecutedAll(t, ss[..|ss| - 1]);
      AtMostOneActive(t, ss[..|ss| - 1]);
      StatementKeepsOneActive(before, ss[|ss| - 1]);
    }
  }

  lemma StatementKeepsOneActive(t: Table, s: Statement)
    requires OneActive(t.rows)
    ensures OneActive(Executed(t, s).rows)
  {
    forall i: nat, r | i <= |t.rows| ensures OneActive(Written(t.rows, i, r)) {
      WriteKeepsOneActive(t.rows, i, r);
    }
    hide Written, OneActive, NextAttempt, Get, LatestStarted;
  }

  // ----- what becomes of a reservation

  ghost predicate HasKey(rows: seq<JobRecord>, key: string) {
    exists row | row in rows :: row.key == key
  }

  lemma WriteKeepsKey(rows: seq<JobRecord>, i: nat, r: JobRecord, key: string)
    requires i <= |rows| && (i < |rows| ==> r.key == rows[i].key) && HasKey(rows, key)
    ensures HasKey(Written(rows, i, r), key)
  {
    var j :| 0 <= j < |rows| && rows[j].key == key;
    var next := Written(rows, i, r);
    assert next[j].key == key && next[j] in next;
  }

  /** No statement removes a row or gives it another key. */
  lemma {:induction false} StatementKeepsKey(t: Table, s: Statement, key: string)
    requires HasKey(t.rows, key)
    ensures HasKey(Executed(t, s).rows, key)
  {
    forall i: nat, r: JobRecord | i <= |t.rows| && (i < |t.rows| ==> r.key == t.rows[i].key)
      ensures HasKey(Written(t.rows, i, r), key)
    {
      WriteKeepsKey(t.rows, i, r, key);
    }
    hide Written, HasKey, LatestStarted, StartedLater;
  }

  lemma {:induction false} RunKeepsKey(t: Table, ss: seq<Statement>, key: string)
    requires HasKey(t.rows, key)
    ensures HasKey(ExecutedAll(t, ss).rows, key)
  {
    hide HasKey, Executed;
    if ss == [] {
    } else {
      RunKeepsKey(t, ss[..|ss| - 1], key);
      StatementKeepsKey(ExecutedAll(t, ss[..|ss| - 1]), ss[|ss| - 1], key);
    }
  }

  /** A rejected row has a winner: an active row of its key. */
  lemma RejectedFindsWinner(rows: seq<JobRecord>, r: JobRecord)
    requires Conflicts(rows, |rows|, r)
    ensures HasKey(rows, r.key)
  {
    var j :| 0 <= j < |rows| && rows[j].key == r.key && Active(rows[j]);
    assert rows[j] in rows;
  }

  ghost predicate HasActive(rows: seq<JobRecord>, key: string) {
    exists j | 0 <= j < |rows| :: rows[j].key == key && Active(rows[j])
  }

  /** A reservation whose read lets it insert does so exactly when its key has no active row by then. Otherwise
      it changes nothing, and however many statements of others come before it reads again, it finds a row of
      its key to return. */
  lemma {:induction false} ReservationInsertsIff(t: Table, client: Client, key: string, value: string,
                                                 retryFailed: bool, id: RunId, now: Timestamp, ss: seq<Statement>)
    requires client in t.seen && Unused(t.rows, id)
    requires t.seen[client].Some? ==> retryFailed && t.seen[client].value.status == Failed
    ensures var r := NextAttempt(t.seen[client], key, "enqueueing", value, Queued, id, now);
            var u := Executed(t, InsertQueued(client, key, value, retryFailed, id, now));
            && u == (if HasActive(t.rows, key) then t else t.(rows := t.rows + [r]))
            && LatestStarted(ExecutedAll(u, ss).rows, key).Some?
  {
    var r := NextAttempt(t.seen[client], key, "enqueueing", value, Queued, id, now);
    var u := Executed(t, InsertQueued(client, key, value, retryFailed, id, now));
    assert HasActive(t.rows, key) <==> Conflicts(t.rows, |t.rows|, r);
    if HasActive(t.rows, key) {
      RejectedFindsWinner(t.rows, r);
    } else {
      assert u.rows[|t.rows|] == r && r in u.rows;
    }
    hide Executed, ExecutedAll, LatestStarted;
    RunKeepsKey(u, ss, key);
  }

  /** The index does not stop a reservation on a stale read: two clients read the same failed row, the
      first retries it to success, and the second then queues the key again under the same number. */
  lemma {:induction false} StaleReadReservesSucceededKey(key: string)
    ensures var failed := JobRecord(1, key, 1, 1, "execute", Failed, "", None, 10, Some(11));
            var succeeded := JobRecord(2, key, 2, 2, "execute", Succeeded, "", None, 21, Some(22));
            var again := JobRecord(3, key, 2, 2, "enqueueing", Queued, "", None, 30, None);
            var read := Executed(Executed(Table([failed], map[]), ReadLatest(7, key)), ReadLatest(8, key));
            var retried := Executed(Executed(read, InsertQueued(7, key, "", true, 2, 20)), ClaimRow(2, "execute", 21));
            var done := Executed(retried, WriteRow(succeeded));
            && Executed(done, InsertQueued(8, key, "", true, 3, 30)).rows == [failed, succeeded, again]
            && OneActive([failed, succeeded, again]) && !History([failed, succeeded, again])
  {
    var failed := JobRecord(1, key, 1, 1, "execute", Failed, "", None, 10, Some(11));
    var read := Executed(Executed(Table([failed], map[]), ReadLatest(7, key)), ReadLatest(8, key));
    assert LatestStarted([failed], key) == Some(failed);
    var queued := NextAttempt(Some(failed), key, "enqueueing", "", Queued, 2, 20);
    var first := Executed(read, InsertQueued(7, key, "", true, 2, 20));
    assert first == read.(rows := [failed, queued]);
    var claimed := Claimed(queued, "execute", 21);
    TwoRows(failed, queued, claimed);
    assert Executed(first, ClaimRow(2, "execute", 21)) == read.(rows := [failed, claimed]);
    var succeeded := JobRecord(2, key, 2, 2, "execute", Succeeded, "", None, 21, Some(22));
    TwoRows(failed, claimed, succeeded);
    var done := Executed(read.(rows := [failed, claimed]), WriteRow(succeeded));
    assert done == read.(rows := [failed, succeeded]);
    var again := NextAttempt(Some(failed), key, "enqueueing", "", Queued, 3, 30);
    assert Executed(done, InsertQueued(8, key, "", true, 3, 30)).rows == [failed, succeeded, again];
    NotHistory(failed, succeeded, again);
  }

  lemma NotHistory(a: JobRecord, b: JobRecord, c: JobRecord)
    requires a.key == b.key == c.key && a.status == Failed && b.status == Succeeded
    ensures OneActive([a, b, c]) && !History([a, b, c])
  {
    var rows := [a, b, c];
    assert rows[1].key == rows[2].key && rows[1].status != Failed;
  }

  lemma TwoRows(a: JobRecord, b: JobRecord, c: JobRecord)
    requires a.runId != b.runId && c.runId == b.runId && a.status == Failed
    ensures IdAt([a, b], b.runId) == 1
    ensures Written([a, b], 1, c) == [a, c]
  {
  }
}
