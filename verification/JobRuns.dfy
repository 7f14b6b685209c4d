/** The durable job-run store: its atomic operations as functions on the list of rows, and the in-memory
    adapter that performs them. */
module JobRuns {
  import opened Common

  type RunId = int

  datatype JobStatus = Queued | Running | Succeeded | Failed

  datatype JobRecord = JobRecord(
    runId: RunId,
    key: string,
    runNumber: int,
    attempt: int,
    phase: string,
    status: JobStatus,
    value: string,
    error: Option<string>,
    startedAt: Timestamp,
    finishedAt: Option<Timestamp>
  )

  datatype StoreError = AlreadyRunning | NoSuchJob | KeyMissing

  // ----- finding rows

  /** The index of the newest row of a key, or -1. */
  function LatestAt(records: seq<JobRecord>, key: string): (i: int)
    ensures -1 <= i < |records|
    ensures i >= 0 ==> records[i].key == key
    ensures forall j | i < j < |records| :: records[j].key != key
  {
    if records == [] then -1
    else if records[|records| - 1].key == key then |records| - 1
    else LatestAt(records[..|records| - 1], key)
  }

  function Latest(records: seq<JobRecord>, key: string): (r: Option<JobRecord>)
    ensures r.Some? ==> r.value.key == key && r.value in records
    ensures r.None? ==> forall j | 0 <= j < |records| :: records[j].key != key
  {
    var i := LatestAt(records, key);
    if i < 0 then None else Some(records[i])
  }

  /** The index of the newest row with a run id, or -1. */
  function IdAt(records: seq<JobRecord>, id: RunId): (i: int)
    ensures -1 <= i < |records|
    ensures i >= 0 ==> records[i].runId == id
    ensures forall j | i < j < |records| :: records[j].runId != id
  {
    if records == [] then -1
    else if records[|records| - 1].runId == id then |records| - 1
    else IdAt(records[..|records| - 1], id)
  }

  function Get(records: seq<JobRecord>, id: RunId): (r: Option<JobRecord>)
    ensures r.Some? ==> r.value.runId == id && r.value in records
  {
    var i := IdAt(records, id);
    if i < 0 then None else Some(records[i])
  }

  /** The first index of an equal row. */
  function FirstAt(records: seq<JobRecord>, r: JobRecord): (i: nat)
    requires r in records
    ensures i < |records| && records[i] == r
    ensures forall j | 0 <= j < i :: records[j] != r
  {
    if records[0] == r then 0 else 1 + FirstAt(records[1..], r)
  }

  // ----- the store's steps

  /** The row of a next attempt, counted on from the previous one. */
  function NextAttempt(previous: Option<JobRecord>, key: string, phase: string, value: string, status: JobStatus,
                       id: RunId, now: Timestamp): JobRecord
  {
    JobRecord(id, key,
              if previous.Some? then previous.value.runNumber + 1 else 1,
              if previous.Some? then previous.value.attempt + 1 else 1,
              phase, status, value, None, now, None)
  }

  datatype Reservation = Reservation(records: seq<JobRecord>, record: JobRecord, created: bool)

  function Reserve(records: seq<JobRecord>, key: string, phase: string, value: string, retryFailed: bool,
                   id: RunId, now: Timestamp): Reservation
  {
    var previous := Latest(records, key);
    if previous.Some? && (!retryFailed || previous.value.status != Failed) then
      Reservation(records, previous.value, false)
    else
      var r := NextAttempt(previous, key, phase, value, Queued, id, now);
      Reservation(records + [r], r, true)
  }

  function Claimed(r: JobRecord, phase: string, now: Timestamp): JobRecord {
    r.(status := Running, phase := phase, startedAt := now, error := None, finishedAt := None)
  }

  /** A worker's claim of the newest row of a key. */
  function Claim(records: seq<JobRecord>, key: string, phase: string, now: Timestamp)
    : Result<(seq<JobRecord>, Option<JobRecord>), StoreError>
  {
    var previous := Latest(records, key);
    if previous.None? then Ok((records, None))
    else if previous.value.status == Running then Err(AlreadyRunning)
    else if previous.value.status != Queued then Ok((records, None))
    else
      var r := Claimed(previous.value, phase, now);
      Ok((records[FirstAt(records, previous.value) := r], Some(r)))
  }

  /** An administrator's compare-and-swap on a queued row, by its start time. */
  function ClaimForRequeue(records: seq<JobRecord>, id: RunId, expected: Timestamp, now: Timestamp)
    : Result<Reservation, StoreError>
  {
    var previous := Get(records, id);
    if previous.None? then Err(NoSuchJob)
    else if previous.value.status != Queued || previous.value.startedAt != expected then
      Ok(Reservation(records, previous.value, false))
    else
      var r := previous.value.(phase := "requeueing", startedAt := now, error := None, finishedAt := None);
      Ok(Reservation(records[FirstAt(records, previous.value) := r], r, true))
  }

  function MarkQueued(records: seq<JobRecord>, id: RunId, phase: string): (seq<JobRecord>, Option<JobRecord>) {
    var i := IdAt(records, id);
    if i < 0 then (records, None)
    else if records[i].status != Queued then (records, Some(records[i]))
    else
      var r := records[i].(phase := phase);
      (records[i := r], Some(r))
  }

  function Replace(records: seq<JobRecord>, r: JobRecord): Result<seq<JobRecord>, StoreError> {
    var i := IdAt(records, r.runId);
    if i < 0 then Err(KeyMissing) else Ok(records[i := r])
  }

  // ----- paging

  datatype Provider = Tushare | Ifind

  function SplitOn(text: string, separator: char): (parts: seq<string>)
    ensures parts != []
  {
    if text == "" then [""]
    else
      var rest := SplitOn(text[1..], separator);
      if text[0] == separator then [""] + rest else [[text[0]] + rest[0]] + rest[1..]
  }

  /** The part before the last dash; none without one. */
  function BeforeLastDash(text: string): Option<string> {
    if text == "" then None
    else if text[|text| - 1] == '-' then Some(text[..|text| - 1])
    else BeforeLastDash(text[..|text| - 1])
  }

  /** The provider named in a provider import's task key. */
  function ProviderOf(key: string): Option<Provider> {
    var parts := SplitOn(key, ':');
    if |parts| != 3 || parts[0] != "data-import" then None
    else if BeforeLastDash(parts[2]) == Some("ifind") then Some(Ifind)
    else if BeforeLastDash(parts[2]) == Some("tushare") then Some(Tushare)
    else None
  }

  predicate Matches(r: JobRecord, provider: Option<Provider>, status: Option<JobStatus>) {
    (status.Some? ==> r.status == status.value) && (provider.Some? ==> ProviderOf(r.key) == provider)
  }

  /** Matching rows, newest first. */
  function Matching(records: seq<JobRecord>, provider: Option<Provider>, status: Option<JobStatus>): seq<JobRecord> {
    if records == [] then []
    else
      var last := records[|records| - 1];
      var rest := Matching(records[..|records| - 1], provider, status);
      if Matches(last, provider, status) then [last] + rest else rest
  }

  /** A slice that ends with the list where the bounds exceed it. */
  function Slice<T>(xs: seq<T>, start: nat, end: nat): seq<T> {
    if start >= |xs| || end <= start then [] else if end > |xs| then xs[start..] else xs[start..end]
  }

  // ----- the in-memory adapter

  class InMemoryJobRunStore {
    var records: seq<JobRecord>

    constructor ()
      ensures records == []
    {
      records := [];
    }

    method FindLatest(key: string) returns (i: int)
      ensures i == LatestAt(records, key)
    {
      i := |records| - 1;
      assert records[..i + 1] == records;
      while i >= 0 && records[i].key != key
        invariant -1 <= i < |records|
        invariant LatestAt(records[..i + 1], key) == LatestAt(records, key)
      {
        assert records[..i + 1][..i] == records[..i];
        i := i - 1;
      }
    }

    method FindId(id: RunId) returns (i: int)
      ensures i == IdAt(records, id)
    {
      i := |records| - 1;
      assert records[..i + 1] == records;
      while i >= 0 && records[i].runId != id
        invariant -1 <= i < |records|
        invariant IdAt(records[..i + 1], id) == IdAt(records, id)
      {
        assert records[..i + 1][..i] == records[..i];
        i := i - 1;
      }
    }

    method ReadLatest(key: string) returns (r: Option<JobRecord>)
      ensures r == Latest(records, key)
    {
      var i := FindLatest(key);
      r := if i < 0 then None else Some(records[i]);
    }

    method ReadById(id: RunId) returns (r: Option<JobRecord>)
      ensures r == Get(records, id)
    {
      var i := FindId(id);
      r := if i < 0 then None else Some(records[i]);
    }

    method Page(page: nat, pageSize: nat, provider: Option<Provider>, status: Option<JobStatus>)
      returns (items: seq<JobRecord>, total: nat)
      requires page >= 1
      ensures var all := Matching(records, provider, status);
              total == |all| && items == Slice(all, (page - 1) * pageSize, (page - 1) * pageSize + pageSize)
    {
      var all: seq<JobRecord> := [];
      var i := |records|;
      assert records[..i] == records;
      while i > 0
        invariant 0 <= i <= |records|
        invariant all + Matching(records[..i], provider, status) == Matching(records, provider, status)
      {
        assert records[..i][..i - 1] == records[..i - 1];
        i := i - 1;
        if Matches(records[i], provider, status) {
          all := all + [records[i]];
        }
      }
      assert all + [] == all;
      items, total := Slice(all, (page - 1) * pageSize, (page - 1) * pageSize + pageSize), |all|;
    }

    method ReserveQueuedOwned(key: string, phase: string, value: string, retryFailed: bool, id: RunId, now: Timestamp)
      returns (record: JobRecord, created: bool)
      modifies this
      ensures Reservation(records, record, created) == Reserve(old(records), key, phase, value, retryFailed, id, now)
    {
      var previous := ReadLatest(key);
      if previous.Some? && (!retryFailed || previous.value.status != Failed) {
        return previous.value, false;
      }
      record := JobRecord(id, key,
                          if previous.Some? then previous.value.runNumber + 1 else 1,
                          if previous.Some? then previous.value.attempt + 1 else 1,
                          phase, Queued, value, None, now, None);
      records := records + [record];
      created := true;
    }

    method ClaimQueued(key: string, phase: string, now: Timestamp) returns (r: Result<Option<JobRecord>, StoreError>)
      modifies this
      ensures match Claim(old(records), key, phase, now)
              case Err(e) => r == Err(e) && records == old(records)
              case Ok((next, claimed)) => r == Ok(claimed) && records == next
    {
      var previous := ReadLatest(key);
      if previous.None? { return Ok(None); }
      if previous.value.status == Running { return Err(AlreadyRunning); }
      if previous.value.status != Queued { return Ok(None); }
      var claimed := Claimed(previous.value, phase, now);
      records := records[FirstAt(records, previous.value) := claimed];
      r := Ok(Some(claimed));
    }

    method ClaimQueuedForRequeue(id: RunId, expected: Timestamp, now: Timestamp)
      returns (r: Result<(JobRecord, bool), StoreError>)
      modifies this
      ensures match ClaimForRequeue(old(records), id, expected, now)
              case Err(e) => r == Err(e) && records == old(records)
              case Ok(c) => r == Ok((c.record, c.created)) && records == c.records
    {
      var previous := ReadById(id);
      if previous.None? { return Err(NoSuchJob); }
      if previous.value.status != Queued { return Ok((previous.value, false)); }
      if previous.value.startedAt != expected { return Ok((previous.value, false)); }
      var claimed := previous.value.(phase := "requeueing", startedAt := now, error := None, finishedAt := None);
      records := records[FirstAt(records, previous.value) := claimed];
      r := Ok((claimed, true));
    }

    method Mark(id: RunId, phase: string) returns (r: Option<JobRecord>)
      modifies this
      ensures (records, r) == MarkQueued(old(records), id, phase)
    {
      var i := FindId(id);
      if i < 0 { return None; }
      var record := records[i];
      if record.status == Queued {
        record := record.(phase := phase);
        records := records[i := record];
      }
      r := Some(record);
    }

    method Append(record: JobRecord)
      modifies this
      ensures records == old(records) + [record]
    {
      records := records + [record];
    }

    method ReplaceRow(record: JobRecord) returns (r: Result<(), StoreError>)
      modifies this
      ensures match Replace(old(records), record)
              case Err(e) => r == Err(e) && records == old(records)
              case Ok(next) => r.Ok? && records == next
    {
      var i := FindId(record.runId);
      if i < 0 { return Err(KeyMissing); }
      records := records[i := record];
      r := Ok(());
    }
  }
}
