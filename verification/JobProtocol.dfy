/** The job-run protocol: submitters, workers and administrators interleaving atomic store steps. */
module JobProtocol {
  import opened Common
  import opened JobRuns

  type Client = int

  /** What a worker read of a key before starting without a queued row. */
  datatype Lookup = Lookup(key: string, row: Option<JobRecord>)

  /** The stored rows, the copies that clients hold, and the rows executed so far in order.
      `swapped` has the copy of each client that has won a requeue's compare-and-swap and not yet written
      the row; `dispatching` the copy of each client whose enqueue call has not returned, or whose worker
      could not be entered; `lookups` what each worker about to start has read; `working` the copy of each
      row that a worker is executing. */
  datatype World = World(
    records: seq<JobRecord>,
    swapped: map<Client, JobRecord>,
    dispatching: map<Client, JobRecord>,
    lookups: map<Client, Lookup>,
    working: map<RunId, JobRecord>,
    executed: seq<RunId>
  )

  const BEGINNING := World([], map[], map[], map[], map[], [])

  datatype Step =
    | Submit(client: Client, key: string, value: string, retryFailed: bool, id: RunId, now: Timestamp)
    | RequeueSwap(client: Client, id: RunId, expected: Timestamp, now: Timestamp)
    | RequeueWrite(client: Client, value: string)
    | Dispatched(client: Client, phase: string)
    | ReadToFail(client: Client, id: RunId)
    | DispatchFailed(client: Client, error: string, now: Timestamp)
    | ClaimNext(key: string, phase: string, now: Timestamp)
    | ReadBeforeStart(client: Client, key: string)
    | StartFromRead(client: Client, phase: string, id: RunId, now: Timestamp)
    | Succeed(id: RunId, value: string, now: Timestamp)
    | Fail(id: RunId, error: string, now: Timestamp)
    | WorkerDies(id: RunId)
    | FailAbandoned(id: RunId, error: string, now: Timestamp)

  ghost predicate Unused(records: seq<JobRecord>, id: RunId) {
    forall j | 0 <= j < |records| :: records[j].runId != id
  }

  /** Overwrites the row of a record with the record, if it has one. */
  function Overwritten(records: seq<JobRecord>, r: JobRecord): seq<JobRecord> {
    var i := IdAt(records, r.runId);
    if i < 0 then records else records[i := r]
  }

  function Ended(r: JobRecord, status: JobStatus, error: Option<string>, now: Timestamp): JobRecord {
    r.(status := status, error := error, finishedAt := Some(now))
  }

  predicate HasStatus(records: seq<JobRecord>, id: RunId, status: JobStatus) {
    StatusAt(records, id) == Some(status)
  }

  /** A read that lets a task start without a queued row: of nothing, or of a failure. */
  predicate Startable(read: Lookup) {
    read.row.None? || read.row.value.status == Failed
  }

  /** One atomic store step, as the clients send it: the whole-row writes overwrite whatever is there, and
      a start appends on what was read before. A step that its client cannot send changes nothing. Run
      ids are unique. */
  ghost function Next(w: World, step: Step): World {
    match step
    case Submit(client, key, value, retryFailed, id, now) =>
      var r := Reserve(w.records, key, "enqueueing", value, retryFailed, id, now);
      if client in w.dispatching || !r.created || !Unused(w.records, id) then w
      else w.(records := r.records, dispatching := w.dispatching[client := r.record])
    case RequeueSwap(client, id, expected, now) =>
      (match ClaimForRequeue(w.records, id, expected, now)
       case Err(_) => w
       case Ok(c) =>
         if client in w.swapped || client in w.dispatching || !c.created then w
         else w.(records := c.records, swapped := w.swapped[client := c.record]))
    case RequeueWrite(client, value) =>
      if client !in w.swapped then w
      else
        var r := w.swapped[client].(value := value);
        w.(records := Overwritten(w.records, r),
           swapped := w.swapped - {client}, dispatching := w.dispatching[client := r])
    case Dispatched(client, phase) =>
      if client !in w.dispatching then w
      else
        w.(records := MarkQueued(w.records, w.dispatching[client].runId, phase).0,
           dispatching := w.dispatching - {client})
    case ReadToFail(client, id) =>
      if client in w.dispatching || !(HasStatus(w.records, id, Queued) || HasStatus(w.records, id, Running)) then w
      else w.(dispatching := w.dispatching[client := Get(w.records, id).value])
    case DispatchFailed(client, error, now) =>
      if client !in w.dispatching then w
      else
        w.(records := Overwritten(w.records, Ended(w.dispatching[client], Failed, Some(error), now)),
           dispatching := w.dispatching - {client})
    case ClaimNext(key, phase, now) =>
      (match Claim(w.records, key, phase, now)
       case Err(_) => w
       case Ok((records, None)) => w
       case Ok((records, Some(r))) =>
         w.(records := records, working := w.working[r.runId := r], executed := w.executed + [r.runId]))
    case ReadBeforeStart(client, key) =>
      w.(lookups := w.lookups[client := Lookup(key, Latest(w.records, key))])
    case StartFromRead(client, phase, id, now) =>
      if client !in w.lookups || !Startable(w.lookups[client]) || !Unused(w.records, id) then w
      else
        var r := NextAttempt(w.lookups[client].row, w.lookups[client].key, phase, "", Running, id, now);
        w.(records := w.records + [r], lookups := w.lookups - {client},
           working := w.working[id := r], executed := w.executed + [id])
    case Succeed(id, value, now) =>
      if id !in w.working then w
      else
        w.(records := Overwritten(w.records, Ended(w.working[id].(value := value), Succeeded, None, now)),
           working := w.working - {id})
    case Fail(id, error, now) =>
      if id !in w.working then w
      else
        w.(records := Overwritten(w.records, Ended(w.working[id], Failed, Some(error), now)),
           working := w.working - {id})
    case WorkerDies(id) => w.(working := w.working - {id})
    case FailAbandoned(id, error, now) =>
      if !HasStatus(w.records, id, Running) then w
      else w.(records := Overwritten(w.records, Ended(Get(w.records, id).value, Failed, Some(error), now)))
  }

  /** The world after a run of steps. */
  ghost function After(w: World, steps: seq<Step>): World {
    if steps == [] then w else Next(After(w, steps[..|steps| - 1]), steps[|steps| - 1])
  }

  // ----- the shape of histories

  function CountKey(records: seq<JobRecord>, key: string): nat {
    if records == [] then 0
    else CountKey(records[..|records| - 1], key) + if records[|records| - 1].key == key then 1 else 0
  }

  ghost predicate IdsDiffer(records: seq<JobRecord>) {
    forall i, j | 0 <= i < j < |records| :: records[i].runId != records[j].runId
  }

  /** Of the rows of each key, all but the newest have failed. */
  ghost predicate OnlyNewestOpen(records: seq<JobRecord>) {
    forall i, j | 0 <= i < j < |records| && records[i].key == records[j].key :: records[i].status == Failed
  }

  ghost predicate NumberedAt(records: seq<JobRecord>, i: nat)
    requires i < |records|
  {
    records[i].runNumber == records[i].attempt == CountKey(records[..i + 1], records[i].key)
  }

  /** Run number and attempt count the rows of the key. */
  ghost predicate Numbered(records: seq<JobRecord>) {
    forall i | 0 <= i < |records| :: NumberedAt(records, i)
  }

  ghost predicate History(records: seq<JobRecord>) {
    IdsDiffer(records) && OnlyNewestOpen(records) && Numbered(records)
  }

  /** A client's copy belongs to a row: same place in the same history. */
  ghost predicate SameAttempt(a: JobRecord, b: JobRecord) {
    a.runId == b.runId && a.key == b.key && a.runNumber == b.runNumber && a.attempt == b.attempt
  }

  ghost predicate NoneTwice(ids: seq<RunId>) {
    forall i, j | 0 <= i < j < |ids| :: ids[i] != ids[j]
  }

  /** A row's status, if there is a row. */
  function StatusAt(records: seq<JobRecord>, id: RunId): Option<JobStatus> {
    match Get(records, id) case Some(r) => Some(r.status) case None => None
  }

  /** A copy of some row, of the same attempt. */
  ghost predicate Copied(records: seq<JobRecord>, copy: JobRecord) {
    Get(records, copy.runId).Some? && SameAttempt(Get(records, copy.runId).value, copy)
  }

  /** What a client read of a key at some earlier time: nothing, or a row as it then was. */
  ghost predicate WasRead(records: seq<JobRecord>, read: Option<JobRecord>, key: string) {
    read.Some? ==> read.value.key == key && Copied(records, read.value)
  }

  /** Executed rows are not queued, running and succeeded ones have been executed, none twice. */
  ghost predicate ExecutedOnce(records: seq<JobRecord>, executed: seq<RunId>) {
    && NoneTwice(executed)
    && (forall id | id in executed :: StatusAt(records, id).Some? && StatusAt(records, id) != Some(Queued))
    && (forall id :: StatusAt(records, id) in {Some(Running), Some(Succeeded)} ==> id in executed)
  }

  /** The clients' copies are in step with their rows. */
  ghost predicate CopiesInStep(w: World) {
    && (forall id | id in w.working ::
          id in w.executed && Get(w.records, id) == Some(w.working[id]) && w.working[id].status == Running)
    && (forall c | c in w.dispatching :: Copied(w.records, w.dispatching[c]))
    && (forall c | c in w.swapped :: Copied(w.records, w.swapped[c]) && w.swapped[c].status == Queued)
    && (forall c | c in w.lookups :: WasRead(w.records, w.lookups[c].row, w.lookups[c].key))
  }

  ghost predicate Invariant(w: World) {
    History(w.records) && ExecutedOnce(w.records, w.executed) && CopiesInStep(w)
  }

  // ----- how rows change

  lemma {:induction false} CountKeyUpdate(records: seq<JobRecord>, i: nat, r: JobRecord, key: string)
    requires i < |records| && r.key == records[i].key
    ensures CountKey(records[i := r], key) == CountKey(records, key)
  {
    var n := |records| - 1;
    if i < n {
      assert records[i := r][..n] == records[..n][i := r];
      CountKeyUpdate(records[..n], i, r, key);
    } else {
      assert records[i := r][..n] == records[..n];
    }
  }

  /** Rewriting a row in place keeps the history if its place stays and it is the newest or failed. */
  lemma UpdateKeepsHistory(records: seq<JobRecord>, i: nat, r: JobRecord)
    requires History(records) && i < |records| && SameAttempt(r, records[i])
    requires r.status == Failed || records[i].status != Failed
    ensures History(records[i := r])
  {
    var next := records[i := r];
    forall j | 0 <= j < |next| ensures NumberedAt(next, j) {
      assert NumberedAt(records, j);
      if i <= j {
        assert next[..j + 1] == records[..j + 1][i := r];
        CountKeyUpdate(records[..j + 1], i, r, records[j].key);
      } else {
        assert next[..j + 1] == records[..j + 1];
      }
    }
  }

  lemma {:induction false} CountToLatest(records: seq<JobRecord>, key: string)
    ensures var i := LatestAt(records, key);
            CountKey(records, key) == if i < 0 then 0 else CountKey(records[..i + 1], key)
  {
    if records == [] {
    } else {
      var n := |records| - 1;
      if records[n].key == key {
        assert records[..n + 1] == records;
      } else {
        CountToLatest(records[..n], key);
        var i := LatestAt(records, key);
        assert records[..n][..i + 1] == records[..i + 1];
      }
    }
  }

  /** In a shaped history the newest row of a key carries the count of the key. */
  lemma LatestIsNumbered(records: seq<JobRecord>, key: string)
    requires History(records)
    ensures var latest := Latest(records, key);
            if latest.None? then CountKey(records, key) == 0
            else latest.value.runNumber == latest.value.attempt == CountKey(records, key)
  {
    CountToLatest(records, key);
    var i := LatestAt(records, key);
    if i >= 0 { assert NumberedAt(records, i); }
  }

  lemma CountKeyAppend(records: seq<JobRecord>, r: JobRecord)
    ensures CountKey(records + [r], r.key) == CountKey(records, r.key) + 1
  {
    assert (records + [r])[..|records|] == records;
  }

  lemma {:induction false} AppendKeepsHistory(records: seq<JobRecord>, key: string, phase: string, value: string,
                                              status: JobStatus, id: RunId, now: Timestamp)
    requires History(records) && Unused(records, id)
    requires Latest(records, key).Some? ==> Latest(records, key).value.status == Failed
    ensures History(records + [NextAttempt(Latest(records, key), key, phase, value, status, id, now)])
  {
    var r := NextAttempt(Latest(records, key), key, phase, value, status, id, now);
    var next := records + [r];
    var n := |records|;
    LatestIsNumbered(records, key);
    CountKeyAppend(records, r);
    hide CountKey;
    forall j | 0 <= j < |next| ensures NumberedAt(next, j) {
      if j < n {
        assert NumberedAt(records, j);
        assert next[..j + 1] == records[..j + 1];
      } else {
        assert next[..n + 1] == next;
      }
    }
    EarlierHaveFailed(records, key);
    hide Numbered, LatestAt;
  }

  lemma {:induction false} EarlierHaveFailed(records: seq<JobRecord>, key: string)
    requires OnlyNewestOpen(records) && (Latest(records, key).Some? ==> Latest(records, key).value.status == Failed)
    ensures forall i | 0 <= i < |records| && records[i].key == key :: records[i].status == Failed
  {
    forall i | 0 <= i < |records| && records[i].key == key ensures records[i].status == Failed {
      var last := LatestAt(records, key);
      assert i <= last;
      assert i < last ==> records[i].status == Failed;
    }
  }

  lemma GetUpdated(records: seq<JobRecord>, i: nat, r: JobRecord, id: RunId)
    requires IdsDiffer(records) && i < |records| && r.runId == records[i].runId
    ensures Get(records[i := r], id) == if id == r.runId then Some(r) else Get(records, id)
  {
    var next := records[i := r];
    var before, after := IdAt(records, id), IdAt(next, id);
    assert forall j | 0 <= j < |records| :: records[j].runId == next[j].runId;
    assert before == after;
  }

  lemma GetAppended(records: seq<JobRecord>, r: JobRecord, id: RunId)
    requires Unused(records, r.runId)
    ensures Get(records + [r], id) == if id == r.runId then Some(r) else Get(records, id)
  {
    assert (records + [r])[..|records|] == records;
  }

  /** Under distinct run ids the newest row of an id is its only one, wherever it is looked for. */
  lemma RowsAreUnique(records: seq<JobRecord>, i: nat)
    requires IdsDiffer(records) && i < |records|
    ensures IdAt(records, records[i].runId) == i
    ensures FirstAt(records, records[i]) == i
    ensures Get(records, records[i].runId) == Some(records[i])
  {
  }

  // ----- what the steps keep

  /** Rewriting one row to `r`, of the same attempt. */
  lemma RewriteKeeps(w: World, i: nat, r: JobRecord)
    requires Invariant(w) && i < |w.records| && SameAttempt(r, w.records[i])
    requires r.status == Failed || w.records[i].status != Failed
    ensures History(w.records[i := r])
    ensures forall id :: Get(w.records[i := r], id) == if id == r.runId then Some(r) else Get(w.records, id)
    ensures Get(w.records, r.runId) == Some(w.records[i])
  {
    UpdateKeepsHistory(w.records, i, r);
    RowsAreUnique(w.records, i);
    forall id ensures Get(w.records[i := r], id) == if id == r.runId then Some(r) else Get(w.records, id) {
      GetUpdated(w.records, i, r, id);
    }
  }

  lemma AppendKeeps(w: World, key: string, phase: string, value: string, status: JobStatus, id: RunId, now: Timestamp)
    requires Invariant(w) && Unused(w.records, id)
    requires Latest(w.records, key).Some? ==> Latest(w.records, key).value.status == Failed
    ensures var r := NextAttempt(Latest(w.records, key), key, phase, value, status, id, now);
            && History(w.records + [r])
            && Get(w.records, id).None?
            && forall x :: Get(w.records + [r], x) == if x == id then Some(r) else Get(w.records, x)
  {
    AppendKeepsHistory(w.records, key, phase, value, status, id, now);
    var r := NextAttempt(Latest(w.records, key), key, phase, value, status, id, now);
    forall x ensures Get(w.records + [r], x) == if x == id then Some(r) else Get(w.records, x) {
      GetAppended(w.records, r, x);
    }
  }

  /** Rows that have succeeded stay as they are. */
  ghost predicate KeepsSucceeded(w: World, v: World) {
    forall id :: StatusAt(w.records, id) == Some(Succeeded) ==> Get(v.records, id) == Get(w.records, id)
  }

  /** A step that changes or adds the row of one id keeps the invariant, if it keeps the id's place,
      tracks its execution, and leaves the clients' copies in step with it. */
  lemma OneRowKeeps(w: World, v: World, r: JobRecord)
    requires Invariant(w) && History(v.records)
    requires forall x :: Get(v.records, x) == if x == r.runId then Some(r) else Get(w.records, x)
    requires Get(w.records, r.runId).Some? ==> SameAttempt(Get(w.records, r.runId).value, r)
    requires v.executed == w.executed || (v.executed == w.executed + [r.runId] && r.runId !in w.executed)
    requires r.status == Queued ==> r.runId !in v.executed
    requires r.status in {Running, Succeeded} ==> r.runId in v.executed
    requires forall x | x in v.working ::
      if x == r.runId then v.working[x] == r && r.status == Running else x in w.working && v.working[x] == w.working[x]
    requires forall c | c in v.dispatching ::
      SameAttempt(r, v.dispatching[c]) || (c in w.dispatching && v.dispatching[c] == w.dispatching[c])
    requires forall c | c in v.swapped ::
      (v.swapped[c] == r && r.status == Queued) || (c in w.swapped && v.swapped[c] == w.swapped[c])
    requires forall c | c in v.lookups :: c in w.lookups && v.lookups[c] == w.lookups[c]
    requires StatusAt(w.records, r.runId) == Some(Succeeded) ==> Get(w.records, r.runId) == Some(r)
    ensures Invariant(v) && KeepsSucceeded(w, v)
  {
    OneRowExecuted(w.records, v.records, w.executed, v.executed, r);
    OneRowWorked(w, v, r);
    CopiesStay(w.records, v.records, r);
    OneRowCopies(w, v, r);
    OneRowSucceeded(w, v, r);
    hide Get, History, ExecutedOnce, Copied, SameAttempt, WasRead, StatusAt, KeepsSucceeded;
  }

  lemma OneRowSucceeded(w: World, v: World, r: JobRecord)
    requires forall x :: Get(v.records, x) == if x == r.runId then Some(r) else Get(w.records, x)
    requires StatusAt(w.records, r.runId) == Some(Succeeded) ==> Get(w.records, r.runId) == Some(r)
    ensures KeepsSucceeded(w, v)
  {
    hide Get;
  }

  lemma OneRowCopies(w: World, v: World, r: JobRecord)
    requires CopiesInStep(w)
    requires forall copy | SameAttempt(r, copy) || Copied(w.records, copy) :: Copied(v.records, copy)
    requires forall c | c in v.dispatching ::
      SameAttempt(r, v.dispatching[c]) || (c in w.dispatching && v.dispatching[c] == w.dispatching[c])
    requires forall c | c in v.swapped ::
      (v.swapped[c] == r && r.status == Queued) || (c in w.swapped && v.swapped[c] == w.swapped[c])
    requires forall c | c in v.lookups :: c in w.lookups && v.lookups[c] == w.lookups[c]
    ensures forall c | c in v.dispatching :: Copied(v.records, v.dispatching[c])
    ensures forall c | c in v.swapped :: Copied(v.records, v.swapped[c]) && v.swapped[c].status == Queued
    ensures forall c | c in v.lookups :: WasRead(v.records, v.lookups[c].row, v.lookups[c].key)
  {
    assert SameAttempt(r, r);
    hide Get, Copied, SameAttempt;
  }

  lemma OneRowWorked(w: World, v: World, r: JobRecord)
    requires CopiesInStep(w)
    requires forall x :: Get(v.records, x) == if x == r.runId then Some(r) else Get(w.records, x)
    requires v.executed == w.executed || v.executed == w.executed + [r.runId]
    requires r.status == Running ==> r.runId in v.executed
    requires forall x | x in v.working ::
      if x == r.runId then v.working[x] == r && r.status == Running else x in w.working && v.working[x] == w.working[x]
    ensures forall id | id in v.working ::
              id in v.executed && Get(v.records, id) == Some(v.working[id]) && v.working[id].status == Running
  {
    hide Get, Copied, WasRead;
  }

  /** Copies of the row's attempt, and of any row before, are copies of a row after. */
  lemma CopiesStay(before: seq<JobRecord>, after: seq<JobRecord>, r: JobRecord)
    requires forall x :: Get(after, x) == if x == r.runId then Some(r) else Get(before, x)
    requires Get(before, r.runId).Some? ==> SameAttempt(Get(before, r.runId).value, r)
    ensures forall copy | SameAttempt(r, copy) || Copied(before, copy) :: Copied(after, copy)
  {
    hide Get;
  }

  lemma OneRowExecuted(before: seq<JobRecord>, after: seq<JobRecord>, was: seq<RunId>, executed: seq<RunId>,
                       r: JobRecord)
    requires ExecutedOnce(before, was)
    requires forall x :: Get(after, x) == if x == r.runId then Some(r) else Get(before, x)
    requires executed == was || (executed == was + [r.runId] && r.runId !in was)
    requires r.status == Queued ==> r.runId !in executed
    requires r.status in {Running, Succeeded} ==> r.runId in executed
    ensures ExecutedOnce(after, executed)
  {
    hide Get, NoneTwice;
    OnceMore(was, r.runId);
  }

  lemma OnceMore(executed: seq<RunId>, id: RunId)
    ensures NoneTwice(executed) && id !in executed ==> NoneTwice(executed + [id])
  {
  }

  lemma SubmitKeeps(w: World, step: Step)
    requires Invariant(w) && step.Submit?
    ensures Invariant(Next(w, step)) && KeepsSucceeded(w, Next(w, step))
  {
    if Next(w, step) != w {
      AppendKeeps(w, step.key, "enqueueing", step.value, Queued, step.id, step.now);
      var previous := Latest(w.records, step.key);
      var r := NextAttempt(previous, step.key, "enqueueing", step.value, Queued, step.id, step.now);
      assert Next(w, step) == w.(records := w.records + [r], dispatching := w.dispatching[step.client := r]);
      hide Next, Get, History, Latest;
      OneRowKeeps(w, Next(w, step), r);
    }
  }

  lemma SwapKeeps(w: World, step: Step)
    requires Invariant(w) && step.RequeueSwap?
    ensures Invariant(Next(w, step)) && KeepsSucceeded(w, Next(w, step))
  {
    if Next(w, step) != w {
      var i := IdAt(w.records, step.id);
      var r := ClaimForRequeue(w.records, step.id, step.expected, step.now).value.record;
      RowsAreUnique(w.records, i);
      RewriteKeeps(w, i, r);
      assert Next(w, step) == w.(records := w.records[i := r], swapped := w.swapped[step.client := r]);
      assert r.status == Queued && StatusAt(w.records, step.id) == Some(Queued);
      hide Next, Get, History, ClaimForRequeue;
      OneRowKeeps(w, Next(w, step), r);
    }
  }

  lemma MarkKeeps(w: World, step: Step)
    requires Invariant(w) && step.Dispatched?
    ensures Invariant(Next(w, step)) && KeepsSucceeded(w, Next(w, step))
  {
    if Next(w, step) != w {
      var i := IdAt(w.records, w.dispatching[step.client].runId);
      var r := if w.records[i].status == Queued then w.records[i].(phase := step.phase) else w.records[i];
      if r == w.records[i] {
        assert w.records[i := r] == w.records;
        RowsAreUnique(w.records, i);
      } else {
        RewriteKeeps(w, i, r);
      }
      assert Next(w, step) == w.(records := w.records[i := r], dispatching := w.dispatching - {step.client});
      assert r.status == w.records[i].status;
      hide Next, Get, History;
      OneRowKeeps(w, Next(w, step), r);
    }
  }

  lemma ClaimKeeps(w: World, step: Step)
    requires Invariant(w) && step.ClaimNext?
    ensures Invariant(Next(w, step)) && KeepsSucceeded(w, Next(w, step))
  {
    if Next(w, step) != w {
      var i := LatestAt(w.records, step.key);
      var r := Claimed(w.records[i], step.phase, step.now);
      RowsAreUnique(w.records, i);
      RewriteKeeps(w, i, r);
      assert Next(w, step) ==
        w.(records := w.records[i := r], working := w.working[r.runId := r], executed := w.executed + [r.runId]);
      assert StatusAt(w.records, r.runId) == Some(Queued);
      hide Next, Get, History;
      OneRowKeeps(w, Next(w, step), r);
    }
  }

  lemma EndKeeps(w: World, step: Step)
    requires Invariant(w) && (step.Succeed? || step.Fail?)
    ensures Invariant(Next(w, step)) && KeepsSucceeded(w, Next(w, step))
  {
    if Next(w, step) != w {
      var i := IdAt(w.records, step.id);
      var r := if step.Succeed? then Ended(w.working[step.id].(value := step.value), Succeeded, None, step.now)
               else Ended(w.working[step.id], Failed, Some(step.error), step.now);
      assert w.records[i].status == Running;
      RewriteKeeps(w, i, r);
      assert Next(w, step) == w.(records := w.records[i := r], working := w.working - {step.id});
      assert StatusAt(w.records, step.id) == Some(Running);
      hide Next, Get, History;
      OneRowKeeps(w, Next(w, step), r);
    }
  }

  lemma ReadKeeps(w: World, client: Client, key: string)
    requires Invariant(w)
    ensures Invariant(Next(w, ReadBeforeStart(client, key))) && KeepsSucceeded(w, Next(w, ReadBeforeStart(client, key)))
  {
    var i := LatestAt(w.records, key);
    if i >= 0 { RowsAreUnique(w.records, i); }
    hide Get, History, ExecutedOnce, LatestAt;
  }

  lemma ReadToFailKeeps(w: World, client: Client, id: RunId)
    requires Invariant(w)
    ensures Invariant(Next(w, ReadToFail(client, id))) && KeepsSucceeded(w, Next(w, ReadToFail(client, id)))
  {
    hide History, ExecutedOnce;
  }

  lemma DeathKeeps(w: World, id: RunId)
    requires Invariant(w)
    ensures Invariant(Next(w, WorkerDies(id))) && KeepsSucceeded(w, Next(w, WorkerDies(id)))
  {
    hide Get, History, ExecutedOnce;
  }

  /** The newest row of a key may take any status. */
  lemma WriteToNewest(w: World, i: nat, r: JobRecord)
    requires Invariant(w) && i < |w.records| && SameAttempt(r, w.records[i]) && LatestAt(w.records, r.key) == i
    ensures History(w.records[i := r])
    ensures forall id :: Get(w.records[i := r], id) == if id == r.runId then Some(r) else Get(w.records, id)
  {
    var failed := w.records[i].(status := Failed);
    RewriteKeeps(w, i, failed);
    var next := w.records[i := r];
    forall j | 0 <= j < |next| ensures NumberedAt(next, j) {
      assert NumberedAt(w.records, j);
      if i <= j {
        assert next[..j + 1] == w.records[..j + 1][i := r];
        CountKeyUpdate(w.records[..j + 1], i, r, w.records[j].key);
      } else {
        assert next[..j + 1] == w.records[..j + 1];
      }
    }
    forall id ensures Get(next, id) == if id == r.runId then Some(r) else Get(w.records, id) {
      GetUpdated(w.records, i, r, id);
    }
  }

  // ----- inserting on a stale read

  lemma {:induction false} CountKeyGrows(records: seq<JobRecord>, i: nat, j: nat, key: string)
    requires i < j < |records| && records[j].key == key
    ensures CountKey(records[..i + 1], key) < CountKey(records[..j + 1], key)
  {
    assert records[..j + 1][..j] == records[..j];
    PrefixCountsLess(records[..j], i + 1, key);
    assert records[..j][..i + 1] == records[..i + 1];
  }

  lemma {:induction false} PrefixCountsLess(records: seq<JobRecord>, k: nat, key: string)
    requires k <= |records|
    ensures CountKey(records[..k], key) <= CountKey(records, key)
  {
    if k < |records| {
      PrefixCountsLess(records[..|records| - 1], k, key);
      assert records[..|records| - 1][..k] == records[..k];
    } else {
      assert records[..k] == records;
    }
  }

  /** The read is still current: the newest row of the key, which has failed, or still nothing. */
  predicate StillCurrent(records: seq<JobRecord>, read: Option<JobRecord>, key: string) {
    var latest := Latest(records, key);
    if latest.None? then read.None?
    else latest.value.status == Failed && read.Some? && read.value.runId == latest.value.runId
  }

  /** What the history says of a row at its end. */
  lemma AppendedIsNumbered(records: seq<JobRecord>, r: JobRecord)
    requires History(records + [r])
    ensures r.runNumber == CountKey(records, r.key) + 1
    ensures LatestAt(records, r.key) >= 0 ==> records[LatestAt(records, r.key)].status == Failed
  {
    var next := records + [r];
    var n := |records|;
    assert next[..n + 1] == next && next[..n] == records && next[n] == r;
    assert NumberedAt(next, n);
    var i := LatestAt(records, r.key);
    if i >= 0 { assert next[i] == records[i]; }
  }

  lemma InsertNeedsCurrent(records: seq<JobRecord>, read: Option<JobRecord>, key: string, phase: string,
                           status: JobStatus, id: RunId, now: Timestamp)
    requires History(records) && Unused(records, id) && WasRead(records, read, key)
    requires History(records + [NextAttempt(read, key, phase, "", status, id, now)])
    ensures StillCurrent(records, read, key)
  {
    var i := LatestAt(records, key);
    AppendedIsNumbered(records, NextAttempt(read, key, phase, "", status, id, now));
    LatestIsNumbered(records, key);
    if i >= 0 {
      assert NumberedAt(records, i);
      assert records[..i + 1][i] == records[i];
      if read.Some? {
        var k := IdAt(records, read.value.runId);
        assert NumberedAt(records, k);
        hide History;
        if k < i { CountKeyGrows(records, k, i, key); }
      }
    }
  }

  /** A row numbered on from an earlier read keeps the history exactly when the read is still current. */
  lemma InsertKeepsHistoryIff(records: seq<JobRecord>, read: Option<JobRecord>, key: string, phase: string,
                              status: JobStatus, id: RunId, now: Timestamp)
    requires History(records) && Unused(records, id) && WasRead(records, read, key)
    ensures History(records + [NextAttempt(read, key, phase, "", status, id, now)])
       <==> StillCurrent(records, read, key)
  {
    var r := NextAttempt(read, key, phase, "", status, id, now);
    if StillCurrent(records, read, key) {
      var i := LatestAt(records, key);
      if i >= 0 { RowsAreUnique(records, i); }
      AppendKeepsHistory(records, key, phase, "", status, id, now);
      assert r == NextAttempt(Latest(records, key), key, phase, "", status, id, now);
    } else if History(records + [r]) {
      InsertNeedsCurrent(records, read, key, phase, status, id, now);
    }
  }

  // ----- the three steps that write or append on something old

  /** The second half of a requeue is safe exactly when the row has not been executed since the first half
      and is still the newest of its key. */
  lemma LateWriteIsSafeIff(w: World, client: Client, value: string)
    requires Invariant(w) && client in w.swapped
    ensures var copy := w.swapped[client];
            var v := Next(w, RequeueWrite(client, value));
            Invariant(v) && KeepsSucceeded(w, v) <==>
              copy.runId !in w.executed && LatestAt(w.records, copy.key) == IdAt(w.records, copy.runId)
  {
    var copy := w.swapped[client];
    var r := copy.(value := value);
    var v := Next(w, RequeueWrite(client, value));
    var i := IdAt(w.records, copy.runId);
    RowsAreUnique(w.records, i);
    GetUpdated(w.records, i, r, r.runId);
    if copy.runId in w.executed {
      assert StatusAt(v.records, copy.runId) == Some(Queued);
    } else if LatestAt(w.records, copy.key) != i {
      assert v.records[i].status == Queued && v.records[i].key == v.records[LatestAt(w.records, copy.key)].key;
    } else {
      WriteToNewest(w, i, r);
      assert StatusAt(w.records, copy.runId) == Some(w.records[i].status);
      hide Next, Get, History, LatestAt;
      OneRowKeeps(w, v, r);
    }
  }

  /** The write of a failed enqueue keeps the invariant exactly when no worker is executing the row, and
      keeps what has succeeded exactly when the row has not. */
  lemma FailedDispatchIsSafeIff(w: World, client: Client, error: string, now: Timestamp)
    requires Invariant(w) && client in w.dispatching
    ensures var id := w.dispatching[client].runId;
            var v := Next(w, DispatchFailed(client, error, now));
            && (Invariant(v) <==> id !in w.working)
            && (KeepsSucceeded(w, v) <==> StatusAt(w.records, id) != Some(Succeeded))
  {
    var copy := w.dispatching[client];
    var v := Next(w, DispatchFailed(client, error, now));
    var i := IdAt(w.records, copy.runId);
    var r := Ended(copy, Failed, Some(error), now);
    RewriteKeeps(w, i, r);
    assert v == w.(records := w.records[i := r], dispatching := w.dispatching - {client});
    assert Get(v.records, copy.runId) == Some(r);
    hide Next, Get, History;
    if copy.runId !in w.working {
      FailedRowKeeps(w, v, r);
    }
  }

  /** Failing a running row as abandoned keeps the invariant exactly when no worker is executing it after all;
      it never touches a success. */
  lemma AbandonIsSafeIff(w: World, id: RunId, error: string, now: Timestamp)
    requires Invariant(w) && StatusAt(w.records, id) == Some(Running)
    ensures var v := Next(w, FailAbandoned(id, error, now));
            KeepsSucceeded(w, v) && (Invariant(v) <==> id !in w.working)
  {
    var i := IdAt(w.records, id);
    var r := Ended(w.records[i], Failed, Some(error), now);
    var v := Next(w, FailAbandoned(id, error, now));
    RewriteKeeps(w, i, r);
    assert v == w.(records := w.records[i := r]);
    assert Get(v.records, id) == Some(r);
    hide Next, Get, History;
    if id !in w.working {
      FailedRowKeeps(w, v, r);
    }
  }

  /** Failing a row that no worker holds keeps the invariant, whatever the row was. */
  lemma FailedRowKeeps(w: World, v: World, r: JobRecord)
    requires Invariant(w) && History(v.records) && r.status == Failed && r.runId !in w.working
    requires forall x :: Get(v.records, x) == if x == r.runId then Some(r) else Get(w.records, x)
    requires Get(w.records, r.runId).Some? && SameAttempt(Get(w.records, r.runId).value, r)
    requires v.executed == w.executed && v.working == w.working && v.swapped == w.swapped && v.lookups == w.lookups
    requires forall c | c in v.dispatching :: c in w.dispatching && v.dispatching[c] == w.dispatching[c]
    ensures Invariant(v)
  {
    hide Get, History, NoneTwice;
    forall copy | Copied(w.records, copy) ensures Copied(v.records, copy) {
    }
  }

  /** A start on an earlier read is safe exactly when the read is still current. */
  lemma StartIsSafeIff(w: World, client: Client, phase: string, id: RunId, now: Timestamp)
    requires Invariant(w) && client in w.lookups && Startable(w.lookups[client]) && Unused(w.records, id)
    ensures var v := Next(w, StartFromRead(client, phase, id, now));
            Invariant(v) && KeepsSucceeded(w, v)
            <==> StillCurrent(w.records, w.lookups[client].row, w.lookups[client].key)
  {
    var read := w.lookups[client];
    var v := Next(w, StartFromRead(client, phase, id, now));
    var r := NextAttempt(read.row, read.key, phase, "", Running, id, now);
    InsertKeepsHistoryIff(w.records, read.row, read.key, phase, Running, id, now);
    if StillCurrent(w.records, read.row, read.key) {
      forall x ensures Get(w.records + [r], x) == if x == id then Some(r) else Get(w.records, x) {
        GetAppended(w.records, r, x);
      }
      assert StatusAt(w.records, id).None?;
      hide Next, Get, History, StillCurrent;
      assert v == w.(records := w.records + [r], lookups := w.lookups - {client},
                     working := w.working[id := r], executed := w.executed + [id])
          by { StartIsAppend(w, client, phase, id, now); }
      OneRowKeeps(w, v, r);
    }
  }

  lemma StartIsAppend(w: World, client: Client, phase: string, id: RunId, now: Timestamp)
    requires client in w.lookups && Startable(w.lookups[client]) && Unused(w.records, id)
    ensures var r := NextAttempt(w.lookups[client].row, w.lookups[client].key, phase, "", Running, id, now);
            Next(w, StartFromRead(client, phase, id, now))
            == w.(records := w.records + [r], lookups := w.lookups - {client},
                  working := w.working[id := r], executed := w.executed + [id])
  {
  }

  // ----- runs

  /** What a client would have to see to that its step does no harm. Only four kinds of step need any care. */
  ghost predicate Careful(w: World, step: Step) {
    match step
    case RequeueWrite(client, _) =>
      client in w.swapped ==>
        var copy := w.swapped[client];
        copy.runId !in w.executed && LatestAt(w.records, copy.key) == IdAt(w.records, copy.runId)
    case DispatchFailed(client, _, _) =>
      client in w.dispatching ==>
        var id := w.dispatching[client].runId;
        id !in w.working && StatusAt(w.records, id) != Some(Succeeded)
    case StartFromRead(client, _, id, _) =>
      client in w.lookups && Startable(w.lookups[client]) && Unused(w.records, id) ==>
        StillCurrent(w.records, w.lookups[client].row, w.lookups[client].key)
    case FailAbandoned(id, _, _) => StatusAt(w.records, id) == Some(Running) ==> id !in w.working
    case _ => true
  }

  /** Whatever the step: it keeps the invariant and every succeeded row exactly when it is careful. */
  lemma NextKeepsIff(w: World, step: Step)
    requires Invariant(w)
    ensures Invariant(Next(w, step)) && KeepsSucceeded(w, Next(w, step)) <==> Careful(w, step)
  {
    match step
    case Submit(_, _, _, _, _, _) => SubmitKeeps(w, step);
    case RequeueSwap(_, _, _, _) => SwapKeeps(w, step);
    case RequeueWrite(client, value) => if client in w.swapped { LateWriteIsSafeIff(w, client, value); }
    case Dispatched(_, _) => MarkKeeps(w, step);
    case ReadToFail(client, id) => ReadToFailKeeps(w, client, id);
    case DispatchFailed(client, error, now) =>
      if client in w.dispatching { FailedDispatchIsSafeIff(w, client, error, now); }
    case ClaimNext(_, _, _) => ClaimKeeps(w, step);
    case ReadBeforeStart(client, key) => ReadKeeps(w, client, key);
    case StartFromRead(client, phase, id, now) =>
      if client in w.lookups && Startable(w.lookups[client]) && Unused(w.records, id) {
        StartIsSafeIff(w, client, phase, id, now);
      }
    case Succeed(_, _, _) => EndKeeps(w, step);
    case Fail(_, _, _) => EndKeeps(w, step);
    case WorkerDies(id) => DeathKeeps(w, id);
    case FailAbandoned(id, error, now) =>
      if StatusAt(w.records, id) == Some(Running) { AbandonIsSafeIff(w, id, error, now); }
  }

  ghost predicate CarefulRun(w: World, steps: seq<Step>) {
    steps == [] ||
    (CarefulRun(w, steps[..|steps| - 1]) && Careful(After(w, steps[..|steps| - 1]), steps[|steps| - 1]))
  }

  lemma {:induction false} RunsKeepInvariant(w: World, steps: seq<Step>)
    requires Invariant(w) && CarefulRun(w, steps)
    ensures Invariant(After(w, steps))
  {
    if steps == [] {
    } else {
      RunsKeepInvariant(w, steps[..|steps| - 1]);
      NextKeepsIff(After(w, steps[..|steps| - 1]), steps[|steps| - 1]);
    }
  }

  /** The shape of every history that a careful interleaving leaves: of the rows of a key all but the newest
      have failed, run number and attempt are the row's place among them, and no row is executed twice. */
  lemma AttemptHistories(steps: seq<Step>)
    requires CarefulRun(BEGINNING, steps)
    ensures var w := After(BEGINNING, steps);
            && OnlyNewestOpen(w.records) && Numbered(w.records) && IdsDiffer(w.records)
            && NoneTwice(w.executed)
  {
    RunsKeepInvariant(BEGINNING, steps);
  }

  lemma {:induction false} RunsKeepSucceeded(w: World, steps: seq<Step>, id: RunId)
    requires Invariant(w) && CarefulRun(w, steps) && StatusAt(w.records, id) == Some(Succeeded)
    ensures Get(After(w, steps).records, id) == Get(w.records, id)
  {
    if steps == [] {
    } else {
      var before := After(w, steps[..|steps| - 1]);
      RunsKeepInvariant(w, steps[..|steps| - 1]);
      RunsKeepSucceeded(w, steps[..|steps| - 1], id);
      NextKeepsIff(before, steps[|steps| - 1]);
      assert KeepsSucceeded(before, After(w, steps));
      assert StatusAt(before.records, id) == Some(Succeeded);
    }
  }

  /** A row that has succeeded is the newest of its key. */
  lemma {:induction false} SucceededIsNewest(records: seq<JobRecord>, id: RunId)
    requires History(records) && StatusAt(records, id) == Some(Succeeded)
    ensures var key := Get(records, id).value.key;
            Latest(records, key) == Get(records, id) && CountKey(records, key) == Get(records, id).value.runNumber
  {
    var k := IdAt(records, id);
    var j := LatestAt(records, records[k].key);
    assert k <= j;
    LatestIsNumbered(records, records[k].key);
  }

  /** Once a key has succeeded, no careful run of steps ever adds another row for it or changes the one
      that did. */
  lemma {:induction false} SucceededIsFinal(w: World, steps: seq<Step>, key: string)
    requires Invariant(w) && CarefulRun(w, steps)
    requires Latest(w.records, key).Some? && Latest(w.records, key).value.status == Succeeded
    ensures var v := After(w, steps);
            Latest(v.records, key) == Latest(w.records, key) && CountKey(v.records, key) == CountKey(w.records, key)
  {
    var v := After(w, steps);
    var i := LatestAt(w.records, key);
    var id := w.records[i].runId;
    RowsAreUnique(w.records, i);
    hide After, CarefulRun, LatestAt, IdAt;
    RunsKeepSucceeded(w, steps, id);
    RunsKeepInvariant(w, steps);
    SucceededIsNewest(w.records, id);
    SucceededIsNewest(v.records, id);
  }
}
