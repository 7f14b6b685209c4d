/** The HTTP idempotency store: one execution per key and reservation period, replays of its result. */
module Reservation {
  import opened Common

  datatype Request = Request(key: string, hash: string, actor: string, path: string, expiresAt: Timestamp)

  datatype Reply = Reply(statusCode: int, body: string, contentType: Option<string>, headers: seq<(string, string)>)

  datatype Row = Row(hash: string, actor: string, path: string, expiresAt: Timestamp, reply: Option<Reply>)

  type Rows = map<string, Row>

  datatype Outcome = Execute | Replay(reply: Reply) | Mismatch | InProgress

  datatype Completion = Completed | ReservationMissing | DoesNotMatch

  // ----- the SQL store

  function Reserved(q: Request): Row {
    Row(q.hash, q.actor, q.path, q.expiresAt, None)
  }

  predicate RowMatches(row: Row, q: Request) {
    row.hash == q.hash && row.actor == q.actor && row.path == q.path
  }

  function Acquire(rows: Rows, q: Request, now: Timestamp): (Rows, Outcome) {
    if q.key !in rows || rows[q.key].expiresAt <= now then (rows[q.key := Reserved(q)], Execute)
    else if !RowMatches(rows[q.key], q) then (rows, Mismatch)
    else (rows, match rows[q.key].reply case None => InProgress case Some(reply) => Replay(reply))
  }

  function Complete(rows: Rows, q: Request, reply: Reply): (Rows, Completion) {
    if q.key !in rows then (rows, ReservationMissing)
    else if !RowMatches(rows[q.key], q) then (rows, DoesNotMatch)
    else (rows[q.key := rows[q.key].(reply := Some(reply))], Completed)
  }

  class SqlIdempotencyStore {
    var rows: Rows

    constructor ()
      ensures rows == map[]
    {
      rows := map[];
    }

    method AcquireRequest(q: Request, now: Timestamp) returns (outcome: Outcome)
      modifies this
      ensures (rows, outcome) == Acquire(old(rows), q, now)
    {
      if q.key !in rows {
        rows := rows[q.key := Row(q.hash, q.actor, q.path, q.expiresAt, None)];
        return Execute;
      }
      var record := rows[q.key];
      if record.expiresAt <= now {
        rows := rows[q.key := record.(hash := q.hash, actor := q.actor, path := q.path, expiresAt := q.expiresAt,
                                      reply := None)];
        return Execute;
      }
      if record.hash != q.hash || record.actor != q.actor || record.path != q.path { return Mismatch; }
      if record.reply.None? { return InProgress; }
      return Replay(record.reply.value);
    }

    method CompleteRequest(q: Request, reply: Reply) returns (completion: Completion)
      modifies this
      ensures (rows, completion) == Complete(old(rows), q, reply)
    {
      if q.key !in rows { return ReservationMissing; }
      var record := rows[q.key];
      if record.hash != q.hash || record.actor != q.actor || record.path != q.path { return DoesNotMatch; }
      rows := rows[q.key := record.(reply := Some(reply))];
      return Completed;
    }
  }

  // ----- runs

  datatype Call = AcquireCall(q: Request, now: Timestamp) | CompleteCall(q: Request, reply: Reply)

  /** What became of a call. */
  datatype Event =
    | Acquired(q: Request, now: Timestamp, outcome: Outcome)
    | Finished(q: Request, reply: Reply, completion: Completion)

  function EventOf(rows: Rows, call: Call): Event {
    match call
    case AcquireCall(q, now) => Acquired(q, now, Acquire(rows, q, now).1)
    case CompleteCall(q, reply) => Finished(q, reply, Complete(rows, q, reply).1)
  }

  function RowsAfter(rows: Rows, call: Call): Rows {
    match call
    case AcquireCall(q, now) => Acquire(rows, q, now).0
    case CompleteCall(q, reply) => Complete(rows, q, reply).0
  }

  /** The table after a run of calls from many clients. */
  function Table(calls: seq<Call>): Rows {
    if calls == [] then map[] else RowsAfter(Table(calls[..|calls| - 1]), calls[|calls| - 1])
  }

  /** The log of a run. */
  function Log(calls: seq<Call>): (log: seq<Event>)
    ensures |log| == |calls|
  {
    if calls == [] then []
    else Log(calls[..|calls| - 1]) + [EventOf(Table(calls[..|calls| - 1]), calls[|calls| - 1])]
  }

  ghost predicate MonotoneClock(log: seq<Event>) {
    forall i, j | 0 <= i < j < |log| && log[i].Acquired? && log[j].Acquired? :: log[i].now <= log[j].now
  }

  predicate Executes(e: Event, key: string) {
    e.Acquired? && e.q.key == key && e.outcome == Execute
  }

  predicate Completes(e: Event, key: string) {
    e.Finished? && e.q.key == key && e.completion == Completed
  }

  predicate SameRequest(p: Request, q: Request) {
    p.key == q.key && p.hash == q.hash && p.actor == q.actor && p.path == q.path
  }

  /** The index of the call that holds the key's reservation, or -1. */
  function Holder(log: seq<Event>, key: string): (e: int)
    ensures -1 <= e < |log|
    ensures e >= 0 ==> Executes(log[e], key)
    ensures forall j | e < j < |log| :: !Executes(log[j], key)
  {
    if log == [] then -1
    else if Executes(log[|log| - 1], key) then |log| - 1
    else Holder(log[..|log| - 1], key)
  }

  /** The index of the last completion since the reservation, or -1. */
  function Completer(log: seq<Event>, key: string): (c: int)
    ensures -1 <= c < |log|
    ensures c >= 0 ==> Completes(log[c], key) && Holder(log, key) < c
    ensures forall j | c < j < |log| && Holder(log, key) < j :: !Completes(log[j], key)
  {
    if log == [] || Executes(log[|log| - 1], key) then -1
    else if Completes(log[|log| - 1], key) then |log| - 1
    else Completer(log[..|log| - 1], key)
  }

  /** What an acquire deserves, told from the log alone. */
  function Verdict(log: seq<Event>, q: Request, now: Timestamp): Outcome {
    var e := Holder(log, q.key);
    if e < 0 || log[e].q.expiresAt <= now then Execute
    else if !SameRequest(log[e].q, q) then Mismatch
    else
      var c := Completer(log, q.key);
      if c < 0 then InProgress else Replay(log[c].reply)
  }

  /** What the log says is stored of a key. */
  function RowOf(log: seq<Event>, key: string): Option<Row> {
    var e, c := Holder(log, key), Completer(log, key);
    if e < 0 then None else Some(Reserved(log[e].q).(reply := if c < 0 then None else Some(log[c].reply)))
  }

  function Stored(rows: Rows, key: string): Option<Row> {
    if key in rows then Some(rows[key]) else None
  }

  /** The table holds just what the log says of each key. */
  ghost predicate TableIs(rows: Rows, log: seq<Event>) {
    forall key :: Stored(rows, key) == RowOf(log, key)
  }

  lemma HolderSnoc(log: seq<Event>, e: Event, key: string)
    ensures Holder(log + [e], key) == if Executes(e, key) then |log| else Holder(log, key)
    ensures Completer(log + [e], key) == if Executes(e, key) then -1 else if Completes(e, key) then |log|
              else Completer(log, key)
  {
    assert (log + [e])[..|log|] == log;
  }

  lemma {:induction false} RowOfSnoc(log: seq<Event>, e: Event, key: string)
    ensures RowOf(log + [e], key) ==
            if Executes(e, key) then Some(Reserved(e.q))
            else if Completes(e, key) && RowOf(log, key).Some? then Some(RowOf(log, key).value.(reply := Some(e.reply)))
            else RowOf(log, key)
  {
    HolderSnoc(log, e, key);
    var h, c := Holder(log, key), Completer(log, key);
    if h >= 0 { assert (log + [e])[h] == log[h]; }
    if c >= 0 { assert (log + [e])[c] == log[c]; }
    hide Holder, Completer;
  }

  lemma {:induction false} StepKeepsTable(rows: Rows, log: seq<Event>, call: Call)
    requires TableIs(rows, log)
    ensures TableIs(RowsAfter(rows, call), log + [EventOf(rows, call)])
  {
    var e := EventOf(rows, call);
    hide RowOf;
    forall key ensures Stored(RowsAfter(rows, call), key) == RowOf(log + [e], key) {
      RowOfSnoc(log, e, key);
      assert Stored(rows, key) == RowOf(log, key);
    }
  }

  lemma {:induction false} TableFollowsLog(calls: seq<Call>)
    ensures TableIs(Table(calls), Log(calls))
  {
    if calls == [] {
    } else {
      TableFollowsLog(calls[..|calls| - 1]);
      StepKeepsTable(Table(calls[..|calls| - 1]), Log(calls[..|calls| - 1]), calls[|calls| - 1]);
    }
  }

  lemma {:induction false} LogPrefix(calls: seq<Call>, k: nat)
    requires k <= |calls|
    ensures Log(calls)[..k] == Log(calls[..k])
    ensures k < |calls| ==> Log(calls)[k] == EventOf(Table(calls[..k]), calls[k])
  {
    if k == |calls| {
      assert calls[..k] == calls;
    } else {
      var n := |calls| - 1;
      LogPrefix(calls[..n], k);
      assert calls[..n][..k] == calls[..k];
    }
  }

  lemma {:induction false} EventFollowsLog(rows: Rows, log: seq<Event>, call: Call)
    requires TableIs(rows, log)
    ensures match call
            case AcquireCall(q, now) => Acquire(rows, q, now).1 == Verdict(log, q, now)
            case CompleteCall(q, reply) =>
              Complete(rows, q, reply).1 == Completed <==>
                (Holder(log, q.key) >= 0 && SameRequest(log[Holder(log, q.key)].q, q))
  {
    assert Stored(rows, call.q.key) == RowOf(log, call.q.key);
    hide Holder, Completer;
  }

  /** Every acquire gets what the log before it says it deserves, and a completion is accepted exactly
      from a request like the one that holds the reservation. */
  lemma {:induction false} OutcomesFollowLog(calls: seq<Call>, j: nat)
    requires j < |calls|
    ensures var log := Log(calls);
            match log[j]
            case Acquired(q, now, outcome) => outcome == Verdict(log[..j], q, now)
            case Finished(q, _, completion) =>
              completion == Completed <==>
                (Holder(log[..j], q.key) >= 0 && SameRequest(log[..j][Holder(log[..j], q.key)].q, q))
  {
    LogPrefix(calls, j);
    TableFollowsLog(calls[..j]);
    EventFollowsLog(Table(calls[..j]), Log(calls[..j]), calls[j]);
    hide Holder, Completer, Table, Log, Verdict, Acquire, Complete;
  }

  lemma {:induction false} HolderOfPrefix(log: seq<Event>, j: nat, key: string, e: nat)
    requires e < j <= |log| && Executes(log[e], key)
    ensures Holder(log[..j], key) >= e
  {
    assert log[..j][e] == log[e];
  }

  /** From a reservation to its expiry no other request of the key is executed: a later execution comes
      at or after the expiry. */
  lemma {:induction false} OneExecutionUntilExpiry(calls: seq<Call>, i: nat, j: nat, key: string)
    requires MonotoneClock(Log(calls)) && i < j < |calls|
    requires Executes(Log(calls)[i], key) && Executes(Log(calls)[j], key)
    ensures Log(calls)[i].q.expiresAt <= Log(calls)[j].now
    decreases j
  {
    var log := Log(calls);
    OutcomesFollowLog(calls, j);
    HolderOfPrefix(log, j, key, i);
    var e := Holder(log[..j], key);
    assert log[..j][e] == log[e];
    if i < e {
      OneExecutionUntilExpiry(calls, i, e, key);
      assert log[e].now <= log[j].now;
    }
  }

  /** A replay hands out the reply last completed since the current reservation, by a request of the same
      hash, actor and path, before the reservation expires. */
  lemma {:induction false} ReplayIsSound(calls: seq<Call>, j: nat)
    requires j < |calls| && Log(calls)[j].Acquired? && Log(calls)[j].outcome.Replay?
    ensures var log := Log(calls);
            var q := log[j].q;
            exists e, c | 0 <= e < c < j ::
              && Executes(log[e], q.key) && SameRequest(log[e].q, q) && log[j].now < log[e].q.expiresAt
              && (forall k | e < k < j :: !Executes(log[k], q.key))
              && Completes(log[c], q.key) && SameRequest(log[c].q, q) && log[c].reply == log[j].outcome.reply
              && (forall k | c < k < j :: !Completes(log[k], q.key))
  {
    var log := Log(calls);
    var q := log[j].q;
    OutcomesFollowLog(calls, j);
    var before := log[..j];
    var e, c := Holder(before, q.key), Completer(before, q.key);
    assert before[e] == log[e] && before[c] == log[c];
    forall k | e < k < j ensures !Executes(log[k], q.key) { assert before[k] == log[k]; }
    forall k | c < k < j ensures !Completes(log[k], q.key) { assert before[k] == log[k]; }
    OutcomesFollowLog(calls, c);
    HolderOfPrefix(log, c, q.key, e);
    var h := Holder(log[..c], q.key);
    assert log[..c][h] == log[h];
    assert h == e;
  }

  /** While a reservation holds, a request that differs from it in hash, actor or path is refused. */
  lemma {:induction false} MismatchIsRefused(calls: seq<Call>, e: nat, j: nat)
    requires e < j < |calls|
    requires var log := Log(calls);
             && log[j].Acquired? && Executes(log[e], log[j].q.key) && log[j].now < log[e].q.expiresAt
             && !SameRequest(log[e].q, log[j].q)
    requires MonotoneClock(Log(calls))
    ensures Log(calls)[j].outcome == Mismatch
  {
    var log := Log(calls);
    var key := log[j].q.key;
    OutcomesFollowLog(calls, j);
    HolderOfPrefix(log, j, key, e);
    var h := Holder(log[..j], key);
    assert log[..j][h] == log[h];
    if e < h {
      assert log[h].now <= log[j].now;
      OneExecutionUntilExpiry(calls, e, h, key);
      assert false;
    }
  }

  // ----- the in-memory adapter

  datatype Memory = Memory(requests: map<string, Request>, results: map<string, Reply>)

  function AcquireInMemory(m: Memory, q: Request, now: Timestamp): (Memory, Outcome) {
    if q.key !in m.requests || m.requests[q.key].expiresAt <= now then (m.(requests := m.requests[q.key := q]), Execute)
    else if !RowMatches(Reserved(m.requests[q.key]), q) then (m, Mismatch)
    else if q.key in m.results then (m, Replay(m.results[q.key]))
    else (m, InProgress)
  }

  /** Anything but the stored request is ignored. */
  function CompleteInMemory(m: Memory, q: Request, reply: Reply): Memory {
    if q.key in m.requests && m.requests[q.key] == q then m.(results := m.results[q.key := reply]) else m
  }

  class InMemoryIdempotencyStore {
    var requests: map<string, Request>
    var results: map<string, Reply>

    function View(): Memory
      reads this
    {
      Memory(requests, results)
    }

    constructor ()
      ensures View() == Memory(map[], map[])
    {
      requests, results := map[], map[];
    }

    method AcquireRequest(q: Request, now: Timestamp) returns (outcome: Outcome)
      modifies this
      ensures (View(), outcome) == AcquireInMemory(old(View()), q, now)
    {
      if q.key !in requests || requests[q.key].expiresAt <= now {
        requests := requests[q.key := q];
        return Execute;
      }
      var existing := requests[q.key];
      if existing.hash != q.hash || existing.actor != q.actor || existing.path != q.path { return Mismatch; }
      if q.key !in results { return InProgress; }
      return Replay(results[q.key]);
    }

    method CompleteRequest(q: Request, reply: Reply)
      modifies this
      ensures View() == CompleteInMemory(old(View()), q, reply)
    {
      if q.key in requests && requests[q.key] == q {
        results := results[q.key := reply];
      }
    }
  }

  /** The adapter's two dictionaries hold what the table holds. */
  ghost predicate Holds(m: Memory, rows: Rows) {
    && m.requests.Keys == rows.Keys
    && m.results.Keys <= rows.Keys
    && forall key | key in rows ::
         && m.requests[key].key == key
         && rows[key] == Reserved(m.requests[key]).(reply := if key in m.results then Some(m.results[key]) else None)
  }

  /** Both adapters answer an acquire alike, and go on alike exactly when it does not renew an expired
      reservation that has a result. */
  lemma AcquiresAgreeIff(m: Memory, rows: Rows, q: Request, now: Timestamp)
    requires Holds(m, rows)
    ensures AcquireInMemory(m, q, now).1 == Acquire(rows, q, now).1
    ensures Holds(AcquireInMemory(m, q, now).0, Acquire(rows, q, now).0)
            <==> !(q.key in rows && rows[q.key].expiresAt <= now && rows[q.key].reply.Some?)
  {
    var m', rows' := AcquireInMemory(m, q, now).0, Acquire(rows, q, now).0;
    assert q.key in rows ==> (rows[q.key].reply.Some? <==> q.key in m.results);
    if q.key in rows && rows[q.key].expiresAt <= now && rows[q.key].reply.Some? {
      assert q.key in rows' && rows'[q.key].reply.None? && q.key in m'.results;
    }
  }

  /** The adapters go on alike after a completion exactly unless it comes from a like request that asked for
      another expiry, with a reply the SQL store does not hold yet: that store takes it, the in-memory
      adapter does not. */
  lemma CompletionsAgreeIff(m: Memory, rows: Rows, q: Request, reply: Reply)
    requires Holds(m, rows)
    ensures Holds(CompleteInMemory(m, q, reply), Complete(rows, q, reply).0)
            <==> !(q.key in rows && RowMatches(rows[q.key], q)
                   && rows[q.key].expiresAt != q.expiresAt && rows[q.key].reply != Some(reply))
    ensures q.key in m.requests && m.requests[q.key] == q ==> Complete(rows, q, reply).1 == Completed
  {
    var m', rows' := CompleteInMemory(m, q, reply), Complete(rows, q, reply).0;
    if q.key in rows && RowMatches(rows[q.key], q) {
      assert rows'[q.key] == rows[q.key].(reply := Some(reply));
      assert m.requests[q.key] == q <==> rows[q.key].expiresAt == q.expiresAt;
      if rows[q.key].expiresAt != q.expiresAt && rows[q.key].reply != Some(reply) {
        assert m' == m && q.key in rows';
      } else if rows[q.key].expiresAt != q.expiresAt {
        assert rows'[q.key] == rows[q.key];
        assert rows' == rows;
      }
    }
  }

  function MemoryAfter(calls: seq<Call>): Memory {
    if calls == [] then Memory(map[], map[])
    else
      var m := MemoryAfter(calls[..|calls| - 1]);
      match calls[|calls| - 1]
      case AcquireCall(q, now) => AcquireInMemory(m, q, now).0
      case CompleteCall(q, reply) => CompleteInMemory(m, q, reply)
  }

  /** No acquire comes after its key's reservation has expired, and only executed requests complete. */
  ghost predicate WithoutExpiry(calls: seq<Call>) {
    forall j | 0 <= j < |calls| ::
      match calls[j]
      case AcquireCall(q, now) => forall i | 0 <= i < j && Executes(Log(calls)[i], q.key) ::
          now < Log(calls)[i].q.expiresAt
      case CompleteCall(q, _) => exists i | 0 <= i < j :: Executes(Log(calls)[i], q.key) && Log(calls)[i].q == q
  }

  /** Without expiry a key is executed once, so a completing request is the one that holds it. */
  lemma {:induction false} CompleterHolds(calls: seq<Call>, j: nat)
    requires WithoutExpiry(calls) && j < |calls| && calls[j].CompleteCall?
    ensures var e := Holder(Log(calls)[..j], calls[j].q.key); e >= 0 && Log(calls)[..j][e].q == calls[j].q
  {
    var log, key := Log(calls), calls[j].q.key;
    var i :| 0 <= i < j && Executes(log[i], key) && log[i].q == calls[j].q;
    HolderOfPrefix(log, j, key, i);
    var e := Holder(log[..j], key);
    assert log[..j][e] == log[e];
    if i < e {
      LogPrefix(calls, e);
      OutcomesFollowLog(calls, e);
      HolderOfPrefix(log, e, key, i);
      assert false;
    }
  }

  lemma {:induction false} WithoutExpiryPrefix(calls: seq<Call>, k: nat)
    requires WithoutExpiry(calls) && k <= |calls|
    ensures WithoutExpiry(calls[..k])
  {
    LogPrefix(calls, k);
    var early := calls[..k];
    forall j | 0 <= j < k
      ensures match early[j]
              case AcquireCall(q, now) => forall i | 0 <= i < j && Executes(Log(early)[i], q.key) ::
                  now < Log(early)[i].q.expiresAt
              case CompleteCall(q, _) => exists i | 0 <= i < j :: Executes(Log(early)[i], q.key) && Log(early)[i].q == q
    {
      assert early[j] == calls[j];
      assert forall i | 0 <= i < j :: Log(early)[i] == Log(calls)[i];
      if calls[j].CompleteCall? {
        var i :| 0 <= i < j && Executes(Log(calls)[i], calls[j].q.key) && Log(calls)[i].q == calls[j].q;
        assert Log(early)[i] == Log(calls)[i];
      }
    }
  }

  /** On runs without expiry the in-memory adapter refines the SQL store. */
  lemma {:induction false} AdaptersAgree(calls: seq<Call>)
    requires WithoutExpiry(calls)
    ensures Holds(MemoryAfter(calls), Table(calls))
    ensures forall q, now :: AcquireInMemory(MemoryAfter(calls), q, now).1 == Acquire(Table(calls), q, now).1
  {
    if calls != [] {
      var n := |calls| - 1;
      var m, rows := MemoryAfter(calls[..n]), Table(calls[..n]);
      WithoutExpiryPrefix(calls, n);
      AdaptersAgree(calls[..n]);
      LogPrefix(calls, n);
      TableFollowsLog(calls[..n]);
      match calls[n]
      case AcquireCall(q, now) =>
        AcquiresAgreeIff(m, rows, q, now);
        assert Stored(rows, q.key) == RowOf(Log(calls)[..n], q.key);
        var e := Holder(Log(calls)[..n], q.key);
        if e >= 0 { assert Log(calls)[..n][e] == Log(calls)[e]; }
      case CompleteCall(q, reply) =>
        CompleterHolds(calls, n);
        assert Stored(rows, q.key) == RowOf(Log(calls)[..n], q.key);
        CompletionsAgreeIff(m, rows, q, reply);
    }
    forall q, now ensures AcquireInMemory(MemoryAfter(calls), q, now).1 == Acquire(Table(calls), q, now).1 {
      AcquiresAgreeIff(MemoryAfter(calls), Table(calls), q, now);
    }
  }

  /** After an expiry they part: the renewed reservation is in progress for the SQL store, while the
      adapter replays the result of the expired one. */
  lemma StaleReplayAfterExpiry(q: Request, reply: Reply, later: Timestamp, again: Timestamp)
    requires q.expiresAt <= later && later <= again
    ensures var renewed := q.(expiresAt := again + 1);
            var calls := [AcquireCall(q, q.expiresAt - 1), CompleteCall(q, reply), AcquireCall(renewed, later)];
            && AcquireInMemory(MemoryAfter(calls), renewed, again).1 == Replay(reply)
            && Acquire(Table(calls), renewed, again).1 == InProgress
  {
    var renewed := q.(expiresAt := again + 1);
    var calls := [AcquireCall(q, q.expiresAt - 1), CompleteCall(q, reply), AcquireCall(renewed, later)];
    assert calls[..2] == [calls[0], calls[1]] && calls[..2][..1] == [calls[0]] && calls[..2][..1][..0] == [];
    assert Table([calls[0]]) == map[q.key := Reserved(q)];
    assert Table(calls[..2]) == map[q.key := Reserved(q).(reply := Some(reply))];
    assert MemoryAfter([calls[0]]) == Memory(map[q.key := q], map[]);
    assert MemoryAfter(calls[..2]) == Memory(map[q.key := q], map[q.key := reply]);
  }
}
