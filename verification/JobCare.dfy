/** What care is worth: a careful step never leads to harm along careful steps, and a careless one always can. */
module JobCare {
  import opened Common
  import opened JobRuns
  import opened JobProtocol

  /** Between two worlds a history has lost its shape, a row has been executed twice, or a success has been
      overwritten. */
  ghost predicate Harmed(w: World, v: World) {
    !History(v.records) || !NoneTwice(v.executed) || !KeepsSucceeded(w, v)
  }

  // ----- something unused can always be found

  lemma {:induction false} UnusedId(records: seq<JobRecord>) returns (id: RunId)
    ensures forall j | 0 <= j < |records| :: records[j].runId < id
  {
    if records == [] {
      id := 0;
    } else {
      var rest := UnusedId(records[1..]);
      id := if rest > records[0].runId then rest else records[0].runId + 1;
    }
  }

  lemma {:induction false} FreeClient(taken: set<Client>) returns (client: Client)
    ensures forall c | c in taken :: c < client
    decreases taken
  {
    if taken == {} {
      client := 0;
    } else {
      if forall c :: c !in taken { assert false; }
      var one :| one in taken;
      var rest := FreeClient(taken - {one});
      client := if rest > one then rest else one + 1;
      assert forall c | c in taken :: c == one || c in taken - {one};
    }
  }

  // ----- a careless step does harm in at most two more

  /** A failed newest row can be retried by a client that dispatches nothing. */
  lemma RetryAppends(v: World, client: Client, key: string, spare: RunId)
    requires client !in v.dispatching && Latest(v.records, key).Some? && Latest(v.records, key).value.status == Failed
    requires forall j | 0 <= j < |v.records| :: v.records[j].runId < spare
    ensures var r := NextAttempt(Latest(v.records, key), key, "enqueueing", "", Queued, spare, 0);
            Next(v, Submit(client, key, "", true, spare, 0))
            == v.(records := v.records + [r], dispatching := v.dispatching[client := r])
  {
  }

  /** A row that a worker is executing has been failed: the key is retried, and when the worker succeeds an
      earlier row of the key than the newest has not failed. */
  lemma FailedWhileWorking(w: World, v: World, id: RunId, f: JobRecord, client: Client, spare: RunId)
    requires Invariant(w) && id in w.working && f.status == Failed && SameAttempt(f, w.working[id])
    requires v.records == Overwritten(w.records, f) && v.working == w.working && client !in v.dispatching
    requires forall j | 0 <= j < |v.records| :: v.records[j].runId < spare
    ensures var key := w.working[id].key;
            !OnlyNewestOpen(Next(Next(v, Submit(client, key, "", true, spare, 0)), Succeed(id, "", 0)).records)
  {
    var key := w.working[id].key;
    var i, n := IdAt(w.records, id), |w.records|;
    assert w.records[i] == w.working[id] && v.records == w.records[i := f];
    RunningIsNewest(w.records, i);
    LatestStays(w.records, i, f, key);
    RetryAppends(v, client, key, spare);
    var u := Next(v, Submit(client, key, "", true, spare, 0));
    LaterIdStands(v.records, u.records[n], id, i);
    hide Invariant, LatestAt, IdAt;
    OpenBeforeNewest(Next(u, Succeed(id, "", 0)).records, i, n);
  }

  lemma OpenBeforeNewest(records: seq<JobRecord>, i: nat, j: nat)
    requires i < j < |records| && records[i].key == records[j].key && records[i].status != Failed
    ensures !OnlyNewestOpen(records)
  {
  }

  lemma RunningIsNewest(records: seq<JobRecord>, i: nat)
    requires OnlyNewestOpen(records) && i < |records| && records[i].status != Failed
    ensures LatestAt(records, records[i].key) == i
  {
    var j := LatestAt(records, records[i].key);
    assert records[j].key == records[i].key;
  }

  /** Rewriting a row under its key leaves the places of the newest rows. */
  lemma LatestStays(records: seq<JobRecord>, i: nat, r: JobRecord, key: string)
    requires i < |records| && r.key == records[i].key
    ensures LatestAt(records[i := r], key) == LatestAt(records, key)
  {
    var next := records[i := r];
    var a, b := LatestAt(records, key), LatestAt(next, key);
    assert forall j | 0 <= j < |records| :: next[j].key == records[j].key;
    if a >= 0 { assert next[a].key == key; }
    if b >= 0 { assert records[b].key == key; }
  }

  lemma LaterIdStands(records: seq<JobRecord>, r: JobRecord, id: RunId, i: nat)
    requires i < |records| && records[i].runId == id && r.runId != id
    requires forall j | 0 <= j < |records| && j != i :: records[j].runId != id
    ensures IdAt(records + [r], id) == i
  {
    assert (records + [r])[i].runId == id && (records + [r])[|records|] == r;
  }

  /** The late write of a requeue: a row behind the newest is open again at once; an executed newest row is
      queued again, and the next claim executes it a second time. */
  lemma LateWriteHarms(w: World, client: Client, value: string)
    requires Invariant(w) && !Careful(w, RequeueWrite(client, value))
    ensures var v := Next(w, RequeueWrite(client, value));
            !OnlyNewestOpen(v.records) || !NoneTwice(Next(v, ClaimNext(w.swapped[client].key, "execute", 0)).executed)
  {
    var copy := w.swapped[client];
    var r := copy.(value := value);
    var v := Next(w, RequeueWrite(client, value));
    var i, j := IdAt(w.records, copy.runId), LatestAt(w.records, copy.key);
    assert Copied(w.records, copy);
    assert v.records == w.records[i := r] && r.status == Queued;
    if i != j {
      assert i < j && v.records[j] == w.records[j];
      OpenBeforeNewest(v.records, i, j);
    } else {
      LatestStays(w.records, i, r, copy.key);
      var u := Next(v, ClaimNext(copy.key, "execute", 0));
      assert u.executed == w.executed + [copy.runId];
      AddedTwice(w.executed, copy.runId);
    }
  }

  lemma AddedTwice(ids: seq<RunId>, id: RunId)
    requires id in ids
    ensures !NoneTwice(ids + [id])
  {
    var i :| 0 <= i < |ids| && ids[i] == id;
    assert (ids + [id])[i] == (ids + [id])[|ids|];
  }

  /** A start on a read that is no longer current spoils the history at once. */
  lemma StaleStartHarms(w: World, client: Client, phase: string, id: RunId, now: Timestamp)
    requires Invariant(w) && !Careful(w, StartFromRead(client, phase, id, now))
    ensures !History(Next(w, StartFromRead(client, phase, id, now)).records)
  {
    var read := w.lookups[client];
    InsertKeepsHistoryIff(w.records, read.row, read.key, phase, Running, id, now);
    hide History, StillCurrent, WasRead;
  }

  ghost predicate HarmsBy(w: World, v: World, more: seq<Step>) {
    CarefulRun(v, more) && Harmed(w, After(v, more))
  }

  lemma {:induction false} NoMore(w: World, v: World)
    requires Harmed(w, v)
    ensures HarmsBy(w, v, [])
  {
  }

  lemma {:induction false} OneMore(w: World, v: World, step: Step)
    requires Careful(v, step) && Harmed(w, Next(v, step))
    ensures HarmsBy(w, v, [step])
  {
    assert [step][..0] == [];
    assert After(v, []) == v && CarefulRun(v, []);
    hide Next, Harmed, Careful;
  }

  lemma {:induction false} TwoMore(w: World, v: World, one: Step, two: Step)
    requires Careful(v, one) && Careful(Next(v, one), two) && Harmed(w, Next(Next(v, one), two))
    ensures HarmsBy(w, v, [one, two])
  {
    assert [one, two][..1] == [one] && [one][..0] == [];
    assert After(v, []) == v && CarefulRun(v, []);
    hide Next, Harmed, Careful;
    assert After(v, [one]) == Next(v, one) && CarefulRun(v, [one]);
  }

  lemma {:induction false} WorkingRowHarms(w: World, v: World, id: RunId, f: JobRecord) returns (more: seq<Step>)
    requires Invariant(w) && id in w.working && f.status == Failed && SameAttempt(f, w.working[id])
    requires v.records == Overwritten(w.records, f) && v.working == w.working
    ensures |more| == 2 && HarmsBy(w, v, more)
  {
    var spare := UnusedId(v.records);
    var client := FreeClient(v.dispatching.Keys);
    var one, two := Submit(client, w.working[id].key, "", true, spare, 0), Succeed(id, "", 0);
    FailedWhileWorking(w, v, id, f, client, spare);
    hide Next, After, Invariant, OnlyNewestOpen, Overwritten, SameAttempt;
    TwoMore(w, v, one, two);
    more := [one, two];
  }

  /** Whatever the careless step, at most two more steps, which need no care, do harm. */
  lemma {:induction false} CarelessStepHarms(w: World, step: Step) returns (more: seq<Step>)
    requires Invariant(w) && !Careful(w, step)
    ensures |more| <= 2 && HarmsBy(w, Next(w, step), more)
  {
    hide HarmsBy, Invariant, History, NoneTwice, OnlyNewestOpen;
    var v := Next(w, step);
    more := [];
    match step
    case RequeueWrite(client, value) =>
      LateWriteHarms(w, client, value);
      var claim := ClaimNext(w.swapped[client].key, "execute", 0);
      if !NoneTwice(Next(v, claim).executed) {
        OneMore(w, v, claim);
        more := [claim];
      } else {
        ShapeLost(v.records);
        NoMore(w, v);
      }
    case DispatchFailed(client, error, now) =>
      more := FailedDispatchHarms(w, client, error, now);
    case StartFromRead(client, phase, id, now) =>
      StaleStartHarms(w, client, phase, id, now);
      NoMore(w, v);
    case FailAbandoned(id, error, now) =>
      more := AbandonHarms(w, id, error, now);
  }

  lemma ShapeLost(records: seq<JobRecord>)
    requires !OnlyNewestOpen(records)
    ensures !History(records)
  {
  }

  lemma {:induction false} FailedDispatchHarms(w: World, client: Client, error: string, now: Timestamp)
    returns (more: seq<Step>)
    requires Invariant(w) && !Careful(w, DispatchFailed(client, error, now))
    ensures |more| <= 2 && HarmsBy(w, Next(w, DispatchFailed(client, error, now)), more)
  {
    var copy := w.dispatching[client];
    var id, v := copy.runId, Next(w, DispatchFailed(client, error, now));
    if id in w.working {
      assert SameAttempt(copy, w.working[id]);
      hide Next, HarmsBy, Invariant;
      more := WorkingRowHarms(w, v, id, Ended(copy, Failed, Some(error), now));
    } else {
      FailedDispatchIsSafeIff(w, client, error, now);
      hide Next, HarmsBy, Invariant, KeepsSucceeded;
      NoMore(w, v);
      more := [];
    }
  }

  lemma {:induction false} AbandonHarms(w: World, id: RunId, error: string, now: Timestamp) returns (more: seq<Step>)
    requires Invariant(w) && !Careful(w, FailAbandoned(id, error, now))
    ensures |more| <= 2 && HarmsBy(w, Next(w, FailAbandoned(id, error, now)), more)
  {
    var v := Next(w, FailAbandoned(id, error, now));
    assert Get(w.records, id) == Some(w.working[id]);
    hide HarmsBy, Invariant;
    more := WorkingRowHarms(w, v, id, Ended(w.working[id], Failed, Some(error), now));
  }

  // ----- what care is worth

  /** In every careful state every careless step has a continuation of at most two steps, none of which needs
      care, after which a history has lost its shape, a row has been executed twice, or a success has been
      overwritten. */
  lemma {:induction false} CarelessStepBreaks(steps: seq<Step>, step: Step)
    requires CarefulRun(BEGINNING, steps) && !Careful(After(BEGINNING, steps), step)
    ensures var w := After(BEGINNING, steps);
            exists more | |more| <= 2 :: HarmsBy(w, Next(w, step), more)
  {
    RunsKeepInvariant(BEGINNING, steps);
    hide After, Careful, Next, HarmsBy, CarefulRun;
    var more := CarelessStepHarms(After(BEGINNING, steps), step);
  }

  /** Care told without the invariant: a step is careful exactly when no run of careful steps after it ever does
      harm. */
  lemma {:induction false} CarefulIff(steps: seq<Step>, step: Step)
    requires CarefulRun(BEGINNING, steps)
    ensures var w := After(BEGINNING, steps);
            Careful(w, step) <==> forall more: seq<Step> :: !HarmsBy(w, Next(w, step), more)
  {
    var w := After(BEGINNING, steps);
    RunsKeepInvariant(BEGINNING, steps);
    if Careful(w, step) {
      NextKeepsIff(w, step);
      forall more: seq<Step> ensures !HarmsBy(w, Next(w, step), more) {
        if CarefulRun(Next(w, step), more) { CarefulRunHarmless(w, Next(w, step), more); }
      }
    } else {
      CarelessStepBreaks(steps, step);
    }
  }

  lemma {:induction false} CarefulRunHarmless(w: World, v: World, more: seq<Step>)
    requires Invariant(v) && KeepsSucceeded(w, v) && CarefulRun(v, more)
    ensures !Harmed(w, After(v, more))
  {
    RunsKeepInvariant(v, more);
    hide After, CarefulRun, History, NoneTwice, Get;
    forall id | StatusAt(w.records, id) == Some(Succeeded)
      ensures Get(After(v, more).records, id) == Get(w.records, id)
    {
      RunsKeepSucceeded(v, more, id);
    }
  }
}
