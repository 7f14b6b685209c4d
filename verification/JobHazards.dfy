/** Interleavings in which a step that is not careful does harm: one for each of the four kinds. */
module JobHazards {
  import opened Common
  import opened JobRuns
  import opened JobProtocol

  // ----- steps on a store with one row, or with a second row of another run

  lemma SingleRow(r: JobRecord)
    ensures LatestAt([r], r.key) == 0 && IdAt([r], r.runId) == 0 && FirstAt([r], r) == 0
  {
  }

  lemma SubmitFirst(client: Client, key: string, value: string, id: RunId, now: Timestamp)
    ensures var r := NextAttempt(None, key, "enqueueing", value, Queued, id, now);
            Next(BEGINNING, Submit(client, key, value, false, id, now))
            == BEGINNING.(records := [r], dispatching := map[client := r])
  {
  }

  lemma DispatchedSingle(w: World, client: Client, r: JobRecord, phase: string)
    requires w.records == [r] && r.status == Queued && client in w.dispatching && w.dispatching[client].runId == r.runId
    ensures Next(w, Dispatched(client, phase))
         == w.(records := [r.(phase := phase)], dispatching := w.dispatching - {client})
  {
    SingleRow(r);
  }

  lemma SwapSingle(w: World, client: Client, r: JobRecord, now: Timestamp)
    requires w.records == [r] && r.status == Queued && client !in w.swapped && client !in w.dispatching
    ensures var s := r.(phase := "requeueing", startedAt := now, error := None, finishedAt := None);
            Next(w, RequeueSwap(client, r.runId, r.startedAt, now))
            == w.(records := [s], swapped := w.swapped[client := s])
  {
    SingleRow(r);
  }

  lemma WriteSingle(w: World, client: Client, r: JobRecord, value: string)
    requires w.records == [r] && client in w.swapped && w.swapped[client].runId == r.runId
    ensures var s := w.swapped[client].(value := value);
            Next(w, RequeueWrite(client, value))
            == w.(records := [s], swapped := w.swapped - {client}, dispatching := w.dispatching[client := s])
  {
    SingleRow(r);
  }

  lemma ClaimSingle(w: World, r: JobRecord, phase: string, now: Timestamp)
    requires w.records == [r] && r.status == Queued
    ensures var c := Claimed(r, phase, now);
            Next(w, ClaimNext(r.key, phase, now))
            == w.(records := [c], working := w.working[r.runId := c], executed := w.executed + [r.runId])
  {
    SingleRow(r);
  }

  lemma FailSingle(w: World, client: Client, r: JobRecord, error: string, now: Timestamp)
    requires w.records == [r] && client in w.dispatching && w.dispatching[client].runId == r.runId
    ensures Next(w, DispatchFailed(client, error, now))
         == w.(records := [Ended(w.dispatching[client], Failed, Some(error), now)],
               dispatching := w.dispatching - {client})
  {
    SingleRow(r);
  }

  lemma ResubmitSecond(w: World, client: Client, r: JobRecord, value: string, id: RunId, now: Timestamp)
    requires w.records == [r] && r.status == Failed && client !in w.dispatching && id != r.runId
    ensures var s := NextAttempt(Some(r), r.key, "enqueueing", value, Queued, id, now);
            Next(w, Submit(client, r.key, value, true, id, now))
            == w.(records := [r, s], dispatching := w.dispatching[client := s])
  {
    SingleRow(r);
    assert [r] + [NextAttempt(Some(r), r.key, "enqueueing", value, Queued, id, now)]
        == [r, NextAttempt(Some(r), r.key, "enqueueing", value, Queued, id, now)];
  }

  lemma TwoRows(a: JobRecord, b: JobRecord)
    requires a.runId != b.runId && a.key == b.key
    ensures LatestAt([a, b], a.key) == 1 && IdAt([a, b], a.runId) == 0 && FirstAt([a, b], b) == 1
  {
    assert [a, b][..1] == [a] && [a, b][1..] == [b];
    SingleRow(a);
  }

  lemma SucceedFirst(w: World, a: JobRecord, b: JobRecord, value: string, now: Timestamp)
    requires w.records == [a, b] && a.runId != b.runId && a.key == b.key
    requires a.runId in w.working && w.working[a.runId].runId == a.runId
    ensures Next(w, Succeed(a.runId, value, now))
         == w.(records := [Ended(w.working[a.runId].(value := value), Succeeded, None, now), b],
               working := w.working - {a.runId})
  {
    TwoRows(a, b);
    assert [a, b][0 := Ended(w.working[a.runId].(value := value), Succeeded, None, now)]
        == [Ended(w.working[a.runId].(value := value), Succeeded, None, now), b];
  }

  lemma ClaimSecond(w: World, a: JobRecord, b: JobRecord, phase: string, now: Timestamp)
    requires w.records == [a, b] && a.runId != b.runId && a.key == b.key && b.status == Queued
    ensures var c := Claimed(b, phase, now);
            Next(w, ClaimNext(b.key, phase, now))
            == w.(records := [a, c], working := w.working[b.runId := c], executed := w.executed + [b.runId])
  {
    TwoRows(a, b);
    assert [a, b][1 := Claimed(b, phase, now)] == [a, Claimed(b, phase, now)];
  }

  // ----- a requeue in two halves

  /** Submit, swap, claim, write, claim: a claim between the halves of a requeue is undone by the write,
      and the row is executed twice. */
  lemma SplitRequeueExecutesTwice(key: string, owner: string)
    ensures var submitted := Next(BEGINNING, Submit(3, key, owner, false, 1, 10));
            var claimed := Next(Next(submitted, RequeueSwap(7, 1, 10, 20)), ClaimNext(key, "execute", 30));
            && 1 in claimed.working && !Careful(claimed, RequeueWrite(7, owner))
            && Next(Next(claimed, RequeueWrite(7, owner)), ClaimNext(key, "execute", 40)).executed == [1, 1]
  {
    var r := NextAttempt(None, key, "enqueueing", owner, Queued, 1, 10);
    SubmitFirst(3, key, owner, 1, 10);
    hide Next;
    var submitted := Next(BEGINNING, Submit(3, key, owner, false, 1, 10));
    SwapSingle(submitted, 7, r, 20);
    var swapped := Next(submitted, RequeueSwap(7, 1, 10, 20));
    ClaimSingle(swapped, swapped.records[0], "execute", 30);
    var claimed := Next(swapped, ClaimNext(key, "execute", 30));
    WriteSingle(claimed, 7, claimed.records[0], owner);
    var written := Next(claimed, RequeueWrite(7, owner));
    ClaimSingle(written, written.records[0], "execute", 40);
  }

  // ----- a failed enqueue whose row an earlier delivery runs

  /** A first delivery is claimed while a requeue of its row is being dispatched, and the second enqueue
      fails. The row now reads failed while its worker goes on. */
  ghost function RunningRowFailed(key: string, owner: string): World {
    var delivered := Next(Next(BEGINNING, Submit(3, key, owner, false, 1, 10)), Dispatched(3, "provider-import"));
    var requeued := Next(Next(delivered, RequeueSwap(7, 1, 10, 20)), RequeueWrite(7, owner));
    Next(Next(requeued, ClaimNext(key, "execute", 30)), DispatchFailed(7, "queue", 40))
  }

  lemma RunningRowIsFailed(key: string, owner: string)
    ensures var w := RunningRowFailed(key, owner);
            && |w.records| == 1 && w.records[0].key == key && w.records[0].runId == 1
            && w.records[0].status == Failed && w.records[0].runNumber == w.records[0].attempt == 1
            && w.dispatching == map[] && w.swapped == map[] && w.executed == [1]
            && w.working.Keys == {1} && w.working[1].runId == 1 && w.working[1].key == key
                && w.working[1].runNumber == 1
  {
    var r := NextAttempt(None, key, "enqueueing", owner, Queued, 1, 10);
    SubmitFirst(3, key, owner, 1, 10);
    hide Next;
    var submitted := Next(BEGINNING, Submit(3, key, owner, false, 1, 10));
    DispatchedSingle(submitted, 3, r, "provider-import");
    var delivered := Next(submitted, Dispatched(3, "provider-import"));
    SwapSingle(delivered, 7, delivered.records[0], 20);
    var swapped := Next(delivered, RequeueSwap(7, 1, 10, 20));
    WriteSingle(swapped, 7, swapped.records[0], owner);
    var requeued := Next(swapped, RequeueWrite(7, owner));
    ClaimSingle(requeued, requeued.records[0], "execute", 30);
    var claimed := Next(requeued, ClaimNext(key, "execute", 30));
    FailSingle(claimed, 7, claimed.records[0], "queue", 40);
  }

  /** The key is retried while that worker still runs. When the worker then succeeds, an earlier row of the
      key than the queued one has succeeded; and the next claim executes the key a second time. */
  lemma FailedRequeueExecutesAgain(key: string, owner: string)
    ensures var failed := RunningRowFailed(key, owner);
            var succeeded := Next(Next(failed, Submit(5, key, owner, true, 2, 50)), Succeed(1, "done", 60));
            && !OnlyNewestOpen(succeeded.records)
            && StatusAt(succeeded.records, 1) == Some(Succeeded)
            && Next(succeeded, ClaimNext(key, "execute", 70)).executed == [1, 2]
  {
    RunningRowIsFailed(key, owner);
    hide Next, RunningRowFailed;
    var failed := RunningRowFailed(key, owner);
    var a := failed.records[0];
    ResubmitSecond(failed, 5, a, owner, 2, 50);
    var retried := Next(failed, Submit(5, key, owner, true, 2, 50));
    SucceedFirst(retried, a, retried.records[1], "done", 60);
    var succeeded := Next(retried, Succeed(1, "done", 60));
    var done, again := succeeded.records[0], succeeded.records[1];
    TwoRows(done, again);
    assert succeeded.records == [done, again];
    ClaimSecond(succeeded, done, again, "execute", 70);
  }

  // ----- two starts on the same read

  lemma StartOnNothing(w: World, client: Client, key: string, phase: string, id: RunId, now: Timestamp)
    requires client in w.lookups && w.lookups[client] == Lookup(key, None) && Unused(w.records, id)
    ensures var r := NextAttempt(None, key, phase, "", Running, id, now);
            Next(w, StartFromRead(client, phase, id, now))
            == w.(records := w.records + [r], lookups := w.lookups - {client},
                  working := w.working[id := r], executed := w.executed + [id])
  {
  }

  /** Two workers find no row of a key; both start, and the key is executed twice at once, under the same
      run number. */
  lemma TwoStartsRunTogether(key: string)
    ensures var read := Next(Next(BEGINNING, ReadBeforeStart(1, key)), ReadBeforeStart(2, key));
            var one := Next(read, StartFromRead(1, "execute", 11, 20));
            var both := Next(one, StartFromRead(2, "execute", 12, 30));
            && !Careful(one, StartFromRead(2, "execute", 12, 30))
            && both.executed == [11, 12] && both.working.Keys == {11, 12}
            && both.records == [NextAttempt(None, key, "execute", "", Running, 11, 20),
                                NextAttempt(None, key, "execute", "", Running, 12, 30)]
  {
    var read := Next(Next(BEGINNING, ReadBeforeStart(1, key)), ReadBeforeStart(2, key));
    assert read == BEGINNING.(lookups := map[1 := Lookup(key, None), 2 := Lookup(key, None)]);
    StartOnNothing(read, 1, key, "execute", 11, 20);
    var one := Next(read, StartFromRead(1, "execute", 11, 20));
    var a := NextAttempt(None, key, "execute", "", Running, 11, 20);
    assert one.records == [a];
    SingleRow(a);
    StartOnNothing(one, 2, key, "execute", 12, 30);
    assert [a] + [NextAttempt(None, key, "execute", "", Running, 12, 30)]
        == [a, NextAttempt(None, key, "execute", "", Running, 12, 30)];
  }

  // ----- a running row that is taken for abandoned

  lemma AbandonSingle(w: World, r: JobRecord, error: string, now: Timestamp)
    requires w.records == [r] && r.status == Running
    ensures Next(w, FailAbandoned(r.runId, error, now)) == w.(records := [Ended(r, Failed, Some(error), now)])
  {
    SingleRow(r);
  }

  /** Recovery fails the row of a worker that is still alive; the key is retried and claimed, and two workers run
      it at once. */
  lemma AbandonedRunsOn(key: string, owner: string)
    ensures var claimed := Next(Next(BEGINNING, Submit(3, key, owner, false, 1, 10)), ClaimNext(key, "execute", 20));
            var failed := Next(claimed, FailAbandoned(1, "stopped", 30));
            var retried := Next(failed, Submit(5, key, owner, true, 2, 40));
            && !Careful(claimed, FailAbandoned(1, "stopped", 30))
            && Next(retried, ClaimNext(key, "execute", 50)).working.Keys == {1, 2}
            && Next(retried, ClaimNext(key, "execute", 50)).executed == [1, 2]
  {
    var r := NextAttempt(None, key, "enqueueing", owner, Queued, 1, 10);
    SubmitFirst(3, key, owner, 1, 10);
    hide Next;
    var submitted := Next(BEGINNING, Submit(3, key, owner, false, 1, 10));
    ClaimSingle(submitted, r, "execute", 20);
    var claimed := Next(submitted, ClaimNext(key, "execute", 20));
    AbandonSingle(claimed, claimed.records[0], "stopped", 30);
    var failed := Next(claimed, FailAbandoned(1, "stopped", 30));
    ResubmitSecond(failed, 5, failed.records[0], owner, 2, 40);
    var retried := Next(failed, Submit(5, key, owner, true, 2, 40));
    ClaimSecond(retried, retried.records[0], retried.records[1], "execute", 50);
  }
}
