/** The recovery of abandoned provider imports at startup. */
module Recovery {
  import opened Common
  import opened JobRuns
  import opened JobProtocol

  function Abandonment(r: JobRecord, now: Timestamp): (failed: JobRecord)
    ensures SameAttempt(failed, r) && failed.status == Failed && failed.finishedAt == Some(now)
  {
    Ended(r, Failed, Some("DependencyError: application process stopped before provider import completed"), now)
  }

  predicate RunningFor(r: JobRecord, provider: Provider)
    ensures RunningFor(r, provider) ==> r.status == Running
  {
    Matches(r, Some(provider), Some(Running))
  }

  function CountRunning(records: seq<JobRecord>, provider: Provider): nat {
    if records == [] then 0
    else
      CountRunning(records[..|records| - 1], provider)
      + if RunningFor(records[|records| - 1], provider) then 1 else 0
  }

  lemma {:induction false} CountAfterFailure(records: seq<JobRecord>, i: nat, r: JobRecord, provider: Provider)
    requires i < |records| && RunningFor(records[i], provider) && !RunningFor(r, provider)
    ensures CountRunning(records[i := r], provider) == CountRunning(records, provider) - 1
  {
    var n := |records| - 1;
    if i < n {
      assert records[i := r][..n] == records[..n][i := r];
      CountAfterFailure(records[..n], i, r, provider);
    } else {
      assert records[i := r][..n] == records[..n];
    }
  }

  /** A page holds matching rows, no two with the same run id, and is empty only if nothing matches. */
  lemma {:induction false} MatchingRows(records: seq<JobRecord>, provider: Provider)
    requires IdsDiffer(records)
    ensures var m := Matching(records, Some(provider), Some(Running));
            && (forall r | r in m :: r in records && RunningFor(r, provider))
            && IdsDiffer(m)
            && (m == [] ==> forall r | r in records :: !RunningFor(r, provider))
  {
    if records == [] {
    } else {
      var n := |records| - 1;
      var last := records[n];
      MatchingRows(records[..n], provider);
      assert forall r :: r in records <==> r == last || r in records[..n];
      var rest := Matching(records[..n], Some(provider), Some(Running));
      forall k | 0 <= k < |rest| ensures rest[k].runId != last.runId {
        assert rest[k] in records[..n];
      }
    }
  }

  /** Every row is as it was, or was running for the provider and has failed. */
  ghost predicate PartlyRecovered(before: seq<JobRecord>, after: seq<JobRecord>, provider: Provider, now: Timestamp) {
    && |after| == |before|
    && forall i | 0 <= i < |before| ::
         after[i] == before[i] || (RunningFor(before[i], provider) && after[i] == Abandonment(before[i], now))
  }

  ghost predicate FullyRecovered(before: seq<JobRecord>, after: seq<JobRecord>, provider: Provider, now: Timestamp) {
    && |after| == |before|
    && forall i | 0 <= i < |before| ::
         after[i] == if RunningFor(before[i], provider) then Abandonment(before[i], now) else before[i]
  }

  lemma NothingRecovered(records: seq<JobRecord>, provider: Provider, now: Timestamp)
    ensures PartlyRecovered(records, records, provider, now)
  {
  }

  lemma {:induction false} RecoveryGoesOn(a: seq<JobRecord>, b: seq<JobRecord>, c: seq<JobRecord>, provider: Provider,
                                          now: Timestamp)
    requires PartlyRecovered(a, b, provider, now) && PartlyRecovered(b, c, provider, now)
    ensures PartlyRecovered(a, c, provider, now)
  {
    forall i | 0 <= i < |a| ensures c[i] == a[i] || (RunningFor(a[i], provider) && c[i] == Abandonment(a[i], now)) {
      assert b[i] == a[i] || b[i] == Abandonment(a[i], now);
      assert c[i] == b[i] || RunningFor(b[i], provider);
    }
  }

  lemma RecoveryDone(a: seq<JobRecord>, b: seq<JobRecord>, provider: Provider, now: Timestamp)
    requires PartlyRecovered(a, b, provider, now) && forall r | r in b :: !RunningFor(r, provider)
    ensures FullyRecovered(a, b, provider, now)
  {
    forall i | 0 <= i < |a| ensures b[i] == if RunningFor(a[i], provider) then Abandonment(a[i], now) else a[i] {
      assert b[i] in b;
    }
  }

  lemma BothProviders(a: seq<JobRecord>, b: seq<JobRecord>, c: seq<JobRecord>, now: Timestamp)
    requires FullyRecovered(a, b, Tushare, now) && FullyRecovered(b, c, Ifind, now)
    ensures |c| == |a|
    ensures forall i | 0 <= i < |a| ::
              c[i] == if a[i].status == Running && ProviderOf(a[i].key).Some? then Abandonment(a[i], now) else a[i]
    ensures forall r | r in c :: r.status == Running ==> ProviderOf(r.key).None?
  {
    hide ProviderOf, Abandonment;
    forall i | 0 <= i < |a|
      ensures c[i] == if a[i].status == Running && ProviderOf(a[i].key).Some? then Abandonment(a[i], now) else a[i]
    {
      assert b[i] == if RunningFor(a[i], Tushare) then Abandonment(a[i], now) else a[i];
      assert c[i] == if RunningFor(b[i], Ifind) then Abandonment(b[i], now) else b[i];
      match ProviderOf(a[i].key)
      case None =>
      case Some(p) => match p { case Tushare => case Ifind => }
    }
  }

  lemma {:induction false} OnlyOneChanges(records: seq<JobRecord>, i: nat, r: JobRecord, provider: Provider,
                                          now: Timestamp)
    requires i < |records| && RunningFor(records[i], provider) && r == Abandonment(records[i], now)
    ensures PartlyRecovered(records, records[i := r], provider, now)
  {
  }

  /** Failing one running row. */
  lemma {:induction false} FailOne(records: seq<JobRecord>, record: JobRecord, provider: Provider, now: Timestamp)
    requires IdsDiffer(records) && record in records && RunningFor(record, provider)
    ensures var r := Abandonment(record, now);
            && Replace(records, r).Ok?
            && var next := Replace(records, r).value;
            && IdsDiffer(next)
            && PartlyRecovered(records, next, provider, now)
            && CountRunning(next, provider) == CountRunning(records, provider) - 1
            && forall x | x in records && x.runId != record.runId :: x in next
  {
    hide IdsDiffer, PartlyRecovered, CountRunning, Matches, ProviderOf;
    var i :| 0 <= i < |records| && records[i] == record;
    var r := Abandonment(record, now);
    RowsAreUnique(records, i);
    assert Replace(records, r) == Ok(records[i := r]);
    assert !RunningFor(r, provider);
    CountAfterFailure(records, i, r, provider);
    OthersStay(records, i, r);
    OnlyOneChanges(records, i, r, provider, now);
  }

  lemma {:induction false} OthersStay(records: seq<JobRecord>, i: nat, r: JobRecord)
    requires IdsDiffer(records) && i < |records| && r.runId == records[i].runId
    ensures var next := records[i := r];
            && IdsDiffer(next)
            && forall x | x in records && x.runId != r.runId :: x in next
  {
    var next := records[i := r];
    forall x | x in records && x.runId != r.runId ensures x in next {
      var l :| 0 <= l < |records| && records[l] == x;
      assert next[l] == x;
    }
  }

  /** Fails the rows of one page, each still as the page shows it. */
  method FailPage(store: InMemoryJobRunStore, page: seq<JobRecord>, provider: Provider, now: Timestamp)
    requires IdsDiffer(store.records) && IdsDiffer(page)
    requires forall r | r in page :: r in store.records && RunningFor(r, provider)
    modifies store
    ensures PartlyRecovered(old(store.records), store.records, provider, now)
    ensures IdsDiffer(store.records)
    ensures CountRunning(store.records, provider) == CountRunning(old(store.records), provider) - |page|
  {
    hide RunningFor, PartlyRecovered, CountRunning, Abandonment, Replace;
    NothingRecovered(store.records, provider, now);
    var k := 0;
    while k < |page|
      invariant 0 <= k <= |page|
      invariant PartlyRecovered(old(store.records), store.records, provider, now)
      invariant IdsDiffer(store.records)
      invariant forall j | k <= j < |page| :: page[j] in store.records && RunningFor(page[j], provider)
      invariant CountRunning(store.records, provider) == CountRunning(old(store.records), provider) - k
    {
      ghost var was := store.records;
      FailOne(was, page[k], provider, now);
      var replaced := store.ReplaceRow(Abandonment(page[k], now));
      RecoveryGoesOn(old(store.records), was, store.records, provider, now);
      k := k + 1;
    }
  }

  /** Page after page, until no row of the provider is running. */
  method FailProvider(store: InMemoryJobRunStore, provider: Provider, now: Timestamp)
    requires IdsDiffer(store.records)
    modifies store
    ensures FullyRecovered(old(store.records), store.records, provider, now)
    ensures IdsDiffer(store.records)
  {
    hide RunningFor, PartlyRecovered, FullyRecovered, CountRunning, Matching;
    NothingRecovered(store.records, provider, now);
    while true
      invariant PartlyRecovered(old(store.records), store.records, provider, now)
      invariant IdsDiffer(store.records)
      decreases CountRunning(store.records, provider)
    {
      ghost var was := store.records;
      MatchingRows(was, provider);
      var page, total := store.Page(1, 200, Some(provider), Some(Running));
      SliceRows(Matching(was, Some(provider), Some(Running)), 200);
      if page == [] { break; }
      FailPage(store, page, provider, now);
      RecoveryGoesOn(old(store.records), was, store.records, provider, now);
    }
    RecoveryDone(old(store.records), store.records, provider, now);
  }

  lemma SliceRows(rows: seq<JobRecord>, n: nat)
    requires IdsDiffer(rows) && n > 0
    ensures var page := Slice(rows, 0, n);
            && IdsDiffer(page) && (forall r | r in page :: r in rows) && (page == [] <==> rows == [])
  {
  }

  /** The loop ends, leaves no import of either provider running, fails exactly those that were, and
      touches no other row. */
  method FailAbandonedProviderJobs(store: InMemoryJobRunStore, now: Timestamp)
    requires IdsDiffer(store.records)
    modifies store
    ensures |store.records| == |old(store.records)|
    ensures forall i | 0 <= i < |store.records| ::
              store.records[i]
              == if old(store.records)[i].status == Running && ProviderOf(old(store.records)[i].key).Some?
                                  then Abandonment(old(store.records)[i], now) else old(store.records)[i]
    ensures forall r | r in store.records :: r.status == Running ==> ProviderOf(r.key).None?
  {
    ghost var first := store.records;
    FailProvider(store, Tushare, now);
    ghost var middle := store.records;
    FailProvider(store, Ifind, now);
    BothProviders(first, middle, store.records, now);
    hide ProviderOf;
  }
}
