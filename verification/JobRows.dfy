/** What the job store's steps do to its rows, told by the rows' fields and places. */
module JobRows {
  import opened Common
  import opened JobRuns

  /** The `i`-th row is the newest of the key. */
  ghost predicate NewestOf(records: seq<JobRecord>, key: string, i: nat) {
    i < |records| && records[i].key == key && forall j | i < j < |records| :: records[j].key != key
  }

  /** No row has the key. */
  ghost predicate Unknown(records: seq<JobRecord>, key: string) {
    forall r | r in records :: r.key != key
  }

  /** One row is exchanged. */
  ghost predicate OnlyAt(records: seq<JobRecord>, next: seq<JobRecord>, i: nat, r: JobRecord) {
    && |next| == |records| && i < |records| && next[i] == r
    && forall j | 0 <= j < |records| && j != i :: next[j] == records[j]
  }

  /** Every row has a run id of its own. */
  ghost predicate OwnIds(records: seq<JobRecord>) {
    forall i, j | 0 <= i < j < |records| :: records[i].runId != records[j].runId
  }

  /** A fresh row of the key, with the next numbers. */
  ghost predicate FreshRow(records: seq<JobRecord>, r: JobRecord, key: string, phase: string, value: string, id: RunId,
                           now: Timestamp)
  {
    && r.runId == id && r.key == key && r.phase == phase && r.value == value && r.status == Queued
    && r.startedAt == now && r.error.None? && r.finishedAt.None?
    && (Unknown(records, key) ==> r.runNumber == 1 && r.attempt == 1)
    && forall i: nat | NewestOf(records, key, i) ::
         r.runNumber == records[i].runNumber + 1 && r.attempt == records[i].attempt + 1
  }

  lemma {:induction false} NewestExists(records: seq<JobRecord>, key: string)
    ensures Latest(records, key).None? <==> Unknown(records, key)
    ensures Latest(records, key).Some? ==> exists i: nat :: NewestOf(records, key, i)
    ensures forall i: nat | NewestOf(records, key, i) :: Latest(records, key) == Some(records[i])
  {
    var k := LatestAt(records, key);
    if k >= 0 { assert NewestOf(records, key, k) && records[k] in records; }
    forall i: nat | NewestOf(records, key, i) ensures i == k {
    }
  }

  /** A reservation adds a fresh queued row at the end when the key has none yet, or its newest has failed and may be
      tried again; otherwise it hands out the newest row and changes nothing. */
  lemma {:induction false} ReservationIs(records: seq<JobRecord>, key: string, phase: string, value: string,
                                         retryFailed: bool, id: RunId, now: Timestamp)
    ensures var r := Reserve(records, key, phase, value, retryFailed, id, now);
            && (r.created <==>
                  Unknown(records, key)
                  || (retryFailed && exists i: nat :: NewestOf(records, key, i) && records[i].status == Failed))
            && (if r.created then r.records == records + [r.record]
                && FreshRow(records, r.record, key, phase, value, id, now)
                else r.records == records && exists i: nat :: NewestOf(records, key, i) && records[i] == r.record)
  {
    hide Latest;
    NewestExists(records, key);
  }

  /** The row as a worker starts it. */
  ghost predicate StartedFrom(before: JobRecord, after: JobRecord, phase: string, now: Timestamp) {
    && after.runId == before.runId && after.key == before.key && after.value == before.value
    && after.runNumber == before.runNumber && after.attempt == before.attempt
    && after.status == Running && after.phase == phase && after.startedAt == now
    && after.error.None? && after.finishedAt.None?
  }

  /** Over rows with ids of their own, a claim is an error when the newest row of the key is running, starts that
      row when it is queued, and otherwise does nothing. */
  lemma {:induction false} ClaimIs(records: seq<JobRecord>, key: string, phase: string, now: Timestamp)
    requires OwnIds(records)
    ensures var c := Claim(records, key, phase, now);
            && (Unknown(records, key) ==> c == Ok((records, None)))
            && forall i: nat | NewestOf(records, key, i) ::
                 match records[i].status
                 case Running => c == Err(AlreadyRunning)
                 case Queued => c.Ok? && c.value.1.Some? && StartedFrom(records[i], c.value.1.value, phase, now)
                                && OnlyAt(records, c.value.0, i, c.value.1.value)
                 case _ => c == Ok((records, None))
  {
    hide Latest;
    NewestExists(records, key);
    forall i: nat | NewestOf(records, key, i) ensures FirstAt(records, records[i]) == i {
    }
  }

  /** Over rows with ids of their own, a requeue takes the row of the id when it is queued and started when it was
      expected to have; it is an error without such a row, and otherwise changes nothing. */
  lemma {:induction false} RequeueIs(records: seq<JobRecord>, id: RunId, expected: Timestamp, now: Timestamp)
    requires OwnIds(records)
    ensures var c := ClaimForRequeue(records, id, expected, now);
            && (c == Err(NoSuchJob) <==> forall r | r in records :: r.runId != id)
            && forall i | 0 <= i < |records| && records[i].runId == id ::
                 && c.Ok? && (c.value.created <==> records[i].status == Queued && records[i].startedAt == expected)
                 && if c.value.created
                    then c.value.record == records[i].(phase := "requeueing", startedAt := now, error := None,
                                                       finishedAt := None)
                         && OnlyAt(records, c.value.records, i, c.value.record)
                    else c.value.records == records && c.value.record == records[i]
  {
    var k := IdAt(records, id);
    if k >= 0 {
      assert records[k] in records && FirstAt(records, records[k]) == k;
    }
    forall i | 0 <= i < |records| && records[i].runId == id ensures i == k {
      assert records[i] in records;
    }
  }

  /** Of two requeues that expect the same start only the first takes the row, unless it starts it again at that
      time. */
  lemma {:induction false} SecondRequeueLoses(records: seq<JobRecord>, id: RunId, expected: Timestamp, now: Timestamp,
                                              later: Timestamp)
    requires OwnIds(records) && now != expected
    requires ClaimForRequeue(records, id, expected, now).Ok?
               && ClaimForRequeue(records, id, expected, now).value.created
    ensures var first := ClaimForRequeue(records, id, expected, now).value;
            var second := ClaimForRequeue(first.records, id, expected, later);
            second.Ok? && !second.value.created && second.value.records == first.records
            && second.value.record == first.record
  {
    hide ClaimForRequeue;
    RequeueIs(records, id, expected, now);
    var first := ClaimForRequeue(records, id, expected, now).value;
    if forall r | r in records :: r.runId != id { assert false; }
    var r :| r in records && r.runId == id;
    var i :| 0 <= i < |records| && records[i] == r;
    assert OnlyAt(records, first.records, i, first.record);
    assert first.record.runId == id && OwnIds(first.records);
    RequeueIs(first.records, id, expected, later);
    assert first.records[i] in first.records;
  }

  // ----- pages

  /** `at` are the places of the matching rows, newest first. */
  ghost predicate FoundAt(records: seq<JobRecord>, provider: Option<Provider>, status: Option<JobStatus>,
                          found: seq<JobRecord>, at: seq<nat>)
  {
    && |at| == |found|
    && (forall i | 0 <= i < |at| ::
          at[i] < |records| && found[i] == records[at[i]] && Matches(records[at[i]], provider, status))
    && (forall i, j | 0 <= i < j < |at| :: at[i] > at[j])
    && forall k: nat | k < |records| && Matches(records[k], provider, status) :: k in at
  }

  lemma {:induction false} FoundFirst(records: seq<JobRecord>, r: JobRecord, provider: Option<Provider>,
                                      status: Option<JobStatus>, found: seq<JobRecord>, at: seq<nat>)
    requires FoundAt(records, provider, status, found, at) && Matches(r, provider, status)
    ensures FoundAt(records + [r], provider, status, [r] + found, [|records|] + at)
  {
    hide Matches;
    var next, all, more := records + [r], [r] + found, [|records|] + at;
    forall i | 0 <= i < |more|
      ensures more[i] < |next| && all[i] == next[more[i]] && Matches(next[more[i]], provider, status)
      ensures i > 0 ==> more[i] < |records| && more[i] == at[i - 1]
    {
      if i > 0 { assert more[i] == at[i - 1] && all[i] == found[i - 1] && next[at[i - 1]] == records[at[i - 1]]; }
    }
    forall k: nat | k < |next| && Matches(next[k], provider, status) ensures k in more {
      if k < |records| {
        assert next[k] == records[k] && k in at;
      } else {
        assert more[0] == k;
      }
    }
  }

  lemma {:induction false} NotFound(records: seq<JobRecord>, r: JobRecord, provider: Option<Provider>,
                                    status: Option<JobStatus>, found: seq<JobRecord>, at: seq<nat>)
    requires FoundAt(records, provider, status, found, at) && !Matches(r, provider, status)
    ensures FoundAt(records + [r], provider, status, found, at)
  {
    hide Matches;
    var next := records + [r];
    forall i | 0 <= i < |at| ensures at[i] < |next| && next[at[i]] == records[at[i]] {
    }
    forall k: nat | k < |next| && Matches(next[k], provider, status) ensures k in at {
      assert next[k] == if k < |records| then records[k] else r;
    }
  }

  /** The listing has every matching row once, the newest first. */
  lemma {:induction false} ListingIs(records: seq<JobRecord>, provider: Option<Provider>, status: Option<JobStatus>)
    returns (at: seq<nat>)
    ensures FoundAt(records, provider, status, Matching(records, provider, status), at)
  {
    hide Matches, FoundAt;
    if records == [] {
      at := [];
      NoneFound(provider, status);
    } else {
      var n := |records| - 1;
      var rest := ListingIs(records[..n], provider, status);
      var found := Matching(records[..n], provider, status);
      assert records == records[..n] + [records[n]];
      if Matches(records[n], provider, status) {
        FoundFirst(records[..n], records[n], provider, status, found, rest);
        at := [n] + rest;
      } else {
        NotFound(records[..n], records[n], provider, status, found, rest);
        at := rest;
      }
    }
  }

  lemma NoneFound(provider: Option<Provider>, status: Option<JobStatus>)
    ensures FoundAt([], provider, status, [], [])
  {
  }

  /** The items of a page are the stretch of the listing that the page covers, as far as the listing goes. */
  lemma {:induction false} StretchIs(all: seq<JobRecord>, skipped: nat, pageSize: nat)
    ensures var items := Slice(all, skipped, skipped + pageSize);
            && |items| <= pageSize
            && (forall i | 0 <= i < |items| :: skipped + i < |all| && items[i] == all[skipped + i])
            && (|items| < pageSize ==> skipped + |items| >= |all| || skipped >= |all|)
  {
  }

  // ----- the provider of a key

  /** The text has no such character. */
  predicate Lacks(text: string, c: char) {
    c !in text
  }

  /** The key of a provider import: of three parts, the last one the provider's name, a dash and a part without one. */
  ghost predicate ImportOf(key: string, name: string) {
    exists middle, tail :: key == "data-import:" + middle + ":" + name + "-" + tail
                           && Lacks(middle, ':') && Lacks(tail, ':') && Lacks(tail, '-')
  }

  function Rejoined(parts: seq<string>, c: char): string {
    if parts == [] then "" else if |parts| == 1 then parts[0] else parts[0] + [c] + Rejoined(parts[1..], c)
  }

  lemma {:induction false} SplitIs(text: string, c: char)
    ensures Rejoined(SplitOn(text, c), c) == text
    ensures forall part | part in SplitOn(text, c) :: Lacks(part, c)
  {
    if text == "" {
    } else {
      SplitIs(text[1..], c);
      var rest := SplitOn(text[1..], c);
      assert text == [text[0]] + text[1..];
      if text[0] == c {
        var parts := [""] + rest;
        assert parts[1..] == rest;
        assert forall part | part in parts :: part == "" || part in rest;
      } else {
        var parts := [[text[0]] + rest[0]] + rest[1..];
        assert parts[1..] == rest[1..];
        assert rest[0] in rest && Lacks(parts[0], c);
        assert forall part | part in parts :: part == parts[0] || part in rest;
      }
    }
  }

  /** A text splits in one way only. */
  lemma {:induction false} SplitOnly(part: string, rest: string, c: char)
    requires Lacks(part, c)
    ensures SplitOn(part, c) == [part]
    ensures SplitOn(part + [c] + rest, c) == [part] + SplitOn(rest, c)
  {
    var text := part + [c] + rest;
    if part == "" {
      assert text[0] == c && text[1..] == rest;
    } else {
      SplitOnly(part[1..], rest, c);
      assert text[0] == part[0] && text[1..] == part[1..] + [c] + rest && part == [part[0]] + part[1..];
      assert SplitOn(part[1..] + [c] + rest, c)[1..] == SplitOn(rest, c);
    }
  }

  lemma {:induction false} LastDashIs(name: string, tail: string)
    requires Lacks(tail, '-')
    ensures BeforeLastDash(name + "-" + tail) == Some(name)
  {
    var text := name + "-" + tail;
    if tail == "" {
      assert text[..|text| - 1] == name;
    } else {
      var shorter := tail[..|tail| - 1];
      assert text[..|text| - 1] == name + "-" + shorter;
      LastDashIs(name, shorter);
    }
  }

  lemma {:induction false} BeforeDash(text: string) returns (tail: string)
    requires BeforeLastDash(text).Some?
    ensures text == BeforeLastDash(text).value + "-" + tail && Lacks(tail, '-')
  {
    var n := |text| - 1;
    if text[n] == '-' {
      tail := "";
    } else {
      tail := BeforeDash(text[..n]);
      assert text == text[..n] + [text[n]];
      tail := tail + [text[n]];
    }
  }

  lemma {:induction false} SplitsInThree(head: string, middle: string, last: string, c: char)
    requires Lacks(head, c) && Lacks(middle, c) && Lacks(last, c)
    ensures SplitOn(head + [c] + (middle + [c] + last), c) == [head, middle, last]
  {
    hide SplitOn, Lacks;
    SplitOnly(last, "", c);
    SplitOnly(middle, last, c);
    SplitOnly(head, middle + [c] + last, c);
  }

  lemma ImportReads(middle: string, name: string, tail: string)
    ensures "data-import:" + middle + ":" + name + "-" + tail
         == "data-import" + [':'] + (middle + [':'] + (name + "-" + tail))
  {
    var rest := middle + ":" + name + "-" + tail;
    assert rest == middle + [':'] + (name + "-" + tail);
    assert "data-import:" == "data-import" + [':'];
    assert "data-import:" + middle + ":" + name + "-" + tail == "data-import:" + rest;
  }

  lemma DataImportLacks()
    ensures Lacks("data-import", ':')
  {
  }

  lemma {:induction false} ImportSplits(key: string, name: string)
    requires Lacks(name, ':')
    ensures ImportOf(key, name) ==> |SplitOn(key, ':')| == 3 && SplitOn(key, ':')[0] == "data-import"
                                    && BeforeLastDash(SplitOn(key, ':')[2]) == Some(name)
  {
    if ImportOf(key, name) {
      var middle, tail :| key == "data-import:" + middle + ":" + name + "-" + tail
                          && Lacks(middle, ':') && Lacks(tail, ':') && Lacks(tail, '-');
      var last := name + "-" + tail;
      assert Lacks(last, ':');
      hide *;
      LastDashIs(name, tail);
      ImportReads(middle, name, tail);
      DataImportLacks();
      SplitsInThree("data-import", middle, last, ':');
    }
  }

  lemma {:induction false} SplitsImport(key: string, name: string)
    requires |SplitOn(key, ':')| == 3 && SplitOn(key, ':')[0] == "data-import"
    requires BeforeLastDash(SplitOn(key, ':')[2]) == Some(name)
    ensures ImportOf(key, name)
  {
    var parts := SplitOn(key, ':');
    SplitIs(key, ':');
    var tail := BeforeDash(parts[2]);
    assert Rejoined(parts, ':') == parts[0] + [':'] + Rejoined(parts[1..], ':');
    assert Rejoined(parts[1..], ':') == parts[1] + [':'] + Rejoined(parts[1..][1..], ':');
    assert Rejoined(parts[1..][1..], ':') == parts[2];
    assert key == "data-import:" + parts[1] + ":" + name + "-" + tail;
    assert Lacks(parts[1], ':') && Lacks(parts[2], ':');
    assert forall c | c in tail :: c in parts[2];
  }

  /** A key names a provider exactly when it is an import of it. */
  lemma {:induction false} ProviderIs(key: string)
    ensures ProviderOf(key) == Some(Ifind) <==> ImportOf(key, "ifind")
    ensures ProviderOf(key) == Some(Tushare) <==> ImportOf(key, "tushare")
  {
    hide ImportOf, SplitOn, BeforeLastDash;
    ImportSplits(key, "ifind");
    ImportSplits(key, "tushare");
    var parts := SplitOn(key, ':');
    if |parts| == 3 && parts[0] == "data-import" && BeforeLastDash(parts[2]).Some? {
      SplitsImport(key, BeforeLastDash(parts[2]).value);
    }
  }
}
