/** The in-memory repository of the unit tests, and how far it agrees with Mongo. */
module Mock {
  import opened Types
  import opened Store

  function WithMockStatus(r: Record, status: Status, result: Option<FetchResult>): Record {
    var r1 := r.(status := status);
    if result.None? then r1 else
      r1.(headers := result.value.headers,
          cookies := result.value.cookies,
          pageSource := result.value.pageSource,
          pageSourceSizeBytes := result.value.pageSourceSizeBytes,
          fetchDurationMs := result.value.fetchDurationMs,
          fetchedAt := Some(result.value.fetchedAt))
  }

  function MockApply(m: Records, op: Op): Records {
    match op
    case Upsert(record, _) => m[record.url := record]
    case SetStatus(url, status, result, _) => if url in m then m[url := WithMockStatus(m[url], status, result)] else m
  }

  function MockRun(m: Records, ops: seq<Op>): Records {
    if ops == [] then m else MockApply(MockRun(m, ops[..|ops| - 1]), ops[|ops| - 1])
  }

  class MockRepository {
    var records: Records
    var findByURLCalled: nat
    var upsertCalled: nat
    var updateStatusCalled: nat
    var findByURLErr: Option<string>
    var upsertErr: Option<string>
    var updateStatusErr: Option<string>

    constructor ()
      ensures records == map[] && findByURLErr == upsertErr == updateStatusErr == None
      ensures findByURLCalled == upsertCalled == updateStatusCalled == 0
    {
      records := map[];
      findByURLCalled, upsertCalled, updateStatusCalled := 0, 0, 0;
      findByURLErr, upsertErr, updateStatusErr := None, None, None;
    }

    method FindByURL(url: string) returns (r: Result<Option<Record>>)
      modifies this`findByURLCalled
      ensures findByURLCalled == old(findByURLCalled) + 1
      ensures findByURLErr.Some? ==> r == Failure(findByURLErr.value)
      ensures findByURLErr.None? ==> r == Success(if url in records then Some(records[url]) else None)
    {
      findByURLCalled := findByURLCalled + 1;
      if findByURLErr.Some? {
        return Failure(findByURLErr.value);
      }
      r := Success(if url in records then Some(records[url]) else None);
    }

    method Upsert(record: Record) returns (err: Option<string>)
      modifies this`records, this`upsertCalled
      ensures upsertCalled == old(upsertCalled) + 1 && err == upsertErr
      ensures records == if upsertErr.Some? then old(records) else MockApply(old(records), Op.Upsert(record, ZERO_TIME))
    {
      upsertCalled := upsertCalled + 1;
      err := upsertErr;
      if upsertErr.None? {
        records := records[record.url := record];
      }
    }

    method UpdateStatus(url: string, status: Status, result: Option<FetchResult>) returns (err: Option<string>)
      modifies this`records, this`updateStatusCalled
      ensures updateStatusCalled == old(updateStatusCalled) + 1 && err == updateStatusErr
      ensures records == if updateStatusErr.Some? then old(records)
        else MockApply(old(records), SetStatus(url, status, result, ZERO_TIME))
    {
      updateStatusCalled := updateStatusCalled + 1;
      err := updateStatusErr;
      if updateStatusErr.None? && url in records {
        var record := records[url].(status := status);
        if result.Some? {
          record := record.(headers := result.value.headers,
                            cookies := result.value.cookies,
                            pageSource := result.value.pageSource,
                            pageSourceSizeBytes := result.value.pageSourceSizeBytes,
                            fetchDurationMs := result.value.fetchDurationMs,
                            fetchedAt := Some(result.value.fetchedAt));
        }
        records := records[url := record];
      }
    }
  }

  // ---- Agreement of the two stores ----

  /** Same URL, status, error and fetch fields; Mongo has cut the fetch time to milliseconds. */
  ghost predicate Alike(mongo: Record, mock: Record) {
    && mongo.url == mock.url && mongo.status == mock.status && mongo.error == mock.error
    && mongo.headers == mock.headers && mongo.cookies == mock.cookies
    && mongo.pageSource == mock.pageSource && mongo.pageSourceSizeBytes == mock.pageSourceSizeBytes
    && mongo.fetchDurationMs == mock.fetchDurationMs && mongo.fetchedAt == TruncOption(mock.fetchedAt)
  }

  /** A caller that looks `url` up gets alike answers from both stores. */
  ghost predicate AgreeOn(hash: UrlHash, mongo: Records, mock: Records, url: string) {
    && (hash(url) in mongo <==> url in mock)
    && (url in mock ==> Alike(mongo[hash(url)], mock[url]))
  }

  function UrlOf(op: Op): string {
    if op.Upsert? then op.record.url else op.url
  }

  /** `url` shares its hash with no other URL in `ops`. */
  ghost predicate Distinct(hash: UrlHash, ops: seq<Op>, url: string) {
    forall i :: 0 <= i < |ops| && hash(UrlOf(ops[i])) == hash(url) ==> UrlOf(ops[i]) == url
  }

  lemma AgreeAfterOne(hash: UrlHash, mongo: Records, mock: Records, op: Op, url: string)
    requires AgreeOn(hash, mongo, mock, url) && (hash(UrlOf(op)) == hash(url) ==> UrlOf(op) == url)
    ensures AgreeOn(hash, Apply(hash, mongo, op), MockApply(mock, op), url)
  {}

  /** Two stores that have seen the same writes agree on every URL that no written URL collides with. */
  lemma {:induction false} AgreeAfter(hash: UrlHash, ops: seq<Op>, url: string)
    requires Distinct(hash, ops, url)
    ensures AgreeOn(hash, Run(hash, map[], ops), MockRun(map[], ops), url)
  {
    if ops != [] {
      var before := ops[..|ops| - 1];
      AgreeAfter(hash, before, url);
      AgreeAfterOne(hash, Run(hash, map[], before), MockRun(map[], before), ops[|ops| - 1], url);
    }
  }

  ghost predicate AlwaysAgree(hash: UrlHash) {
    forall ops: seq<Op>, url: string :: AgreeOn(hash, Run(hash, map[], ops), MockRun(map[], ops), url)
  }

  /** The last upsert of `url` itself. */
  function LastUpsert(ops: seq<Op>, url: string): (last: Option<Op>)
    ensures last.Some? ==> last.value.Upsert?
  {
    if ops == [] then None
    else if ops[|ops| - 1].Upsert? && ops[|ops| - 1].record.url == url then Some(ops[|ops| - 1])
    else LastUpsert(ops[..|ops| - 1], url)
  }

  /** Where the two differ: the mock keeps the fields that no status write names - counters, times, hash
      and version - as the last upsert of the URL gave them. */
  lemma {:induction false} MockKeepsWhatWasUpserted(ops: seq<Op>, url: string)
    ensures var mock, last := MockRun(map[], ops), LastUpsert(ops, url);
      && (url in mock <==> last.Some?)
      && (url in mock ==>
           && mock[url].retryCount == last.value.record.retryCount && mock[url].createdAt == last.value.record.createdAt
           && mock[url].updatedAt == last.value.record.updatedAt && mock[url].urlHash == last.value.record.urlHash
           && mock[url].schemaVersion == last.value.record.schemaVersion)
  {
    if ops != [] {
      MockKeepsWhatWasUpserted(ops[..|ops| - 1], url);
    }
  }

  predicate WholeMillis(t: Option<Time>) {
    t.Some? ==> t.value % NANOS_PER_MILLI == 0
  }

  /** The shared fields are equal, the fetch time to the nanosecond. */
  ghost predicate Same(mongo: Record, mock: Record) {
    Alike(mongo, mock) && mongo.fetchedAt == mock.fetchedAt
  }

  /** With whole-millisecond fetch times the answers are equal, not just alike up to truncation. */
  lemma WholeMillisecondsAreExact(mongo: Record, mock: Record)
    requires Alike(mongo, mock)
    ensures Same(mongo, mock) <==> WholeMillis(mock.fetchedAt)
  {}

  /** Every fetch time written is a whole millisecond. */
  predicate TimedInMillis(ops: seq<Op>) {
    forall i :: 0 <= i < |ops| ==>
      match ops[i]
      case Upsert(record, _) => WholeMillis(record.fetchedAt)
      case SetStatus(_, _, result, _) => result.Some? ==> WholeMillis(Some(result.value.fetchedAt))
  }

  lemma {:induction false} MillisAreKept(ops: seq<Op>, url: string)
    requires TimedInMillis(ops) && url in MockRun(map[], ops)
    ensures WholeMillis(MockRun(map[], ops)[url].fetchedAt)
  {
    if ops != [] {
      var before, op := ops[..|ops| - 1], ops[|ops| - 1];
      assert op == ops[|ops| - 1];
      if url in MockRun(map[], before) { MillisAreKept(before, url); }
    }
  }

  /** After writes whose fetch times are whole milliseconds the two stores give equal answers
      for every URL that no written URL collides with. */
  lemma SameAfterMillis(hash: UrlHash, ops: seq<Op>, url: string)
    requires Distinct(hash, ops, url) && TimedInMillis(ops)
    ensures var mongo, mock := Run(hash, map[], ops), MockRun(map[], ops);
      (hash(url) in mongo <==> url in mock) && (url in mock ==> Same(mongo[hash(url)], mock[url]))
  {
    AgreeAfter(hash, ops, url);
    var mongo, mock := Run(hash, map[], ops), MockRun(map[], ops);
    if url in mock {
      MillisAreKept(ops, url);
      WholeMillisecondsAreExact(mongo[hash(url)], mock[url]);
    }
  }

  /** The mock stands in for Mongo on every sequence of calls exactly when the hash never collides:
      all the shared fields, fetch times to the millisecond, and exactly where those are whole. */
  lemma MockStandsInForMongo(hash: UrlHash)
    ensures AlwaysAgree(hash) <==> Injective(hash)
    ensures Injective(hash) ==> forall ops: seq<Op>, url: string :: TimedInMillis(ops) && url in MockRun(map[], ops) ==>
      hash(url) in Run(hash, map[], ops) && Same(Run(hash, map[], ops)[hash(url)], MockRun(map[], ops)[url])
  {
    if Injective(hash) {
      forall ops: seq<Op>, url: string ensures AgreeOn(hash, Run(hash, map[], ops), MockRun(map[], ops), url) {
        AgreeAfter(hash, ops, url);
      }
      forall ops: seq<Op>, url: string | TimedInMillis(ops) && url in MockRun(map[], ops)
        ensures hash(url) in Run(hash, map[], ops) && Same(Run(hash, map[], ops)[hash(url)], MockRun(map[], ops)[url])
      {
        SameAfterMillis(hash, ops, url);
      }
    } else {
      var u, v :| hash(u) == hash(v) && u != v;
      var ops := [Upsert(PendingRecord(u, 1), 1)];
      assert ops[..0] == [];
      assert !AgreeOn(hash, Run(hash, map[], ops), MockRun(map[], ops), v);
    }
  }
}
