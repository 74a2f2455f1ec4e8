/** The Mongo collection seen through its unique `url_hash` index: a map from hash to record. */
module Store {
  import opened Types

  type UrlHash = string -> string
  type Records = map<string, Record>

  const SCHEMA_VERSION := 1

  ghost predicate Injective(hash: UrlHash) {
    forall u, v :: hash(u) == hash(v) ==> u == v
  }

  /** One write that reached the database. */
  datatype Op =
    | Upsert(record: Record, now: Time)
    | SetStatus(url: string, status: Status, result: Option<FetchResult>, now: Time)

  function KeyOf(hash: UrlHash, op: Op): string {
    hash(if op.Upsert? then op.record.url else op.url)
  }

  function Lookup(hash: UrlHash, s: Records, url: string): Option<Record> {
    if hash(url) in s then Some(s[hash(url)]) else None
  }

  /** `$set` overwrites every field but `created_at`, which `$setOnInsert` writes once. */
  function Stamped(hash: UrlHash, existing: Option<Record>, record: Record, now: Time): Record {
    record.(urlHash := hash(record.url),
            schemaVersion := SCHEMA_VERSION,
            fetchedAt := TruncOption(record.fetchedAt),
            createdAt := if existing.Some? then existing.value.createdAt
                         else TruncMs(if record.createdAt == ZERO_TIME then now else record.createdAt),
            updatedAt := TruncMs(now))
  }

  function WithStatus(r: Record, status: Status, result: Option<FetchResult>, now: Time): Record {
    var r1 := r.(status := status, updatedAt := TruncMs(now));
    var r2 := if result.None? then r1 else
      r1.(headers := result.value.headers,
          cookies := result.value.cookies,
          pageSource := result.value.pageSource,
          pageSourceSizeBytes := result.value.pageSourceSizeBytes,
          fetchDurationMs := result.value.fetchDurationMs,
          fetchedAt := Some(TruncMs(result.value.fetchedAt)));
    if status.Failed? then r2.(retryCount := r2.retryCount + 1) else r2
  }

  /** A status update that matches no record changes nothing and is not an error. */
  function Apply(hash: UrlHash, s: Records, op: Op): Records {
    var key := KeyOf(hash, op);
    match op
    case Upsert(record, now) => s[key := Stamped(hash, Lookup(hash, s, record.url), record, now)]
    case SetStatus(_, status, result, now) =>
      if key in s then s[key := WithStatus(s[key], status, result, now)] else s
  }

  function Run(hash: UrlHash, s: Records, ops: seq<Op>): Records {
    if ops == [] then s else Apply(hash, Run(hash, s, ops[..|ops| - 1]), ops[|ops| - 1])
  }

  lemma RunSnoc(hash: UrlHash, s: Records, ops: seq<Op>, op: Op)
    ensures Run(hash, s, ops + [op]) == Apply(hash, Run(hash, s, ops), op)
  {}

  // ---- What every history of writes keeps ----

  ghost predicate IndexConsistent(hash: UrlHash, s: Records) {
    forall key :: key in s ==>
      s[key].urlHash == key && hash(s[key].url) == key && s[key].schemaVersion == SCHEMA_VERSION
  }

  lemma ApplyKeepsIndex(hash: UrlHash, s: Records, op: Op)
    requires IndexConsistent(hash, s)
    ensures IndexConsistent(hash, Apply(hash, s, op))
    ensures s.Keys <= Apply(hash, s, op).Keys
  {}

  /** Whatever is written, every record sits under the hash of its own URL, two records never
      share a URL, and a lookup finds only a URL with the hash of the one asked for. */
  lemma {:induction false} HistoryKeepsIndex(hash: UrlHash, ops: seq<Op>)
    ensures var s := Run(hash, map[], ops);
      && IndexConsistent(hash, s)
      && (forall key :: key in s ==> s[key].urlHash == key == hash(s[key].url) && s[key].schemaVersion == 1)
      && (forall k1, k2 :: k1 in s && k2 in s && s[k1].url == s[k2].url ==> k1 == k2)
      && (forall url :: Lookup(hash, s, url).Some? ==> hash(Lookup(hash, s, url).value.url) == hash(url))
  {
    if ops != [] {
      HistoryKeepsIndex(hash, ops[..|ops| - 1]);
      ApplyKeepsIndex(hash, Run(hash, map[], ops[..|ops| - 1]), ops[|ops| - 1]);
    }
  }

  /** Records are never deleted and `created_at` is written once. */
  lemma {:induction false} CreatedAtIsFixed(hash: UrlHash, s: Records, ops: seq<Op>, key: string)
    requires key in s
    ensures key in Run(hash, s, ops) && Run(hash, s, ops)[key].createdAt == s[key].createdAt
  {
    if ops != [] {
      CreatedAtIsFixed(hash, s, ops[..|ops| - 1], key);
    }
  }

  /** The first upsert under `key`. */
  function FirstUpsert(hash: UrlHash, ops: seq<Op>, key: string): (first: Option<Op>)
    ensures first.Some? ==> first.value.Upsert? && KeyOf(hash, first.value) == key
  {
    if ops == [] then None
    else if FirstUpsert(hash, ops[..|ops| - 1], key).Some? then FirstUpsert(hash, ops[..|ops| - 1], key)
    else if ops[|ops| - 1].Upsert? && KeyOf(hash, ops[|ops| - 1]) == key then Some(ops[|ops| - 1])
    else None
  }

  /** `stored` is the whole millisecond that `t` falls in. */
  predicate MillisecondOf(stored: Time, t: Time) {
    stored <= t < stored + 1_000_000 && stored % 1_000_000 == 0
  }

  /** The creation time a caller gives, or the time of the write if it gives none. */
  function GivenCreation(createdAt: Time, now: Time): Time {
    if createdAt == 0 then now else createdAt
  }

  /** A record exists exactly if its key was ever upserted, and its `created_at` is the millisecond of the
      creation time given to the first upsert under that key. */
  lemma {:induction false} CreatedAtIsTheFirst(hash: UrlHash, ops: seq<Op>, key: string)
    ensures var s, first := Run(hash, map[], ops), FirstUpsert(hash, ops, key);
      && (key in s <==> first.Some?)
      && (key in s ==> MillisecondOf(s[key].createdAt, GivenCreation(first.value.record.createdAt, first.value.now)))
  {
    if ops != [] {
      CreatedAtIsTheFirst(hash, ops[..|ops| - 1], key);
    }
  }

  /** Failed writes for `key` since its last upsert, on top of the count that upsert stored. */
  function FailuresSinceUpsert(hash: UrlHash, ops: seq<Op>, key: string): int {
    if ops == [] then 0 else
    var op, before := ops[|ops| - 1], FailuresSinceUpsert(hash, ops[..|ops| - 1], key);
    if KeyOf(hash, op) != key then before
    else if op.Upsert? then op.record.retryCount
    else if op.status.Failed? then before + 1
    else before
  }

  lemma {:induction false} RetryCountCountsFailures(hash: UrlHash, ops: seq<Op>, key: string)
    requires key in Run(hash, map[], ops)
    ensures Run(hash, map[], ops)[key].retryCount == FailuresSinceUpsert(hash, ops, key)
  {
    if ops != [] && key in Run(hash, map[], ops[..|ops| - 1]) {
      RetryCountCountsFailures(hash, ops[..|ops| - 1], key);
    }
  }

  function LastWrite(hash: UrlHash, ops: seq<Op>, key: string): Option<Op> {
    if ops == [] then None
    else if KeyOf(hash, ops[|ops| - 1]) == key then Some(ops[|ops| - 1])
    else LastWrite(hash, ops[..|ops| - 1], key)
  }

  /** A record has the status that was written last, and the millisecond it was written in. */
  lemma {:induction false} LastWriteWins(hash: UrlHash, ops: seq<Op>, key: string)
    requires key in Run(hash, map[], ops)
    ensures var r, last := Run(hash, map[], ops)[key], LastWrite(hash, ops, key);
      && last.Some?
      && r.status == (if last.value.Upsert? then last.value.record.status else last.value.status)
      && r.updatedAt <= last.value.now < r.updatedAt + NANOS_PER_MILLI && r.updatedAt % NANOS_PER_MILLI == 0
  {
    if ops != [] && KeyOf(hash, ops[|ops| - 1]) != key {
      LastWriteWins(hash, ops[..|ops| - 1], key);
    }
  }
}
