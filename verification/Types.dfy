/** Values shared by every component: records, fetch results and the replies of foreign calls. */
module Types {

  datatype Option<+T> = None | Some(value: T)

  datatype Result<+T> = Success(value: T) | Failure(cause: string)

  type byte = x: int | 0 <= x < 256

  /** Nanoseconds since Go's zero time, so the zero `time.Time` is 0. */
  type Time = int

  const ZERO_TIME: Time := 0
  const NANOS_PER_MILLI := 1_000_000

  const MAX_INT64 := 0x7fff_ffff_ffff_ffff

  /** Two's complement, as Go's `time.Duration` multiplies. */
  function WrapInt64(x: int): int {
    (x + 0x8000_0000_0000_0000) % 0x1_0000_0000_0000_0000 - 0x8000_0000_0000_0000
  }

  /** A `time.Duration` in nanoseconds. */
  type Duration = d: int | -MAX_INT64 - 1 <= d <= MAX_INT64

  /** A BSON datetime keeps whole milliseconds. */
  function TruncMs(t: Time): Time {
    t - t % NANOS_PER_MILLI
  }

  function TruncOption(t: Option<Time>): Option<Time> {
    if t.Some? then Some(TruncMs(t.value)) else None
  }

  /** What a call to the database or the broker reports. A call that reports an
      error may or may not have taken effect on the server. */
  datatype Reply = Done | Error(applied: bool, cause: string)

  predicate Applied(reply: Reply) {
    reply.Done? || reply.applied
  }

  datatype Status = Pending | Fetching | Ready | Failed

  predicate InProgress(status: Status) {
    status.Pending? || status.Fetching?
  }

  datatype CookieRecord =
    CookieRecord(name: string, value: string, domain: string, path: string, httpOnly: bool, secure: bool)

  type Headers = map<string, seq<string>>

  datatype FetchResult = FetchResult(
    headers: Headers,
    cookies: seq<CookieRecord>,
    pageSource: seq<byte>,
    pageSourceSizeBytes: int,
    fetchDurationMs: int,
    fetchedAt: Time)

  datatype Record = Record(
    url: string,
    urlHash: string,
    status: Status,
    schemaVersion: int,
    headers: Headers,
    cookies: seq<CookieRecord>,
    pageSource: seq<byte>,
    pageSourceSizeBytes: int,
    error: string,
    retryCount: int,
    fetchDurationMs: int,
    fetchedAt: Option<Time>,
    createdAt: Time,
    updatedAt: Time)

  /** The record both endpoints store before they queue or start a fetch. */
  function PendingRecord(url: string, createdAt: Time): Record {
    Record(url, "", Pending, 0, map[], [], [], 0, "", 0, 0, None, createdAt, ZERO_TIME)
  }

  /** The fields that only a fetch fills are all empty. */
  predicate Blank(r: Record) {
    && r.headers == map[] && r.cookies == [] && r.pageSource == []
    && r.pageSourceSizeBytes == 0 && r.fetchDurationMs == 0 && r.fetchedAt.None?
  }

  /** The fields that only a fetch fills all come from `res`. */
  predicate Holds(r: Record, res: FetchResult) {
    && r.headers == res.headers && r.cookies == res.cookies && r.pageSource == res.pageSource
    && r.pageSourceSizeBytes == res.pageSourceSizeBytes && r.fetchDurationMs == res.fetchDurationMs
    && r.fetchedAt == Some(TruncMs(res.fetchedAt))
  }
}
