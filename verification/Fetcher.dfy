/** How a fetch turns an HTTP exchange into the fields that get stored. */
module Fetcher {
  import opened Types

  datatype CookieInfo =
    CookieInfo(name: string, value: string, domain: string, path: string, httpOnly: bool, secure: bool)

  /** What the network did: no usable response, or one whose body may break off with an error. */
  datatype Exchange =
    | Refused(cause: string)
    | Responded(statusCode: int, header: Headers, cookies: seq<CookieInfo>, body: seq<byte>, bodyError: Option<string>,
                durationMs: int, fetchedAt: Time)

  datatype Page = Page(
    statusCode: int,
    headers: Headers,
    cookies: seq<CookieInfo>,
    pageSource: seq<byte>,
    pageSourceSizeBytes: int,
    fetchDurationMs: int,
    fetchedAt: Time)

  const BODY_LIMIT := 5 * 1024 * 1024
  const SENSITIVE_HEADERS := {"Set-Cookie", "Authorization"}
  const REDACTED := ["[REDACTED]"]

  function Sanitized(h: Headers): Headers {
    map key | key in h :: if key in SENSITIVE_HEADERS then REDACTED else h[key]
  }

  /** The first `BODY_LIMIT` bytes; an error beyond them is never seen. */
  function LimitedBody(body: seq<byte>, bodyError: Option<string>): Result<seq<byte>> {
    if |body| >= BODY_LIMIT then Success(body[..BODY_LIMIT])
    else if bodyError.Some? then Failure("read body: " + bodyError.value)
    else Success(body)
  }

  /** The body ends in an error within the first 5 MiB. */
  predicate BreaksOff(exchange: Exchange) {
    exchange.Responded? && exchange.bodyError.Some? && |exchange.body| < 5 * 1024 * 1024
  }

  /** A header as it is stored. */
  predicate HeadersShown(headers: Headers, header: Headers) {
    && headers.Keys == header.Keys
    && forall key :: key in headers ==>
         headers[key] == if key == "Set-Cookie" || key == "Authorization" then ["[REDACTED]"] else header[key]
  }

  /** A body as it is stored: its first 5 MiB, measured, if pages are wanted, and otherwise nothing. */
  predicate BodyShown(pageSource: seq<byte>, size: int, body: seq<byte>, wanted: bool) {
    && size == |pageSource|
    && pageSource == if !wanted then [] else if |body| <= 5 * 1024 * 1024 then body else body[..5 * 1024 * 1024]
  }

  /** The page is that of the response, field by field. */
  predicate Shows(p: Page, exchange: Exchange, wanted: bool) {
    && exchange.Responded? && p.statusCode == exchange.statusCode && p.cookies == exchange.cookies
    && HeadersShown(p.headers, exchange.header) && BodyShown(p.pageSource, p.pageSourceSizeBytes, exchange.body, wanted)
    && p.fetchDurationMs == exchange.durationMs && p.fetchedAt == exchange.fetchedAt
  }

  /** What a fetch comes to, whatever computes it. */
  lemma OutcomeIs(exchange: Exchange, wanted: bool)
    ensures var o := OutcomeOf(exchange, wanted);
      && (o.FetchError? <==> exchange.Refused? || (wanted && BreaksOff(exchange)))
      && (o.FetchError? ==>
           o.cause == if exchange.Refused? then exchange.cause else "read body: " + exchange.bodyError.value)
      && (o.Fetched? ==>
           && HeadersShown(o.result.headers, exchange.header)
           && BodyShown(o.result.pageSource, o.result.pageSourceSizeBytes, exchange.body, wanted)
           && o.result.fetchDurationMs == exchange.durationMs && o.result.fetchedAt == exchange.fetchedAt
           && CookiesShown(o.result.cookies, exchange.cookies))
  {}

  predicate CookiesShown(records: seq<CookieRecord>, cookies: seq<CookieInfo>) {
    && |records| == |cookies|
    && forall i :: 0 <= i < |cookies| ==>
         && records[i].name == cookies[i].name && records[i].value == cookies[i].value
         && records[i].domain == cookies[i].domain && records[i].path == cookies[i].path
         && records[i].httpOnly == cookies[i].httpOnly && records[i].secure == cookies[i].secure
  }

  class HTTPFetcher {
    constructor () {}

    method Fetch(exchange: Exchange, includePageSource: bool) returns (r: Result<Page>)
      ensures r.Failure? <==> exchange.Refused? || (includePageSource && BreaksOff(exchange))
      ensures r.Failure? ==>
        r.cause == if exchange.Refused? then exchange.cause else "read body: " + exchange.bodyError.value
      ensures r.Success? ==> Shows(r.value, exchange, includePageSource)
      ensures r == FetchPage(exchange, includePageSource)
    {
      if exchange.Refused? {
        return Failure(exchange.cause);
      }
      var headers := SanitizeHeaders(exchange.header);
      var result := Page(exchange.statusCode, headers, exchange.cookies, [], 0,
                         exchange.durationMs, exchange.fetchedAt);
      if includePageSource {
        var body := LimitedBody(exchange.body, exchange.bodyError);
        if body.Failure? {
          return Failure(body.cause);
        }
        result := result.(pageSource := body.value, pageSourceSizeBytes := |body.value|);
      }
      r := Success(result);
    }
  }

  method SanitizeHeaders(h: Headers) returns (sanitized: Headers)
    ensures sanitized.Keys == h.Keys
    ensures forall key :: key in h ==>
      sanitized[key] == if key == "Set-Cookie" || key == "Authorization" then ["[REDACTED]"] else h[key]
    ensures sanitized == Sanitized(h)
  {
    sanitized := map[];
    var todo := h.Keys;
    while todo != {}
      invariant todo <= h.Keys && sanitized.Keys == h.Keys - todo
      invariant forall key :: key in sanitized ==>
        sanitized[key] == if key in SENSITIVE_HEADERS then REDACTED else h[key]
      decreases todo
    {
      var key :| key in todo;
      sanitized := sanitized[key := if key in SENSITIVE_HEADERS then REDACTED else h[key]];
      todo := todo - {key};
    }
  }

  function FetchPage(exchange: Exchange, includePageSource: bool): Result<Page> {
    if exchange.Refused? then Failure(exchange.cause) else
    var body := if includePageSource then LimitedBody(exchange.body, exchange.bodyError) else Success([]);
    if body.Failure? then Failure(body.cause) else
    Success(Page(exchange.statusCode, Sanitized(exchange.header), exchange.cookies, body.value, |body.value|,
                 exchange.durationMs, exchange.fetchedAt))
  }

  function ToCookieRecord(c: CookieInfo): CookieRecord {
    CookieRecord(c.name, c.value, c.domain, c.path, c.httpOnly, c.secure)
  }

  method ConvertCookies(cookies: seq<CookieInfo>) returns (records: seq<CookieRecord>)
    ensures CookiesShown(records, cookies)
    ensures records == CookieRecords(cookies)
  {
    var buffer := new CookieRecord[|cookies|];
    for i := 0 to |cookies|
      invariant forall j :: 0 <= j < i ==> buffer[j] == ToCookieRecord(cookies[j])
    {
      buffer[i] := ToCookieRecord(cookies[i]);
    }
    records := buffer[..];
  }

  function CookieRecords(cookies: seq<CookieInfo>): seq<CookieRecord> {
    seq(|cookies|, i requires 0 <= i < |cookies| => ToCookieRecord(cookies[i]))
  }

  /** The part of a page that the repository stores; the response's status code is not. */
  function ToFetchResult(p: Page): FetchResult {
    FetchResult(p.headers, CookieRecords(p.cookies), p.pageSource, p.pageSourceSizeBytes,
                p.fetchDurationMs, p.fetchedAt)
  }

  datatype FetchOutcome = Fetched(result: FetchResult) | FetchError(cause: string)

  function OutcomeOf(exchange: Exchange, includePageSource: bool): FetchOutcome {
    match FetchPage(exchange, includePageSource)
    case Success(page) => Fetched(ToFetchResult(page))
    case Failure(cause) => FetchError(cause)
  }
}
