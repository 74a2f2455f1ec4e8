/** What any stored record can contain when the HTTP fetcher does the fetching. */
module Content {
  import opened Types
  import opened Store
  import opened Fetcher
  import opened Pipeline
  import opened Safety

  /** The fetch step of this label is one the HTTP fetcher could have made. */
  ghost predicate FetchedByHttp(c: Config, l: Label) {
    l.Step? && l.choice.Fetch? ==> exists exchange :: l.choice.outcome == OutcomeOf(exchange, c.pageSourceStorage)
  }

  ghost predicate FromHttp(c: Config, res: FetchResult) {
    exists exchange :: OutcomeOf(exchange, c.pageSourceStorage) == Fetched(res)
  }

  lemma {:induction false} FetchesAreHttp(c: Config, s: State, ls: seq<Label>)
    requires forall f :: f in s.fetched ==> FromHttp(c, f.1)
    requires forall k :: 0 <= k < |ls| ==> FetchedByHttp(c, ls[k])
    ensures forall f :: f in Exec(c, s, ls).fetched ==> FromHttp(c, f.1)
    decreases |ls|
  {
    if ls != [] {
      FetchesAreHttp(c, Next(c, s, ls[0]), ls[1..]);
    }
  }

  /** The record's fields are those of one whole HTTP response: every header of it, with exactly the
      values of Set-Cookie and Authorization headers replaced; every cookie; its time and
      duration; and of its body the first 5 MiB if pages are stored, and nothing if they are
      not. A page is never that of a response that broke off below the limit. */
  ghost predicate ShowsResponse(c: Config, r: Record, exchange: Exchange) {
    && exchange.Responded?
    && HeadersShown(r.headers, exchange.header) && CookiesShown(r.cookies, exchange.cookies)
    && BodyShown(r.pageSource, r.pageSourceSizeBytes, exchange.body, c.pageSourceStorage)
    && (c.pageSourceStorage ==> exchange.bodyError.None? || |exchange.body| >= 5 * 1024 * 1024)
    && r.fetchDurationMs == exchange.durationMs
    && r.fetchedAt.Some? && MillisecondOf(r.fetchedAt.value, exchange.fetchedAt)
  }

  lemma HttpShows(c: Config, r: Record, res: FetchResult)
    requires FromHttp(c, res) && Holds(r, res)
    ensures exists exchange :: ShowsResponse(c, r, exchange)
    ensures r.pageSourceSizeBytes == |r.pageSource|
  {
    var exchange :| OutcomeOf(exchange, c.pageSourceStorage) == Fetched(res);
    OutcomeIs(exchange, c.pageSourceStorage);
    assert ShowsResponse(c, r, exchange);
  }

  /** In every run every record has its page's length beside it, at most 5 MiB, and no page when the
      feature is off; and unless no fetch has succeeded yet it shows one whole HTTP response with
      its two sensitive headers redacted. (The cookies set by the response are stored, in
      their own field.) */
  lemma StoredContentIsBounded(c: Config, ls: seq<Label>, key: string)
    requires forall k :: 0 <= k < |ls| ==> FetchedByHttp(c, ls[k])
    requires key in Exec(c, INIT, ls).store
    ensures var r := Exec(c, INIT, ls).store[key];
      && r.pageSourceSizeBytes == |r.pageSource| <= 5 * 1024 * 1024
      && (!c.pageSourceStorage ==> r.pageSource == [] && r.pageSourceSizeBytes == 0)
      && (Blank(r) || exists exchange :: ShowsResponse(c, r, exchange))
      && (r.status.Ready? ==> exists exchange :: ShowsResponse(c, r, exchange))
  {
    AllRunsAreSound(c, ls);
    FetchesAreHttp(c, INIT, ls);
    var s := Exec(c, INIT, ls);
    var r := s.store[key];
    if FromOneFetch(c, s.fetched, r) {
      var f :| f in s.fetched && c.hash(f.0) == c.hash(r.url) && Holds(r, f.1);
      HttpShows(c, r, f.1);
    }
  }
}
