/** The worker's handler: mark fetching, fetch, write ready or failed. */
module Worker {
  import opened Types
  import opened Store
  import opened Fetcher
  import opened Pipeline
  import M = Mongo

  datatype HandlerEnv = HandlerEnv(markAt: Time, mark: Reply, exchange: Exchange, writeAt: Time, write: Reply)

  /** The store after one attempt, and the handler's error if it failed. */
  datatype Handled = Handled(store: Records, err: Option<string>)

  function Handle(c: Config, store: Records, url: string, env: HandlerEnv): Handled {
    var s1 := if Applied(env.mark) then Apply(c.hash, store, SetStatus(url, Fetching, None, env.markAt)) else store;
    match OutcomeOf(env.exchange, c.pageSourceStorage)
    case FetchError(cause) =>
      Handled(if Applied(env.write) then Apply(c.hash, s1, SetStatus(url, Failed, None, env.writeAt)) else s1,
              Some("fetch url " + url + ": " + cause))
    case Fetched(result) =>
      Handled(if Applied(env.write) then Apply(c.hash, s1, SetStatus(url, Ready, Some(result), env.writeAt)) else s1,
              if env.write.Done? then None
              else Some("update db for " + url + ": " + ("update status: " + env.write.cause)))
  }

  predicate FetchFails(c: Config, env: HandlerEnv) {
    OutcomeOf(env.exchange, c.pageSourceStorage).FetchError?
  }

  predicate Succeeds(c: Config, env: HandlerEnv) {
    !FetchFails(c, env) && env.write.Done?
  }

  /** The text of the error that a failed attempt reports. */
  function ErrorText(c: Config, url: string, env: HandlerEnv): string {
    if env.exchange.Refused? then "fetch url " + url + ": " + env.exchange.cause
    else if c.pageSourceStorage && BreaksOff(env.exchange) then
      "fetch url " + url + ": " + "read body: " + env.exchange.bodyError.value
    else if env.write.Error? then "update db for " + url + ": " + "update status: " + env.write.cause
    else ""
  }

  lemma ErrorsAreReported(c: Config, store: Records, url: string, env: HandlerEnv)
    ensures Handle(c, store, url, env).err == if Succeeds(c, env) then None else Some(ErrorText(c, url, env))
    ensures FetchFails(c, env) <==> env.exchange.Refused? || (c.pageSourceStorage && BreaksOff(env.exchange))
  {
    OutcomeIs(env.exchange, c.pageSourceStorage);
    var start := "fetch url " + url + ": ";
    if env.exchange.Responded? && env.exchange.bodyError.Some? {
      var cause := env.exchange.bodyError.value;
      assert start + ("read body: " + cause) == start + "read body: " + cause;
    }
    if env.write.Error? {
      var update := "update db for " + url + ": ";
      assert update + ("update status: " + env.write.cause) == update + "update status: " + env.write.cause;
    }
  }

  lemma ErrorMeansFailure(c: Config, store: Records, url: string, env: HandlerEnv)
    ensures Handle(c, store, url, env).err.None? <==> Succeeds(c, env)
  {}

  class Worker {
    const repo: M.MongoRepository
    const fetcher: HTTPFetcher
    const pageSourceStorage: bool

    constructor (repo: M.MongoRepository, fetcher: HTTPFetcher, pageSourceStorage: bool)
      ensures this.repo == repo && this.fetcher == fetcher && this.pageSourceStorage == pageSourceStorage
    {
      this.repo, this.fetcher, this.pageSourceStorage := repo, fetcher, pageSourceStorage;
    }

    method HandleMessage(url: string, env: HandlerEnv, ghost c: Config) returns (err: Option<string>)
      requires repo.Valid() && c.hash == repo.hash && c.pageSourceStorage == pageSourceStorage
      modifies repo
      ensures repo.Valid()
      ensures var h := Handle(c, old(repo.contents), url, env); repo.contents == h.store && err == h.err
    {
      var _ := repo.UpdateStatus(url, Fetching, None, env.markAt, env.mark);
      var page := fetcher.Fetch(env.exchange, pageSourceStorage);
      if page.Failure? {
        var _ := repo.UpdateStatus(url, Failed, None, env.writeAt, env.write);
        return Some("fetch url " + url + ": " + page.cause);
      }
      var p := page.value;
      var cookies := ConvertCookies(p.cookies);
      var result := FetchResult(p.headers, cookies, p.pageSource, p.pageSourceSizeBytes,
                                p.fetchDurationMs, p.fetchedAt);
      assert OutcomeOf(env.exchange, c.pageSourceStorage) == Fetched(result);
      var writeErr := repo.UpdateStatus(url, Ready, Some(result), env.writeAt, env.write);
      if writeErr.Some? {
        return Some("update db for " + url + ": " + writeErr.value);
      }
      err := None;
    }
  }
}
