/** The API side: one uninterrupted call of each endpoint, as code and as a run of the pipeline. */
module Service {
  import opened Types
  import opened Store
  import opened Fetcher
  import opened Pipeline
  import opened Producer
  import M = Mongo

  /** What the environment answers to the calls of one POST, in the order they come. */
  datatype PostEnv = PostEnv(
    find: Reply,
    createdAt: Time, upsertAt: Time, upsert: Reply,
    requestedAt: Time, publish: Reply,
    markAt: Time, mark: Reply,
    exchange: Exchange,
    writeAt: Time, write: Reply,
    refind: Reply)

  datatype GetEnv =
    GetEnv(find: Reply, createdAt: Time, upsertAt: Time, upsert: Reply, requestedAt: Time, publish: Reply)

  /** The store after a call, whether it queued a message, and what it returns. */
  datatype CallResult = CallResult(store: Records, published: bool, outcome: Outcome)

  function Written(c: Config, store: Records, reply: Reply, op: Op): Records {
    if Applied(reply) then Apply(c.hash, store, op) else store
  }

  function Found(c: Config, store: Records, url: string, reply: Reply): Outcome {
    if reply.Done? then Returned(Lookup(c.hash, store, url), true) else Rejected(DatabaseError)
  }

  function Submit(c: Config, store: Records, url: string, env: PostEnv): CallResult {
    var found := Lookup(c.hash, store, url);
    if env.find.Error? then CallResult(store, false, Rejected(DatabaseError))
    else if found.Some? && !found.value.status.Failed? then CallResult(store, false, Returned(found, false))
    else
      var s1 := Written(c, store, env.upsert, Upsert(PendingRecord(url, env.createdAt), env.upsertAt));
      if env.upsert.Error? then CallResult(s1, false, Rejected(DatabaseError))
      else if c.asyncFetchOnly then
        CallResult(s1, Applied(env.publish),
                   if env.publish.Error? then Rejected(KafkaError) else Found(c, s1, url, env.refind))
      else SubmitInline(c, s1, url, env)
  }

  function SubmitInline(c: Config, s1: Records, url: string, env: PostEnv): CallResult {
    var s2 := Written(c, s1, env.mark, SetStatus(url, Fetching, None, env.markAt));
    match OutcomeOf(env.exchange, c.pageSourceStorage)
    case FetchError(_) =>
      CallResult(Written(c, s2, env.write, SetStatus(url, Failed, None, env.writeAt)), false, Rejected(FetchFailed))
    case Fetched(result) =>
      var s3 := Written(c, s2, env.write, SetStatus(url, Ready, Some(result), env.writeAt));
      CallResult(s3, false, if env.write.Error? then Rejected(DatabaseError) else Found(c, s3, url, env.refind))
  }

  function Query(c: Config, store: Records, url: string, env: GetEnv): CallResult {
    var found := Lookup(c.hash, store, url);
    if env.find.Error? then CallResult(store, false, Rejected(DatabaseError))
    else if found.Some? && found.value.status.Ready? then CallResult(store, false, Returned(found, false))
    else if found.Some? && InProgress(found.value.status) then CallResult(store, false, Returned(None, true))
    else
      var s1 := Written(c, store, env.upsert, Upsert(PendingRecord(url, env.createdAt), env.upsertAt));
      if env.upsert.Error? then CallResult(s1, false, Rejected(DatabaseError))
      else CallResult(s1, Applied(env.publish),
                      if env.publish.Done? then Returned(None, true) else Rejected(KafkaError))
  }

  lemma InlineFailed(c: Config, s1: Records, url: string, env: PostEnv)
    requires OutcomeOf(env.exchange, c.pageSourceStorage).FetchError?
    ensures var s2 := Written(c, s1, env.mark, SetStatus(url, Fetching, None, env.markAt));
      SubmitInline(c, s1, url, env)
      == CallResult(Written(c, s2, env.write, SetStatus(url, Failed, None, env.writeAt)), false, Rejected(FetchFailed))
  {}

  lemma InlineFetched(c: Config, s1: Records, url: string, env: PostEnv)
    requires OutcomeOf(env.exchange, c.pageSourceStorage).Fetched?
    ensures var s2 := Written(c, s1, env.mark, SetStatus(url, Fetching, None, env.markAt));
      var result := OutcomeOf(env.exchange, c.pageSourceStorage).result;
      var s3 := Written(c, s2, env.write, SetStatus(url, Ready, Some(result), env.writeAt));
      SubmitInline(c, s1, url, env)
      == CallResult(s3, false, if env.write.Error? then Rejected(DatabaseError) else Found(c, s3, url, env.refind))
  {}

  class MetadataService {
    const repo: M.MongoRepository
    const producer: KafkaProducer
    const fetcher: HTTPFetcher
    const asyncFetchOnly: bool
    const pageSourceStorage: bool

    constructor (repo: M.MongoRepository, producer: KafkaProducer, fetcher: HTTPFetcher, asyncFetchOnly: bool,
          pageSourceStorage: bool)
      ensures this.repo == repo && this.producer == producer && this.fetcher == fetcher
      ensures this.asyncFetchOnly == asyncFetchOnly && this.pageSourceStorage == pageSourceStorage
    {
      this.repo, this.producer, this.fetcher := repo, producer, fetcher;
      this.asyncFetchOnly, this.pageSourceStorage := asyncFetchOnly, pageSourceStorage;
    }

    /** The retry limit plays no part in a call. */
    function Cfg(): Config {
      Config(repo.hash, 0, asyncFetchOnly, pageSourceStorage)
    }

    ghost predicate Valid()
      reads repo
    {
      repo.Valid()
    }

    method DispatchAsyncFetch(url: string, source: string, requestedAt: Time, requestID: string, chosen: nat,
        reply: Reply)
      returns (ok: bool)
      requires chosen < |producer.partitions|
      modifies producer
      ensures ok == reply.Done?
      ensures Applied(reply) ==>
        Queues(old(producer.partitions), producer.partitions, chosen, url, source, requestedAt, requestID)
      ensures !Applied(reply) ==> producer.partitions == old(producer.partitions)
      ensures FollowsTopic(old(producer.partitions), producer.partitions, url, Applied(reply))
    {
      var err := producer.Publish(FetchRequest(MESSAGE_VERSION, url, requestedAt, requestID, source), chosen, reply);
      if Applied(reply) {
        QueuesOneRequest(old(producer.partitions), producer.partitions, chosen, url, source, requestedAt, requestID);
      }
      ok := err.None?;
    }

    method SubmitURL(url: string, env: PostEnv, requestID: string, chosen: nat) returns (outcome: Outcome)
      requires Valid() && chosen < |producer.partitions|
      modifies repo, producer
      ensures Valid()
      ensures var r := Submit(Cfg(), old(repo.contents), url, env);
        && outcome == r.outcome && repo.contents == r.store
        && (r.published ==>
             Queues(old(producer.partitions), producer.partitions, chosen, url, "api-post", env.requestedAt, requestID))
        && (!r.published ==> producer.partitions == old(producer.partitions))
        && FollowsTopic(old(producer.partitions), producer.partitions, url, r.published)
    {
      var existing := repo.FindByURL(url, env.find);
      if existing.Failure? {
        return Rejected(DatabaseError);
      }
      var found := existing.value;
      if found.Some? && found.value.status.Ready? {
        return Returned(found, false);
      }
      if found.Some? && InProgress(found.value.status) {
        return Returned(found, false);
      }

      var err := repo.Upsert(PendingRecord(url, env.createdAt), env.upsertAt, env.upsert);
      ghost var s1 := repo.contents;
      assert s1 == Written(Cfg(), old(repo.contents), env.upsert,
                           Upsert(PendingRecord(url, env.createdAt), env.upsertAt));
      if err.Some? {
        return Rejected(DatabaseError);
      }

      if asyncFetchOnly {
        var ok := DispatchAsyncFetch(url, "api-post", env.requestedAt, requestID, chosen, env.publish);
        if !ok {
          return Rejected(KafkaError);
        }
        var queued := repo.FindByURL(url, env.refind);
        return if queued.Failure? then Rejected(DatabaseError) else Returned(queued.value, true);
      }

      assert Submit(Cfg(), old(repo.contents), url, env) == SubmitInline(Cfg(), s1, url, env);
      var _ := repo.UpdateStatus(url, Fetching, None, env.markAt, env.mark);
      var page := fetcher.Fetch(env.exchange, pageSourceStorage);
      if page.Failure? {
        var _ := repo.UpdateStatus(url, Failed, None, env.writeAt, env.write);
        InlineFailed(Cfg(), s1, url, env);
        return Rejected(FetchFailed);
      }
      var p := page.value;
      var cookies := ConvertCookies(p.cookies);
      var result := FetchResult(p.headers, cookies, p.pageSource, p.pageSourceSizeBytes,
                                p.fetchDurationMs, p.fetchedAt);
      assert OutcomeOf(env.exchange, pageSourceStorage) == Fetched(result);
      var writeErr := repo.UpdateStatus(url, Ready, Some(result), env.writeAt, env.write);
      InlineFetched(Cfg(), s1, url, env);
      if writeErr.Some? {
        return Rejected(DatabaseError);
      }
      var final := repo.FindByURL(url, env.refind);
      outcome := if final.Failure? then Rejected(DatabaseError) else Returned(final.value, true);
    }

    method GetMetadata(url: string, env: GetEnv, requestID: string, chosen: nat) returns (outcome: Outcome)
      requires Valid() && chosen < |producer.partitions|
      modifies repo, producer
      ensures Valid()
      ensures var r := Query(Cfg(), old(repo.contents), url, env);
        && outcome == r.outcome && repo.contents == r.store
        && (r.published ==>
             Queues(old(producer.partitions), producer.partitions, chosen, url, "api-get", env.requestedAt, requestID))
        && (!r.published ==> producer.partitions == old(producer.partitions))
        && FollowsTopic(old(producer.partitions), producer.partitions, url, r.published)
    {
      var existing := repo.FindByURL(url, env.find);
      if existing.Failure? {
        return Rejected(DatabaseError);
      }
      var found := existing.value;
      if found.Some? && found.value.status.Ready? {
        return Returned(found, false);
      }
      if found.Some? && InProgress(found.value.status) {
        return Returned(None, true);
      }
      var err := repo.Upsert(PendingRecord(url, env.createdAt), env.upsertAt, env.upsert);
      if err.Some? {
        return Rejected(DatabaseError);
      }
      var ok := DispatchAsyncFetch(url, "api-get", env.requestedAt, requestID, chosen, env.publish);
      outcome := if ok then Returned(None, true) else Rejected(KafkaError);
    }
  }

  /** One message more, on the chosen partition: its key and its request's URL are `url`, and the
      request names the source, the time and the HTTP request it comes from. */
  ghost predicate Queues(before: seq<seq<Message>>, after: seq<seq<Message>>, chosen: nat,
                         url: string, source: string, requestedAt: Time, requestID: string)
  {
    && chosen < |before| == |after| && (forall k :: 0 <= k < |before| && k != chosen ==> after[k] == before[k])
    && |after[chosen]| == |before[chosen]| + 1 && after[chosen][..|before[chosen]|] == before[chosen]
    && var m := after[chosen][|before[chosen]|];
       && m.key == url && m.value.Decoded?
       && m.value.request.url == url && m.value.request.source == source && m.value.request.version == "1"
       && m.value.request.requestedAt == requestedAt && m.value.request.requestID == requestID
  }

  /** The URLs that the messages of one partition ask for. */
  function RequestedOn(messages: seq<Message>): multiset<string> {
    if messages == [] then multiset{}
    else
      var m := messages[|messages| - 1];
      RequestedOn(messages[..|messages| - 1]) + if m.value.Decoded? then multiset{m.value.request.url} else multiset{}
  }

  function Requested(partitions: seq<seq<Message>>): multiset<string> {
    if partitions == [] then multiset{}
    else Requested(partitions[..|partitions| - 1]) + RequestedOn(partitions[|partitions| - 1])
  }

  /** The partitions hold a request for each URL of the pipeline's topic, and no others. */
  ghost predicate Carries(partitions: seq<seq<Message>>, topic: seq<string>) {
    Requested(partitions) == multiset(topic)
  }

  lemma {:induction false} QueuesOneRequest(before: seq<seq<Message>>, after: seq<seq<Message>>, chosen: nat,
        url: string, source: string, requestedAt: Time, requestID: string)
    requires Queues(before, after, chosen, url, source, requestedAt, requestID)
    ensures Requested(after) == Requested(before) + multiset{url}
    decreases |before|
  {
    var n := |before| - 1;
    if chosen == n {
      assert after[..n] == before[..n];
    } else {
      QueuesOneRequest(before[..n], after[..n], chosen, url, source, requestedAt, requestID);
    }
  }

  /** If the partitions carry a topic, they still do once a call has, or has not, queued its message. */
  ghost predicate FollowsTopic(before: seq<seq<Message>>, after: seq<seq<Message>>, url: string, published: bool) {
    forall topic :: Carries(before, topic) ==> Carries(after, Queue(topic, url, published))
  }

  // ---- An uninterrupted call is a run of the pipeline ----

  /** What one process sees and changes when nothing interleaves with it. */
  datatype Solo = Solo(store: Records, proc: Proc, topic: seq<string>, settled: set<nat>)

  function Took(c: Config, x: Solo, ch: Choice): Solo
    requires CanAct(x.proc, ch)
  {
    var e := Act(c, x.store, x.proc, ch);
    Solo(StoreAfter(c, x.store, e), e.next, if e.publishes then x.topic + [e.next.url] else x.topic,
         x.settled + SettledBy(e.next))
  }

  /** One process acting alone; choices it cannot take are passed over. */
  function Alone(c: Config, x: Solo, chs: seq<Choice>): Solo
    decreases |chs|
  {
    if chs == [] then x
    else if CanAct(x.proc, chs[0]) then Alone(c, Took(c, x, chs[0]), chs[1..])
    else Alone(c, x, chs[1..])
  }

  function Steps(n: nat, chs: seq<Choice>): seq<Label> {
    if chs == [] then [] else [Step(n, chs[0])] + Steps(n, chs[1..])
  }

  ghost predicate Shows(s: State, x: Solo) {
    s.store == x.store && s.topic == x.topic && s.settled == x.settled
  }

  lemma {:induction false} AloneIsARun(c: Config, s: State, i: nat, x: Solo, chs: seq<Choice>)
    requires i < |s.procs| && s.procs[i] == x.proc && Shows(s, x)
    ensures var s', x' := Exec(c, s, Steps(i, chs)), Alone(c, x, chs);
      Shows(s', x') && s'.procs == s.procs[i := x'.proc]
    decreases |chs|
  {
    if chs != [] {
      assert Steps(i, chs)[1..] == Steps(i, chs[1..]);
      var s1 := Next(c, s, Step(i, chs[0]));
      if CanAct(x.proc, chs[0]) {
        AloneIsARun(c, s1, i, Took(c, x, chs[0]), chs[1..]);
      } else {
        AloneIsARun(c, s1, i, x, chs[1..]);
      }
    }
  }

  function PostChoices(c: Config, env: PostEnv): seq<Choice> {
    [Call(env.find, ZERO_TIME, ZERO_TIME)] + ([Call(env.upsert, env.createdAt, env.upsertAt)] + FetchChoices(c, env))
  }

  function InlineChoices(c: Config, env: PostEnv): seq<Choice> {
    [Pipeline.Fetch(OutcomeOf(env.exchange, c.pageSourceStorage))] +
    ([Call(env.write, ZERO_TIME, env.writeAt)] + ([Call(env.refind, ZERO_TIME, ZERO_TIME)] + []))
  }

  function GetChoices(env: GetEnv): seq<Choice> {
    [Call(env.find, ZERO_TIME, ZERO_TIME)] +
    ([Call(env.upsert, env.createdAt, env.upsertAt)] + ([Call(env.publish, ZERO_TIME, ZERO_TIME)] + []))
  }

  lemma AloneCons(c: Config, x: Solo, ch: Choice, rest: seq<Choice>)
    requires CanAct(x.proc, ch)
    ensures Alone(c, x, [ch] + rest) == Alone(c, Took(c, x, ch), rest)
  {}

  lemma {:induction false} FinishedStays(c: Config, x: Solo, chs: seq<Choice>)
    requires (x.proc.Post? && x.proc.post.PostDone?) || (x.proc.Get? && x.proc.get.GetDone?)
    ensures Alone(c, x, chs) == x
    decreases |chs|
  {
    if chs != [] {
      FinishedStays(c, x, chs[1..]);
    }
  }

  /** The topic with the message a call has, or has not, queued. */
  function Queue(topic: seq<string>, url: string, published: bool): seq<string> {
    if published then topic + [url] else topic
  }

  lemma QueryAlone(c: Config, x0: Solo, url: string, env: GetEnv)
    requires x0.proc == Get(url, GetFind)
    ensures var r := Query(c, x0.store, url, env);
      Alone(c, x0, GetChoices(env))
      == Solo(r.store, Get(url, GetDone(r.outcome)), Queue(x0.topic, url, r.published), x0.settled)
  {
    var chs := GetChoices(env);
    var last := [chs[2]] + [];
    AloneCons(c, x0, chs[0], [chs[1]] + last);
    var x1 := Took(c, x0, chs[0]);
    if x1.proc.get.GetDone? {
      FinishedStays(c, x1, [chs[1]] + last);
    } else {
      AloneCons(c, x1, chs[1], last);
      var x2 := Took(c, x1, chs[1]);
      if x2.proc.get.GetDone? { FinishedStays(c, x2, last); } else { AloneCons(c, x2, chs[2], []); }
    }
  }

  lemma InlineAlone(c: Config, s1: Records, x0: Solo, url: string, env: PostEnv)
    requires x0.proc == Post(url, PostFetch)
    requires x0.store == Written(c, s1, env.mark, SetStatus(url, Fetching, None, env.markAt))
    ensures var r := SubmitInline(c, s1, url, env);
      && Alone(c, x0, InlineChoices(c, env)) == Solo(r.store, Post(url, PostDone(r.outcome)), x0.topic, x0.settled)
      && !r.published
  {
    var chs := InlineChoices(c, env);
    var last := [chs[2]] + [];
    AloneCons(c, x0, chs[0], [chs[1]] + last);
    var x1 := Took(c, x0, chs[0]);
    AloneCons(c, x1, chs[1], last);
    var x2 := Took(c, x1, chs[1]);
    if x2.proc.post.PostDone? { FinishedStays(c, x2, last); } else { AloneCons(c, x2, chs[2], []); }
  }

  lemma QueueAlone(c: Config, x0: Solo, url: string, env: PostEnv)
    requires x0.proc == Post(url, PostPublish)
    ensures var publish, refind := Call(env.publish, ZERO_TIME, ZERO_TIME), Call(env.refind, ZERO_TIME, ZERO_TIME);
      Alone(c, x0, [publish] + ([refind] + []))
      == Solo(x0.store,
              Post(url, PostDone(if env.publish.Error? then Rejected(KafkaError)
                                 else Found(c, x0.store, url, env.refind))),
              Queue(x0.topic, url, Applied(env.publish)), x0.settled)
  {
    var publish, refind := Call(env.publish, ZERO_TIME, ZERO_TIME), Call(env.refind, ZERO_TIME, ZERO_TIME);
    AloneCons(c, x0, publish, [refind] + []);
    var x1 := Took(c, x0, publish);
    if x1.proc.post.PostDone? { FinishedStays(c, x1, [refind] + []); } else { AloneCons(c, x1, refind, []); }
  }

  /** The choices of a POST after its upsert. */
  function FetchChoices(c: Config, env: PostEnv): seq<Choice> {
    if c.asyncFetchOnly then
      [Call(env.publish, ZERO_TIME, ZERO_TIME)] + ([Call(env.refind, ZERO_TIME, ZERO_TIME)] + [])
    else
      [Call(env.mark, ZERO_TIME, env.markAt)] + InlineChoices(c, env)
  }

  lemma FetchAlone(c: Config, x: Solo, url: string, env: PostEnv)
    requires x.proc == Post(url, if c.asyncFetchOnly then PostPublish else PostMark)
    ensures Alone(c, x, FetchChoices(c, env)) ==
      if c.asyncFetchOnly then
        Solo(x.store,
             Post(url, PostDone(if env.publish.Error? then Rejected(KafkaError)
                                else Found(c, x.store, url, env.refind))),
             Queue(x.topic, url, Applied(env.publish)), x.settled)
      else
        Solo(SubmitInline(c, x.store, url, env).store, Post(url, PostDone(SubmitInline(c, x.store, url, env).outcome)),
             x.topic, x.settled)
  {
    if c.asyncFetchOnly {
      QueueAlone(c, x, url, env);
    } else {
      var mark := Call(env.mark, ZERO_TIME, env.markAt);
      AloneCons(c, x, mark, InlineChoices(c, env));
      InlineAlone(c, x.store, Took(c, x, mark), url, env);
    }
  }

  lemma SubmitAlone(c: Config, x0: Solo, url: string, env: PostEnv)
    requires x0.proc == Post(url, PostFind)
    ensures var r := Submit(c, x0.store, url, env);
      Alone(c, x0, PostChoices(c, env))
      == Solo(r.store, Post(url, PostDone(r.outcome)), Queue(x0.topic, url, r.published), x0.settled)
  {
    var find, upsert := Call(env.find, ZERO_TIME, ZERO_TIME), Call(env.upsert, env.createdAt, env.upsertAt);
    var rest := FetchChoices(c, env);
    AloneCons(c, x0, find, [upsert] + rest);
    var x1 := Took(c, x0, find);
    if x1.proc.post.PostDone? {
      FinishedStays(c, x1, [upsert] + rest);
    } else {
      AloneCons(c, x1, upsert, rest);
      var x2 := Took(c, x1, upsert);
      if x2.proc.post.PostDone? {
        FinishedStays(c, x2, rest);
      } else {
        FetchAlone(c, x2, url, env);
      }
    }
  }

  /** What `SubmitURL` does when nothing interleaves with it is what the pipeline's steps
      do one after the other. */
  lemma SubmitIsARun(c: Config, s: State, url: string, env: PostEnv)
    ensures var r := Submit(c, s.store, url, env);
      var s' := Exec(c, s, [StartPost(url)] + Steps(|s.procs|, PostChoices(c, env)));
      && s'.store == r.store && s'.procs == s.procs + [Post(url, PostDone(r.outcome))]
      && s'.topic == Queue(s.topic, url, r.published) && s'.settled == s.settled
  {
    var ls := Steps(|s.procs|, PostChoices(c, env));
    assert ([StartPost(url)] + ls)[1..] == ls;
    var x := Solo(s.store, Post(url, PostFind), s.topic, s.settled);
    SubmitAlone(c, x, url, env);
    AloneIsARun(c, Next(c, s, StartPost(url)), |s.procs|, x, PostChoices(c, env));
  }

  lemma QueryIsARun(c: Config, s: State, url: string, env: GetEnv)
    ensures var r := Query(c, s.store, url, env);
      var s' := Exec(c, s, [StartGet(url)] + Steps(|s.procs|, GetChoices(env)));
      && s'.store == r.store && s'.procs == s.procs + [Get(url, GetDone(r.outcome))]
      && s'.topic == Queue(s.topic, url, r.published) && s'.settled == s.settled
  {
    var ls := Steps(|s.procs|, GetChoices(env));
    assert ([StartGet(url)] + ls)[1..] == ls;
    var x := Solo(s.store, Get(url, GetFind), s.topic, s.settled);
    QueryAlone(c, x, url, env);
    AloneIsARun(c, Next(c, s, StartGet(url)), |s.procs|, x, GetChoices(env));
  }
}
