/** Whole API calls seen as steps of a small map from URL hash to phase, with a queue beside it. */
module ApiMap {
  import opened Types
  import opened Store
  import opened Fetcher
  import opened Pipeline
  import opened Service
  import opened Http

  datatype Phase = Busy | Available | Broken

  function PhaseOf(status: Status): Phase {
    if status.Ready? then Available else if status.Failed? then Broken else Busy
  }

  /** The backend as the clients of the API see it; a hash that is not in the map is absent. */
  datatype Api = Api(phases: map<string, Phase>, queue: seq<string>)

  /** The collection and the URLs queued so far. */
  datatype Backend = Backend(store: Records, queue: seq<string>)

  function Phases(store: Records): map<string, Phase> {
    map key | key in store :: PhaseOf(store[key].status)
  }

  function Abs(b: Backend): Api {
    Api(Phases(b.store), b.queue)
  }

  datatype ApiCall = PostCall(url: string, post: PostEnv) | GetCall(url: string, get: GetEnv)

  function ResultOf(c: Config, store: Records, call: ApiCall): CallResult {
    match call
    case PostCall(url, env) => Submit(c, store, url, env)
    case GetCall(url, env) => Query(c, store, url, env)
  }

  function Called(c: Config, b: Backend, call: ApiCall): Backend {
    var r := ResultOf(c, b.store, call);
    Backend(r.store, Queue(b.queue, call.url, r.published))
  }

  /** The status code of the answer. */
  function Answer(c: Config, b: Backend, call: ApiCall): int {
    var r := ResultOf(c, b.store, call);
    if call.PostCall? then PostResponse(r.outcome, "").status else GetResponse(call.url, r.outcome, "").status
  }

  function CalledAll(c: Config, b: Backend, calls: seq<ApiCall>): Backend
    decreases |calls|
  {
    if calls == [] then b else CalledAll(c, Called(c, b, calls[0]), calls[1..])
  }

  function Answers(c: Config, b: Backend, calls: seq<ApiCall>): seq<int>
    decreases |calls|
  {
    if calls == [] then [] else [Answer(c, b, calls[0])] + Answers(c, Called(c, b, calls[0]), calls[1..])
  }

  // ---- The map's specification ----

  predicate LookupSucceeds(call: ApiCall) {
    if call.PostCall? then call.post.find.Done? else call.get.find.Done?
  }

  /** What one call may do, under any faults, and how it then answers. An entry that is
      available or busy never changes, and the answer says which it is; an absent or broken
      one is replaced, by a fetch that only an inline POST makes, or by a message. */
  ghost predicate MapStep(c: Config, before: Api, call: ApiCall, status: int, after: Api) {
    var key, inlined := c.hash(call.url), call.PostCall? && !c.asyncFetchOnly;
    if !LookupSucceeds(call) then after == before && status == 500
    else if key in before.phases && before.phases[key] == Available then after == before && status == 200
    else if key in before.phases && before.phases[key] == Busy then after == before && status == 202
    else
      || (after == before && status == 500)
      || (after == Api(before.phases[key := Busy], before.queue) && (status == 500 || (inlined && status == 422)))
      || (!inlined && after == Api(before.phases[key := Busy], before.queue + [call.url]) && status in {202, 500})
      || (inlined && after == Api(before.phases[key := Available], before.queue) && status in {201, 500})
      || (inlined && after == Api(before.phases[key := Broken], before.queue) && status == 422)
  }

  /** A sequence of such steps. */
  ghost predicate MapRun(c: Config, before: Api, calls: seq<ApiCall>, statuses: seq<int>, after: Api)
    decreases |calls|
  {
    && |statuses| == |calls|
    && if calls == [] then after == before
       else exists mid ::
            MapStep(c, before, calls[0], statuses[0], mid) && MapRun(c, mid, calls[1..], statuses[1..], after)
  }

  predicate Faultless(call: ApiCall) {
    match call
    case PostCall(_, env) =>
      env.find.Done? && env.upsert.Done? && env.publish.Done? && env.mark.Done? && env.write.Done? && env.refind.Done?
    case GetCall(_, env) => env.find.Done? && env.upsert.Done? && env.publish.Done?
  }

  datatype Answered = Answered(api: Api, status: int)

  /** What a call does when nothing fails but, perhaps, the fetch itself. */
  function Ideal(c: Config, a: Api, call: ApiCall): Answered {
    var key := c.hash(call.url);
    if key in a.phases && a.phases[key] == Available then Answered(a, 200)
    else if key in a.phases && a.phases[key] == Busy then Answered(a, 202)
    else if call.GetCall? || c.asyncFetchOnly then Answered(Api(a.phases[key := Busy], a.queue + [call.url]), 202)
    else if OutcomeOf(call.post.exchange, c.pageSourceStorage).Fetched? then
      Answered(a.(phases := a.phases[key := Available]), 201)
    else Answered(a.(phases := a.phases[key := Broken]), 422)
  }

  ghost predicate IdealRun(c: Config, before: Api, calls: seq<ApiCall>, statuses: seq<int>, after: Api)
    decreases |calls|
  {
    && |statuses| == |calls|
    && if calls == [] then after == before
       else
         var first := Ideal(c, before, calls[0]);
         statuses[0] == first.status && IdealRun(c, first.api, calls[1..], statuses[1..], after)
  }

  // ---- One call refines one step ----

  lemma PhasesAfter(c: Config, store: Records, op: Op)
    ensures op.Upsert? ==>
      Phases(Apply(c.hash, store, op)) == Phases(store)[c.hash(op.record.url) := PhaseOf(op.record.status)]
    ensures op.SetStatus? && c.hash(op.url) in store ==>
      Phases(Apply(c.hash, store, op)) == Phases(store)[c.hash(op.url) := PhaseOf(op.status)]
  {}

  lemma WrittenPhases(c: Config, before: map<string, Phase>, s1: Records, url: string, reply: Reply, op: Op)
    requires op.SetStatus? && op.url == url && c.hash(url) in s1 && Phases(s1) == before[c.hash(url) := Busy]
    ensures var s2 := Written(c, s1, reply, op);
      c.hash(url) in s2 && Phases(s2) == before[c.hash(url) := if Applied(reply) then PhaseOf(op.status) else Busy]
  {
    PhasesAfter(c, s1, op);
    assert before[c.hash(url) := Busy][c.hash(url) := PhaseOf(op.status)] == before[c.hash(url) := PhaseOf(op.status)];
  }

  /** How an inline fetch ends for an entry that was absent or broken and is now busy. */
  ghost predicate InlineStep(before: map<string, Phase>, key: string, fetched: bool, write: Reply, refind: Reply,
        after: map<string, Phase>, status: int) {
    if fetched then
      && after == before[key := if Applied(write) then Available else Busy]
      && status == if write.Done? && refind.Done? then 201 else 500
    else after == before[key := if Applied(write) then Broken else Busy] && status == 422
  }

  lemma InlineRefines(c: Config, before: map<string, Phase>, s1: Records, url: string, env: PostEnv)
    requires c.hash(url) in s1 && Phases(s1) == before[c.hash(url) := Busy]
    ensures var r := SubmitInline(c, s1, url, env);
      !r.published && InlineStep(before, c.hash(url),
                                 OutcomeOf(env.exchange, c.pageSourceStorage).Fetched?, env.write, env.refind,
                                 Phases(r.store), PostResponse(r.outcome, "").status)
  {
    var s2 := Written(c, s1, env.mark, SetStatus(url, Fetching, None, env.markAt));
    WrittenPhases(c, before, s1, url, env.mark, SetStatus(url, Fetching, None, env.markAt));
    match OutcomeOf(env.exchange, c.pageSourceStorage)
    case FetchError(_) => WrittenPhases(c, before, s2, url, env.write, SetStatus(url, Failed, None, env.writeAt));
    case Fetched(result) =>
      WrittenPhases(c, before, s2, url, env.write, SetStatus(url, Ready, Some(result), env.writeAt));
  }

  lemma FreshInlineRefines(c: Config, b: Backend, url: string, env: PostEnv)
    requires env.find.Done? && env.upsert.Done? && !c.asyncFetchOnly
    requires c.hash(url) !in b.store || b.store[c.hash(url)].status.Failed?
    ensures Called(c, b, PostCall(url, env)).queue == b.queue
    ensures InlineStep(Phases(b.store), c.hash(url),
                       OutcomeOf(env.exchange, c.pageSourceStorage).Fetched?, env.write, env.refind,
                       Phases(Called(c, b, PostCall(url, env)).store), Answer(c, b, PostCall(url, env)))
  {
    var op := Upsert(PendingRecord(url, env.createdAt), env.upsertAt);
    var s1 := Apply(c.hash, b.store, op);
    PhasesAfter(c, b.store, op);
    assert Submit(c, b.store, url, env) == SubmitInline(c, s1, url, env);
    InlineRefines(c, Phases(b.store), s1, url, env);
  }

  /** The answer and the new state are those the map allows, and without faults those it prescribes. */
  ghost predicate Refines(c: Config, b: Backend, call: ApiCall) {
    && MapStep(c, Abs(b), call, Answer(c, b, call), Abs(Called(c, b, call)))
    && (Faultless(call) ==> Ideal(c, Abs(b), call) == Answered(Abs(Called(c, b, call)), Answer(c, b, call)))
  }

  predicate Replaceable(c: Config, store: Records, url: string) {
    c.hash(url) !in store || store[c.hash(url)].status.Failed?
  }

  lemma KeptRefines(c: Config, b: Backend, call: ApiCall)
    requires !LookupSucceeds(call) || !Replaceable(c, b.store, call.url)
    ensures Refines(c, b, call)
  {
    assert Called(c, b, call) == b;
  }

  lemma QueryRefines(c: Config, b: Backend, url: string, env: GetEnv)
    requires env.find.Done? && Replaceable(c, b.store, url)
    ensures Refines(c, b, GetCall(url, env))
  {
    var op := Upsert(PendingRecord(url, env.createdAt), env.upsertAt);
    PhasesAfter(c, b.store, op);
    assert Called(c, b, GetCall(url, env)).store == Written(c, b.store, env.upsert, op);
  }

  lemma QueuedSubmitRefines(c: Config, b: Backend, url: string, env: PostEnv)
    requires env.find.Done? && Replaceable(c, b.store, url) && (c.asyncFetchOnly || !env.upsert.Done?)
    ensures Refines(c, b, PostCall(url, env))
  {
    var op := Upsert(PendingRecord(url, env.createdAt), env.upsertAt);
    PhasesAfter(c, b.store, op);
    assert Called(c, b, PostCall(url, env)).store == Written(c, b.store, env.upsert, op);
  }

  lemma CallRefines(c: Config, b: Backend, call: ApiCall)
    ensures Refines(c, b, call)
  {
    if !LookupSucceeds(call) || !Replaceable(c, b.store, call.url) {
      KeptRefines(c, b, call);
    } else {
      match call
      case GetCall(url, env) => QueryRefines(c, b, url, env);
      case PostCall(url, env) =>
        if env.upsert.Done? && !c.asyncFetchOnly {
          FreshInlineRefines(c, b, url, env);
        } else {
          QueuedSubmitRefines(c, b, url, env);
        }
    }
  }

  // ---- Any sequence of calls ----

  /** Under any faults, any sequence of whole calls is, answer by answer, a run of the map. */
  lemma {:induction false} CallsRefineTheMap(c: Config, b: Backend, calls: seq<ApiCall>)
    ensures MapRun(c, Abs(b), calls, Answers(c, b, calls), Abs(CalledAll(c, b, calls)))
    decreases |calls|
  {
    if calls != [] {
      CallRefines(c, b, calls[0]);
      CallsRefineTheMap(c, Called(c, b, calls[0]), calls[1..]);
      assert Answers(c, b, calls)[1..] == Answers(c, Called(c, b, calls[0]), calls[1..]);
    }
  }

  /** Without faults the map, the queue and every answer are determined by the calls and by whether
      the pages could be fetched. */
  lemma {:induction false} FaultlessCallsAreIdeal(c: Config, b: Backend, calls: seq<ApiCall>)
    requires forall k :: 0 <= k < |calls| ==> Faultless(calls[k])
    ensures IdealRun(c, Abs(b), calls, Answers(c, b, calls), Abs(CalledAll(c, b, calls)))
    decreases |calls|
  {
    if calls != [] {
      CallRefines(c, b, calls[0]);
      FaultlessCallsAreIdeal(c, Called(c, b, calls[0]), calls[1..]);
      assert Answers(c, b, calls)[1..] == Answers(c, Called(c, b, calls[0]), calls[1..]);
    }
  }

  /** Every queued URL is busy, and no two share a hash. */
  ghost predicate QueuedOnce(c: Config, a: Api) {
    && (forall i :: 0 <= i < |a.queue| ==> c.hash(a.queue[i]) in a.phases && a.phases[c.hash(a.queue[i])] == Busy)
    && (forall i, j :: 0 <= i < j < |a.queue| ==> c.hash(a.queue[i]) != c.hash(a.queue[j]))
  }

  /** The map alone shows it: as long as no delivery runs, no URL is ever queued twice. */
  lemma {:induction false} MapQueuesOnce(c: Config, before: Api, calls: seq<ApiCall>, statuses: seq<int>, after: Api)
    requires QueuedOnce(c, before) && MapRun(c, before, calls, statuses, after)
    ensures QueuedOnce(c, after)
    decreases |calls|
  {
    if calls != [] {
      var mid :| MapStep(c, before, calls[0], statuses[0], mid) && MapRun(c, mid, calls[1..], statuses[1..], after);
      MapQueuesOnce(c, mid, calls[1..], statuses[1..], after);
    }
  }

  lemma CallsQueueOnce(c: Config, calls: seq<ApiCall>)
    ensures QueuedOnce(c, Abs(CalledAll(c, Backend(map[], []), calls)))
  {
    CallsRefineTheMap(c, Backend(map[], []), calls);
    MapQueuesOnce(c, Abs(Backend(map[], [])), calls, Answers(c, Backend(map[], []), calls),
                  Abs(CalledAll(c, Backend(map[], []), calls)));
  }

  /** With no worker about, a ready record survives any sequence of API calls, with any database
      and publish faults, down to the last field. */
  lemma {:induction false} ReadyIsFrozenForTheApi(c: Config, b: Backend, calls: seq<ApiCall>, key: string)
    requires key in b.store && b.store[key].status.Ready?
    ensures var after := CalledAll(c, b, calls).store; key in after && after[key] == b.store[key]
    decreases |calls|
  {
    if calls != [] {
      CallKeepsReady(c, b.store, calls[0], key);
      ReadyIsFrozenForTheApi(c, Called(c, b, calls[0]), calls[1..], key);
    }
  }

  lemma CallKeepsReady(c: Config, store: Records, call: ApiCall, key: string)
    requires key in store && store[key].status.Ready?
    ensures key in ResultOf(c, store, call).store && ResultOf(c, store, call).store[key] == store[key]
  {}
}
