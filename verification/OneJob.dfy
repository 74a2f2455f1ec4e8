/** How many jobs work on a URL when requests do not interleave with each other. */
module OneJob {
  import opened Types
  import opened Store
  import opened Fetcher
  import opened Pipeline
  import opened Progress
  import opened Service
  import opened Producer
  import opened Worker
  import opened Consumer
  import opened Delivery

  datatype World = World(store: Records, procs: seq<Proc>, topic: seq<string>, settled: set<nat>)

  /** A whole request, the start or one step of a delivery, or a whole delivery. */
  datatype Move =
    | CallPost(url: string, post: PostEnv)
    | CallGet(url: string, get: GetEnv)
    | Receive(msg: nat)
    | JobStep(i: nat, choice: Choice)
    | DeliverWhole(msg: nat, message: Message, env: DeliveryEnv)

  predicate CanStep(w: World, i: nat, ch: Choice) {
    i < |w.procs| && w.procs[i].Job? && CanAct(w.procs[i], ch)
  }

  function Make(c: Config, w: World, m: Move): World {
    match m
    case CallPost(url, env) =>
      var r := Submit(c, w.store, url, env);
      World(r.store, w.procs + [Post(url, PostDone(r.outcome))], Queue(w.topic, url, r.published), w.settled)
    case CallGet(url, env) =>
      var r := Query(c, w.store, url, env);
      World(r.store, w.procs + [Get(url, GetDone(r.outcome))], Queue(w.topic, url, r.published), w.settled)
    case Receive(n) =>
      if n < |w.topic| then
        var p := NewDelivery(c, w.topic[n], n);
        w.(procs := w.procs + [p], settled := w.settled + SettledBy(p))
      else w
    case JobStep(i, ch) =>
      if CanStep(w, i, ch) then
        var e := Act(c, w.store, w.procs[i], ch);
        World(StoreAfter(c, w.store, e), w.procs[i := e.next], w.topic, w.settled + SettledBy(e.next))
      else w
    case DeliverWhole(n, message, env) =>
      if CanDeliver(w.topic, n, message) then
        var p := Process(c, "", w.store, message, env);
        World(p.store, w.procs + [Concluded(w.topic[n], n, p)], w.topic, w.settled + if p.commit then {n} else {})
      else w
  }

  function MakeAll(c: Config, w: World, ms: seq<Move>): World
    decreases |ms|
  {
    if ms == [] then w else MakeAll(c, Make(c, w, ms[0]), ms[1..])
  }

  const EMPTY := World(map[], [], [], {})

  // ---- What is assumed of the moves ----

  /** An upsert that reports an error did not happen. */
  predicate Unambiguous(reply: Reply) {
    Applied(reply) ==> reply.Done?
  }

  /** Every delivery of message `n` so far has crashed. */
  ghost predicate Undelivered(w: World, n: nat) {
    n !in w.settled &&
    forall i :: 0 <= i < |w.procs| && w.procs[i].Job? && w.procs[i].msg == n ==> w.procs[i].job.JobCrashed?
  }

  /** No lost publishes or terminal writes, no second delivery of a message unless the first crashed with
      its work undone, and nothing passed over. */
  ghost predicate FaultFree(c: Config, w: World, m: Move) {
    match m
    case CallPost(_, env) => Unambiguous(env.upsert) && Applied(env.publish) && Applied(env.write)
    case CallGet(_, env) => Unambiguous(env.upsert) && Applied(env.publish)
    case Receive(n) => Undelivered(w, n)
    case JobStep(i, ch) =>
      CanStep(w, i, ch) ==>
        && (ch.Call? && WritesTerminal(w.procs[i]) ==> Applied(ch.reply))
        && (ch.Crash? ==> Live(w.procs[i]))
    case DeliverWhole(n, _, env) => Undelivered(w, n) && forall k: nat :: Applied(env.attempts(k).write)
  }

  /** Such a move, with deliveries that run step by step only without retries, and whole otherwise. */
  ghost predicate Orderly(c: Config, w: World, m: Move) {
    FaultFree(c, w, m) && c.maxRetries >= 0 && (m.Receive? || m.JobStep? ==> c.maxRetries == 0)
  }

  ghost predicate AllOrderly(c: Config, w: World, ms: seq<Move>)
    decreases |ms|
  {
    ms == [] || (Orderly(c, w, ms[0]) && AllOrderly(c, Make(c, w, ms[0]), ms[1..]))
  }

  // ---- The invariant ----

  /** Message `n` has still to be fetched: no delivery of it is done or waiting. */
  ghost predicate LiveMessage(w: World, n: nat) {
    n < |w.topic| &&
    forall i :: 0 <= i < |w.procs| && w.procs[i].Job? && w.procs[i].msg == n ==>
      Live(w.procs[i]) || w.procs[i].job.JobCrashed?
  }

  ghost predicate Working(c: Config, w: World, n: nat, key: string) {
    LiveMessage(w, n) && c.hash(w.topic[n]) == key
  }

  /** The shapes a process can have between moves. */
  predicate Shape(c: Config, topic: seq<string>, p: Proc) {
    match p
    case Post(_, pc) => pc.PostDone?
    case Get(_, pc) => pc.GetDone?
    case Job(url, n, pc, attempt) =>
      && n < |topic| && topic[n] == url
      && if c.maxRetries > 0 then pc.Acked? || pc.Unacked? else attempt == 0 && !pc.Backoff?
  }

  ghost predicate Shapes(c: Config, w: World) {
    && (forall i :: 0 <= i < |w.procs| ==> Shape(c, w.topic, w.procs[i]))
    && (forall i, j :: 0 <= i < |w.procs| && 0 <= j < |w.procs| && SameRunning(w.procs[i], w.procs[j]) ==> i == j)
  }

  predicate SameRunning(p: Proc, q: Proc) {
    p.Job? && q.Job? && p.msg == q.msg && !p.job.JobCrashed? && !q.job.JobCrashed?
  }

  /** A record in progress has exactly one message at work on it, any other none. */
  ghost predicate OneAt(c: Config, w: World, key: string) {
    && (forall n, k :: Working(c, w, n, key) && Working(c, w, k, key) ==> n == k)
    && (InProgressAt(w.store, key) <==> exists n :: Working(c, w, n, key))
  }

  ghost predicate OneJobEach(c: Config, w: World) {
    Shapes(c, w) && forall key :: OneAt(c, w, key)
  }

  /** Nothing but the record under `key` differs. */
  ghost predicate OnlyAt(before: Records, after: Records, key: string) {
    forall k :: k != key ==> (k in after <==> k in before) && (k in before ==> after[k] == before[k])
  }

  lemma WrittenOnlyAt(c: Config, store: Records, reply: Reply, op: Op)
    ensures OnlyAt(store, Written(c, store, reply, op), KeyOf(c.hash, op))
  {}

  /** What a request may do to the record of its URL: leave it if it is in progress or ready;
      otherwise finish it, leave the store as it was, or put it in progress with one message queued. */
  ghost predicate CallOk(before: Records, r: CallResult, key: string) {
    && OnlyAt(before, r.store, key)
    && (key in before && !before[key].status.Failed? ==> r.store == before && !r.published)
    && (r.published ==> !InProgressAt(before, key) && InProgressAt(r.store, key))
    && (!r.published ==> r.store == before || !InProgressAt(r.store, key))
  }

  lemma QueryOk(c: Config, store: Records, url: string, env: GetEnv)
    requires Unambiguous(env.upsert) && Applied(env.publish)
    ensures CallOk(store, Query(c, store, url, env), c.hash(url))
  {}

  lemma InlineOk(c: Config, s1: Records, url: string, env: PostEnv)
    requires Applied(env.write) && c.hash(url) in s1
    ensures var r := SubmitInline(c, s1, url, env);
      OnlyAt(s1, r.store, c.hash(url)) && !r.published && !InProgressAt(r.store, c.hash(url))
  {}

  lemma SubmitOk(c: Config, store: Records, url: string, env: PostEnv)
    requires Unambiguous(env.upsert) && Applied(env.publish) && Applied(env.write)
    ensures CallOk(store, Submit(c, store, url, env), c.hash(url))
  {
    WrittenOnlyAt(c, store, env.upsert, Upsert(PendingRecord(url, env.createdAt), env.upsertAt));
    if env.upsert.Done? {
      InlineOk(c, Written(c, store, env.upsert, Upsert(PendingRecord(url, env.createdAt), env.upsertAt)), url, env);
    }
  }

  lemma HandlerWritesOnly(c: Config, store: Records, url: string, env: HandlerEnv)
    ensures OnlyAt(store, Handle(c, store, url, env).store, c.hash(url))
  {}

  lemma {:induction false} AttemptsWriteOnly(c: Config, store: Records, url: string, env: DeliveryEnv, n: nat)
    ensures OnlyAt(store, StoreAfterAttempts(c, store, url, env, n), c.hash(url))
  {
    if n > 0 {
      AttemptsWriteOnly(c, store, url, env, n - 1);
      HandlerWritesOnly(c, StoreAfterAttempts(c, store, url, env, n - 1), url, env.attempts(n - 1));
    }
  }

  /** A whole delivery whose terminal writes take effect leaves its record finished. */
  lemma WholeDeliveryFinishes(c: Config, store: Records, m: Message, env: DeliveryEnv)
    requires m.value.Decoded? && c.maxRetries >= 0 && c.hash(m.value.request.url) in store
    requires forall n: nat :: Applied(env.attempts(n).write)
    ensures var p := Process(c, "", store, m, env);
      var key := c.hash(m.value.request.url);
      OnlyAt(store, p.store, key) && key in p.store && !InProgressAt(p.store, key) && p.calls > 0
  {
    AttemptsMade(c, "", store, m, env);
    LeftInProgressExactly(c, "", store, m, env);
    var n := Process(c, "", store, m, env).calls;
    AttemptsWriteOnly(c, store, m.value.request.url, env, n);
    assert forall k: nat :: k < n ==> !WritesLost(env, k, n);
  }

  // ---- One move keeps it ----

  lemma CallKeeps(c: Config, w: World, r: CallResult, done: Proc)
    requires OneJobEach(c, w) && CallOk(w.store, r, Key(c, done)) && !done.Job? && Shape(c, w.topic, done)
    ensures OneJobEach(c, World(r.store, w.procs + [done], Queue(w.topic, done.url, r.published), w.settled))
  {
    var w' := World(r.store, w.procs + [done], Queue(w.topic, done.url, r.published), w.settled);
    CallKeepsShapes(c, w, r, done);
    forall key ensures OneAt(c, w', key) {
      assert OneAt(c, w, key);
      forall n: nat | n < |w.topic| ensures Working(c, w', n, key) <==> Working(c, w, n, key) {
        AnotherProcess(w, w', n);
      }
      if r.published && key == Key(c, done) {
        NewMessage(c, w, w', done);
      }
    }
  }

  lemma CallKeepsShapes(c: Config, w: World, r: CallResult, done: Proc)
    requires Shapes(c, w) && !done.Job? && Shape(c, w.topic, done)
    ensures Shapes(c, World(r.store, w.procs + [done], Queue(w.topic, done.url, r.published), w.settled))
  {}

  /** A finished request beside the others makes no message live or dead. */
  lemma AnotherProcess(w: World, w': World, n: nat)
    requires |w'.procs| == |w.procs| + 1 && w'.procs[..|w.procs|] == w.procs && !w'.procs[|w.procs|].Job?
    requires n < |w.topic| <= |w'.topic|
    ensures LiveMessage(w', n) <==> LiveMessage(w, n)
  {
    assert forall i :: 0 <= i < |w.procs| ==> w'.procs[i] == w.procs[i];
  }

  lemma NewMessage(c: Config, w: World, w': World, done: Proc)
    requires Shapes(c, w) && w'.procs == w.procs + [done] && !done.Job? && w'.topic == w.topic + [done.url]
    ensures Working(c, w', |w.topic|, Key(c, done))
  {
    forall i | 0 <= i < |w'.procs| && w'.procs[i].Job? ensures w'.procs[i].msg < |w.topic| {
      assert Shape(c, w.topic, w.procs[i]);
    }
  }

  /** Only the deliveries of message `n`, and the record of its URL, differ. */
  ghost predicate OnlyMessage(c: Config, w: World, w': World, n: nat) {
    && w'.topic == w.topic && n < |w.topic| && OnlyAt(w.store, w'.store, c.hash(w.topic[n]))
    && forall k :: 0 <= k < |w.topic| && k != n ==> (LiveMessage(w', k) <==> LiveMessage(w, k))
  }

  /** The message at work on a record stays at work on it or leaves it finished; any other
      changes nothing. */
  lemma MessageKeeps(c: Config, w: World, w': World, n: nat)
    requires OneJobEach(c, w) && Shapes(c, w') && OnlyMessage(c, w, w', n)
    requires var key := c.hash(w.topic[n]);
      if LiveMessage(w, n) then InProgressAt(w'.store, key) <==> LiveMessage(w', n)
      else !LiveMessage(w', n) && w'.store == w.store
    ensures OneJobEach(c, w')
  {
    forall key ensures OneAt(c, w', key) {
      assert OneAt(c, w, key);
      assert forall k :: k != n ==> (Working(c, w', k, key) <==> Working(c, w, k, key));
      if key == c.hash(w.topic[n]) && LiveMessage(w, n) {
        assert Working(c, w, n, key);
        if LiveMessage(w', n) { assert Working(c, w', n, key); }
      } else {
        assert Working(c, w', n, key) <==> Working(c, w, n, key);
      }
    }
  }

  lemma OneProcessMoves(c: Config, w: World, w': World, i: nat, k: nat)
    requires i < |w.procs| && w.procs[i].Job? && w.procs[i].msg != k
    requires |w'.procs| == |w.procs| && w'.procs == w.procs[i := w'.procs[i]]
    requires w'.procs[i].Job? && w'.procs[i].msg != k
    requires w'.topic == w.topic
    ensures LiveMessage(w', k) <==> LiveMessage(w, k)
  {
    assert forall j :: 0 <= j < |w.procs| && j != i ==> w'.procs[j] == w.procs[j];
  }

  /** The only running delivery of a message decides whether the message is live. */
  lemma RunningDecides(c: Config, w: World, i: nat)
    requires Shapes(c, w) && i < |w.procs| && w.procs[i].Job? && !w.procs[i].job.JobCrashed?
    ensures LiveMessage(w, w.procs[i].msg) <==> Live(w.procs[i])
  {
    forall j | 0 <= j < |w.procs| && w.procs[j].Job? && w.procs[j].msg == w.procs[i].msg && !w.procs[j].job.JobCrashed?
      ensures j == i
    {
      assert SameRunning(w.procs[i], w.procs[j]);
    }
    assert Shape(c, w.topic, w.procs[i]);
  }

  /** A step of a delivery without retries. */
  lemma JobActs(c: Config, store: Records, p: Proc, ch: Choice)
    requires c.maxRetries == 0 && p.Job? && p.attempt == 0 && !p.job.Backoff? && CanAct(p, ch)
    requires Live(p) ==> InProgressAt(store, Key(c, p))
    requires (ch.Call? && WritesTerminal(p) ==> Applied(ch.reply)) && (ch.Crash? ==> Live(p))
    ensures var e := Act(c, store, p, ch);
      var store' := StoreAfter(c, store, e);
      && e.next.Job? && e.next.url == p.url && e.next.msg == p.msg && e.next.attempt == 0 && !e.next.job.Backoff?
      && !p.job.JobCrashed? && OnlyAt(store, store', Key(c, p))
      && (Live(p) ==> (InProgressAt(store', Key(c, p)) <==> Live(e.next) || e.next.job.JobCrashed?))
      && (!Live(p) ==> !Live(e.next) && !e.next.job.JobCrashed? && store' == store)
  {
    forall k | k != Key(c, p) { WritesOwnRecord(c, store, p, ch, k); }
  }

  lemma JobStepKeepsShapes(c: Config, w: World, i: nat, p': Proc, store': Records, settled': set<nat>)
    requires Shapes(c, w) && i < |w.procs| && w.procs[i].Job? && !w.procs[i].job.JobCrashed?
    requires p'.Job? && p'.msg == w.procs[i].msg && Shape(c, w.topic, p')
    ensures Shapes(c, World(store', w.procs[i := p'], w.topic, settled'))
  {
    var procs' := w.procs[i := p'];
    forall a, b | 0 <= a < |procs'| && 0 <= b < |procs'| && SameRunning(procs'[a], procs'[b]) ensures a == b {
      assert SameRunning(w.procs[a], w.procs[b]);
    }
  }

  lemma JobStepKeeps(c: Config, w: World, i: nat, ch: Choice)
    requires OneJobEach(c, w) && Orderly(c, w, JobStep(i, ch)) && CanStep(w, i, ch)
    ensures OneJobEach(c, Make(c, w, JobStep(i, ch)))
  {
    var p, w' := w.procs[i], Make(c, w, JobStep(i, ch));
    var n, p' := p.msg, w'.procs[i];
    assert Shape(c, w.topic, p);
    RunningDecides(c, w, i);
    assert OneAt(c, w, Key(c, p));
    if Live(p) { assert Working(c, w, n, Key(c, p)); }
    JobActs(c, w.store, p, ch);
    JobStepKeepsShapes(c, w, i, p', w'.store, w'.settled);
    if !p'.job.JobCrashed? { RunningDecides(c, w', i); } else { CrashLeavesLive(c, w, w', i); }
    forall k | 0 <= k < |w.topic| && k != n ensures LiveMessage(w', k) <==> LiveMessage(w, k) {
      OneProcessMoves(c, w, w', i, k);
    }
    MessageKeeps(c, w, w', n);
  }

  lemma CrashLeavesLive(c: Config, w: World, w': World, i: nat)
    requires i < |w.procs| && w.procs[i].Job? && LiveMessage(w, w.procs[i].msg) && w'.topic == w.topic
    requires |w'.procs| == |w.procs| && w'.procs == w.procs[i := w'.procs[i]]
    requires w'.procs[i].Job? && w'.procs[i].job.JobCrashed?
    ensures LiveMessage(w', w.procs[i].msg)
  {
    assert forall j :: 0 <= j < |w.procs| && j != i ==> w'.procs[j] == w.procs[j];
  }

  /** One more delivery of a message that had no running one. */
  lemma NewDeliveryOf(c: Config, w: World, w': World, p: Proc)
    requires Shapes(c, w) && p.Job? && Undelivered(w, p.msg) && Shape(c, w.topic, p) && !p.job.JobCrashed?
    requires w'.procs == w.procs + [p] && w'.topic == w.topic
    ensures Shapes(c, w') && LiveMessage(w, p.msg) && (LiveMessage(w', p.msg) <==> Live(p))
    ensures forall k :: 0 <= k < |w.topic| && k != p.msg ==> (LiveMessage(w', k) <==> LiveMessage(w, k))
  {
    forall i, j | 0 <= i < |w'.procs| && 0 <= j < |w'.procs| && SameRunning(w'.procs[i], w'.procs[j]) ensures i == j {
      if i < |w.procs| && j < |w.procs| { assert SameRunning(w.procs[i], w.procs[j]); }
    }
    RunningDecides(c, w', |w.procs|);
    forall k | 0 <= k < |w.topic| && k != p.msg ensures LiveMessage(w', k) <==> LiveMessage(w, k) {
      assert forall i :: 0 <= i < |w.procs| ==> w'.procs[i] == w.procs[i];
    }
  }

  lemma ReceiveKeeps(c: Config, w: World, n: nat)
    requires OneJobEach(c, w) && Orderly(c, w, Receive(n)) && n < |w.topic|
    ensures OneJobEach(c, Make(c, w, Receive(n)))
  {
    var w' := Make(c, w, Receive(n));
    NewDeliveryOf(c, w, w', NewDelivery(c, w.topic[n], n));
    assert OneAt(c, w, c.hash(w.topic[n])) && Working(c, w, n, c.hash(w.topic[n]));
    MessageKeeps(c, w, w', n);
  }

  lemma DeliverWholeKeeps(c: Config, w: World, n: nat, m: Message, env: DeliveryEnv)
    requires OneJobEach(c, w) && Orderly(c, w, DeliverWhole(n, m, env)) && CanDeliver(w.topic, n, m)
    ensures OneJobEach(c, Make(c, w, DeliverWhole(n, m, env)))
  {
    var w' := Make(c, w, DeliverWhole(n, m, env));
    var p := Concluded(w.topic[n], n, Process(c, "", w.store, m, env));
    AttemptsMade(c, "", w.store, m, env);
    NewDeliveryOf(c, w, w', p);
    assert OneAt(c, w, c.hash(w.topic[n])) && Working(c, w, n, c.hash(w.topic[n]));
    WholeDeliveryFinishes(c, w.store, m, env);
    MessageKeeps(c, w, w', n);
  }

  lemma MoveKeeps(c: Config, w: World, m: Move)
    requires OneJobEach(c, w) && Orderly(c, w, m)
    ensures OneJobEach(c, Make(c, w, m))
  {
    match m
    case CallPost(url, env) =>
      SubmitOk(c, w.store, url, env);
      var r := Submit(c, w.store, url, env);
      CallKeeps(c, w, r, Post(url, PostDone(r.outcome)));
    case CallGet(url, env) =>
      QueryOk(c, w.store, url, env);
      var r := Query(c, w.store, url, env);
      CallKeeps(c, w, r, Get(url, GetDone(r.outcome)));
    case Receive(n) => if n < |w.topic| { ReceiveKeeps(c, w, n); }
    case JobStep(i, ch) => if CanStep(w, i, ch) { JobStepKeeps(c, w, i, ch); }
    case DeliverWhole(n, message, env) =>
      if CanDeliver(w.topic, n, message) { DeliverWholeKeeps(c, w, n, message, env); }
  }

  lemma {:induction false} MovesKeep(c: Config, w: World, ms: seq<Move>)
    requires OneJobEach(c, w) && AllOrderly(c, w, ms)
    ensures OneJobEach(c, MakeAll(c, w, ms))
    decreases |ms|
  {
    if ms != [] {
      MoveKeeps(c, w, ms[0]);
      MovesKeep(c, Make(c, w, ms[0]), ms[1..]);
    }
  }

  // ---- The results ----

  ghost function JobsOn(c: Config, w: World, key: string): set<nat> {
    set n: nat | n < |w.topic| && Working(c, w, n, key)
  }

  /** A record in progress has exactly one live job, any other none. */
  ghost predicate OneLiveJob(c: Config, w: World, key: string) {
    |JobsOn(c, w, key)| == if InProgressAt(w.store, key) then 1 else 0
  }

  lemma OneIsOne(c: Config, w: World, key: string)
    requires OneAt(c, w, key)
    ensures OneLiveJob(c, w, key)
  {
    if InProgressAt(w.store, key) {
      var n: nat :| Working(c, w, n, key);
      assert JobsOn(c, w, key) == {n};
    } else {
      assert JobsOn(c, w, key) == {};
    }
  }

  predicate IsFetching(p: Proc) {
    p.Job? && p.job.JobFetch?
  }

  /** With whole requests, and deliveries that either never retry or run whole, a URL has exactly
      one live job while its record is in progress and none otherwise; so no two deliveries ever fetch the
      same URL at once. */
  lemma ExactlyOneLiveJob(c: Config, ms: seq<Move>, key: string)
    requires AllOrderly(c, EMPTY, ms)
    ensures var w := MakeAll(c, EMPTY, ms);
      && OneLiveJob(c, w, key)
      && (forall i, j :: 0 <= i < j < |w.procs| && IsFetching(w.procs[i]) && IsFetching(w.procs[j]) ==>
           Key(c, w.procs[i]) != Key(c, w.procs[j]))
  {
    EmptyIsFine(c);
    MovesKeep(c, EMPTY, ms);
    var w := MakeAll(c, EMPTY, ms);
    OneIsOne(c, w, key);
    forall i, j | 0 <= i < j < |w.procs| && IsFetching(w.procs[i]) && IsFetching(w.procs[j])
      ensures Key(c, w.procs[i]) != Key(c, w.procs[j])
    {
      NeverTwoFetches(c, w, i, j);
    }
  }

  lemma EmptyIsFine(c: Config)
    ensures OneJobEach(c, EMPTY)
  {}

  lemma NeverTwoFetches(c: Config, w: World, i: nat, j: nat)
    requires OneJobEach(c, w) && i < j < |w.procs| && IsFetching(w.procs[i]) && IsFetching(w.procs[j])
    ensures Key(c, w.procs[i]) != Key(c, w.procs[j])
  {
    var key := Key(c, w.procs[i]);
    RunningDecides(c, w, i);
    RunningDecides(c, w, j);
    assert Shape(c, w.topic, w.procs[i]) && Shape(c, w.topic, w.procs[j]) && OneAt(c, w, key);
    assert w.procs[i].msg != w.procs[j].msg by {
      assert !SameRunning(w.procs[i], w.procs[j]);
    }
    assert Working(c, w, w.procs[i].msg, key);
    assert !Working(c, w, w.procs[j].msg, key);
  }

  lemma ReadySurvives(c: Config, w: World, m: Move, key: string)
    requires OneJobEach(c, w) && Orderly(c, w, m) && key in w.store && w.store[key].status.Ready?
    ensures key in Make(c, w, m).store && Make(c, w, m).store[key] == w.store[key]
  {
    assert OneAt(c, w, key);
    match m
    case CallPost(url, env) => SubmitOk(c, w.store, url, env);
    case CallGet(url, env) => QueryOk(c, w.store, url, env);
    case Receive(_) =>
    case JobStep(i, ch) =>
      if CanStep(w, i, ch) {
        var p := w.procs[i];
        assert Shape(c, w.topic, p) && OneAt(c, w, Key(c, p));
        RunningDecides(c, w, i);
        if Live(p) { assert Working(c, w, p.msg, Key(c, p)); }
        JobActs(c, w.store, p, ch);
      }
    case DeliverWhole(n, message, env) =>
      if CanDeliver(w.topic, n, message) {
        assert OneAt(c, w, c.hash(w.topic[n])) && Working(c, w, n, c.hash(w.topic[n]));
        WholeDeliveryFinishes(c, w.store, message, env);
      }
  }

  lemma {:induction false} ReadyStays(c: Config, w: World, ms: seq<Move>, key: string)
    requires OneJobEach(c, w) && AllOrderly(c, w, ms) && key in w.store && w.store[key].status.Ready?
    ensures key in MakeAll(c, w, ms).store && MakeAll(c, w, ms).store[key] == w.store[key]
    decreases |ms|
  {
    if ms != [] {
      MoveKeeps(c, w, ms[0]);
      ReadySurvives(c, w, ms[0], key);
      ReadyStays(c, Make(c, w, ms[0]), ms[1..], key);
    }
  }

  /** Under the same assumptions ready is final: a ready record never changes again. */
  lemma ReadyIsFinal(c: Config, ms: seq<Move>, more: seq<Move>, key: string)
    requires AllOrderly(c, EMPTY, ms) && AllOrderly(c, MakeAll(c, EMPTY, ms), more)
    requires var w := MakeAll(c, EMPTY, ms); key in w.store && w.store[key].status.Ready?
    ensures var w := MakeAll(c, EMPTY, ms);
      key in MakeAll(c, w, more).store && MakeAll(c, w, more).store[key] == w.store[key]
  {
    EmptyIsFine(c);
    MovesKeep(c, EMPTY, ms);
    ReadyStays(c, MakeAll(c, EMPTY, ms), more, key);
  }

  function WorldOf(s: State): World {
    World(s.store, s.procs, s.topic, s.settled)
  }

  /** The run of the pipeline that a move is. */
  function LabelsOf(c: Config, w: World, m: Move): seq<Label> {
    match m
    case CallPost(url, env) => [StartPost(url)] + Steps(|w.procs|, PostChoices(c, env))
    case CallGet(url, env) => [StartGet(url)] + Steps(|w.procs|, GetChoices(env))
    case Receive(n) => [Deliver(n)]
    case JobStep(i, ch) => if CanStep(w, i, ch) then [Step(i, ch)] else []
    case DeliverWhole(n, message, env) =>
      if CanDeliver(w.topic, n, message) then DeliveryLabels(c, n, |w.procs|, env) else []
  }

  lemma OneLabel(c: Config, s: State, l: Label)
    ensures Exec(c, s, [l]) == Next(c, s, l)
  {
    assert [l][1..] == [];
  }

  lemma StepPublishesNothing(c: Config, s: State, i: nat, ch: Choice)
    requires CanStep(WorldOf(s), i, ch)
    ensures WorldOf(Next(c, s, Step(i, ch))) == Make(c, WorldOf(s), JobStep(i, ch))
  {}

  /** Every move is a run of the pipeline: whole requests and whole deliveries are their own
      steps with nothing in between. */
  lemma MovesAreRuns(c: Config, s: State, m: Move)
    ensures WorldOf(Exec(c, s, LabelsOf(c, WorldOf(s), m))) == Make(c, WorldOf(s), m)
  {
    match m
    case CallPost(url, env) => SubmitIsARun(c, s, url, env);
    case CallGet(url, env) => QueryIsARun(c, s, url, env);
    case Receive(n) => OneLabel(c, s, Deliver(n));
    case JobStep(i, ch) =>
      if CanStep(WorldOf(s), i, ch) {
        OneLabel(c, s, Step(i, ch));
        StepPublishesNothing(c, s, i, ch);
      }
    case DeliverWhole(n, message, env) =>
      if CanDeliver(s.topic, n, message) { ProcessIsARun(c, "", s, n, message, env); }
  }

  // ---- With retries and deliveries that interleave, neither result holds ----

  ghost predicate AllFaultFree(c: Config, w: World, ms: seq<Move>)
    decreases |ms|
  {
    ms == [] || (FaultFree(c, w, ms[0]) && AllFaultFree(c, Make(c, w, ms[0]), ms[1..]))
  }

  /** Some run without faults leads from `w0` to `w`. */
  ghost predicate Leads(c: Config, w0: World, w: World) {
    exists ms :: AllFaultFree(c, w0, ms) && MakeAll(c, w0, ms) == w
  }

  lemma Stay(c: Config, w: World)
    ensures Leads(c, w, w)
  {
    assert AllFaultFree(c, w, []) && MakeAll(c, w, []) == w;
  }

  lemma {:induction false} MakeAllConcat(c: Config, w: World, ms: seq<Move>, m: Move)
    requires AllFaultFree(c, w, ms) && FaultFree(c, MakeAll(c, w, ms), m)
    ensures MakeAll(c, w, ms + [m]) == Make(c, MakeAll(c, w, ms), m) && AllFaultFree(c, w, ms + [m])
    decreases |ms|
  {
    if ms == [] {
      assert ([] + [m])[1..] == [];
    } else {
      assert (ms + [m])[1..] == ms[1..] + [m];
      MakeAllConcat(c, Make(c, w, ms[0]), ms[1..], m);
    }
  }

  lemma Advance(c: Config, w0: World, w: World, m: Move) returns (w': World)
    requires Leads(c, w0, w) && FaultFree(c, w, m)
    ensures w' == Make(c, w, m) && Leads(c, w0, w')
  {
    w' := Make(c, w, m);
    var ms :| AllFaultFree(c, w0, ms) && MakeAll(c, w0, ms) == w;
    MakeAllConcat(c, w0, ms, m);
  }

  function AllWell(at: Time): GetEnv {
    GetEnv(Done, at, at, Done, at, Done)
  }

  lemma AdvanceJob(c: Config, w0: World, w: World, i: nat, ch: Choice) returns (w': World)
    requires Leads(c, w0, w) && CanStep(w, i, ch) && !ch.Crash? && (ch.Call? ==> ch.reply.Done?)
    ensures Leads(c, w0, w') && w'.procs == w.procs[i := Act(c, w.store, w.procs[i], ch).next]
    ensures w'.store == StoreAfter(c, w.store, Act(c, w.store, w.procs[i], ch)) && w'.topic == w.topic
    ensures w'.settled == w.settled + SettledBy(w'.procs[i])
  {
    w' := Advance(c, w0, w, JobStep(i, ch));
  }

  lemma AdvanceGet(c: Config, w0: World, w: World, url: string, at: Time) returns (w': World)
    requires Leads(c, w0, w) && (c.hash(url) !in w.store || w.store[c.hash(url)].status.Failed?)
    ensures Leads(c, w0, w') && InProgressAt(w'.store, c.hash(url))
    ensures w'.procs == w.procs + [Asked(url)] && w'.topic == w.topic + [url] && w'.settled == w.settled
  {
    w' := Advance(c, w0, w, CallGet(url, AllWell(at)));
  }

  lemma AdvanceReceive(c: Config, w0: World, w: World, n: nat) returns (w': World)
    requires Leads(c, w0, w) && n < |w.topic| && Undelivered(w, n)
    ensures Leads(c, w0, w') && w'.procs == w.procs + [NewDelivery(c, w.topic[n], n)]
    ensures w'.store == w.store && w'.topic == w.topic
    ensures w'.settled == w.settled + SettledBy(NewDelivery(c, w.topic[n], n))
  {
    w' := Advance(c, w0, w, Receive(n));
  }

  lemma FirstDelivery(c: Config, url: string, at: Time) returns (w: World)
    requires c.maxRetries >= 0
    ensures Leads(c, EMPTY, w) && w.procs == [Asked(url), Job(url, 0, JobMark, 0)]
    ensures w.topic == [url] && w.settled == {}
    ensures InProgressAt(w.store, c.hash(url))
  {
    Stay(c, EMPTY);
    w := AdvanceGet(c, EMPTY, EMPTY, url, at);
    w := AdvanceReceive(c, EMPTY, w, 0);
  }

  /** A first attempt fails and is waiting to be retried: the record says failed. */
  lemma FirstAttemptFails(c: Config, url: string, at: Time) returns (w: World)
    requires c.maxRetries >= 1
    ensures Leads(c, EMPTY, w) && w.procs == [Asked(url), Job(url, 0, Backoff, 0)]
    ensures w.topic == [url] && w.settled == {}
    ensures c.hash(url) in w.store && w.store[c.hash(url)].status.Failed?
  {
    w := FirstDelivery(c, url, at);
    w := AdvanceJob(c, EMPTY, w, 1, Call(Done, at, at));
    assert w.procs == [Asked(url), Job(url, 0, JobFetch, 0)] && c.hash(url) in w.store;
    w := AdvanceJob(c, EMPTY, w, 1, Pipeline.Fetch(FetchError("timeout")));
    assert w.procs == [Asked(url), Job(url, 0, JobFail, 0)] && c.hash(url) in w.store;
    w := AdvanceJob(c, EMPTY, w, 1, Call(Done, at, at));
  }

  /** A GET during the wait queues a second message; both deliveries are then about to fetch. */
  lemma SecondRequest(c: Config, url: string, at: Time) returns (w: World)
    requires c.maxRetries >= 1
    ensures Leads(c, EMPTY, w) && InProgressAt(w.store, c.hash(url)) && w.topic == [url, url] && w.settled == {}
    ensures w.procs == [Asked(url), Job(url, 0, JobMark, 1), Asked(url), Job(url, 1, JobMark, 0)]
  {
    w := FirstAttemptFails(c, url, at);
    w := AdvanceGet(c, EMPTY, w, url, at);
    assert w.procs == [Asked(url), Job(url, 0, Backoff, 0), Asked(url)] && w.topic == [url, url];
    w := AdvanceJob(c, EMPTY, w, 1, Wake(false));
    assert w.procs == [Asked(url), Job(url, 0, JobMark, 1), Asked(url)];
    w := AdvanceReceive(c, EMPTY, w, 1);
  }

  lemma BothFetch(c: Config, url: string, at: Time) returns (w: World)
    requires c.maxRetries >= 1
    ensures Leads(c, EMPTY, w) && InProgressAt(w.store, c.hash(url)) && w.topic == [url, url] && w.settled == {}
    ensures w.procs == [Asked(url), Job(url, 0, JobFetch, 1), Asked(url), Job(url, 1, JobFetch, 0)]
  {
    w := SecondRequest(c, url, at);
    w := AdvanceJob(c, EMPTY, w, 1, Call(Done, at, at));
    assert w.procs == [Asked(url), Job(url, 0, JobFetch, 1), Asked(url), Job(url, 1, JobMark, 0)];
    assert InProgressAt(w.store, c.hash(url));
    w := AdvanceJob(c, EMPTY, w, 3, Call(Done, at, at));
  }

  /** Whatever positive number of retries is allowed, some run of whole requests and interleaved
      delivery steps, free of faults, has two deliveries fetching one URL at once, then
      a ready record, and then the same record failed. */
  lemma RetriesBreakOneJob(c: Config, url: string, res: FetchResult, at: Time) returns (twice: World, ready: World,
        failed: World)
    requires c.maxRetries >= 1
    ensures Leads(c, EMPTY, twice) && Leads(c, twice, ready) && Leads(c, ready, failed)
    ensures twice.procs == [Asked(url), Job(url, 0, JobFetch, 1), Asked(url), Job(url, 1, JobFetch, 0)]
    ensures |JobsOn(c, twice, c.hash(url))| == 2
    ensures c.hash(url) in ready.store && ready.store[c.hash(url)].status.Ready?
    ensures c.hash(url) in failed.store && failed.store[c.hash(url)].status.Failed?
  {
    twice := BothFetch(c, url, at);
    assert JobsOn(c, twice, c.hash(url)) == {0, 1};
    ready := SecondSucceeds(c, url, twice, res, at);
    failed := ReadyTurnsFailed(c, url, ready, at);
  }

  lemma SecondSucceeds(c: Config, url: string, twice: World, res: FetchResult, at: Time) returns (ready: World)
    requires |twice.procs| == 4 && twice.procs[1] == Job(url, 0, JobFetch, 1)
    requires twice.procs[3] == Job(url, 1, JobFetch, 0)
    requires c.hash(url) in twice.store
    ensures Leads(c, twice, ready) && |ready.procs| == 4 && ready.procs[1] == Job(url, 0, JobFetch, 1)
    ensures c.hash(url) in ready.store && ready.store[c.hash(url)].status.Ready?
  {
    Stay(c, twice);
    ready := AdvanceJob(c, twice, twice, 3, Pipeline.Fetch(Fetched(res)));
    assert ready.procs[3] == Job(url, 1, JobReady(res), 0) && |ready.procs| == 4 && c.hash(url) in ready.store;
    ready := AdvanceJob(c, twice, ready, 3, Call(Done, at, at));
  }

  lemma ReadyTurnsFailed(c: Config, url: string, ready: World, at: Time) returns (failed: World)
    requires |ready.procs| == 4 && ready.procs[1] == Job(url, 0, JobFetch, 1) && c.hash(url) in ready.store
    ensures Leads(c, ready, failed) && c.hash(url) in failed.store && failed.store[c.hash(url)].status.Failed?
  {
    Stay(c, ready);
    failed := AdvanceJob(c, ready, ready, 1, Pipeline.Fetch(FetchError("timeout")));
    assert failed.procs[1] == Job(url, 0, JobFail, 1) && |failed.procs| == 4 && c.hash(url) in failed.store;
    failed := AdvanceJob(c, ready, failed, 1, Call(Done, at, at));
  }

  /** Under a negative limit a message is acknowledged at once, with its record in progress. */
  lemma NegativeLimitBreaksOneJob(c: Config, url: string, at: Time) returns (w: World)
    requires c.maxRetries < 0
    ensures Leads(c, EMPTY, w) && InProgressAt(w.store, c.hash(url)) && JobsOn(c, w, c.hash(url)) == {}
  {
    Stay(c, EMPTY);
    w := AdvanceGet(c, EMPTY, EMPTY, url, at);
    w := AdvanceReceive(c, EMPTY, w, 0);
    assert w.procs == [Asked(url), Job(url, 0, Acked, 0)] && w.topic == [url];
    assert !LiveMessage(w, 0) by {
      assert w.procs[1].Job? && w.procs[1].msg == 0 && !Live(w.procs[1]);
    }
  }

  ghost predicate AlwaysOneLiveJob(c: Config) {
    forall w :: Leads(c, EMPTY, w) ==> forall key :: OneLiveJob(c, w, key)
  }

  lemma {:induction false} FaultFreeIsOrderly(c: Config, w: World, ms: seq<Move>)
    requires c.maxRetries == 0 && AllFaultFree(c, w, ms)
    ensures AllOrderly(c, w, ms)
    decreases |ms|
  {
    if ms != [] {
      FaultFreeIsOrderly(c, Make(c, w, ms[0]), ms[1..]);
    }
  }

  /** Without faults, and with deliveries that interleave step by step, every record in progress has
      exactly one live job, and every other none, exactly when nothing is ever retried. */
  lemma OneJobExactlyWithoutRetries(c: Config)
    ensures AlwaysOneLiveJob(c) <==> c.maxRetries == 0
  {
    if c.maxRetries == 0 {
      forall w, key | Leads(c, EMPTY, w) ensures OneLiveJob(c, w, key) {
        var ms :| AllFaultFree(c, EMPTY, ms) && MakeAll(c, EMPTY, ms) == w;
        FaultFreeIsOrderly(c, EMPTY, ms);
        ExactlyOneLiveJob(c, ms, key);
      }
    } else if c.maxRetries < 0 {
      var w := NegativeLimitBreaksOneJob(c, "", 1);
      assert !OneLiveJob(c, w, c.hash(""));
    } else {
      var twice, _, _ := RetriesBreakOneJob(c, "", FetchResult(map[], [], [], 0, 0, 0), 1);
      assert !OneLiveJob(c, twice, c.hash(""));
    }
  }
}
