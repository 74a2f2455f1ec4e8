/** What holds in every interleaving, with every fault, crash, redelivery and skip. */
module Safety {
  import opened Types
  import opened Store
  import opened Fetcher
  import opened Pipeline

  // ---- The invariant ----

  /** Processes that have upserted their URL, or act on a message whose sender did. */
  predicate NeedsRecord(p: Proc) {
    match p
    case Post(_, pc) => !pc.PostFind? && !pc.PostUpsert? && !pc.PostDone? && !pc.PostCrashed?
    case Get(_, pc) => pc.GetPublish?
    case Job(_, _, _, _) => true
  }

  /** All fetch fields come from one successful fetch of a URL with this record's hash. */
  ghost predicate FromOneFetch(c: Config, fetched: set<(string, FetchResult)>, r: Record) {
    exists f :: f in fetched && c.hash(f.0) == c.hash(r.url) && Holds(r, f.1)
  }

  ghost predicate RecordOk(c: Config, fetched: set<(string, FetchResult)>, r: Record) {
    && (Blank(r) || FromOneFetch(c, fetched, r))
    && (r.status.Ready? ==> FromOneFetch(c, fetched, r))
    && (r.status.Pending? ==> Blank(r) && r.retryCount == 0)
    && r.error == ""
  }

  ghost predicate AnswerOk(c: Config, fetched: set<(string, FetchResult)>, url: string, o: Outcome) {
    o.Returned? && o.record.Some? ==> RecordOk(c, fetched, o.record.value) && c.hash(o.record.value.url) == c.hash(url)
  }

  ghost predicate ProcOk(c: Config, store: Records, fetched: set<(string, FetchResult)>, p: Proc) {
    && (NeedsRecord(p) ==> Key(c, p) in store)
    && match p
       case Post(url, pc) =>
         && (pc.PostReady? ==> (url, pc.result) in fetched)
         && (pc.PostDone? ==> AnswerOk(c, fetched, url, pc.outcome))
         && (pc.PostDone? && pc.outcome.Returned? ==>
              pc.outcome.record.Some? && (!pc.outcome.flag ==> !pc.outcome.record.value.status.Failed?))
         && (pc.PostDone? && pc.outcome.Rejected? ==> pc.outcome.error in {FetchFailed, DatabaseError, KafkaError})
       case Get(url, pc) =>
         && (pc.GetDone? ==> AnswerOk(c, fetched, url, pc.outcome))
         && (pc.GetDone? && pc.outcome.Returned? ==>
              if pc.outcome.record.Some? then pc.outcome.record.value.status.Ready? else pc.outcome.flag)
         && (pc.GetDone? && pc.outcome.Rejected? ==> pc.outcome.error in {DatabaseError, KafkaError})
       case Job(url, _, pc, _) => pc.JobReady? ==> (url, pc.result) in fetched
  }

  ghost predicate StoreOk(c: Config, store: Records, fetched: set<(string, FetchResult)>) {
    IndexConsistent(c.hash, store) && forall key :: key in store ==> RecordOk(c, fetched, store[key])
  }

  predicate Fresh(r: Record) {
    r.retryCount == 0 && r.status.Pending?
  }

  ghost predicate Sound(c: Config, s: State) {
    && s.store == Run(c.hash, map[], s.ops)
    && (forall i :: 0 <= i < |s.ops| && s.ops[i].Upsert? ==> Fresh(s.ops[i].record))
    && StoreOk(c, s.store, s.fetched)
    && DeliveriesMatch(s)
    && (forall n :: 0 <= n < |s.topic| ==> c.hash(s.topic[n]) in s.store)
    && (forall i :: 0 <= i < |s.procs| ==> ProcOk(c, s.store, s.fetched, s.procs[i]))
  }

  // ---- One step keeps it ----

  lemma MoreFetches(c: Config, fetched: set<(string, FetchResult)>, more: set<(string, FetchResult)>, r: Record)
    requires RecordOk(c, fetched, r)
    ensures RecordOk(c, fetched + more, r)
  {}

  lemma OthersStaySound(c: Config, store: Records, store': Records, fetched: set<(string, FetchResult)>,
        more: set<(string, FetchResult)>, p: Proc)
    requires ProcOk(c, store, fetched, p) && store.Keys <= store'.Keys
    ensures ProcOk(c, store', fetched + more, p)
  {}

  /** A write by a sound process leaves every record whole. */
  lemma WriteKeepsStoreOk(c: Config, store: Records, fetched: set<(string, FetchResult)>, p: Proc, ch: Choice)
    requires CanAct(p, ch) && StoreOk(c, store, fetched) && ProcOk(c, store, fetched, p)
    ensures StoreOk(c, StoreAfter(c, store, Act(c, store, p, ch)), fetched)
  {
    var e := Act(c, store, p, ch);
    var after := StoreAfter(c, store, e);
    if e.write.Some? {
      ApplyKeepsIndex(c.hash, store, e.write.value);
      forall key | key in after ensures RecordOk(c, fetched, after[key]) {
        if key != Key(c, p) {
          WritesOwnRecord(c, store, p, ch, key);
        } else if e.write.value.SetStatus? {
          StatusKeepsRecordOk(c, store[key], fetched, p, e.write.value);
        }
      }
    }
  }

  lemma StatusKeepsRecordOk(c: Config, r: Record, fetched: set<(string, FetchResult)>, p: Proc, op: Op)
    requires RecordOk(c, fetched, r) && c.hash(r.url) == Key(c, p)
    requires op.SetStatus? && !op.status.Pending?
    requires op.status.Ready? <==> op.result.Some?
    requires op.result.Some? ==> (p.url, op.result.value) in fetched
    ensures RecordOk(c, fetched, WithStatus(r, op.status, op.result, op.now))
  {}

  lemma ActorKeepsRecord(c: Config, store: Records, p: Proc, ch: Choice)
    requires CanAct(p, ch) && (NeedsRecord(p) ==> Key(c, p) in store)
    ensures var e := Act(c, store, p, ch);
      var store' := StoreAfter(c, store, e);
      && store.Keys <= store'.Keys
      && (NeedsRecord(e.next) ==> Key(c, e.next) in store')
      && (e.publishes ==> Key(c, p) in store')
      && (e.write.Some? && e.write.value.Upsert? ==> Fresh(e.write.value.record))
  {}

  lemma ActorStaysSound(c: Config, store: Records, fetched: set<(string, FetchResult)>, p: Proc, ch: Choice)
    requires CanAct(p, ch) && StoreOk(c, store, fetched) && ProcOk(c, store, fetched, p)
    ensures var e := Act(c, store, p, ch);
      ProcOk(c, StoreAfter(c, store, e), fetched + FetchedBy(p, ch), e.next)
  {
    ActorKeepsRecord(c, store, p, ch);
    var fetched' := fetched + FetchedBy(p, ch);
    AnswersAreOk(c, store, fetched, FetchedBy(p, ch), p.url);
    match p
    case Post(url, pc) => PostStaysSound(c, store, fetched', url, pc, ch);
    case Get(url, pc) => GetStaysSound(c, store, fetched', url, pc, ch);
    case Job(url, _, _, _) =>
      var e := Act(c, store, p, ch);
      assert e.next.Job? && (e.next.job.JobReady? ==> (url, e.next.job.result) in fetched');
  }

  lemma AnswersAreOk(c: Config, store: Records, fetched: set<(string, FetchResult)>,
        more: set<(string, FetchResult)>, url: string)
    requires StoreOk(c, store, fetched)
    ensures c.hash(url) in store ==>
      forall flag :: AnswerOk(c, fetched + more, url, Returned(Some(store[c.hash(url)]), flag))
  {}

  lemma GetStaysSound(c: Config, store: Records, fetched': set<(string, FetchResult)>, url: string, pc: GetPc,
        ch: Choice)
    requires CanAct(Get(url, pc), ch)
    requires c.hash(url) in store ==>
      forall flag :: AnswerOk(c, fetched', url, Returned(Some(store[c.hash(url)]), flag))
    ensures var get := GetAct(c, store, url, pc, ch).next.get;
      && (get.GetDone? ==> AnswerOk(c, fetched', url, get.outcome))
      && (get.GetDone? && get.outcome.Returned? ==>
           if get.outcome.record.Some? then get.outcome.record.value.status.Ready? else get.outcome.flag)
      && (get.GetDone? && get.outcome.Rejected? ==> get.outcome.error in {DatabaseError, KafkaError})
  {}

  lemma PostStaysSound(c: Config, store: Records, fetched': set<(string, FetchResult)>, url: string, pc: PostPc,
        ch: Choice)
    requires CanAct(Post(url, pc), ch)
    requires NeedsRecord(Post(url, pc)) ==> c.hash(url) in store
    requires FetchedBy(Post(url, pc), ch) <= fetched'
    requires c.hash(url) in store ==>
      forall flag :: AnswerOk(c, fetched', url, Returned(Some(store[c.hash(url)]), flag))
    ensures var post := PostAct(c, store, url, pc, ch).next.post;
      && (post.PostReady? ==> (url, post.result) in fetched')
      && (post.PostDone? ==> AnswerOk(c, fetched', url, post.outcome))
      && (post.PostDone? && post.outcome.Returned? ==>
           post.outcome.record.Some? && (!post.outcome.flag ==> !post.outcome.record.value.status.Failed?))
      && (post.PostDone? && post.outcome.Rejected? ==> post.outcome.error in {FetchFailed, DatabaseError, KafkaError})
  {}

  lemma StepKeepsStore(c: Config, s: State, i: nat, ch: Choice)
    requires Sound(c, s) && i < |s.procs| && CanAct(s.procs[i], ch)
    ensures var s' := Perform(c, s, i, ch);
      && s'.store == Run(c.hash, map[], s'.ops) && s.store.Keys <= s'.store.Keys
      && (forall k :: 0 <= k < |s'.ops| && s'.ops[k].Upsert? ==> Fresh(s'.ops[k].record))
      && StoreOk(c, s'.store, s'.fetched)
  {
    var p, s' := s.procs[i], Perform(c, s, i, ch);
    var e := Act(c, s.store, p, ch);
    assert ProcOk(c, s.store, s.fetched, p);
    ActorKeepsRecord(c, s.store, p, ch);
    if e.write.Some? { RunSnoc(c.hash, map[], s.ops, e.write.value); }
    WriteKeepsStoreOk(c, s.store, s.fetched, p, ch);
    forall key | key in s'.store ensures RecordOk(c, s'.fetched, s'.store[key]) {
      MoreFetches(c, s.fetched, FetchedBy(p, ch), s'.store[key]);
    }
  }

  lemma StepKeepsProcs(c: Config, s: State, i: nat, ch: Choice)
    requires StoreOk(c, s.store, s.fetched) && i < |s.procs| && CanAct(s.procs[i], ch)
    requires forall j :: 0 <= j < |s.procs| ==> ProcOk(c, s.store, s.fetched, s.procs[j])
    ensures var s' := Perform(c, s, i, ch);
      forall j :: 0 <= j < |s'.procs| ==> ProcOk(c, s'.store, s'.fetched, s'.procs[j])
  {
    var p, s' := s.procs[i], Perform(c, s, i, ch);
    ActorKeepsRecord(c, s.store, p, ch);
    ActorStaysSound(c, s.store, s.fetched, p, ch);
    forall j | 0 <= j < |s'.procs| ensures ProcOk(c, s'.store, s'.fetched, s'.procs[j]) {
      if j != i {
        OthersStaySound(c, s.store, s'.store, s.fetched, FetchedBy(p, ch), s.procs[j]);
      }
    }
  }

  lemma StepKeepsTopic(c: Config, s: State, i: nat, ch: Choice)
    requires Sound(c, s) && i < |s.procs| && CanAct(s.procs[i], ch)
    ensures var s' := Perform(c, s, i, ch);
      forall n :: 0 <= n < |s'.topic| ==> c.hash(s'.topic[n]) in s'.store
  {
    assert ProcOk(c, s.store, s.fetched, s.procs[i]);
    ActorKeepsRecord(c, s.store, s.procs[i], ch);
    KeepsUrl(c, s.store, s.procs[i], ch);
  }

  lemma StepKeepsSound(c: Config, s: State, l: Label)
    requires Sound(c, s)
    ensures Sound(c, Next(c, s, l))
  {
    StepKeepsMatch(c, s, l);
    if l.Step? && Enabled(s, l) {
      StepKeepsStore(c, s, l.i, l.choice);
      StepKeepsProcs(c, s, l.i, l.choice);
      StepKeepsTopic(c, s, l.i, l.choice);
    }
  }

  lemma {:induction false} RunKeepsSound(c: Config, s: State, ls: seq<Label>)
    requires Sound(c, s)
    ensures Sound(c, Exec(c, s, ls))
    decreases |ls|
  {
    if ls != [] {
      StepKeepsSound(c, s, ls[0]);
      RunKeepsSound(c, Next(c, s, ls[0]), ls[1..]);
    }
  }

  lemma AllRunsAreSound(c: Config, ls: seq<Label>)
    ensures Sound(c, Exec(c, INIT, ls))
  {
    RunKeepsSound(c, INIT, ls);
  }

  // ---- What follows for every run from an empty store ----

  /** The URLs of a run are those its requests and messages name. */
  ghost predicate Named(s: State, url: string) {
    exists i :: 0 <= i < |s.procs| && s.procs[i].url == url
  }

  ghost predicate OnlyNamedUrls(s: State) {
    && (forall key :: key in s.store ==> Named(s, s.store[key].url))
    && (forall f :: f in s.fetched ==> Named(s, f.0))
  }

  lemma NamesStay(c: Config, s: State, l: Label, url: string)
    requires Named(s, url)
    ensures Named(Next(c, s, l), url)
  {
    var i :| 0 <= i < |s.procs| && s.procs[i].url == url;
    if l.Step? && Enabled(s, l) { KeepsUrl(c, s.store, s.procs[l.i], l.choice); }
    assert Next(c, s, l).procs[i].url == url;
  }

  lemma WrittenUrl(c: Config, store: Records, p: Proc, ch: Choice, key: string)
    requires CanAct(p, ch) && key in StoreAfter(c, store, Act(c, store, p, ch))
    ensures var r := StoreAfter(c, store, Act(c, store, p, ch))[key];
      r.url == p.url || (key in store && r.url == store[key].url)
  {}

  lemma StepKeepsNames(c: Config, s: State, l: Label)
    requires OnlyNamedUrls(s)
    ensures OnlyNamedUrls(Next(c, s, l))
  {
    var s' := Next(c, s, l);
    if l.Step? && Enabled(s, l) { assert Named(s, s.procs[l.i].url); }
    forall key | key in s'.store ensures Named(s', s'.store[key].url) {
      if l.Step? && Enabled(s, l) { WrittenUrl(c, s.store, s.procs[l.i], l.choice, key); }
      NamesStay(c, s, l, s'.store[key].url);
    }
    forall f | f in s'.fetched ensures Named(s', f.0) {
      NamesStay(c, s, l, f.0);
    }
  }

  lemma {:induction false} RunKeepsNames(c: Config, s: State, ls: seq<Label>)
    requires OnlyNamedUrls(s)
    ensures OnlyNamedUrls(Exec(c, s, ls))
    decreases |ls|
  {
    if ls != [] {
      StepKeepsNames(c, s, ls[0]);
      RunKeepsNames(c, Next(c, s, ls[0]), ls[1..]);
    }
  }

  /** No two URLs that this run's requests name share a hash. */
  ghost predicate CollisionFree(c: Config, s: State) {
    forall i, j :: 0 <= i < |s.procs| && 0 <= j < |s.procs| && Key(c, s.procs[i]) == Key(c, s.procs[j]) ==>
      s.procs[i].url == s.procs[j].url
  }

  ghost predicate Untorn(s: State, r: Record) {
    && (Blank(r) || exists res :: (r.url, res) in s.fetched && Holds(r, res))
    && (r.status.Ready? ==> exists res :: (r.url, res) in s.fetched && Holds(r, res))
    && (r.status.Pending? ==> Blank(r) && r.retryCount == 0)
  }

  /** If the URLs requested do not collide, no record ever mixes two fetches or two URLs: its fetch
      fields are all empty or all from one successful fetch of its own URL; a ready record is
      always of the second kind and a pending one of the first, with no failures counted. */
  lemma ResultsAreNeverTorn(c: Config, ls: seq<Label>, key: string)
    requires CollisionFree(c, Exec(c, INIT, ls)) && key in Exec(c, INIT, ls).store
    ensures Untorn(Exec(c, INIT, ls), Exec(c, INIT, ls).store[key])
  {
    AllRunsAreSound(c, ls);
    RunKeepsNames(c, INIT, ls);
    var s := Exec(c, INIT, ls);
    var r := s.store[key];
    if FromOneFetch(c, s.fetched, r) {
      var f :| f in s.fetched && c.hash(f.0) == c.hash(r.url) && Holds(r, f.1);
      assert Named(s, f.0) && Named(s, r.url);
      assert f == (r.url, f.1);
    }
  }

  ghost predicate FetchStep(s: State, l: Label, url: string, res: FetchResult) {
    l.Step? && Enabled(s, l) && s.procs[l.i].url == url && l.choice == Fetch(Fetched(res))
  }

  /** `fetched` is honest: what it holds is exactly what fetch steps of the run returned to
      processes of that URL. */
  lemma {:induction false} FetchedIsWhatWasFetched(c: Config, s: State, ls: seq<Label>, url: string, res: FetchResult)
    ensures (url, res) in Exec(c, s, ls).fetched <==>
      ((url, res) in s.fetched || Sometime(c, s, ls, (s, l) => FetchStep(s, l, url, res)))
    decreases |ls|
  {
    if ls != [] {
      FetchedIsWhatWasFetched(c, Next(c, s, ls[0]), ls[1..], url, res);
    }
  }

  /** The stored retry count is the number of failed writes that reached the record since
      its last upsert, which itself always stores zero. */
  lemma RetryCountIsConserved(c: Config, ls: seq<Label>, key: string)
    requires key in Exec(c, INIT, ls).store
    ensures var s := Exec(c, INIT, ls);
      && s.store[key].retryCount == FailuresSinceUpsert(c.hash, s.ops, key)
      && (forall i :: 0 <= i < |s.ops| && s.ops[i].Upsert? ==> s.ops[i].record.retryCount == 0)
  {
    AllRunsAreSound(c, ls);
    RetryCountCountsFailures(c.hash, Exec(c, INIT, ls).ops, key);
  }

  /** No status write is ever dropped for want of a record, by any process, in any run. */
  lemma NoWriteMissesItsRecord(c: Config, ls: seq<Label>, i: nat, ch: Choice)
    requires var s := Exec(c, INIT, ls); i < |s.procs| && CanAct(s.procs[i], ch)
    ensures var s := Exec(c, INIT, ls);
      var write := Act(c, s.store, s.procs[i], ch).write;
      write.Some? && write.value.SetStatus? ==> c.hash(write.value.url) in s.store
  {
    AllRunsAreSound(c, ls);
    var s := Exec(c, INIT, ls);
    assert ProcOk(c, s.store, s.fetched, s.procs[i]);
  }

  /** This step of a POST or GET inserts the record under `key`, giving it that creation time. */
  predicate InsertsRecord(c: Config, s: State, l: Label, key: string, createdAt: Time) {
    && l.Step? && Enabled(s, l) && Key(c, s.procs[l.i]) == key && key !in s.store
    && ((s.procs[l.i].Post? && s.procs[l.i].post.PostUpsert?) || (s.procs[l.i].Get? && s.procs[l.i].get.GetUpsert?))
    && l.choice.Call? && Applied(l.choice.reply)
    && MillisecondOf(createdAt, GivenCreation(l.choice.createdAt, l.choice.now))
  }

  lemma StepInserts(c: Config, s: State, l: Label, key: string)
    requires key !in s.store && key in Next(c, s, l).store
    ensures InsertsRecord(c, s, l, key, Next(c, s, l).store[key].createdAt)
  {
    if Key(c, s.procs[l.i]) != key {
      WritesOwnRecord(c, s.store, s.procs[l.i], l.choice, key);
    }
  }

  /** In every run, `created_at` is the time that the POST or GET which inserted the record chose for it. */
  lemma {:induction false} CreatedByItsInsertion(c: Config, s: State, ls: seq<Label>, key: string)
    requires key !in s.store && key in Exec(c, s, ls).store
    ensures var createdAt := Exec(c, s, ls).store[key].createdAt;
      Sometime(c, s, ls, (s, l) => InsertsRecord(c, s, l, key, createdAt))
    decreases |ls|
  {
    var s1 := Next(c, s, ls[0]);
    if key in s1.store {
      StepInserts(c, s, ls[0], key);
      RecordsPersist(c, s1, ls[1..], key);
    } else {
      CreatedByItsInsertion(c, s1, ls[1..], key);
    }
  }

  /** A new request for `url`: pending, blank, and with nothing counted against it. */
  predicate IsFresh(r: Record, url: string) {
    && r.url == url && r.status.Pending? && Blank(r) && r.error == "" && r.retryCount == 0
  }

  /** What a process's write leaves of its record, by what the process was doing. */
  ghost predicate LeavesRecord(p: Proc, ch: Choice, before: Option<Record>, after: Record)
    requires ch.Call?
  {
    match p
    case Post(url, PostUpsert) => IsFresh(after, url)
    case Get(url, GetUpsert) => IsFresh(after, url)
    case Post(_, PostMark) => Restamped(before, after, Fetching, 0)
    case Job(_, _, JobMark, _) => Restamped(before, after, Fetching, 0)
    case Post(_, PostFail) => Restamped(before, after, Failed, 1)
    case Job(_, _, JobFail, _) => Restamped(before, after, Failed, 1)
    case Post(url, PostReady(result)) => MadeReady(before, after, result)
    case Job(url, _, JobReady(result), _) => MadeReady(before, after, result)
    case _ => before == Some(after)
  }

  /** Only the status, the time of the last update and the failures counted have changed. */
  predicate Restamped(before: Option<Record>, after: Record, status: Status, failures: nat) {
    before.Some? && after.status == status && after.retryCount == before.value.retryCount + failures
    && after == before.value.(status := after.status, updatedAt := after.updatedAt, retryCount := after.retryCount)
  }

  /** The fetch fields are those of the page, and the record is ready; what identifies it is as before. */
  predicate MadeReady(before: Option<Record>, after: Record, result: FetchResult) {
    before.Some? && after.status.Ready? && Holds(after, result)
    && after.url == before.value.url && after.urlHash == before.value.urlHash
    && after.createdAt == before.value.createdAt && after.retryCount == before.value.retryCount
    && after.error == before.value.error
  }

  lemma WriteLeaves(c: Config, store: Records, p: Proc, ch: Choice)
    requires CanAct(p, ch) && ch.Call? && (NeedsRecord(p) ==> Key(c, p) in store)
    ensures var after := StoreAfter(c, store, Act(c, store, p, ch));
      && (Applied(ch.reply) && Key(c, p) in after ==>
           LeavesRecord(p, ch, Lookup(c.hash, store, p.url), after[Key(c, p)]))
      && (!Applied(ch.reply) ==> after == store)
  {}

  /** In every reachable state, what each call of a process does to its record, if it takes effect: an
      upsert makes it fresh, marking makes it fetching, a failed fetch failed with one failure more,
      and a successful one ready with that page; a call without effect leaves the store alone. */
  lemma EachWriteLeaves(c: Config, ls: seq<Label>, i: nat, ch: Choice)
    requires var s := Exec(c, INIT, ls); i < |s.procs| && CanAct(s.procs[i], ch) && ch.Call?
    ensures var s := Exec(c, INIT, ls);
      var p, s' := s.procs[i], Perform(c, s, i, ch);
      && (Applied(ch.reply) && Key(c, p) in s'.store ==>
           LeavesRecord(p, ch, Lookup(c.hash, s.store, p.url), s'.store[Key(c, p)]))
      && (!Applied(ch.reply) ==> s'.store == s.store)
  {
    AllRunsAreSound(c, ls);
    var s := Exec(c, INIT, ls);
    assert ProcOk(c, s.store, s.fetched, s.procs[i]);
    WriteLeaves(c, s.store, s.procs[i], ch);
  }

  /** A record, once there, stays, under the same key and with the same `created_at`. */
  lemma {:induction false} RecordsPersist(c: Config, s: State, ls: seq<Label>, key: string)
    requires key in s.store
    ensures key in Exec(c, s, ls).store && Exec(c, s, ls).store[key].createdAt == s.store[key].createdAt
    decreases |ls|
  {
    if ls != [] {
      var l := ls[0];
      if l.Step? && Enabled(s, l) && Key(c, s.procs[l.i]) != key {
        WritesOwnRecord(c, s.store, s.procs[l.i], l.choice, key);
      }
      RecordsPersist(c, Next(c, s, l), ls[1..], key);
    }
  }

  // ---- Whose results may be torn ----

  lemma BothMiss(c: Config, u: string, v: string, at: Time) returns (s: State)
    ensures Reachable(c, INIT, s) && s.procs == [Get(u, GetUpsert), Get(v, GetUpsert)]
    ensures s.store == map[] && s.topic == [] && s.settled == {} && s.fetched == {}
  {
    Here(c, INIT, (_, _) => true);
    s := Go(c, INIT, INIT, StartGet(u));
    s := Go(c, INIT, s, StartGet(v));
    assert s.procs == [Get(u, GetFind), Get(v, GetFind)];
    s := Take(c, INIT, s, 0, Call(Done, at, at));
    s := Take(c, INIT, s, 1, Call(Done, at, at));
  }

  /** Two URLs, one hash: GETs for both race past their lookups and upsert, the second last. */
  lemma BothQueue(c: Config, u: string, v: string, at: Time) returns (s: State)
    requires u != v && c.hash(u) == c.hash(v)
    ensures Reachable(c, INIT, s) && |s.procs| == 2 && s.topic == [u] && s.settled == {} && s.fetched == {}
    ensures c.hash(u) in s.store && s.store[c.hash(u)].url == v
  {
    s := BothMiss(c, u, v, at);
    s := Take(c, INIT, s, 0, Call(Done, at, at));
    assert s.procs == [Get(u, GetPublish), Get(v, GetUpsert)] && s.topic == [];
    s := Take(c, INIT, s, 1, Call(Done, at, at));
    assert s.store[c.hash(u)].url == v;
    s := Take(c, INIT, s, 0, Call(Done, at, at));
  }

  lemma BothUpsert(c: Config, u: string, v: string, at: Time) returns (s: State)
    requires u != v && c.hash(u) == c.hash(v) && !c.asyncFetchOnly
    ensures Reachable(c, INIT, s) && s.procs == [Post(u, PostMark), Post(v, PostMark)] && s.fetched == {}
    ensures c.hash(u) in s.store && s.store[c.hash(u)].url == v
  {
    var call := Call(Done, at, at);
    Here(c, INIT, (_, _) => true);
    s := Go(c, INIT, INIT, StartPost(u));
    s := Go(c, INIT, s, StartPost(v));
    s := Take(c, INIT, s, 0, call);
    s := Take(c, INIT, s, 1, call);
    assert s.procs == [Post(u, PostUpsert), Post(v, PostUpsert)] && s.fetched == {};
    s := Take(c, INIT, s, 0, call);
    s := Take(c, INIT, s, 1, call);
  }

  /** Configurations in which something fetches: inline requests, or deliveries. */
  predicate Fetches(c: Config) {
    !c.asyncFetchOnly || c.maxRetries >= 0
  }

  lemma InlineCollision(c: Config, u: string, v: string, res: FetchResult, at: Time) returns (s: State)
    requires u != v && c.hash(u) == c.hash(v) && !c.asyncFetchOnly
    ensures Reachable(c, INIT, s) && c.hash(u) in s.store && s.store[c.hash(u)].url == v
    ensures Holds(s.store[c.hash(u)], res) && s.fetched == {(u, res)}
  {
    s := BothUpsert(c, u, v, at);
    s := Take(c, INIT, s, 0, Call(Done, at, at));
    s := Take(c, INIT, s, 0, Fetch(Fetched(res)));
    assert s.procs == [Post(u, PostReady(res)), Post(v, PostMark)];
    s := Take(c, INIT, s, 0, Call(Done, at, at));
  }

  lemma QueuedCollision(c: Config, u: string, v: string, res: FetchResult, at: Time) returns (s: State)
    requires u != v && c.hash(u) == c.hash(v) && c.maxRetries >= 0
    ensures Reachable(c, INIT, s) && c.hash(u) in s.store && s.store[c.hash(u)].url == v
    ensures Holds(s.store[c.hash(u)], res) && s.fetched == {(u, res)}
  {
    s := BothQueue(c, u, v, at);
    s := Go(c, INIT, s, Deliver(0));
    assert s.procs[2] == Job(u, 0, JobMark, 0) && |s.procs| == 3;
    s := Take(c, INIT, s, 2, Call(Done, at, at));
    assert s.procs[2] == Job(u, 0, JobFetch, 0) && |s.procs| == 3 && s.fetched == {};
    assert c.hash(u) in s.store && s.store[c.hash(u)].url == v;
    s := Take(c, INIT, s, 2, Fetch(Fetched(res)));
    assert s.procs[2] == Job(u, 0, JobReady(res), 0) && |s.procs| == 3 && s.fetched == {(u, res)};
    s := Take(c, INIT, s, 2, Call(Done, at, at));
  }

  /** Whenever two URLs share a hash, some run leaves a record of one that holds what was
      fetched from the other. */
  lemma CollisionsTearResults(c: Config, u: string, v: string, res: FetchResult, at: Time) returns (s: State)
    requires u != v && c.hash(u) == c.hash(v) && Fetches(c)
    ensures Reachable(c, INIT, s) && c.hash(u) in s.store && s.store[c.hash(u)].url == v
    ensures Holds(s.store[c.hash(u)], res) && s.fetched == {(u, res)}
  {
    if !c.asyncFetchOnly {
      s := InlineCollision(c, u, v, res, at);
    } else {
      s := QueuedCollision(c, u, v, res, at);
    }
  }

  /** A process that will write nothing but a pending record, and has returned nothing else. */
  predicate NeverFetches(p: Proc) {
    match p
    case Post(_, pc) =>
      && !pc.PostMark? && !pc.PostFetch? && !pc.PostFail? && !pc.PostReady? && !pc.PostFinal?
      && (pc.PostDone? && pc.outcome.Returned? && pc.outcome.record.Some? ==> pc.outcome.record.value.status.Pending?)
    case Get(_, _) => true
    case Job(_, _, pc, _) => pc.Acked?
  }

  ghost predicate Fetchless(s: State) {
    && s.fetched == {}
    && (forall key :: key in s.store ==> s.store[key].status.Pending?)
    && forall i :: 0 <= i < |s.procs| ==> NeverFetches(s.procs[i])
  }

  lemma ActorNeverFetches(c: Config, store: Records, p: Proc, ch: Choice)
    requires !Fetches(c) && CanAct(p, ch) && NeverFetches(p)
    requires Key(c, p) in store ==> store[Key(c, p)].status.Pending?
    ensures var e := Act(c, store, p, ch);
      && NeverFetches(e.next) && FetchedBy(p, ch) == {}
      && (e.write.Some? ==> e.write.value.Upsert? && e.write.value.record.status.Pending?)
  {}

  lemma StepKeepsFetchless(c: Config, s: State, l: Label)
    requires !Fetches(c) && Fetchless(s)
    ensures Fetchless(Next(c, s, l))
  {
    if l.Step? && Enabled(s, l) {
      ActorNeverFetches(c, s.store, s.procs[l.i], l.choice);
    }
  }

  lemma {:induction false} WithoutFetches(c: Config, s: State, ls: seq<Label>)
    requires !Fetches(c) && Fetchless(s)
    ensures Fetchless(Exec(c, s, ls))
    decreases |ls|
  {
    if ls != [] {
      StepKeepsFetchless(c, s, ls[0]);
      WithoutFetches(c, Next(c, s, ls[0]), ls[1..]);
    }
  }

  ghost predicate NeverTorn(c: Config) {
    forall s :: Reachable(c, INIT, s) ==> forall key :: key in s.store ==> Untorn(s, s.store[key])
  }

  /** No run at all tears a result exactly when the hash is injective - or nothing ever fetches,
      because POST only queues and a negative retry limit acknowledges every message unhandled. */
  lemma NeverTornExactlyIfInjective(c: Config)
    ensures NeverTorn(c) <==> Injective(c.hash) || !Fetches(c)
  {
    if Injective(c.hash) || !Fetches(c) {
      forall s, key | Reachable(c, INIT, s) && key in s.store ensures Untorn(s, s.store[key]) {
        var ls :| Exec(c, INIT, ls) == s;
        if Injective(c.hash) {
          ResultsAreNeverTorn(c, ls, key);
        } else {
          AllRunsAreSound(c, ls);
          WithoutFetches(c, INIT, ls);
        }
      }
    } else {
      var u, v :| c.hash(u) == c.hash(v) && u != v;
      var s := CollisionsTearResults(c, u, v, FetchResult(map[], [], [], 0, 0, 0), 1);
      assert !Untorn(s, s.store[c.hash(u)]);
    }
  }
}
