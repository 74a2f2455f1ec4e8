/** The fetch pipeline as a step system. Every repository call, fetch, publish and
    dead-letter write of every request and every delivery is one step, and any
    number of them interleave. */
module Pipeline {
  import opened Types
  import opened Store
  import opened RetryPolicy
  import opened Fetcher

  datatype Config = Config(hash: UrlHash, maxRetries: int, asyncFetchOnly: bool, pageSourceStorage: bool)

  datatype ServiceError = InvalidURL | FetchFailed | AlreadyPending | DatabaseError | KafkaError | Unexpected

  /** What the service returns: a record and its "new" or "queued" flag, or an error. */
  datatype Outcome = Returned(record: Option<Record>, flag: bool) | Rejected(error: ServiceError)

  datatype PostPc =
    | PostFind | PostUpsert
    | PostPublish | PostRefind
    | PostMark | PostFetch | PostFail | PostReady(result: FetchResult) | PostFinal
    | PostDone(outcome: Outcome) | PostCrashed

  datatype GetPc = GetFind | GetUpsert | GetPublish | GetDone(outcome: Outcome) | GetCrashed

  /** One delivery of a message; `Acked` once the retry loop asks for its offset to be committed. */
  datatype JobPc =
    | JobMark | JobFetch | JobFail | JobReady(result: FetchResult)
    | Backoff | DeadLettering
    | Acked | Unacked | JobCrashed

  datatype Proc =
    | Post(url: string, post: PostPc)
    | Get(url: string, get: GetPc)
    | Job(url: string, msg: nat, job: JobPc, attempt: nat)

  /** What the environment decides about one step. */
  datatype Choice =
    | Call(reply: Reply, createdAt: Time, now: Time)
    | Fetch(outcome: FetchOutcome)
    | Wake(cancelled: bool)
    | Crash

  /** The acting process afterwards, whether it publishes its URL, and the write it makes. */
  datatype Effect = Effect(next: Proc, publishes: bool, write: Option<Op>)

  predicate CanAct(p: Proc, ch: Choice) {
    match p
    case Post(_, pc) =>
      !pc.PostDone? && !pc.PostCrashed? && (ch.Crash? || if pc.PostFetch? then ch.Fetch? else ch.Call?)
    case Get(_, pc) =>
      !pc.GetDone? && !pc.GetCrashed? && (ch.Crash? || ch.Call?)
    case Job(_, _, pc, _) =>
      match pc
      case JobFetch => ch.Fetch? || ch.Crash?
      case Backoff => ch.Wake? || ch.Crash?
      case Acked => false
      case Unacked => false
      case JobCrashed => false
      case _ => ch.Call? || ch.Crash?
  }

  function WriteIf(reply: Reply, op: Op): Option<Op> {
    if Applied(reply) then Some(op) else None
  }

  function PostAct(c: Config, store: Records, url: string, pc: PostPc, ch: Choice): Effect
    requires CanAct(Post(url, pc), ch)
  {
    if ch.Crash? then Effect(Post(url, PostCrashed), false, None) else
    match pc
    case PostFind =>
      var found := Lookup(c.hash, store, url);
      var next :=
        if ch.reply.Error? then PostDone(Rejected(DatabaseError))
        else if found.Some? && (found.value.status.Ready? || InProgress(found.value.status))
        then PostDone(Returned(found, false))
        else PostUpsert;
      Effect(Post(url, next), false, None)
    case PostUpsert =>
      var next :=
        if ch.reply.Error? then PostDone(Rejected(DatabaseError))
        else if c.asyncFetchOnly then PostPublish
        else PostMark;
      Effect(Post(url, next), false, WriteIf(ch.reply, Upsert(PendingRecord(url, ch.createdAt), ch.now)))
    case PostPublish =>
      Effect(Post(url, if ch.reply.Done? then PostRefind else PostDone(Rejected(KafkaError))), Applied(ch.reply), None)
    case PostMark =>
      Effect(Post(url, PostFetch), false, WriteIf(ch.reply, SetStatus(url, Fetching, None, ch.now)))
    case PostFetch =>
      Effect(Post(url, if ch.outcome.Fetched? then PostReady(ch.outcome.result) else PostFail), false, None)
    case PostFail =>
      Effect(Post(url, PostDone(Rejected(FetchFailed))), false, WriteIf(ch.reply, SetStatus(url, Failed, None, ch.now)))
    case PostReady(result) =>
      Effect(Post(url, if ch.reply.Done? then PostFinal else PostDone(Rejected(DatabaseError))), false,
             WriteIf(ch.reply, SetStatus(url, Ready, Some(result), ch.now)))
    case _ => // PostRefind and PostFinal
      var outcome := if ch.reply.Done? then Returned(Lookup(c.hash, store, url), true) else Rejected(DatabaseError);
      Effect(Post(url, PostDone(outcome)), false, None)
  }

  function GetAct(c: Config, store: Records, url: string, pc: GetPc, ch: Choice): Effect
    requires CanAct(Get(url, pc), ch)
  {
    if ch.Crash? then Effect(Get(url, GetCrashed), false, None) else
    match pc
    case GetFind =>
      var found := Lookup(c.hash, store, url);
      var next :=
        if ch.reply.Error? then GetDone(Rejected(DatabaseError))
        else if found.Some? && found.value.status.Ready? then GetDone(Returned(found, false))
        else if found.Some? && InProgress(found.value.status) then GetDone(Returned(None, true))
        else GetUpsert;
      Effect(Get(url, next), false, None)
    case GetUpsert =>
      Effect(Get(url, if ch.reply.Done? then GetPublish else GetDone(Rejected(DatabaseError))), false,
             WriteIf(ch.reply, Upsert(PendingRecord(url, ch.createdAt), ch.now)))
    case _ => // GetPublish
      Effect(Get(url, GetDone(if ch.reply.Done? then Returned(None, true) else Rejected(KafkaError))),
             Applied(ch.reply), None)
  }

  /** Where the retry loop goes once the handler has returned. */
  function AfterAttempt(maxRetries: int, attempt: nat, ok: bool): JobPc {
    match Judge(maxRetries, attempt, ok)
    case Acknowledge => Acked
    case RetryLater => Backoff
    case DeadLetter => DeadLettering
  }

  function JobAct(c: Config, p: Proc, ch: Choice): Effect
    requires p.Job? && CanAct(p, ch)
  {
    if ch.Crash? then Effect(p.(job := JobCrashed), false, None) else
    match p.job
    case JobMark =>
      Effect(p.(job := JobFetch), false, WriteIf(ch.reply, SetStatus(p.url, Fetching, None, ch.now)))
    case JobFetch =>
      Effect(p.(job := if ch.outcome.Fetched? then JobReady(ch.outcome.result) else JobFail), false, None)
    case JobFail =>
      Effect(p.(job := AfterAttempt(c.maxRetries, p.attempt, false)), false,
             WriteIf(ch.reply, SetStatus(p.url, Failed, None, ch.now)))
    case JobReady(result) =>
      Effect(p.(job := AfterAttempt(c.maxRetries, p.attempt, ch.reply.Done?)), false,
             WriteIf(ch.reply, SetStatus(p.url, Ready, Some(result), ch.now)))
    case Backoff =>
      Effect(if ch.cancelled then p.(job := Unacked) else p.(job := JobMark, attempt := p.attempt + 1), false, None)
    case _ => // DeadLettering
      Effect(p.(job := if ch.reply.Done? then Acked else Unacked), false, None)
  }

  function Act(c: Config, store: Records, p: Proc, ch: Choice): Effect
    requires CanAct(p, ch)
  {
    match p
    case Post(url, pc) => PostAct(c, store, url, pc, ch)
    case Get(url, pc) => GetAct(c, store, url, pc, ch)
    case Job(_, _, _, _) => JobAct(c, p, ch)
  }

  // ---- Runs ----

  /** The store, every request and delivery so far, the URLs published to the topic and the
      messages among them that need no further delivery, because a delivery was acknowledged
      or a commit passed over them; and two histories: the writes that reached the store
      and the fetches that succeeded. */
  datatype State = State(
    store: Records,
    procs: seq<Proc>,
    topic: seq<string>,
    settled: set<nat>,
    ops: seq<Op>,
    fetched: set<(string, FetchResult)>)

  /** A message may be delivered at any time and any number of times at once: first, after a
      crash or a failed commit, or to a second consumer while the first still has it. */
  datatype Label =
    | StartPost(url: string)
    | StartGet(url: string)
    | Deliver(msg: nat)
    | PassOver(msg: nat)
    | Step(i: nat, choice: Choice)

  const INIT := State(map[], [], [], {}, [], {})

  predicate Enabled(s: State, l: Label) {
    match l
    case Deliver(n) => n < |s.topic|
    case PassOver(n) => n < |s.topic|
    case Step(i, ch) => i < |s.procs| && CanAct(s.procs[i], ch)
    case _ => true
  }

  function FetchedBy(p: Proc, ch: Choice): set<(string, FetchResult)> {
    if ch.Fetch? && ch.outcome.Fetched? then {(p.url, ch.outcome.result)} else {}
  }

  function SettledBy(p: Proc): set<nat> {
    if p.Job? && p.job.Acked? then {p.msg} else {}
  }

  function Perform(c: Config, s: State, i: nat, ch: Choice): State
    requires i < |s.procs| && CanAct(s.procs[i], ch)
  {
    var e := Act(c, s.store, s.procs[i], ch);
    State(StoreAfter(c, s.store, e),
          s.procs[i := e.next],
          if e.publishes then s.topic + [e.next.url] else s.topic,
          s.settled + SettledBy(e.next),
          if e.write.Some? then s.ops + [e.write.value] else s.ops,
          s.fetched + FetchedBy(s.procs[i], ch))
  }

  /** What an effect does to the store. */
  function StoreAfter(c: Config, store: Records, e: Effect): Records {
    if e.write.Some? then Apply(c.hash, store, e.write.value) else store
  }

  /** Under a negative retry limit the retry loop is skipped and the message acknowledged. */
  function NewDelivery(c: Config, url: string, n: nat): Proc {
    Job(url, n, if c.maxRetries < 0 then Acked else JobMark, 0)
  }

  /** A label that is not enabled changes nothing, so every list of labels is a run. */
  function Next(c: Config, s: State, l: Label): State {
    if !Enabled(s, l) then s else
    match l
    case StartPost(url) => s.(procs := s.procs + [Post(url, PostFind)])
    case StartGet(url) => s.(procs := s.procs + [Get(url, GetFind)])
    case Deliver(n) =>
      var p := NewDelivery(c, s.topic[n], n);
      s.(procs := s.procs + [p], settled := s.settled + SettledBy(p))
    case PassOver(n) => s.(settled := s.settled + {n})
    case Step(i, ch) => Perform(c, s, i, ch)
  }

  function Exec(c: Config, s: State, ls: seq<Label>): State
    decreases |ls|
  {
    if ls == [] then s else Exec(c, Next(c, s, ls[0]), ls[1..])
  }

  /** `p` holds of every step that a run takes. */
  ghost predicate Along(c: Config, s: State, ls: seq<Label>, p: (State, Label) -> bool)
    decreases |ls|
  {
    ls == [] || (p(s, ls[0]) && Along(c, Next(c, s, ls[0]), ls[1..], p))
  }

  /** `p` holds of some step of a run. */
  ghost predicate Sometime(c: Config, s: State, ls: seq<Label>, p: (State, Label) -> bool)
    decreases |ls|
  {
    ls != [] && (p(s, ls[0]) || Sometime(c, Next(c, s, ls[0]), ls[1..], p))
  }

  lemma {:induction false} ExecConcat(c: Config, s: State, ls: seq<Label>, more: seq<Label>)
    ensures Exec(c, s, ls + more) == Exec(c, Exec(c, s, ls), more)
    decreases |ls|
  {
    if ls == [] {
      assert ls + more == more;
    } else {
      assert (ls + more)[1..] == ls[1..] + more;
      ExecConcat(c, Next(c, s, ls[0]), ls[1..], more);
    }
  }

  lemma {:induction false} AlongSnoc(c: Config, s: State, ls: seq<Label>, l: Label, p: (State, Label) -> bool)
    requires Along(c, s, ls, p) && p(Exec(c, s, ls), l)
    ensures Along(c, s, ls + [l], p)
    decreases |ls|
  {
    if ls == [] {
      assert ([] + [l])[1..] == [];
    } else {
      assert (ls + [l])[1..] == ls[1..] + [l];
      AlongSnoc(c, Next(c, s, ls[0]), ls[1..], l, p);
    }
  }

  /** Some run leads from `s0` to `s`, and `p` holds of each of its steps. */
  ghost predicate Via(c: Config, s0: State, s: State, p: (State, Label) -> bool) {
    exists ls :: Exec(c, s0, ls) == s && Along(c, s0, ls, p)
  }

  ghost predicate Reachable(c: Config, s0: State, s: State) {
    exists ls :: Exec(c, s0, ls) == s
  }

  lemma Here(c: Config, s0: State, p: (State, Label) -> bool)
    ensures Reachable(c, s0, s0) && Via(c, s0, s0, p)
  {
    assert Exec(c, s0, []) == s0 && Along(c, s0, [], p);
  }

  /** Takes a run of `c` one step further; used to write out concrete runs. */
  lemma Go(c: Config, s0: State, s: State, l: Label) returns (s': State)
    requires Reachable(c, s0, s)
    ensures s' == Next(c, s, l) && Reachable(c, s0, s')
  {
    s' := Next(c, s, l);
    var ls :| Exec(c, s0, ls) == s;
    ExecConcat(c, s0, ls, [l]);
    assert [l][1..] == [];
    assert Exec(c, s0, ls + [l]) == s';
  }

  /** The same for a step of process `i`, with the new state field by field. */
  lemma Take(c: Config, s0: State, s: State, i: nat, ch: Choice) returns (s': State)
    requires Reachable(c, s0, s) && i < |s.procs| && CanAct(s.procs[i], ch)
    ensures Reachable(c, s0, s')
    ensures var e := Act(c, s.store, s.procs[i], ch);
      && s'.store == StoreAfter(c, s.store, e) && s'.procs == s.procs[i := e.next]
      && s'.topic == (if e.publishes then s.topic + [e.next.url] else s.topic)
      && s'.settled == s.settled + SettledBy(e.next) && s'.fetched == s.fetched + FetchedBy(s.procs[i], ch)
  {
    s' := Go(c, s0, s, Step(i, ch));
  }

  lemma GoVia(c: Config, s0: State, s: State, l: Label, p: (State, Label) -> bool) returns (s': State)
    requires Via(c, s0, s, p) && p(s, l)
    ensures s' == Next(c, s, l) && Via(c, s0, s', p)
  {
    s' := Next(c, s, l);
    var ls :| Exec(c, s0, ls) == s && Along(c, s0, ls, p);
    ExecConcat(c, s0, ls, [l]);
    assert [l][1..] == [];
    AlongSnoc(c, s0, ls, l, p);
    assert Exec(c, s0, ls + [l]) == s';
  }

  lemma TakeVia(c: Config, s0: State, s: State, i: nat, ch: Choice, p: (State, Label) -> bool) returns (s': State)
    requires Via(c, s0, s, p) && i < |s.procs| && CanAct(s.procs[i], ch) && p(s, Step(i, ch))
    ensures Via(c, s0, s', p)
    ensures var e := Act(c, s.store, s.procs[i], ch);
      && s'.store == StoreAfter(c, s.store, e) && s'.procs == s.procs[i := e.next]
      && s'.topic == (if e.publishes then s.topic + [e.next.url] else s.topic)
      && s'.settled == s.settled + SettledBy(e.next)
  {
    s' := GoVia(c, s0, s, Step(i, ch), p);
  }

  lemma {:induction false} AlongWeaker(c: Config, s: State, ls: seq<Label>, p: (State, Label) -> bool,
        q: (State, Label) -> bool)
    requires Along(c, s, ls, p) && forall s, l :: p(s, l) ==> q(s, l)
    ensures Along(c, s, ls, q)
    decreases |ls|
  {
    if ls != [] {
      AlongWeaker(c, Next(c, s, ls[0]), ls[1..], p, q);
    }
  }

  function Key(c: Config, p: Proc): string {
    c.hash(p.url)
  }

  /** A process only ever writes the record of its own URL. */
  lemma WritesOwnRecord(c: Config, store: Records, p: Proc, ch: Choice, key: string)
    requires CanAct(p, ch) && key != Key(c, p)
    ensures var after := StoreAfter(c, store, Act(c, store, p, ch));
      (key in after <==> key in store) && (key in store ==> after[key] == store[key])
  {}

  lemma KeepsUrl(c: Config, store: Records, p: Proc, ch: Choice)
    requires CanAct(p, ch)
    ensures var e := Act(c, store, p, ch);
      e.next.url == p.url && (e.next.Job? <==> p.Job?) && (p.Job? ==> e.next.msg == p.msg)
  {}

  /** Every delivery is of a published message and knows its URL; only published messages are settled. */
  ghost predicate DeliveriesMatch(s: State) {
    && (forall i :: 0 <= i < |s.procs| && s.procs[i].Job? ==>
         s.procs[i].msg < |s.topic| && s.topic[s.procs[i].msg] == s.procs[i].url)
    && (forall n :: n in s.settled ==> n < |s.topic|)
  }

  lemma StepKeepsMatch(c: Config, s: State, l: Label)
    requires DeliveriesMatch(s)
    ensures DeliveriesMatch(Next(c, s, l)) && s.topic <= Next(c, s, l).topic
  {
    if l.Step? && Enabled(s, l) {
      KeepsUrl(c, s.store, s.procs[l.i], l.choice);
    }
  }
}
