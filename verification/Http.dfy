/** The two HTTP handlers, and what their status codes mean in every interleaving. */
module Http {
  import opened Types
  import opened Store
  import opened Fetcher
  import opened Pipeline
  import opened Safety
  import opened Service

  datatype Body =
    | RecordBody(record: Option<Record>)
    | PendingBody(status: string, url: string, message: string, pollAfterSeconds: int)
    | ErrorBody(code: string, message: string)

  datatype Response = Response(status: int, body: Body)

  function ServiceErrorResponse(e: ServiceError, text: string): Response {
    match e
    case InvalidURL => Response(400, ErrorBody("INVALID_URL", text))
    case FetchFailed => Response(422, ErrorBody("FETCH_FAILED", text))
    case AlreadyPending => Response(409, ErrorBody("ALREADY_PENDING", text))
    case DatabaseError => Response(500, ErrorBody("DATABASE_ERROR", "A database error occurred"))
    case KafkaError => Response(500, ErrorBody("QUEUE_ERROR", "Failed to queue request"))
    case Unexpected => Response(500, ErrorBody("INTERNAL_ERROR", "An unexpected error occurred"))
  }

  function PostResponse(o: Outcome, text: string): Response {
    if o.Rejected? then ServiceErrorResponse(o.error, text)
    else if o.record.Some? && InProgress(o.record.value.status) then Response(202, RecordBody(o.record))
    else Response(if o.flag then 201 else 200, RecordBody(o.record))
  }

  function GetResponse(url: string, o: Outcome, text: string): Response {
    if o.Rejected? then ServiceErrorResponse(o.error, text)
    else if o.record.Some? then Response(200, RecordBody(o.record))
    else if o.flag then Response(202, PendingBody("pending", url, "Fetch request queued", 5))
    else Response(500, ErrorBody("INTERNAL_ERROR", "An unexpected error occurred"))
  }

  class MetadataPostHandler {
    const svc: MetadataService

    constructor (svc: MetadataService)
      ensures this.svc == svc
    {
      this.svc := svc;
    }

    /** `body` is the decoded URL, if the body was JSON; `invalid` is the URL validator's
        complaint; `text` is the text of the service error. */
    method ServeHTTP(body: Option<string>, invalid: Option<string>, env: PostEnv, requestID: string, chosen: nat,
        text: string)
      returns (resp: Response)
      requires svc.Valid() && chosen < |svc.producer.partitions|
      modifies svc.repo, svc.producer
      ensures svc.Valid()
      ensures body.None? ==> resp == Response(400, ErrorBody("INVALID_BODY", "Request body must be valid JSON"))
      ensures body.Some? && invalid.Some? ==> resp == Response(400, ErrorBody("INVALID_URL", invalid.value))
      ensures body.None? || invalid.Some? ==>
        svc.repo.contents == old(svc.repo.contents) && svc.producer.partitions == old(svc.producer.partitions)
      ensures body.Some? && invalid.None? ==>
        var r := Submit(svc.Cfg(), old(svc.repo.contents), body.value, env);
        && resp == PostResponse(r.outcome, text) && svc.repo.contents == r.store
        && FollowsTopic(old(svc.producer.partitions), svc.producer.partitions, body.value, r.published)
    {
      if body.None? {
        return Response(400, ErrorBody("INVALID_BODY", "Request body must be valid JSON"));
      }
      if invalid.Some? {
        return Response(400, ErrorBody("INVALID_URL", invalid.value));
      }
      var outcome := svc.SubmitURL(body.value, env, requestID, chosen);
      if outcome.Rejected? {
        return ServiceErrorResponse(outcome.error, text);
      }
      var record := outcome.record;
      if record.Some? && (record.value.status.Pending? || record.value.status.Fetching?) {
        return Response(202, RecordBody(record));
      }
      resp := if outcome.flag then Response(201, RecordBody(record)) else Response(200, RecordBody(record));
    }
  }

  class MetadataGetHandler {
    const svc: MetadataService

    constructor (svc: MetadataService)
      ensures this.svc == svc
    {
      this.svc := svc;
    }

    method ServeHTTP(rawURL: string, invalid: Option<string>, env: GetEnv, requestID: string, chosen: nat,
        text: string)
      returns (resp: Response)
      requires svc.Valid() && chosen < |svc.producer.partitions|
      modifies svc.repo, svc.producer
      ensures svc.Valid()
      ensures rawURL == "" ==> resp == Response(400, ErrorBody("MISSING_PARAM", "url query parameter is required"))
      ensures rawURL != "" && invalid.Some? ==> resp == Response(400, ErrorBody("INVALID_URL", invalid.value))
      ensures rawURL == "" || invalid.Some? ==>
        svc.repo.contents == old(svc.repo.contents) && svc.producer.partitions == old(svc.producer.partitions)
      ensures rawURL != "" && invalid.None? ==>
        var r := Query(svc.Cfg(), old(svc.repo.contents), rawURL, env);
        && resp == GetResponse(rawURL, r.outcome, text) && svc.repo.contents == r.store
        && FollowsTopic(old(svc.producer.partitions), svc.producer.partitions, rawURL, r.published)
    {
      if rawURL == "" {
        return Response(400, ErrorBody("MISSING_PARAM", "url query parameter is required"));
      }
      if invalid.Some? {
        return Response(400, ErrorBody("INVALID_URL", invalid.value));
      }
      var outcome := svc.GetMetadata(rawURL, env, requestID, chosen);
      if outcome.Rejected? {
        return ServiceErrorResponse(outcome.error, text);
      }
      if outcome.record.Some? {
        return Response(200, RecordBody(outcome.record));
      }
      if outcome.flag {
        return Response(202, PendingBody("pending", rawURL, "Fetch request queued", 5));
      }
      resp := Response(500, ErrorBody("INTERNAL_ERROR", "An unexpected error occurred"));
    }
  }

  // ---- Status codes in every interleaving ----

  ghost predicate CarriesReady(c: Config, fetched: set<(string, FetchResult)>, body: Body) {
    && body.RecordBody? && body.record.Some? && body.record.value.status.Ready?
    && FromOneFetch(c, fetched, body.record.value)
  }

  /** The error that a response reports, if it is an error, beside its status. */
  predicate Reports(resp: Response, status: int, code: string, message: string) {
    resp == Response(status, ErrorBody(code, message))
  }

  /** Each service error has its own status, code and message. */
  predicate ErrorsAnswered(o: Outcome, resp: Response, text: string) {
    && (o == Rejected(FetchFailed) <==> Reports(resp, 422, "FETCH_FAILED", text))
    && (o == Rejected(DatabaseError) <==> Reports(resp, 500, "DATABASE_ERROR", "A database error occurred"))
    && (o == Rejected(KafkaError) <==> Reports(resp, 500, "QUEUE_ERROR", "Failed to queue request"))
    && (o.Rejected? <==> resp.body.ErrorBody?)
  }

  /** Whatever interleaves and whatever fails, 200 carries a ready record whose content is one
      whole fetch, a record is never missing from a record response, every error answers
      with its own code, 409 and 400 never come from the service, and GET never falls through
      to its last branch. */
  lemma StatusCodesKeepTheirPromise(c: Config, ls: seq<Label>, i: nat, text: string)
    requires i < |Exec(c, INIT, ls).procs|
    ensures var s := Exec(c, INIT, ls);
      match s.procs[i]
      case Post(url, PostDone(o)) =>
        var resp := PostResponse(o, text);
        && resp.status in {200, 201, 202, 422, 500} && ErrorsAnswered(o, resp, text)
        && (resp.body.RecordBody? ==> resp.body.record.Some?)
        && (o.Returned? ==> resp.body == RecordBody(o.record))
        && (resp.status == 200 ==> CarriesReady(c, s.fetched, resp.body))
        && (resp.status == 202 ==> InProgress(resp.body.record.value.status))
        && (resp.status == 201 ==> !InProgress(resp.body.record.value.status))
        && (resp.status == 422 <==> o == Rejected(FetchFailed))
        && (resp.status == 500 <==> o == Rejected(DatabaseError) || o == Rejected(KafkaError))
      case Get(url, GetDone(o)) =>
        var resp := GetResponse(url, o, text);
        && resp.status in {200, 202, 500} && ErrorsAnswered(o, resp, text)
        && (resp.status == 200 ==> CarriesReady(c, s.fetched, resp.body) && resp.body == RecordBody(o.record))
        && (resp.status == 202 <==> resp.body == PendingBody("pending", url, "Fetch request queued", 5))
        && (resp.status == 500 <==> o == Rejected(DatabaseError) || o == Rejected(KafkaError))
      case _ => true
  {
    AllRunsAreSound(c, ls);
    var s := Exec(c, INIT, ls);
    assert ProcOk(c, s.store, s.fetched, s.procs[i]);
  }

  /** Process `i` reads the record `r` under its own hash and answers with it. */
  predicate Reads(c: Config, i: nat, r: Record, s: State, l: Label) {
    l.Step? && l.i == i && Enabled(s, l) && Key(c, s.procs[i]) in s.store && s.store[Key(c, s.procs[i])] == r
  }

  function AnsweredWith(p: Proc): Option<Record> {
    match p
    case Post(_, PostDone(Returned(record, _))) => record
    case Get(_, GetDone(Returned(record, _))) => record
    case _ => None
  }

  lemma AnswersAreRead(c: Config, store: Records, p: Proc, ch: Choice)
    requires CanAct(p, ch) && AnsweredWith(Act(c, store, p, ch).next).Some?
    ensures AnsweredWith(Act(c, store, p, ch).next) == Lookup(c.hash, store, p.url)
  {}

  /** In every run, a record that a request answers with is, field for field, the one the store held
      under the hash of its URL when the request read it. */
  lemma {:induction false} AnswersWereStored(c: Config, s: State, ls: seq<Label>, i: nat)
    requires i < |Exec(c, s, ls).procs| && AnsweredWith(Exec(c, s, ls).procs[i]).Some?
    requires i < |s.procs| ==> AnsweredWith(s.procs[i]).None?
    ensures var r := AnsweredWith(Exec(c, s, ls).procs[i]).value;
      Sometime(c, s, ls, (s, l) => Reads(c, i, r, s, l))
    decreases |ls|
  {
    var s1 := Next(c, s, ls[0]);
    if i < |s1.procs| && AnsweredWith(s1.procs[i]).Some? {
      AnswerStays(c, s1, ls[1..], i);
      AnswersAreRead(c, s.store, s.procs[i], ls[0].choice);
    } else {
      AnswersWereStored(c, s1, ls[1..], i);
    }
  }

  lemma {:induction false} AnswerStays(c: Config, s: State, ls: seq<Label>, i: nat)
    requires i < |s.procs| && AnsweredWith(s.procs[i]).Some?
    ensures i < |Exec(c, s, ls).procs| && Exec(c, s, ls).procs[i] == s.procs[i]
    decreases |ls|
  {
    if ls != [] {
      AnswerStays(c, Next(c, s, ls[0]), ls[1..], i);
    }
  }

  /** Which reply an uninterrupted GET rejects: a lookup or an upsert is a database error, a publish
      a queue error, and anything else is answered. */
  lemma GetErrors(c: Config, store: Records, url: string, env: GetEnv)
    ensures var o := Query(c, store, url, env).outcome;
      var missing := c.hash(url) !in store || store[c.hash(url)].status.Failed?;
      && (o == Rejected(DatabaseError) <==> !env.find.Done? || (missing && !env.upsert.Done?))
      && (o == Rejected(KafkaError) <==> env.find.Done? && missing && env.upsert.Done? && !env.publish.Done?)
      && (o.Rejected? ==> o.error in {DatabaseError, KafkaError})
      && (o.Returned? ==> (o.flag <==> o.record.None?))
  {}

  /** The same for POST: also a lost ready write or failed read-back is a database error, and a
      failed inline fetch is its own. */
  lemma PostErrors(c: Config, store: Records, url: string, env: PostEnv)
    ensures var o := Submit(c, store, url, env).outcome;
      var missing := c.hash(url) !in store || store[c.hash(url)].status.Failed?;
      var queued := env.find.Done? && missing && env.upsert.Done? && c.asyncFetchOnly;
      var inlined := env.find.Done? && missing && env.upsert.Done? && !c.asyncFetchOnly;
      var fetched := OutcomeOf(env.exchange, c.pageSourceStorage).Fetched?;
      && (o == Rejected(KafkaError) <==> queued && !env.publish.Done?)
      && (o == Rejected(FetchFailed) <==> inlined && !fetched)
      && (o == Rejected(DatabaseError) <==>
           || !env.find.Done?
           || (missing && !env.upsert.Done?)
           || (queued && env.publish.Done? && !env.refind.Done?)
           || (inlined && fetched && (!env.write.Done? || !env.refind.Done?)))
      && (o.Rejected? ==> o.error in {DatabaseError, KafkaError, FetchFailed})
      && (o.Returned? ==> (o.flag <==> missing))
  {
    if env.find.Done? && env.upsert.Done? && !c.asyncFetchOnly {
      InlineErrors(c, Written(c, store, Done, Upsert(PendingRecord(url, env.createdAt), env.upsertAt)), url, env);
    }
  }

  lemma InlineErrors(c: Config, s1: Records, url: string, env: PostEnv)
    ensures var o := SubmitInline(c, s1, url, env).outcome;
      var fetched := OutcomeOf(env.exchange, c.pageSourceStorage).Fetched?;
      && (o == Rejected(FetchFailed) <==> !fetched)
      && (o == Rejected(DatabaseError) <==> fetched && (!env.write.Done? || !env.refind.Done?))
      && (o.Rejected? ==> o.error in {DatabaseError, FetchFailed})
      && (o.Returned? ==> o.flag)
  {}

  // ---- What 201 carries ----

  /** A POST that has made its last write. */
  predicate HasWritten(p: Proc) {
    p.Post? &&
    (p.post.PostPublish? || p.post.PostRefind? || p.post.PostFinal? || p.post.PostDone? || p.post.PostCrashed?)
  }

  predicate NoWriteBy(c: Config, i: nat, s: State, l: Label) {
    l.Step? && l.i == i && Enabled(s, l) ==> Act(c, s.store, s.procs[i], l.choice).write.None?
  }

  /** From there on the process writes nothing, so what is written is written by others. */
  lemma {:induction false} WritesNoMore(c: Config, s: State, ls: seq<Label>, i: nat)
    requires i < |s.procs| && HasWritten(s.procs[i])
    ensures Along(c, s, ls, (s, l) => NoWriteBy(c, i, s, l))
    ensures i < |Exec(c, s, ls).procs| && s.ops <= Exec(c, s, ls).ops
    ensures Exec(c, s, ls).procs[i].url == s.procs[i].url
    decreases |ls|
  {
    if ls != [] {
      if ls[0].Step? && Enabled(s, ls[0]) { KeepsUrl(c, s.store, s.procs[ls[0].i], ls[0].choice); }
      WritesNoMore(c, Next(c, s, ls[0]), ls[1..], i);
    }
  }

  lemma {:induction false} LastOfTwo(hash: UrlHash, first: seq<Op>, second: seq<Op>, key: string)
    ensures LastWrite(hash, first + second, key) ==
      if LastWrite(hash, second, key).Some? then LastWrite(hash, second, key) else LastWrite(hash, first, key)
    decreases |second|
  {
    if second == [] {
      assert first + second == first;
    } else {
      var n := |second| - 1;
      assert (first + second)[..|first + second| - 1] == first + second[..n];
      LastOfTwo(hash, first, second[..n], key);
    }
  }

  function StatusWritten(op: Op): Status {
    if op.Upsert? then op.record.status else op.status
  }

  /** In any run a record has the status written last under its key. */
  lemma LastWriteDecides(c: Config, s: State, key: string)
    requires Sound(c, s) && key in s.store
    ensures LastWrite(c.hash, s.ops, key).Some?
    ensures s.store[key].status == StatusWritten(LastWrite(c.hash, s.ops, key).value)
  {
    LastWriteWins(c.hash, s.ops, key);
  }

  /** The writes that reached the store between two states of a run. */
  function WritesBetween(s: State, s': State): seq<Op> {
    if |s.ops| <= |s'.ops| then s'.ops[|s.ops|..] else []
  }

  /** POST `i`, about to make its last write: its page, or in async-only mode its new record. */
  predicate AtLastWrite(c: Config, s: State, i: nat, own: Choice) {
    && i < |s.procs| && s.procs[i].Post? && own.Call? && own.reply.Done?
    && (s.procs[i].post.PostReady? || (s.procs[i].post.PostUpsert? && c.asyncFetchOnly))
  }

  predicate AtReadBack(s: State, i: nat) {
    i < |s.procs| && s.procs[i].Post? && (s.procs[i].post.PostFinal? || s.procs[i].post.PostRefind?)
  }

  lemma Appended(hash: UrlHash, ops: seq<Op>, op: Op)
    ensures LastWrite(hash, ops + [op], KeyOf(hash, op)) == Some(op)
  {}

  lemma ReadyWritten(c: Config, s1: State, i: nat, own: Choice)
    requires AtLastWrite(c, s1, i, own) && s1.procs[i].post.PostReady?
    ensures var p, s2 := s1.procs[i], Perform(c, s1, i, own);
      && s2.procs[i] == Post(p.url, PostFinal)
      && s2.ops == s1.ops + [SetStatus(p.url, Ready, Some(p.post.result), own.now)]
  {}

  lemma RecordUpserted(c: Config, s1: State, i: nat, own: Choice)
    requires AtLastWrite(c, s1, i, own) && s1.procs[i].post.PostUpsert?
    ensures var p, s2 := s1.procs[i], Perform(c, s1, i, own);
      && s2.procs[i] == Post(p.url, PostPublish)
      && s2.ops == s1.ops + [Upsert(PendingRecord(p.url, own.createdAt), own.now)]
  {}

  lemma LastOwnWrite(c: Config, s1: State, i: nat, own: Choice)
    requires AtLastWrite(c, s1, i, own)
    ensures var s2, key := Perform(c, s1, i, own), Key(c, s1.procs[i]);
      && s2.procs[i].Post? && (s2.procs[i].post.PostFinal? || s2.procs[i].post.PostPublish?)
      && s2.procs[i].url == s1.procs[i].url && LastWrite(c.hash, s2.ops, key).Some?
      && StatusWritten(LastWrite(c.hash, s2.ops, key).value) == if s1.procs[i].post.PostReady? then Ready else Pending
  {
    var p := s1.procs[i];
    if p.post.PostReady? {
      ReadyWritten(c, s1, i, own);
      Appended(c.hash, s1.ops, SetStatus(p.url, Ready, Some(p.post.result), own.now));
    } else {
      RecordUpserted(c, s1, i, own);
      Appended(c.hash, s1.ops, Upsert(PendingRecord(p.url, own.createdAt), own.now));
    }
  }

  lemma HasRecord(c: Config, s: State, i: nat)
    requires Sound(c, s) && i < |s.procs| && NeedsRecord(s.procs[i])
    ensures Key(c, s.procs[i]) in s.store
  {
    assert ProcOk(c, s.store, s.fetched, s.procs[i]);
  }

  lemma ReadBackFinds(c: Config, s1: State, i: nat, own: Choice, during: seq<Label>)
    requires Sound(c, s1) && AtLastWrite(c, s1, i, own)
    ensures var s2 := Perform(c, s1, i, own);
      var s3 := Exec(c, s2, during);
      var key := Key(c, s1.procs[i]);
      var last := LastWrite(c.hash, WritesBetween(s2, s3), key);
      && Along(c, s2, during, (s, l) => NoWriteBy(c, i, s, l))
      && i < |s3.procs| && s3.procs[i].url == s1.procs[i].url && key in s3.store
      && s3.store[key].status ==
         if last.Some? then StatusWritten(last.value) else if s1.procs[i].post.PostReady? then Ready else Pending
  {
    var s2 := Perform(c, s1, i, own);
    assert Next(c, s1, Step(i, own)) == s2;
    StepKeepsSound(c, s1, Step(i, own));
    LastOwnWrite(c, s1, i, own);
    HasRecord(c, s2, i);
    LastStatus(c, s2, during, i, Key(c, s1.procs[i]));
  }

  lemma LastStatus(c: Config, s2: State, during: seq<Label>, i: nat, key: string)
    requires Sound(c, s2) && i < |s2.procs| && HasWritten(s2.procs[i]) && key in s2.store
    requires LastWrite(c.hash, s2.ops, key).Some?
    ensures var s3 := Exec(c, s2, during);
      var last := LastWrite(c.hash, WritesBetween(s2, s3), key);
      && Along(c, s2, during, (s, l) => NoWriteBy(c, i, s, l))
      && i < |s3.procs| && s3.procs[i].url == s2.procs[i].url && key in s3.store
      && s3.store[key].status == StatusWritten(if last.Some? then last.value else LastWrite(c.hash, s2.ops, key).value)
  {
    RunKeepsSound(c, s2, during);
    WritesNoMore(c, s2, during, i);
    RecordsPersist(c, s2, during, key);
    LaterWritesDecide(c, s2, Exec(c, s2, during), key);
  }

  lemma LaterWritesDecide(c: Config, s2: State, s3: State, key: string)
    requires Sound(c, s3) && key in s3.store && s2.ops <= s3.ops && LastWrite(c.hash, s2.ops, key).Some?
    ensures var last := LastWrite(c.hash, WritesBetween(s2, s3), key);
      s3.store[key].status == StatusWritten(if last.Some? then last.value else LastWrite(c.hash, s2.ops, key).value)
  {
    LastWriteDecides(c, s3, key);
    assert s3.ops == s2.ops + WritesBetween(s2, s3);
    LastOfTwo(c.hash, s2.ops, WritesBetween(s2, s3), key);
  }

  /** What a POST answers that has stored its page, or queued its message, and reads its record
      back after anything else has happened: the status that other processes wrote last
      under its hash in the meantime, or else its own. So 201 carries a ready record exactly if
      that last write says ready, or there is none and the page was fetched inline; it
      carries a failed record exactly if that last write says failed. */
  lemma CreatedIsTheLastWrite(c: Config, before: seq<Label>, i: nat, own: Choice, during: seq<Label>, read: Choice,
        text: string)
    requires read.Call? && read.reply.Done? && AtLastWrite(c, Exec(c, INIT, before), i, own)
    requires AtReadBack(Exec(c, Perform(c, Exec(c, INIT, before), i, own), during), i)
    ensures var s1 := Exec(c, INIT, before);
      var s2 := Perform(c, s1, i, own);
      var s3 := Exec(c, s2, during);
      var last := LastWrite(c.hash, WritesBetween(s2, s3), Key(c, s1.procs[i]));
      var status := if last.Some? then StatusWritten(last.value)
                    else if s1.procs[i].post.PostReady? then Ready else Pending;
      var done := Perform(c, s3, i, read).procs[i];
      && Along(c, s2, during, (s, l) => NoWriteBy(c, i, s, l))
      && done.Post? && done.post.PostDone? && done.post.outcome.Returned? && done.post.outcome.record.Some?
      && done.post.outcome.record.value.status == status
      && PostResponse(done.post.outcome, text)
         == Response(if InProgress(status) then 202 else 201, RecordBody(done.post.outcome.record))
  {
    var s1 := Exec(c, INIT, before);
    AllRunsAreSound(c, before);
    ReadBackFinds(c, s1, i, own, during);
    ReadBackAnswers(c, Exec(c, Perform(c, s1, i, own), during), i, read, text);
  }

  lemma ReadBackAnswers(c: Config, s: State, i: nat, read: Choice, text: string)
    requires AtReadBack(s, i) && read.Call? && read.reply.Done? && Key(c, s.procs[i]) in s.store
    ensures var done, r := Perform(c, s, i, read).procs[i], s.store[Key(c, s.procs[i])];
      && done == Post(s.procs[i].url, PostDone(Returned(Some(r), true)))
      && PostResponse(done.post.outcome, text)
         == Response(if InProgress(r.status) then 202 else 201, RecordBody(Some(r)))
  {}

  lemma InlineCreated(c: Config, s1: Records, url: string, env: PostEnv, text: string)
    requires c.hash(url) in s1
    ensures var resp := PostResponse(SubmitInline(c, s1, url, env).outcome, text);
      && (resp.status == 201 <==>
           OutcomeOf(env.exchange, c.pageSourceStorage).Fetched? && env.write.Done? && env.refind.Done?)
      && (resp.status == 201 ==>
           resp.body.RecordBody? && resp.body.record.Some? && resp.body.record.value.status.Ready?
           && Holds(resp.body.record.value, OutcomeOf(env.exchange, c.pageSourceStorage).result))
  {}

  /** For a POST that nothing interleaves with: 201 means an inline fetch whose every necessary
      call succeeded, and carries that page, ready. */
  lemma WholeCallCreatedIsReady(c: Config, store: Records, url: string, env: PostEnv, text: string)
    ensures var key, outcome := c.hash(url), OutcomeOf(env.exchange, c.pageSourceStorage);
      var resp := PostResponse(Submit(c, store, url, env).outcome, text);
      && (resp.status == 201 <==>
           !c.asyncFetchOnly && (key in store ==> store[key].status.Failed?) && outcome.Fetched?
           && env.find.Done? && env.upsert.Done? && env.write.Done? && env.refind.Done?)
      && (resp.status == 201 ==>
           resp.body.RecordBody? && resp.body.record.Some? && resp.body.record.value.status.Ready?
           && Holds(resp.body.record.value, outcome.result))
  {
    InlineCreated(c, Written(c, store, Done, Upsert(PendingRecord(url, env.createdAt), env.upsertAt)), url, env, text);
  }

  ghost predicate CreatedIsReady(c: Config, s: State, text: string) {
    forall i :: 0 <= i < |s.procs| && s.procs[i].Post? && s.procs[i].post.PostDone? ==>
      var resp := PostResponse(s.procs[i].post.outcome, text);
      resp.status == 201 ==> CarriesReady(c, s.fetched, resp.body)
  }

  /** `s` has answered 201 with a failed record. */
  ghost predicate CreatedFailed(s: State, i: nat, text: string) {
    && i < |s.procs| && s.procs[i].Post? && s.procs[i].post.PostDone?
    && var resp := PostResponse(s.procs[i].post.outcome, text);
       resp.status == 201 && resp.body.RecordBody? && resp.body.record.Some? && resp.body.record.value.status.Failed?
  }

  /** Two POSTs that both find nothing. */
  lemma RacingPosts(c: Config, url: string, at: Time) returns (s: State)
    requires !c.asyncFetchOnly
    ensures Reachable(c, INIT, s) && s.procs == [Post(url, PostMark), Post(url, PostMark)] && c.hash(url) in s.store
  {
    var ok := Call(Done, at, at);
    Here(c, INIT, (_, _) => true);
    s := Go(c, INIT, INIT, StartPost(url));
    s := Go(c, INIT, s, StartPost(url));
    assert s.procs == [Post(url, PostFind), Post(url, PostFind)];
    s := Take(c, INIT, s, 0, ok);
    s := Take(c, INIT, s, 1, ok);
    assert s.procs == [Post(url, PostUpsert), Post(url, PostUpsert)];
    s := Take(c, INIT, s, 0, ok);
    assert s.procs == [Post(url, PostMark), Post(url, PostUpsert)];
    s := Take(c, INIT, s, 1, ok);
  }

  lemma FirstFetched(c: Config, url: string, res: FetchResult, at: Time) returns (s: State)
    requires !c.asyncFetchOnly
    ensures Reachable(c, INIT, s)
    ensures s.procs == [Post(url, PostReady(res)), Post(url, PostMark)] && c.hash(url) in s.store
  {
    s := RacingPosts(c, url, at);
    s := Take(c, INIT, s, 0, Call(Done, at, at));
    assert s.procs == [Post(url, PostFetch), Post(url, PostMark)] && c.hash(url) in s.store;
    s := Take(c, INIT, s, 0, Pipeline.Fetch(Fetched(res)));
  }

  lemma BothFetched(c: Config, url: string, res: FetchResult, at: Time) returns (s: State)
    requires !c.asyncFetchOnly
    ensures Reachable(c, INIT, s)
    ensures s.procs == [Post(url, PostReady(res)), Post(url, PostFail)] && c.hash(url) in s.store
  {
    s := FirstFetched(c, url, res, at);
    s := Take(c, INIT, s, 1, Call(Done, at, at));
    assert s.procs == [Post(url, PostReady(res)), Post(url, PostFetch)] && c.hash(url) in s.store;
    s := Take(c, INIT, s, 1, Pipeline.Fetch(FetchError("timeout")));
  }

  lemma OneReadyOneFailed(c: Config, url: string, res: FetchResult, at: Time) returns (s: State)
    requires !c.asyncFetchOnly
    ensures Reachable(c, INIT, s) && |s.procs| == 2 && s.procs[0] == Post(url, PostFinal)
    ensures c.hash(url) in s.store && s.store[c.hash(url)].status.Failed?
  {
    s := BothFetched(c, url, res, at);
    s := Take(c, INIT, s, 0, Call(Done, at, at));
    assert s.procs == [Post(url, PostFinal), Post(url, PostFail)] && c.hash(url) in s.store;
    s := Take(c, INIT, s, 1, Call(Done, at, at));
  }

  /** A POST that fetched and stored its page answers 201 with what another one made of it. */
  lemma InlineCreatedFailed(c: Config, url: string, res: FetchResult, at: Time, text: string) returns (s: State)
    requires !c.asyncFetchOnly
    ensures Reachable(c, INIT, s) && CreatedFailed(s, 0, text)
  {
    s := OneReadyOneFailed(c, url, res, at);
    s := Take(c, INIT, s, 0, Call(Done, at, at));
  }

  /** In async-only mode: a POST has queued its message, and a delivery of it has already fetched. */
  lemma FetchedBeforeReadBack(c: Config, url: string, outcome: FetchOutcome, at: Time) returns (s: State)
    requires c.asyncFetchOnly && c.maxRetries >= 0
    ensures Reachable(c, INIT, s) && c.hash(url) in s.store
    ensures s.procs == [Post(url, PostRefind),
                       Job(url, 0, if outcome.Fetched? then JobReady(outcome.result) else JobFail, 0)]
  {
    s := QueuedPost(c, url, at);
    s := Go(c, INIT, s, Deliver(0));
    assert s.procs == [Post(url, PostRefind), Job(url, 0, JobMark, 0)] && c.hash(url) in s.store;
    s := Take(c, INIT, s, 1, Call(Done, at, at));
    assert s.procs == [Post(url, PostRefind), Job(url, 0, JobFetch, 0)] && c.hash(url) in s.store;
    s := Take(c, INIT, s, 1, Pipeline.Fetch(outcome));
  }

  lemma MissedPost(c: Config, url: string, at: Time) returns (s: State)
    ensures Reachable(c, INIT, s) && s.procs == [Post(url, PostUpsert)] && s.topic == []
  {
    Here(c, INIT, (_, _) => true);
    s := Go(c, INIT, INIT, StartPost(url));
    assert s.procs == [Post(url, PostFind)] && s.topic == [];
    s := Take(c, INIT, s, 0, Call(Done, at, at));
  }

  lemma QueuedPost(c: Config, url: string, at: Time) returns (s: State)
    requires c.asyncFetchOnly
    ensures Reachable(c, INIT, s) && s.procs == [Post(url, PostRefind)] && s.topic == [url] && c.hash(url) in s.store
  {
    s := MissedPost(c, url, at);
    s := Take(c, INIT, s, 0, Call(Done, at, at));
    assert s.procs == [Post(url, PostPublish)] && s.topic == [] && c.hash(url) in s.store;
    s := Take(c, INIT, s, 0, Call(Done, at, at));
  }

  /** In async-only mode too POST answers 201, and not 202, when a delivery has finished the
      record before it is read back - ready or failed, as the fetch went. */
  lemma AsyncPostAnswersCreated(c: Config, url: string, outcome: FetchOutcome, at: Time, text: string)
    returns (s: State)
    requires c.asyncFetchOnly && c.maxRetries >= 0
    ensures Reachable(c, INIT, s) && |s.procs| == 2 && s.procs[0].Post? && s.procs[0].post.PostDone?
    ensures var resp := PostResponse(s.procs[0].post.outcome, text);
      && resp.status == 201 && resp.body.RecordBody? && resp.body.record.Some?
      && resp.body.record.value.status == (if outcome.Fetched? then Ready else Failed)
  {
    s := FetchedBeforeReadBack(c, url, outcome, at);
    s := Take(c, INIT, s, 1, Call(Done, at, at));
    assert s.procs[0] == Post(url, PostRefind) && |s.procs| == 2 && c.hash(url) in s.store;
    assert s.store[c.hash(url)].status == if outcome.Fetched? then Ready else Failed;
    s := Take(c, INIT, s, 0, Call(Done, at, at));
  }

  /** Over all runs, 201 always carries a ready record only where nothing is ever fetched. */
  lemma CreatedIsReadyExactlyWithoutFetches(c: Config, text: string)
    ensures (forall s :: Reachable(c, INIT, s) ==> CreatedIsReady(c, s, text)) <==> !Fetches(c)
  {
    if Fetches(c) {
      var res := FetchResult(map[], [], [], 0, 0, 0);
      var s;
      if c.asyncFetchOnly {
        s := AsyncPostAnswersCreated(c, "", FetchError("timeout"), 1, text);
      } else {
        s := InlineCreatedFailed(c, "", res, 1, text);
      }
      assert CreatedFailed(s, 0, text);
      assert !CreatedIsReady(c, s, text);
    } else {
      forall s | Reachable(c, INIT, s) ensures CreatedIsReady(c, s, text) {
        var ls :| Exec(c, INIT, ls) == s;
        AllRunsAreSound(c, ls);
        WithoutFetches(c, INIT, ls);
        forall i | 0 <= i < |s.procs| && s.procs[i].Post? && s.procs[i].post.PostDone?
          ensures PostResponse(s.procs[i].post.outcome, text).status != 201
        {
          assert NeverFetches(s.procs[i]) && ProcOk(c, s.store, s.fetched, s.procs[i]);
        }
      }
    }
  }

  // ---- Requests that interleave can fetch twice at once ----

  lemma RacingRequests(c: Config, url: string, at: Time) returns (s: State)
    requires !c.asyncFetchOnly
    ensures Reachable(c, INIT, s) && c.hash(url) in s.store && s.topic == []
    ensures s.procs == [Post(url, PostMark), Get(url, GetPublish)]
  {
    var ok := Call(Done, at, at);
    Here(c, INIT, (_, _) => true);
    s := Go(c, INIT, INIT, StartPost(url));
    s := Go(c, INIT, s, StartGet(url));
    assert s.procs == [Post(url, PostFind), Get(url, GetFind)];
    s := Take(c, INIT, s, 0, ok);
    s := Take(c, INIT, s, 1, ok);
    assert s.procs == [Post(url, PostUpsert), Get(url, GetUpsert)] && s.topic == [];
    s := Take(c, INIT, s, 0, ok);
    assert s.procs == [Post(url, PostMark), Get(url, GetUpsert)] && s.topic == [];
    s := Take(c, INIT, s, 1, ok);
  }

  lemma RacingMarks(c: Config, url: string, at: Time) returns (s: State)
    requires !c.asyncFetchOnly
    ensures Reachable(c, INIT, s) && c.hash(url) in s.store && s.topic == [url]
    ensures s.procs == [Post(url, PostFetch), Get(url, GetDone(Returned(None, true)))]
  {
    s := RacingRequests(c, url, at);
    s := Take(c, INIT, s, 1, Call(Done, at, at));
    assert s.procs[0] == Post(url, PostMark) && |s.procs| == 2 && s.topic == [url] && c.hash(url) in s.store;
    s := Take(c, INIT, s, 0, Call(Done, at, at));
  }

  /** A POST and a GET that both find nothing: the URL is then fetched inline and by a delivery at once. */
  lemma RacingFetches(c: Config, url: string, at: Time) returns (s: State)
    requires !c.asyncFetchOnly && c.maxRetries >= 0
    ensures Reachable(c, INIT, s) && c.hash(url) in s.store
    ensures s.procs == [Post(url, PostFetch), Get(url, GetDone(Returned(None, true))), Job(url, 0, JobFetch, 0)]
  {
    s := RacingMarks(c, url, at);
    s := Go(c, INIT, s, Deliver(0));
    assert s.procs[2] == Job(url, 0, JobMark, 0) && |s.procs| == 3 && c.hash(url) in s.store;
    s := Take(c, INIT, s, 2, Call(Done, at, at));
  }
}
