/** The consumer's retry loop, dead-lettering and commits, proved against its trace. */
module Consumer {
  import opened Types
  import opened Store
  import opened RetryPolicy
  import opened Pipeline
  import opened Producer
  import opened Worker

  datatype Delivered = Delivered(partition: nat, offset: nat, message: Message)

  datatype DltMessage = DltMessage(
    key: string,
    value: Payload,
    originalTopic: string,
    error: string,
    failedAt: Time,
    retryCount: int,
    maxRetries: int)

  /** What happens to one delivery: each attempt, whether the context is found cancelled in
      the wait after it, and the dead-letter write. */
  datatype DeliveryEnv = DeliveryEnv(attempts: nat -> HandlerEnv, cancelled: nat -> bool, failedAt: Time, dlt: Reply)

  /** The store afterwards, the handler's calls, the waits between them that ran their full
      course, whether to commit, and what reached the dead-letter topic. */
  datatype Processed = Processed(store: Records, calls: nat, waits: seq<int>, commit: bool, dead: seq<DltMessage>)

  function DeadLetterOf(c: Config, topic: string, m: Message, err: string, env: DeliveryEnv,
        retriesUsed: int): seq<DltMessage> {
    if Applied(env.dlt) then [DltMessage(m.key, m.value, topic, err, env.failedAt, retriesUsed, c.maxRetries)] else []
  }

  function Attempts(c: Config, topic: string, store: Records, m: Message, env: DeliveryEnv, attempt: nat): Processed
    requires m.value.Decoded? && attempt <= c.maxRetries
    decreases c.maxRetries - attempt
  {
    var h := Handle(c, store, m.value.request.url, env.attempts(attempt));
    match Judge(c.maxRetries, attempt, h.err.None?)
    case Acknowledge => Processed(h.store, attempt + 1, Backoffs(attempt), true, [])
    case RetryLater =>
      if env.cancelled(attempt) then Processed(h.store, attempt + 1, Backoffs(attempt), false, [])
      else Attempts(c, topic, h.store, m, env, attempt + 1)
    case DeadLetter =>
      Processed(h.store, attempt + 1, Backoffs(attempt), env.dlt.Done?,
                DeadLetterOf(c, topic, m, h.err.value, env, attempt))
  }

  function Process(c: Config, topic: string, store: Records, m: Message, env: DeliveryEnv): Processed {
    if m.value.Malformed? || c.maxRetries < 0 then Processed(store, 0, [], true, [])
    else Attempts(c, topic, store, m, env, 0)
  }

  datatype Poll = PollFailed(cancelled: bool) | Polled(delivered: Delivered)

  /** One turn of the consume loop. */
  datatype Turn = Turn(cancelled: bool, poll: Poll, env: DeliveryEnv, commit: Reply)

  /** The store, dead letters and commits a loop leaves behind, and whether it has returned. */
  datatype Consumed = Consumed(store: Records, dead: seq<DltMessage>, commits: seq<(nat, nat)>, stopped: bool)

  function Consume(c: Config, topic: string, x: Consumed, turns: seq<Turn>): Consumed {
    if turns == [] || x.stopped then x else
    var before := Consume(c, topic, x, turns[..|turns| - 1]);
    if before.stopped then before else TakeTurn(c, topic, before, turns[|turns| - 1])
  }

  function TakeTurn(c: Config, topic: string, x: Consumed, t: Turn): Consumed {
    if t.cancelled || (t.poll.PollFailed? && t.poll.cancelled) then x.(stopped := true)
    else if t.poll.PollFailed? then x
    else
      var d := t.poll.delivered;
      var p := Process(c, topic, x.store, d.message, t.env);
      Consumed(p.store, x.dead + p.dead,
               if p.commit && Applied(t.commit) then x.commits + [(d.partition, d.offset + 1)] else x.commits, false)
  }

  class KafkaConsumer {
    const topic: string
    const maxRetries: int
    const worker: Worker
    var dlt: seq<DltMessage>
    /** The partition and next offset of every commit the broker has accepted. */
    var commits: seq<(nat, nat)>

    constructor (topic: string, maxRetries: int, worker: Worker)
      ensures this.topic == topic && this.maxRetries == maxRetries && this.worker == worker && dlt == []
        && commits == []
    {
      this.topic, this.maxRetries, this.worker := topic, maxRetries, worker;
      dlt, commits := [], [];
    }

    ghost predicate Runs(c: Config)
      reads this, worker, worker.repo
    {
      worker.repo.Valid() && c.hash == worker.repo.hash && c.pageSourceStorage == worker.pageSourceStorage
        && c.maxRetries == maxRetries
    }

    method SendToDLT(m: Message, err: string, retriesUsed: int, failedAt: Time, reply: Reply) returns (ok: bool)
      modifies this`dlt
      ensures ok == reply.Done?
      ensures dlt == old(dlt) +
        if Applied(reply) then [DltMessage(m.key, m.value, topic, err, failedAt, retriesUsed, maxRetries)] else []
    {
      if Applied(reply) {
        dlt := dlt + [DltMessage(m.key, m.value, topic, err, failedAt, retriesUsed, maxRetries)];
      }
      ok := reply.Done?;
    }

    method CommitOffset(d: Delivered, reply: Reply)
      modifies this`commits
      ensures commits == if Applied(reply) then old(commits) + [(d.partition, d.offset + 1)] else old(commits)
    {
      if Applied(reply) {
        commits := commits + [(d.partition, d.offset + 1)];
      }
    }

    /** `calls` and `waits` report how often the handler ran and how long the loop slept in between. */
    method ProcessMessage(m: Message, env: DeliveryEnv, ghost c: Config)
      returns (commit: bool, calls: nat, waits: seq<int>)
      requires Runs(c)
      modifies this`dlt, worker.repo
      ensures Runs(c)
      ensures var p := Process(c, topic, old(worker.repo.contents), m, env);
        && worker.repo.contents == p.store && dlt == old(dlt) + p.dead
        && commit == p.commit && calls == p.calls && waits == p.waits
    {
      calls, waits := 0, [];
      if m.value.Malformed? {
        return true, calls, waits;
      }
      var attempt := 0;
      ghost var store0, url := worker.repo.contents, m.value.request.url;
      while attempt <= maxRetries
        invariant Runs(c) && dlt == old(dlt) && calls == attempt && waits == Backoffs(attempt)
        invariant attempt == 0 || attempt <= maxRetries
        invariant worker.repo.contents == StoreAfterAttempts(c, store0, url, env, attempt)
        invariant attempt <= maxRetries ==> ComesTo(c, env, attempt)
        decreases maxRetries - attempt
      {
        ghost var before := worker.repo.contents;
        var err := worker.HandleMessage(m.value.request.url, env.attempts(attempt), c);
        calls := calls + 1;
        HowItEnds(c, topic, store0, m, env, attempt, before, Handled(worker.repo.contents, err));
        if err.Some? {
          if attempt < maxRetries {
            if env.cancelled(attempt) {
              return false, calls, waits;
            }
            attempt := attempt + 1;
            waits := waits + [RetryBackoff(attempt)];
            continue;
          }
          var ok := SendToDLT(m, err.value, attempt, env.failedAt, env.dlt);
          return ok, calls, waits;
        }
        return true, calls, waits;
      }
      commit := true;
    }

    /** The consume loop over the turns the environment grants it. */
    method Start(turns: seq<Turn>, ghost c: Config)
      requires Runs(c)
      modifies this, worker.repo
      ensures Runs(c)
      ensures var r := Consume(c, topic, Consumed(old(worker.repo.contents), old(dlt), old(commits), false), turns);
        worker.repo.contents == r.store && dlt == r.dead && commits == r.commits
    {
      ghost var x := Consumed(worker.repo.contents, dlt, commits, false);
      var i := 0;
      while i < |turns|
        invariant 0 <= i <= |turns| && Runs(c)
        invariant Consume(c, topic, x, turns[..i]) == Consumed(worker.repo.contents, dlt, commits, false)
      {
        assert turns[..i + 1][..i] == turns[..i];
        var t := turns[i];
        if t.cancelled {
          StoppedStays(c, topic, x, turns, i + 1);
          return;
        }
        if t.poll.PollFailed? {
          if t.poll.cancelled {
            StoppedStays(c, topic, x, turns, i + 1);
            return;
          }
          i := i + 1;
          continue;
        }
        var commit, _, _ := ProcessMessage(t.poll.delivered.message, t.env, c);
        if commit {
          CommitOffset(t.poll.delivered, t.commit);
        }
        i := i + 1;
      }
      assert turns[..i] == turns;
    }
  }

  lemma {:induction false} StoppedStays(c: Config, topic: string, x: Consumed, turns: seq<Turn>, n: nat)
    requires n <= |turns| && Consume(c, topic, x, turns[..n]).stopped
    ensures Consume(c, topic, x, turns) == Consume(c, topic, x, turns[..n])
    decreases |turns|
  {
    if n == |turns| {
      assert turns[..n] == turns;
    } else {
      var before := turns[..|turns| - 1];
      assert before[..n] == turns[..n];
      StoppedStays(c, topic, x, before, n);
    }
  }

  // ---- The retry loop against its trace ----

  /** The store after the first `n` attempts. */
  function StoreAfterAttempts(c: Config, store: Records, url: string, env: DeliveryEnv, n: nat): Records {
    if n == 0 then store else Handle(c, StoreAfterAttempts(c, store, url, env, n - 1), url, env.attempts(n - 1)).store
  }

  /** The handler's error in attempt `n`. */
  function ErrorOf(c: Config, store: Records, url: string, env: DeliveryEnv, n: nat): Option<string> {
    Handle(c, StoreAfterAttempts(c, store, url, env, n), url, env.attempts(n)).err
  }

  /** The loop's course up to attempt `n`: all before it failed and none of the waits was cancelled. */
  ghost predicate ComesTo(c: Config, env: DeliveryEnv, n: nat) {
    n <= c.maxRetries && forall i: nat :: i < n ==> !Succeeds(c, env.attempts(i)) && !env.cancelled(i)
  }

  /** Attempt `n` is the last one. */
  predicate IsLast(c: Config, env: DeliveryEnv, n: nat) {
    Succeeds(c, env.attempts(n)) || n == c.maxRetries || env.cancelled(n)
  }

  /** What the loop leaves behind when attempt `n` is its last. */
  function EndingAt(c: Config, topic: string, store: Records, m: Message, env: DeliveryEnv, n: nat): Processed
    requires m.value.Decoded?
  {
    var url := m.value.request.url;
    var err := ErrorOf(c, store, url, env, n);
    var dead := err.Some? && n == c.maxRetries;
    Processed(StoreAfterAttempts(c, store, url, env, n + 1), n + 1, Backoffs(n),
              err.None? || (dead && env.dlt.Done?),
              if dead then DeadLetterOf(c, topic, m, err.value, env, n) else [])
  }

  lemma {:induction false} Reaches(c: Config, topic: string, store: Records, m: Message, env: DeliveryEnv, n: nat)
    requires m.value.Decoded? && ComesTo(c, env, n)
    ensures Process(c, topic, store, m, env)
      == Attempts(c, topic, StoreAfterAttempts(c, store, m.value.request.url, env, n), m, env, n)
  {
    if n > 0 {
      Reaches(c, topic, store, m, env, n - 1);
      ErrorMeansFailure(c, StoreAfterAttempts(c, store, m.value.request.url, env, n - 1), m.value.request.url,
                        env.attempts(n - 1));
    }
  }

  lemma EndsAt(c: Config, topic: string, store: Records, m: Message, env: DeliveryEnv, n: nat)
    requires m.value.Decoded? && ComesTo(c, env, n)
    ensures ErrorOf(c, store, m.value.request.url, env, n).None? <==> Succeeds(c, env.attempts(n))
    ensures IsLast(c, env, n) ==> Process(c, topic, store, m, env) == EndingAt(c, topic, store, m, env, n)
  {
    Reaches(c, topic, store, m, env, n);
    ErrorMeansFailure(c, StoreAfterAttempts(c, store, m.value.request.url, env, n),
                      m.value.request.url, env.attempts(n));
  }

  /** The three ways in which attempt `n` can be the last, spelled out. */
  lemma HowItEnds(c: Config, topic: string, store0: Records, m: Message, env: DeliveryEnv, n: nat, before: Records,
        h: Handled)
    requires m.value.Decoded? && ComesTo(c, env, n)
    requires before == StoreAfterAttempts(c, store0, m.value.request.url, env, n)
    requires h == Handle(c, before, m.value.request.url, env.attempts(n))
    ensures h.store == StoreAfterAttempts(c, store0, m.value.request.url, env, n + 1)
    ensures h.err.None? ==> Process(c, topic, store0, m, env) == Processed(h.store, n + 1, Backoffs(n), true, [])
    ensures h.err.Some? && n < c.maxRetries && env.cancelled(n) ==>
      Process(c, topic, store0, m, env) == Processed(h.store, n + 1, Backoffs(n), false, [])
    ensures h.err.Some? && n < c.maxRetries && !env.cancelled(n) ==> ComesTo(c, env, n + 1)
    ensures h.err.Some? && n == c.maxRetries ==>
      Process(c, topic, store0, m, env)
      == Processed(h.store, n + 1, Backoffs(n), env.dlt.Done?, DeadLetterOf(c, topic, m, h.err.value, env, n))
  {
    EndsAt(c, topic, store0, m, env, n);
  }

  lemma {:induction false} SomeAttemptIsLast(c: Config, env: DeliveryEnv, n: nat) returns (last: nat)
    requires ComesTo(c, env, n)
    ensures n <= last && ComesTo(c, env, last) && IsLast(c, env, last)
    decreases c.maxRetries - n
  {
    if IsLast(c, env, n) {
      last := n;
    } else {
      last := SomeAttemptIsLast(c, env, n + 1);
    }
  }

  /** The attempts made, cancellation included: all but the last fail with no cancelled wait
      after them, the last one succeeds, exhausts the retries or is followed by a cancelled
      wait; the store is what they made of it, and every wait between them runs its course. */
  lemma AttemptsMade(c: Config, topic: string, store: Records, m: Message, env: DeliveryEnv)
    requires m.value.Decoded? && c.maxRetries >= 0
    ensures var p := Process(c, topic, store, m, env);
      && p.calls >= 1 && ComesTo(c, env, p.calls - 1) && IsLast(c, env, p.calls - 1)
      && p == EndingAt(c, topic, store, m, env, p.calls - 1)
      && (ErrorOf(c, store, m.value.request.url, env, p.calls - 1).None? <==> Succeeds(c, env.attempts(p.calls - 1)))
  {
    var last := SomeAttemptIsLast(c, env, 0);
    EndsAt(c, topic, store, m, env, last);
  }

  /** `f` attempts fail and the next one succeeds, or all `maxRetries + 1` fail. */
  ghost predicate FailsFirst(c: Config, env: DeliveryEnv, f: nat) {
    && (forall i: nat :: i < f ==> !Succeeds(c, env.attempts(i)))
    && (f <= c.maxRetries ==> Succeeds(c, env.attempts(f)))
  }

  ghost predicate Uncancelled(env: DeliveryEnv) {
    forall i: nat :: !env.cancelled(i)
  }

  function Min(a: int, b: int): int {
    if a < b then a else b
  }

  /** With `f` failures before the first success and no cancellation: the handler is called
      `min(f, maxRetries) + 1` times, and the store is what those calls made of it; the
      offset is committed exactly on success or after a confirmed dead-letter write; a dead
      letter is written at most once, only when every attempt failed, and carries the
      original key and value, the last error and equal retry counts. */
  lemma RetriesMatchTrace(c: Config, topic: string, store: Records, m: Message, env: DeliveryEnv, f: nat)
    requires m.value.Decoded? && c.maxRetries >= 0 && FailsFirst(c, env, f) && Uncancelled(env)
    ensures var url := m.value.request.url;
      var p := Process(c, topic, store, m, env);
      && p.calls == Min(f, c.maxRetries) + 1
      && p.store == StoreAfterAttempts(c, store, url, env, p.calls)
      && (p.commit <==> f <= c.maxRetries || env.dlt.Done?)
      && (p.dead != [] <==> f > c.maxRetries && Applied(env.dlt))
      && (p.dead != [] ==>
           var err := ErrorOf(c, store, url, env, c.maxRetries);
           err.Some? &&
           p.dead == [DltMessage(m.key, m.value, topic, err.value, env.failedAt, c.maxRetries, c.maxRetries)])
  {
    AttemptsMade(c, topic, store, m, env);
  }

  /** An uncancelled delivery with `f` failures before its first success waits before each of
      its `min(f, maxRetries)` retries, never less long than before; one that uses up all `m`
      retries waits 100 m (m + 1) ms in all, or, beyond ten retries, 11 s and 2 s for each
      further one. */
  lemma WaitsMatchTrace(c: Config, topic: string, store: Records, m: Message, env: DeliveryEnv, f: nat)
    requires m.value.Decoded? && c.maxRetries >= 0 && FailsFirst(c, env, f) && Uncancelled(env)
    ensures var waits, n := Process(c, topic, store, m, env).waits, c.maxRetries;
      && |waits| == Min(f, n) && (forall k :: 0 <= k < |waits| ==> waits[k] == RetryBackoff(k + 1))
      && (n <= LAST_EXACT_ATTEMPT ==> forall j, k :: 0 <= j <= k < |waits| ==> 0 <= waits[j] <= waits[k] <= MAX_BACKOFF)
      && (f >= n && n <= LAST_EXACT_ATTEMPT ==>
           Sum(waits) == (if n <= 10 then 100 * (n * (n + 1)) else 11000 + 2000 * (n - 10)) * NANOS_PER_MILLI)
  {
    WaitsAre(c, topic, store, m, env, f);
    BackoffsFit(Process(c, topic, store, m, env).waits, f, c.maxRetries);
  }

  lemma BackoffsFit(waits: seq<int>, f: nat, n: nat)
    requires waits == Backoffs(Min(f, n))
    ensures |waits| == Min(f, n) && (forall k :: 0 <= k < |waits| ==> waits[k] == RetryBackoff(k + 1))
    ensures n <= LAST_EXACT_ATTEMPT ==>
      forall j, k :: 0 <= j <= k < |waits| ==> 0 <= waits[j] <= waits[k] <= MAX_BACKOFF
    ensures f >= n && n <= LAST_EXACT_ATTEMPT ==>
      Sum(waits) == (if n <= 10 then 100 * (n * (n + 1)) else 11000 + 2000 * (n - 10)) * NANOS_PER_MILLI
  {
    BackoffsAre(Min(f, n));
    if n <= LAST_EXACT_ATTEMPT {
      TotalBackoffIs(n);
    }
  }

  lemma WaitsAre(c: Config, topic: string, store: Records, m: Message, env: DeliveryEnv, f: nat)
    requires m.value.Decoded? && c.maxRetries >= 0 && FailsFirst(c, env, f) && Uncancelled(env)
    ensures Process(c, topic, store, m, env).waits == Backoffs(Min(f, c.maxRetries))
  {
    AttemptsMade(c, topic, store, m, env);
  }

  /** Some attempt succeeds with no cancelled wait before it, or all fail, none of the waits is
      cancelled and the dead letter is confirmed. */
  ghost predicate Settles(c: Config, env: DeliveryEnv) {
    || (exists n: nat ::
           n <= c.maxRetries && Succeeds(c, env.attempts(n)) && forall i: nat :: i < n ==> !env.cancelled(i))
    || (env.dlt.Done? && forall i: nat :: i < c.maxRetries ==> !env.cancelled(i))
  }

  /** The commit decision in full, cancellation included: no commit follows exactly when a
      wait between attempts was cancelled before any success, or when every attempt and then the dead-letter
      write failed. */
  lemma CommitsUnlessLost(c: Config, topic: string, store: Records, m: Message, env: DeliveryEnv)
    ensures Process(c, topic, store, m, env).commit <==>
      (m.value.Malformed? || c.maxRetries < 0 || Settles(c, env))
  {
    if m.value.Decoded? && c.maxRetries >= 0 {
      AttemptsMade(c, topic, store, m, env);
      var last := Process(c, topic, store, m, env).calls - 1;
      if Succeeds(c, env.attempts(last)) {
        assert Settles(c, env);
      }
    }
  }

  // ---- When a delivery leaves its record in progress ----

  /** No terminal write of the attempts from `k` up to `n` takes effect. */
  ghost predicate WritesLost(env: DeliveryEnv, k: nat, n: nat) {
    forall j: nat :: k <= j < n ==> !Applied(env.attempts(j).write)
  }

  /** Of `n` attempts, no terminal write takes effect from the start on, if the record was then
      in progress, or from some mark on that does take effect. */
  ghost predicate LeftInProgress(env: DeliveryEnv, atStart: bool, n: nat) {
    || (atStart && WritesLost(env, 0, n))
    || exists k: nat :: k < n && Applied(env.attempts(k).mark) && WritesLost(env, k, n)
  }

  lemma OneMoreAttempt(env: DeliveryEnv, atStart: bool, n: nat)
    ensures LeftInProgress(env, atStart, n + 1) <==>
      !Applied(env.attempts(n).write) && (Applied(env.attempts(n).mark) || LeftInProgress(env, atStart, n))
  {
    if LeftInProgress(env, atStart, n) && !Applied(env.attempts(n).write) && !(atStart && WritesLost(env, 0, n)) {
      var k: nat :| k < n && Applied(env.attempts(k).mark) && WritesLost(env, k, n);
      assert WritesLost(env, k, n + 1);
    }
    if !Applied(env.attempts(n).write) && Applied(env.attempts(n).mark) {
      assert WritesLost(env, n, n + 1);
    }
    if LeftInProgress(env, atStart, n + 1) {
      assert !Applied(env.attempts(n).write);
      if !(atStart && WritesLost(env, 0, n + 1)) {
        var k: nat :| k < n + 1 && Applied(env.attempts(k).mark) && WritesLost(env, k, n + 1);
        assert WritesLost(env, k, n);
      }
    }
  }

  lemma {:induction false} AttemptsLeave(c: Config, store: Records, url: string, env: DeliveryEnv, n: nat)
    requires c.hash(url) in store
    ensures var after := StoreAfterAttempts(c, store, url, env, n);
      c.hash(url) in after
      && (InProgress(after[c.hash(url)].status) <==> LeftInProgress(env, InProgress(store[c.hash(url)].status), n))
  {
    if n > 0 {
      AttemptsLeave(c, store, url, env, n - 1);
      OneMoreAttempt(env, InProgress(store[c.hash(url)].status), n - 1);
    }
  }

  /** A delivery, however it ends, leaves its record in progress exactly when no terminal write took
      effect from its last effective mark on - or at all, if there was no such mark and
      the record was in progress before. */
  lemma LeftInProgressExactly(c: Config, topic: string, store: Records, m: Message, env: DeliveryEnv)
    requires m.value.Decoded? && c.hash(m.value.request.url) in store
    ensures var key, p := c.hash(m.value.request.url), Process(c, topic, store, m, env);
      key in p.store &&
      (InProgress(p.store[key].status) <==> LeftInProgress(env, InProgress(store[key].status), p.calls))
  {
    if c.maxRetries >= 0 {
      AttemptsMade(c, topic, store, m, env);
    }
    AttemptsLeave(c, store, m.value.request.url, env, Process(c, topic, store, m, env).calls);
  }

  // ---- What the consume loop commits ----

  /** The loop returns at this turn. */
  predicate Stops(t: Turn) {
    t.cancelled || (t.poll.PollFailed? && t.poll.cancelled)
  }

  /** The message of this turn was malformed, is never to be retried under a negative limit,
      succeeded, or was confirmed on the dead-letter topic. */
  ghost predicate SettledTurn(c: Config, t: Turn) {
    t.poll.Polled? && (t.poll.delivered.message.value.Malformed? || c.maxRetries < 0 || Settles(c, t.env))
  }

  /** The offsets after the settled turns whose commit is accepted, in order, up to the turn that stops the loop. */
  ghost function CommitsOf(c: Config, turns: seq<Turn>): seq<(nat, nat)> {
    if turns == [] || Stops(turns[0]) then []
    else if SettledTurn(c, turns[0]) && Applied(turns[0].commit) then
      [(turns[0].poll.delivered.partition, turns[0].poll.delivered.offset + 1)] + CommitsOf(c, turns[1..])
    else CommitsOf(c, turns[1..])
  }

  lemma TurnCommits(c: Config, topic: string, x: Consumed, t: Turn)
    requires !Stops(t)
    ensures var y := TakeTurn(c, topic, x, t);
      && y.stopped == (x.stopped && t.poll.PollFailed?)
      && y.commits == x.commits + if SettledTurn(c, t) && Applied(t.commit)
           then [(t.poll.delivered.partition, t.poll.delivered.offset + 1)] else []
  {
    if t.poll.Polled? {
      CommitsUnlessLost(c, topic, x.store, t.poll.delivered.message, t.env);
    }
  }

  /** The commits of the loop are those and no others: one for each settled delivery whose commit
      is accepted, in order, none for any other delivery and none after the loop has stopped. */
  lemma {:induction false} LoopCommitsExactlySettled(c: Config, topic: string, x: Consumed, turns: seq<Turn>)
    requires !x.stopped
    ensures var r := Consume(c, topic, x, turns);
      r.commits == x.commits + CommitsOf(c, turns) && (r.stopped <==> exists k :: 0 <= k < |turns| && Stops(turns[k]))
    decreases |turns|
  {
    if turns != [] {
      var y := TakeTurn(c, topic, x, turns[0]);
      ConsumeFirst(c, topic, x, turns);
      if Stops(turns[0]) {
        assert y.stopped && y.commits == x.commits;
      } else {
        TurnCommits(c, topic, x, turns[0]);
        LoopCommitsExactlySettled(c, topic, y, turns[1..]);
        StopsLater(turns);
      }
    }
  }

  lemma StopsLater(turns: seq<Turn>)
    requires turns != [] && !Stops(turns[0])
    ensures (exists k :: 0 <= k < |turns| && Stops(turns[k])) <==>
      exists k :: 0 <= k < |turns[1..]| && Stops(turns[1..][k])
  {
    if k :| 0 <= k < |turns| && Stops(turns[k]) { assert Stops(turns[1..][k - 1]); }
  }

  // ---- What the consume loop dead-letters ----

  /** Every attempt of this turn's delivery fails, and no wait between them is cancelled. */
  ghost predicate FailsForGood(c: Config, t: Turn) {
    && t.poll.Polled? && t.poll.delivered.message.value.Decoded? && c.maxRetries >= 0
    && (forall n: nat :: n <= c.maxRetries ==> !Succeeds(c, t.env.attempts(n)))
    && forall n: nat :: n < c.maxRetries ==> !t.env.cancelled(n)
  }

  /** One dead letter for each turn before the loop stops whose delivery fails for good and whose
      dead-letter write takes effect: the original key and value, the error of the last
      attempt, and both retry counts. */
  ghost function DeadLettersOf(c: Config, topic: string, turns: seq<Turn>): seq<DltMessage> {
    if turns == [] || Stops(turns[0]) then []
    else if FailsForGood(c, turns[0]) && Applied(turns[0].env.dlt) then
      var m, env := turns[0].poll.delivered.message, turns[0].env;
      var err := ErrorText(c, m.value.request.url, env.attempts(c.maxRetries));
      [DltMessage(m.key, m.value, topic, err, env.failedAt, c.maxRetries, c.maxRetries)]
      + DeadLettersOf(c, topic, turns[1..])
    else DeadLettersOf(c, topic, turns[1..])
  }

  lemma TurnDeadLetters(c: Config, topic: string, x: Consumed, t: Turn)
    requires !Stops(t)
    ensures TakeTurn(c, topic, x, t).dead == x.dead + DeadLettersOf(c, topic, [t])
  {
    assert [t][1..] == [];
    if t.poll.Polled? && t.poll.delivered.message.value.Decoded? && c.maxRetries >= 0 {
      var m := t.poll.delivered.message;
      AttemptsMade(c, topic, x.store, m, t.env);
      var last := Process(c, topic, x.store, m, t.env).calls - 1;
      ErrorsAreReported(c, StoreAfterAttempts(c, x.store, m.value.request.url, t.env, last), m.value.request.url,
                        t.env.attempts(last));
      assert FailsForGood(c, t) <==> last == c.maxRetries && !Succeeds(c, t.env.attempts(last));
    }
  }

  /** The dead letters of the loop are those and no others, in order. */
  lemma {:induction false} LoopDeadLettersExactly(c: Config, topic: string, x: Consumed, turns: seq<Turn>)
    requires !x.stopped
    ensures Consume(c, topic, x, turns).dead == x.dead + DeadLettersOf(c, topic, turns)
    decreases |turns|
  {
    if turns != [] {
      var y := TakeTurn(c, topic, x, turns[0]);
      ConsumeFirst(c, topic, x, turns);
      if !Stops(turns[0]) {
        TurnCommits(c, topic, x, turns[0]);
        TurnDeadLetters(c, topic, x, turns[0]);
        LoopDeadLettersExactly(c, topic, y, turns[1..]);
        FirstDeadLetter(c, topic, turns);
        assert x.dead + DeadLettersOf(c, topic, [turns[0]]) + DeadLettersOf(c, topic, turns[1..])
            == x.dead + (DeadLettersOf(c, topic, [turns[0]]) + DeadLettersOf(c, topic, turns[1..]));
      }
    }
  }

  lemma FirstDeadLetter(c: Config, topic: string, turns: seq<Turn>)
    requires turns != [] && !Stops(turns[0])
    ensures DeadLettersOf(c, topic, turns) == DeadLettersOf(c, topic, [turns[0]]) + DeadLettersOf(c, topic, turns[1..])
  {
    assert [turns[0]][1..] == [];
  }

  lemma {:induction false} ConsumeFirst(c: Config, topic: string, x: Consumed, turns: seq<Turn>)
    requires turns != [] && !x.stopped
    ensures Consume(c, topic, x, turns) == Consume(c, topic, TakeTurn(c, topic, x, turns[0]), turns[1..])
    decreases |turns|
  {
    var n := |turns| - 1;
    if n == 0 {
      assert turns[..0] == [];
    } else {
      ConsumeFirst(c, topic, x, turns[..n]);
      assert turns[..n][1..] == turns[1..][..n - 1];
      assert turns[1..][n - 1] == turns[n];
    }
  }
}
