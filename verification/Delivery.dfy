/** An uninterrupted delivery, as the retry loop runs it, is a run of the pipeline; and what a
    delivery does to the failure count and the status of its record. */
module Delivery {
  import opened Types
  import opened Store
  import opened Fetcher
  import opened Pipeline
  import opened Service
  import opened Producer
  import opened Worker
  import opened Consumer

  predicate CanDeliver(topic: seq<string>, n: nat, m: Message) {
    n < |topic| && m.value.Decoded? && m.value.request.url == topic[n]
  }

  /** The delivery of message `n` once it is over. */
  function Concluded(url: string, n: nat, p: Processed): Proc {
    Job(url, n, if p.commit then Acked else Unacked, if p.calls == 0 then 0 else p.calls - 1)
  }

  function HandlerChoices(c: Config, env: HandlerEnv): seq<Choice> {
    [Call(env.mark, ZERO_TIME, env.markAt),
     Pipeline.Fetch(OutcomeOf(env.exchange, c.pageSourceStorage)),
     Call(env.write, ZERO_TIME, env.writeAt)]
  }

  function AttemptChoices(c: Config, env: DeliveryEnv, attempt: nat): seq<Choice>
    requires attempt <= c.maxRetries
    decreases c.maxRetries - attempt
  {
    HandlerChoices(c, env.attempts(attempt)) +
    if Succeeds(c, env.attempts(attempt)) then []
    else if attempt == c.maxRetries then [Call(env.dlt, ZERO_TIME, ZERO_TIME)]
    else if env.cancelled(attempt) then [Wake(true)]
    else [Wake(false)] + AttemptChoices(c, env, attempt + 1)
  }

  /** What remains of `x` once its process has become `p` and the store `store`. */
  function Then(x: Solo, store: Records, p: Proc): Solo {
    x.(store := store, proc := p, settled := x.settled + SettledBy(p))
  }

  lemma HandlerAlone(c: Config, x0: Solo, env: HandlerEnv, rest: seq<Choice>)
    requires x0.proc.Job? && x0.proc.job.JobMark?
    ensures var h := Handle(c, x0.store, x0.proc.url, env);
      Alone(c, x0, HandlerChoices(c, env) + rest)
      == Alone(c, Then(x0, h.store, x0.proc.(job := AfterAttempt(c.maxRetries, x0.proc.attempt, Succeeds(c, env)))),
               rest)
  {
    var chs := HandlerChoices(c, env);
    assert chs + rest == [chs[0]] + ([chs[1]] + ([chs[2]] + rest));
    AloneCons(c, x0, chs[0], [chs[1]] + ([chs[2]] + rest));
    var x1 := Took(c, x0, chs[0]);
    AloneCons(c, x1, chs[1], [chs[2]] + rest);
    var x2 := Took(c, x1, chs[1]);
    AloneCons(c, x2, chs[2], rest);
    ErrorMeansFailure(c, x0.store, x0.proc.url, env);
  }

  /** What follows a failed attempt: the dead letter, a cancelled wait or the next attempt. */
  lemma AfterFailure(c: Config, x: Solo, env: DeliveryEnv, attempt: nat)
    requires attempt <= c.maxRetries && !Succeeds(c, env.attempts(attempt))
    requires x.proc.Job? && x.proc.attempt == attempt
    requires x.proc.job == if attempt < c.maxRetries then Backoff else DeadLettering
    ensures Alone(c, x, AttemptChoices(c, env, attempt)[3..]) ==
      if attempt == c.maxRetries then Then(x, x.store, x.proc.(job := if env.dlt.Done? then Acked else Unacked))
      else if env.cancelled(attempt) then Then(x, x.store, x.proc.(job := Unacked))
      else Alone(c, x.(proc := x.proc.(job := JobMark, attempt := attempt + 1)), AttemptChoices(c, env, attempt + 1))
  {
    var rest := AttemptChoices(c, env, attempt)[3..];
    if attempt == c.maxRetries {
      assert rest == [Call(env.dlt, ZERO_TIME, ZERO_TIME)] + [];
      AloneCons(c, x, rest[0], []);
    } else if env.cancelled(attempt) {
      assert rest == [Wake(true)] + [];
      AloneCons(c, x, Wake(true), []);
    } else {
      assert rest == [Wake(false)] + AttemptChoices(c, env, attempt + 1);
      AloneCons(c, x, Wake(false), AttemptChoices(c, env, attempt + 1));
      assert Took(c, x, Wake(false)) == x.(proc := x.proc.(job := JobMark, attempt := attempt + 1));
    }
  }

  lemma {:induction false} AttemptsAlone(c: Config, topic: string, x: Solo, m: Message, env: DeliveryEnv, attempt: nat)
    requires m.value.Decoded? && attempt <= c.maxRetries && x.proc.Job?
    requires x.proc == Job(m.value.request.url, x.proc.msg, JobMark, attempt)
    ensures var p := Attempts(c, topic, x.store, m, env, attempt);
      p.calls > 0 &&
      Alone(c, x, AttemptChoices(c, env, attempt)) == Then(x, p.store, Concluded(x.proc.url, x.proc.msg, p))
    decreases c.maxRetries - attempt
  {
    var e := env.attempts(attempt);
    var h := Handle(c, x.store, m.value.request.url, e);
    ErrorMeansFailure(c, x.store, m.value.request.url, e);
    assert AttemptChoices(c, env, attempt) == HandlerChoices(c, e) + AttemptChoices(c, env, attempt)[3..];
    HandlerAlone(c, x, e, AttemptChoices(c, env, attempt)[3..]);
    if Succeeds(c, e) {
      assert AttemptChoices(c, env, attempt)[3..] == [];
    } else {
      var next := Then(x, h.store, x.proc.(job := if attempt < c.maxRetries then Backoff else DeadLettering));
      AfterFailure(c, next, env, attempt);
      if attempt < c.maxRetries && !env.cancelled(attempt) {
        AttemptsAlone(c, topic, next.(proc := next.proc.(job := JobMark, attempt := attempt + 1)), m, env, attempt + 1);
      }
    }
  }

  function DeliveryChoices(c: Config, env: DeliveryEnv): seq<Choice> {
    if c.maxRetries < 0 then [] else AttemptChoices(c, env, 0)
  }

  /** The labels of a whole delivery of message `n`, as process `i`. */
  function DeliveryLabels(c: Config, n: nat, i: nat, env: DeliveryEnv): seq<Label> {
    [Deliver(n)] + Steps(i, DeliveryChoices(c, env))
  }

  lemma DeliveryAlone(c: Config, topic: string, x: Solo, n: nat, m: Message, env: DeliveryEnv)
    requires m.value.Decoded? && x.proc == NewDelivery(c, m.value.request.url, n)
    requires c.maxRetries < 0 ==> n in x.settled
    ensures var p := Process(c, topic, x.store, m, env);
      Alone(c, x, DeliveryChoices(c, env)) == Then(x, p.store, Concluded(m.value.request.url, n, p))
  {
    if c.maxRetries >= 0 {
      AttemptsAlone(c, topic, x, m, env, 0);
    } else {
      assert x.settled + {n} == x.settled;
    }
  }

  /** What `ProcessMessage` does to a message when nothing interleaves is what the pipeline's
      steps of that delivery do one after the other. */
  lemma ProcessIsARun(c: Config, topic: string, s: State, n: nat, m: Message, env: DeliveryEnv)
    requires CanDeliver(s.topic, n, m)
    ensures var p := Process(c, topic, s.store, m, env);
      var s' := Exec(c, s, DeliveryLabels(c, n, |s.procs|, env));
      && s'.store == p.store && s'.procs == s.procs + [Concluded(s.topic[n], n, p)]
      && s'.topic == s.topic && s'.settled == s.settled + if p.commit then {n} else {}
  {
    var i, chs := |s.procs|, DeliveryChoices(c, env);
    assert DeliveryLabels(c, n, i, env)[1..] == Steps(i, chs);
    var s1 := Next(c, s, Deliver(n));
    var x := Solo(s1.store, s1.procs[i], s1.topic, s1.settled);
    AloneIsARun(c, s1, i, x, chs);
    DeliveryAlone(c, topic, x, n, m, env);
  }

  /** Seen in the pipeline: a whole delivery ends with its record in progress exactly when its
      writes were lost, as said of the retry loop; if its last call was then for a commit, the
      message is settled and nobody else will come. */
  lemma DeliveryLeavesInProgressExactly(c: Config, s: State, n: nat, m: Message, env: DeliveryEnv)
    requires CanDeliver(s.topic, n, m) && c.hash(s.topic[n]) in s.store
    ensures var key, p := c.hash(s.topic[n]), Process(c, "", s.store, m, env);
      var s' := Exec(c, s, DeliveryLabels(c, n, |s.procs|, env));
      && key in s'.store
      && (InProgress(s'.store[key].status) <==> LeftInProgress(env, InProgress(s.store[key].status), p.calls))
      && (n in s'.settled <==> n in s.settled || m.value.Malformed? || c.maxRetries < 0 || Settles(c, env))
  {
    ProcessIsARun(c, "", s, n, m, env);
    LeftInProgressExactly(c, "", s.store, m, env);
    CommitsUnlessLost(c, "", s.store, m, env);
  }

  // ---- The consume loop is one delivery after the other ----

  /** This turn hands the loop a well-formed message. */
  predicate Delivers(t: Turn) {
    !Stops(t) && t.poll.Polled? && t.poll.delivered.message.value.Decoded?
  }

  /** One whole delivery for each well-formed message polled before the loop stops, of the
      message that `ns` numbers for that turn, as processes `i`, `i + 1` and so on. */
  function LoopLabels(c: Config, i: nat, turns: seq<Turn>, ns: seq<nat>): seq<Label>
    requires |ns| == |turns|
    decreases |turns|
  {
    if turns == [] || Stops(turns[0]) then []
    else if Delivers(turns[0]) then
      DeliveryLabels(c, ns[0], i, turns[0].env) + LoopLabels(c, i + 1, turns[1..], ns[1..])
    else LoopLabels(c, i, turns[1..], ns[1..])
  }

  /** The messages so delivered, in order. */
  function DeliveredBy(turns: seq<Turn>, ns: seq<nat>): seq<nat>
    requires |ns| == |turns|
    decreases |turns|
  {
    if turns == [] || Stops(turns[0]) then []
    else if Delivers(turns[0]) then [ns[0]] + DeliveredBy(turns[1..], ns[1..])
    else DeliveredBy(turns[1..], ns[1..])
  }

  predicate NumberedBy(topic: seq<string>, turns: seq<Turn>, ns: seq<nat>) {
    |ns| == |turns| &&
    forall k :: 0 <= k < |turns| && Delivers(turns[k]) ==> CanDeliver(topic, ns[k], turns[k].poll.delivered.message)
  }

  /** These processes are deliveries of the messages `ids`, in order. */
  predicate DeliveriesOf(ps: seq<Proc>, ids: seq<nat>) {
    |ps| == |ids| && forall k :: 0 <= k < |ps| ==> ps[k].Job? && ps[k].msg == ids[k]
  }

  /** From `s` to `s'` those messages have been delivered, one process each. */
  ghost predicate Ran(s: State, s': State, ids: seq<nat>) {
    && s'.topic == s.topic && |s.procs| <= |s'.procs| && s'.procs[..|s.procs|] == s.procs
    && DeliveriesOf(s'.procs[|s.procs|..], ids)
  }

  lemma RanOn(s: State, s1: State, s2: State, n: nat, ids: seq<nat>)
    requires Ran(s, s1, [n]) && Ran(s1, s2, ids)
    ensures Ran(s, s2, [n] + ids)
  {
    var first, rest := s1.procs[|s.procs|..], s2.procs[|s1.procs|..];
    assert s1.procs == s.procs + first && s2.procs == s1.procs + rest;
    assert s2.procs == s.procs + (first + rest);
    assert s2.procs[|s.procs|..] == first + rest;
    assert DeliveriesOf(first + rest, [n] + ids);
  }

  lemma TurnIsARun(c: Config, topic: string, x: Consumed, s: State, t: Turn, n: nat)
    requires Delivers(t) && s.store == x.store && CanDeliver(s.topic, n, t.poll.delivered.message)
    ensures var s' := Exec(c, s, DeliveryLabels(c, n, |s.procs|, t.env));
      s'.store == TakeTurn(c, topic, x, t).store && Ran(s, s', [n])
  {
    ProcessIsARun(c, topic, s, n, t.poll.delivered.message, t.env);
  }

  /** What `Start` does to the store over any turns is what the pipeline does in a run with exactly one
      whole delivery for each well-formed message it polls before it stops, and nothing else. */
  lemma {:induction false} LoopIsARun(c: Config, topic: string, x: Consumed, s: State, turns: seq<Turn>, ns: seq<nat>)
    requires !x.stopped && s.store == x.store && NumberedBy(s.topic, turns, ns)
    ensures var s' := Exec(c, s, LoopLabels(c, |s.procs|, turns, ns));
      s'.store == Consume(c, topic, x, turns).store && Ran(s, s', DeliveredBy(turns, ns))
    decreases |turns|, 1
  {
    if turns != [] {
      ConsumeFirst(c, topic, x, turns);
      if Delivers(turns[0]) {
        DeliveryThenRest(c, topic, x, s, turns, ns);
      } else {
        OtherTurn(c, topic, x, turns[0]);
        if !Stops(turns[0]) { LoopIsARun(c, topic, TakeTurn(c, topic, x, turns[0]), s, turns[1..], ns[1..]); }
      }
    }
  }

  /** A turn that delivers nothing well-formed leaves the store alone, and ends the loop if it stops it. */
  lemma OtherTurn(c: Config, topic: string, x: Consumed, t: Turn)
    requires !Delivers(t) && !x.stopped
    ensures var y := TakeTurn(c, topic, x, t);
      && y.store == x.store && (y.stopped <==> Stops(t))
      && (y.stopped ==> forall turns :: Consume(c, topic, y, turns) == y)
  {}

  lemma {:induction false} DeliveryThenRest(c: Config, topic: string, x: Consumed, s: State, turns: seq<Turn>,
        ns: seq<nat>)
    requires !x.stopped && s.store == x.store && NumberedBy(s.topic, turns, ns) && turns != [] && Delivers(turns[0])
    ensures var s', y := Exec(c, s, LoopLabels(c, |s.procs|, turns, ns)), TakeTurn(c, topic, x, turns[0]);
      s'.store == Consume(c, topic, y, turns[1..]).store && Ran(s, s', DeliveredBy(turns, ns))
    decreases |turns|, 0
  {
    var i, rest := |s.procs|, turns[1..];
    var first := DeliveryLabels(c, ns[0], i, turns[0].env);
    var s1 := Exec(c, s, first);
    TurnIsARun(c, topic, x, s, turns[0], ns[0]);
    ExecConcat(c, s, first, LoopLabels(c, i + 1, rest, ns[1..]));
    LoopIsARun(c, topic, TakeTurn(c, topic, x, turns[0]), s1, rest, ns[1..]);
    RanOn(s, s1, Exec(c, s, LoopLabels(c, i, turns, ns)), ns[0], DeliveredBy(rest, ns[1..]));
  }

  // ---- Failures counted, whatever else runs ----

  /** Process `i` finds every fetch failing and its failed writes taking effect, and nobody
      else writes the record under `key`. */
  predicate FailsUndisturbed(c: Config, i: nat, key: string, s: State, l: Label) {
    l.Step? && Enabled(s, l) ==>
      if l.i != i then
        var w := Act(c, s.store, s.procs[l.i], l.choice).write;
        w.Some? ==> KeyOf(c.hash, w.value) != key
      else
        && (l.choice.Fetch? ==> l.choice.outcome.FetchError?)
        && (l.choice.Call? && s.procs[i].Job? && s.procs[i].job.JobFail? ==> Applied(l.choice.reply))
  }

  /** `base` and one for each attempt that has failed so far. */
  ghost predicate Counted(c: Config, s: State, i: nat, key: string, base: int) {
    && i < |s.procs| && s.procs[i].Job? && Key(c, s.procs[i]) == key && key in s.store
    && var r, attempt := s.store[key], s.procs[i].attempt;
       match s.procs[i].job
       case JobReady(_) => false
       case Backoff => attempt < c.maxRetries && r.retryCount == base + attempt + 1 && r.status.Failed?
       case Unacked => attempt <= c.maxRetries && r.retryCount == base + attempt + 1 && r.status.Failed?
       case DeadLettering => attempt == c.maxRetries && r.retryCount == base + c.maxRetries + 1 && r.status.Failed?
       case Acked => r.retryCount == base + c.maxRetries + 1 && r.status.Failed?
       case JobCrashed => true
       case _ => attempt <= c.maxRetries && r.retryCount == base + attempt
  }

  lemma StepKeepsCount(c: Config, s: State, l: Label, i: nat, key: string, base: int)
    requires Counted(c, s, i, key, base) && FailsUndisturbed(c, i, key, s, l)
    ensures Counted(c, Next(c, s, l), i, key, base)
  {}

  lemma {:induction false} RunKeepsCount(c: Config, s: State, ls: seq<Label>, i: nat, key: string, base: int)
    requires Counted(c, s, i, key, base) && Along(c, s, ls, (s, l) => FailsUndisturbed(c, i, key, s, l))
    ensures Counted(c, Exec(c, s, ls), i, key, base)
    decreases |ls|
  {
    if ls != [] {
      StepKeepsCount(c, s, ls[0], i, key, base);
      RunKeepsCount(c, Next(c, s, ls[0]), ls[1..], i, key, base);
    }
  }

  /** A delivery whose every fetch fails adds exactly `maxRetries + 1` to the retry count of its record
      by the time it is dead-lettered, whatever else runs in between, as long as its failed
      writes take effect and nobody else writes that record. */
  lemma DeadLetteringCountsEveryAttempt(c: Config, s: State, n: nat, ls: seq<Label>)
    requires c.maxRetries >= 0 && n < |s.topic| && c.hash(s.topic[n]) in s.store
    requires Along(c, Next(c, s, Deliver(n)), ls, (s', l) => FailsUndisturbed(c, |s.procs|, c.hash(s.topic[n]), s', l))
    ensures var key, s' := c.hash(s.topic[n]), Exec(c, Next(c, s, Deliver(n)), ls);
      && |s.procs| < |s'.procs| && s'.procs[|s.procs|].Job? && key in s'.store
      && (s'.procs[|s.procs|].job.DeadLettering? || s'.procs[|s.procs|].job.Acked? ==>
           s'.store[key].retryCount == s.store[key].retryCount + c.maxRetries + 1 && s'.store[key].status.Failed?)
  {
    RunKeepsCount(c, Next(c, s, Deliver(n)), ls, |s.procs|, c.hash(s.topic[n]), s.store[c.hash(s.topic[n])].retryCount);
  }
}
