/** The pipeline follows the broker: whatever its sessions do, the deliveries of the pipeline can do too. */
module Schedules {
  import opened Types
  import opened Producer
  import B = Broker
  import A = AtLeastOnce
  import P = Pipeline
  import Progress

  // ---- What it means that the two describe one system ----

  predicate Published(b: B.State, x: B.Place) {
    x.0 < |b.logs| && x.1 < |b.logs[x.0]|
  }

  /** `id` numbers the published messages as the pipeline's topic does; all of them are decoded, since
      only this producer writes the topic. */
  ghost predicate Numbered(b: B.State, s: P.State, id: map<B.Place, nat>) {
    && (forall x :: x in id <==> Published(b, x))
    && (forall x :: x in id ==>
         && id[x] < |s.topic| && b.logs[x.0][x.1].value.Decoded?
         && s.topic[id[x]] == b.logs[x.0][x.1].value.request.url)
    && (forall x, y :: x in id && y in id && id[x] == id[y] ==> x == y)
    && (forall n :: 0 <= n < |s.topic| ==> n in id.Values)
  }

  /** The delivery of message `n` stands where the session's phase says. */
  predicate JobMatches(p: P.Proc, n: nat, phase: B.Phase) {
    && p.Job? && p.msg == n
    && match phase
       case Handling(_, attempt) => Progress.Live(p) && p.attempt == attempt
       case Waiting(_, attempt) => p.job.Backoff? && p.attempt == attempt
       case DeadLettering(_, attempt) => p.job.DeadLettering? && p.attempt == attempt
       case Committing(_) => p.job.Acked?
       case _ => true
  }

  /** Session `j`, if it has a message in hand, runs it as process `run[j]`. */
  ghost predicate SessionMatches(s: P.State, id: map<B.Place, nat>, run: map<nat, nat>, j: nat, ss: B.Session) {
    && (forall x :: x in ss.givenUp ==> x in id)
    && (B.InHand(ss.phase).Some? ==>
         var at := B.InHand(ss.phase).value;
         j in run && run[j] < |s.procs| && at in id && JobMatches(s.procs[run[j]], id[at], ss.phase))
  }

  ghost predicate SessionsMatch(b: B.State, s: P.State, id: map<B.Place, nat>, run: map<nat, nat>) {
    && (forall j :: 0 <= j < |b.sessions| ==> SessionMatches(s, id, run, j, b.sessions[j]))
    && (forall j, k :: j in run && k in run && run[j] == run[k] ==> j == k)
    && (forall j :: j in run ==> run[j] < |s.procs| && s.procs[run[j]].Job?)
  }

  /** A message is settled in the pipeline exactly if the broker's histories account for it. */
  ghost predicate SettledMatch(b: B.State, s: P.State, id: map<B.Place, nat>) {
    && (forall x :: B.Accounted(b, x) <==> x in id && id[x] in s.settled)
    && (forall n :: n in s.settled ==> n < |s.topic|)
  }

  ghost predicate Agree(b: B.State, s: P.State, id: map<B.Place, nat>, run: map<nat, nat>) {
    B.WellFormed(b) && Numbered(b, s, id) && SessionsMatch(b, s, id, run) && SettledMatch(b, s, id)
  }

  // ---- Requests and handlers ----

  /** A step that no session takes part in: a request's, or one inside a handler. */
  predicate Silent(s: P.State, l: P.Label) {
    match l
    case StartPost(_) => true
    case StartGet(_) => true
    case Step(i, ch) =>
      i < |s.procs| && P.CanAct(s.procs[i], ch) &&
      (s.procs[i].Job? ==> (s.procs[i].job.JobMark? || s.procs[i].job.JobFetch?) && !ch.Crash?)
    case _ => false
  }

  lemma SilentKeepsJob(c: P.Config, store: map<string, Record>, p: P.Proc, ch: P.Choice, n: nat, phase: B.Phase)
    requires P.CanAct(p, ch) && JobMatches(p, n, phase) && (p.job.JobMark? || p.job.JobFetch?) && !ch.Crash?
    ensures JobMatches(P.Act(c, store, p, ch).next, n, phase)
  {}

  lemma SilentMatches(c: P.Config, b: B.State, s: P.State, id: map<B.Place, nat>, run: map<nat, nat>, l: P.Label,
        j: nat)
    requires SessionsMatch(b, s, id, run) && Silent(s, l) && j < |b.sessions|
    ensures SessionMatches(P.Next(c, s, l), id, run, j, b.sessions[j])
  {
    var ss := b.sessions[j];
    assert SessionMatches(s, id, run, j, ss);
    if l.Step? && B.InHand(ss.phase).Some? && run[j] == l.i {
      SilentKeepsJob(c, s.store, s.procs[l.i], l.choice, id[B.InHand(ss.phase).value], ss.phase);
    }
  }

  lemma SilentSettlesNothing(c: P.Config, store: map<string, Record>, p: P.Proc, ch: P.Choice)
    requires P.CanAct(p, ch) && (p.Job? ==> (p.job.JobMark? || p.job.JobFetch?) && !ch.Crash?)
    ensures var e := P.Act(c, store, p, ch);
      P.SettledBy(e.next) == {} && e.next.url == p.url && (e.next.Job? <==> p.Job?)
  {}

  /** A step of a request or inside a handler concerns no session; if it publishes, the broker
      appends that message, on whatever partition. */
  lemma SilentSteps(c: P.Config, b: B.State, s: P.State, id: map<B.Place, nat>, run: map<nat, nat>, l: P.Label)
    requires Agree(b, s, id, run) && Silent(s, l)
    ensures var s' := P.Next(c, s, l);
      if s'.topic == s.topic then Agree(b, s', id, run)
      else |s'.topic| == |s.topic| + 1 && s'.topic[..|s.topic|] == s.topic && s'.settled == s.settled
           && SessionsMatch(b, s', id, run)
  {
    var s' := P.Next(c, s, l);
    if l.Step? { SilentSettlesNothing(c, s.store, s.procs[l.i], l.choice); }
    forall j | 0 <= j < |b.sessions| ensures SessionMatches(s', id, run, j, b.sessions[j]) {
      SilentMatches(c, b, s, id, run, l, j);
    }
  }

  lemma MorePublished(b: B.State, b': B.State, s: P.State, s': P.State, id: map<B.Place, nat>, p: nat, m: Message,
        m0: nat)
    requires Numbered(b, s, id) && p < |b.logs| && b'.logs == b.logs[p := b.logs[p] + [m]] && m.value.Decoded?
    requires m0 == |s.topic| && |s'.topic| == m0 + 1 && s'.topic[..m0] == s.topic && s'.topic[m0] == m.value.request.url
    ensures Numbered(b', s', id[(p, |b.logs[p]|) := m0])
  {
    var id', x0 := id[(p, |b.logs[p]|) := m0], (p, |b.logs[p]|);
    forall x ensures x in id' <==> Published(b', x) {
      if x != x0 { assert Published(b', x) <==> Published(b, x); }
    }
    forall x | x in id' && x != x0 ensures b'.logs[x.0][x.1] == b.logs[x.0][x.1] && s'.topic[id'[x]] == s.topic[id[x]] {
      assert Published(b, x) && s'.topic[id[x]] == s'.topic[..m0][id[x]];
    }
    forall n | 0 <= n < |s'.topic| ensures n in id'.Values {
      if n == m0 {
        assert id'[x0] == n;
      } else {
        assert n in id.Values;
        var x :| x in id && id[x] == n;
        assert Published(b, x) && id'[x] == n;
      }
    }
  }

  lemma PublishAgrees(c: P.Config, b: B.State, s: P.State, id: map<B.Place, nat>, run: map<nat, nat>, l: P.Label,
        p: nat, m: Message)
    requires Agree(b, s, id, run) && Silent(s, l) && m.value.Decoded? && p < |b.logs|
    requires P.Next(c, s, l).topic == s.topic + [m.value.request.url]
    ensures var id' := id[(p, |b.logs[p]|) := |s.topic|];
      Agree(B.Next(c.maxRetries, b, B.Publish(p, m)), P.Next(c, s, l), id', run)
  {
    var b', s', id' := B.Next(c.maxRetries, b, B.Publish(p, m)), P.Next(c, s, l), id[(p, |b.logs[p]|) := |s.topic|];
    SilentSteps(c, b, s, id, run, l);
    MorePublished(b, b', s, s', id, p, m, |s.topic|);
    assert !Published(b, (p, |b.logs[p]|));
    forall j | 0 <= j < |b'.sessions| ensures SessionMatches(s', id', run, j, b'.sessions[j]) {
      assert SessionMatches(s', id, run, j, b.sessions[j]);
    }
    forall x ensures B.Accounted(b', x) <==> x in id' && id'[x] in s'.settled {
      assert B.Accounted(b', x) <==> B.Accounted(b, x);
    }
  }

  // ---- Sessions ----

  /** The pipeline once the messages `ns` have been passed over. */
  function PassedOver(s: P.State, ns: set<nat>): P.State {
    s.(settled := s.settled + ns)
  }

  /** Passing over any number of messages is a run, one label for each. */
  lemma {:induction false} PassOverAll(c: P.Config, s: P.State, ns: set<nat>) returns (ls: seq<P.Label>)
    requires forall n :: n in ns ==> n < |s.topic|
    ensures P.Exec(c, s, ls) == PassedOver(s, ns) && forall l :: l in ls <==> l.PassOver? && l.msg in ns
    decreases |ns|
  {
    if ns == {} {
      ls := [];
      assert s.settled + ns == s.settled;
    } else {
      var n :| n in ns;
      var s1 := P.Next(c, s, P.PassOver(n));
      var rest := PassOverAll(c, s1, ns - {n});
      ls := [P.PassOver(n)] + rest;
      assert ls[1..] == rest && s1.settled + (ns - {n}) == s.settled + ns;
    }
  }

  /** The broker's histories grow by `more`, and nothing else does that matters. */
  lemma PassedOverAgree(b: B.State, s: P.State, id: map<B.Place, nat>, run: map<nat, nat>, b': B.State,
        more: set<B.Place>)
    requires B.WellFormed(b') && Numbered(b, s, id) && SettledMatch(b, s, id) && SessionsMatch(b', s, id, run)
    requires b'.logs == b.logs && forall x :: x in more ==> x in id
    requires forall x :: B.Accounted(b', x) <==> B.Accounted(b, x) || x in more
    ensures Agree(b', PassedOver(s, NumbersOf(id, more)), id, run)
  {
    var s' := PassedOver(s, NumbersOf(id, more));
    forall x ensures B.Accounted(b', x) <==> x in id && id[x] in s'.settled {
      if x in id && id[x] in NumbersOf(id, more) {
        var y :| y in more && y in id && id[y] == id[x];
        assert x == y;
      }
    }
    assert forall x :: Published(b', x) <==> Published(b, x);
  }

  function NumbersOf(id: map<B.Place, nat>, places: set<B.Place>): set<nat> {
    set x | x in places && x in id :: id[x]
  }

  /** Session `j` moves on with the message it has in hand, and process `run[j]` with it. */
  lemma InHandAgrees(b: B.State, s: P.State, id: map<B.Place, nat>, run: map<nat, nat>, j: nat, b': B.State,
        s': P.State)
    requires Agree(b, s, id, run) && j < |b.sessions| && B.InHand(b.sessions[j].phase).Some?
    requires |b'.sessions| == |b.sessions| && b'.sessions == b.sessions[j := b'.sessions[j]]
    requires b'.logs == b.logs && b'.committed == b.committed
    requires |s'.procs| == |s.procs| && s'.procs == s.procs[run[j] := s'.procs[run[j]]] && s'.topic == s.topic
    requires SessionMatches(s', id, run, j, b'.sessions[j]) && SettledMatch(b', s', id) && s'.procs[run[j]].Job?
    ensures Agree(b', s', id, run)
  {
    assert SessionMatches(s, id, run, j, b.sessions[j]);
    forall k | 0 <= k < |b'.sessions| && k != j ensures SessionMatches(s', id, run, k, b'.sessions[k]) {
      assert SessionMatches(s, id, run, k, b.sessions[k]);
      if k in run { assert run[k] != run[j]; }
    }
    assert forall x :: Published(b', x) <==> Published(b, x);
  }

  /** Session `j` moves on without a message in hand, and the pipeline stays where it is. */
  lemma IdleAgrees(b: B.State, s: P.State, id: map<B.Place, nat>, run: map<nat, nat>, j: nat, b': B.State)
    requires Agree(b, s, id, run) && j < |b.sessions| && |b'.sessions| == |b.sessions|
    requires b'.sessions == b.sessions[j := b'.sessions[j]] && b' == b.(sessions := b'.sessions)
    requires SessionMatches(s, id, run, j, b'.sessions[j])
    ensures Agree(b', s, id, run)
  {
    forall k | 0 <= k < |b'.sessions| && k != j ensures SessionMatches(s, id, run, k, b'.sessions[k]) {
      assert SessionMatches(s, id, run, k, b.sessions[k]);
    }
    assert forall x :: Published(b', x) <==> Published(b, x);
    assert forall x :: B.Accounted(b', x) <==> B.Accounted(b, x);
  }

  /** The message at `at` is settled on both sides at once. */
  lemma SettledTogether(b: B.State, s: P.State, id: map<B.Place, nat>, at: B.Place, fate: B.Fate, b': B.State,
        s': P.State)
    requires Numbered(b, s, id) && SettledMatch(b, s, id) && at in id && s'.topic == s.topic
    requires b'.fates == b.fates[at := fate] && b'.overtaken == b.overtaken && b'.unseen == b.unseen
    requires s'.settled == s.settled + {id[at]}
    ensures SettledMatch(b', s', id)
  {
    forall x ensures B.Accounted(b', x) <==> x in id && id[x] in s'.settled {
      assert B.Accounted(b', x) <==> B.Accounted(b, x) || x == at;
    }
  }

  lemma UnsettledTogether(b: B.State, s: P.State, id: map<B.Place, nat>, b': B.State, s': P.State)
    requires SettledMatch(b, s, id) && s'.topic == s.topic && s'.settled == s.settled
    requires b'.fates == b.fates && b'.overtaken == b.overtaken && b'.unseen == b.unseen
    ensures SettledMatch(b', s', id)
  {
    assert forall x :: B.Accounted(b', x) <==> B.Accounted(b, x);
  }

  lemma OneLabel(c: P.Config, s: P.State, l: P.Label)
    ensures P.Exec(c, s, [l]) == P.Next(c, s, l)
  {
    assert [l][1..] == [];
  }

  /** What the pipeline answers to an event of a session that has a message in hand. */
  function Response(e: B.Event, reply: Reply, now: Time): P.Choice {
    match e
    case Wake(cancelled) => P.Wake(cancelled)
    case _ => P.Call(reply, ZERO_TIME, now)
  }

  /** The handler can return only from its last step, and the replies are those the event reports. */
  predicate Fitting(p: P.Proc, e: B.Event, reply: Reply) {
    match e
    case HandlerReturns(ok) => p.Job? && ((p.job.JobReady? && reply.Done? == ok) || (p.job.JobFail? && !ok))
    case DeadLetterWrite(ok) => reply.Done? == ok
    case _ => true
  }

  lemma ResponseMatches(c: P.Config, logs: seq<seq<Message>>, store: map<string, Record>, p: P.Proc, n: nat,
        ss: B.Session,
        e: B.Event, reply: Reply, now: Time)
    requires c.maxRetries >= 0 && B.CanDo(logs, ss, e) && (e.HandlerReturns? || e.Wake? || e.DeadLetterWrite?)
    requires JobMatches(p, n, ss.phase) && Fitting(p, e, reply)
    ensures P.CanAct(p, Response(e, reply, now))
    ensures var r, next := B.SessionStep(c.maxRetries, logs, ss, e), P.Act(c, store, p, Response(e, reply, now)).next;
      && JobMatches(next, n, r.session.phase) && next.url == p.url
      && (r.fate.Some? <==> next.job.Acked?)
      && (r.fate.Some? <==> B.InHand(r.session.phase).Some? && r.session.phase.Committing?)
      && (B.InHand(r.session.phase).Some? ==> B.InHand(r.session.phase) == B.InHand(ss.phase))
      && (forall x :: x in r.session.givenUp ==> x in ss.givenUp || Some(x) == B.InHand(ss.phase))
    ensures !P.Act(c, store, p, Response(e, reply, now)).publishes
  {}

  /** The handler returns, a wait ends or is cut short, or the dead letter is written or not. */
  lemma EventAgrees(c: P.Config, b: B.State, s: P.State, id: map<B.Place, nat>, run: map<nat, nat>, j: nat, e: B.Event,
        reply: Reply, now: Time)
    requires c.maxRetries >= 0 && Agree(b, s, id, run) && j < |b.sessions| && B.CanDo(b.logs, b.sessions[j], e)
    requires e.HandlerReturns? || e.Wake? || e.DeadLetterWrite?
    requires j in run && Fitting(s.procs[run[j]], e, reply)
    ensures Agree(B.Next(c.maxRetries, b, B.Do(j, e)), P.Next(c, s, P.Step(run[j], Response(e, reply, now))), id, run)
  {
    var ss, p := b.sessions[j], s.procs[run[j]];
    assert SessionMatches(s, id, run, j, ss);
    var at := B.InHand(ss.phase).value;
    ResponseMatches(c, b.logs, s.store, p, id[at], ss, e, reply, now);
    var r := B.SessionStep(c.maxRetries, b.logs, ss, e);
    var b', s' := B.Next(c.maxRetries, b, B.Do(j, e)), P.Next(c, s, P.Step(run[j], Response(e, reply, now)));
    if r.fate.Some? {
      SettledTogether(b, s, id, at, r.fate.value, b', s');
    } else {
      UnsettledTogether(b, s, id, b', s');
    }
    InHandAgrees(b, s, id, run, j, b', s');
  }

  /** What a receipt changes: the session has the message in hand, and its delivery begins. */
  lemma Receipt(c: P.Config, b: B.State, s: P.State, j: nat, e: B.Event, at: B.Place, n: nat)
    requires c.maxRetries >= 0 && B.WellFormed(b) && j < |b.sessions|
    requires B.CanDo(b.logs, b.sessions[j], e) && e.Receive? && at == (e.partition, b.sessions[j].next[e.partition])
    requires b.logs[at.0][at.1].value.Decoded? && n < |s.topic|
    ensures var b', ss := B.Next(c.maxRetries, b, B.Do(j, e)), b.sessions[j];
      && b' == b.(sessions := b.sessions[j := b'.sessions[j]]) && |b'.sessions| == |b.sessions|
      && b'.sessions[j].phase == B.Handling(at, 0) && b'.sessions[j].givenUp == ss.givenUp
    ensures P.Next(c, s, P.Deliver(n)) == s.(procs := s.procs + [P.Job(s.topic[n], n, P.JobMark, 0)])
  {
    assert s.settled + {} == s.settled;
  }


  /** Session `j` now has the message at `at` in hand, run by the newest process. */
  lemma InHandAnew(b: B.State, s: P.State, id: map<B.Place, nat>, run: map<nat, nat>, j: nat, at: B.Place, b': B.State,
        s': P.State)
    requires Agree(b, s, id, run) && j < |b.sessions| && at in id && |b'.sessions| == |b.sessions|
    requires b' == b.(sessions := b.sessions[j := b'.sessions[j]])
    requires b'.sessions[j].phase == B.Handling(at, 0) && b'.sessions[j].givenUp == b.sessions[j].givenUp
    requires s' == s.(procs := s.procs + [P.Job(s.topic[id[at]], id[at], P.JobMark, 0)])
    ensures Agree(b', s', id, run[j := |s.procs|])
  {
    var run' := run[j := |s.procs|];
    forall k | 0 <= k < |b'.sessions| ensures SessionMatches(s', id, run', k, b'.sessions[k]) {
      assert SessionMatches(s, id, run, k, b.sessions[k]);
    }
    UnsettledTogether(b, s, id, b', s');
    assert forall x :: Published(b', x) <==> Published(b, x);
  }

  /** A session receives a message and the pipeline starts a delivery of it. */
  lemma ReceiveAgrees(c: P.Config, b: B.State, s: P.State, id: map<B.Place, nat>, run: map<nat, nat>, j: nat,
        e: B.Event)
    requires c.maxRetries >= 0 && Agree(b, s, id, run) && j < |b.sessions|
    requires B.CanDo(b.logs, b.sessions[j], e) && e.Receive?
    ensures var at := (e.partition, b.sessions[j].next[e.partition]);
      at in id && Agree(B.Next(c.maxRetries, b, B.Do(j, e)), P.Next(c, s, P.Deliver(id[at])), id, run[j := |s.procs|])
  {
    var at := (e.partition, b.sessions[j].next[e.partition]);
    assert Published(b, at);
    Receipt(c, b, s, j, e, at, id[at]);
    InHandAnew(b, s, id, run, j, at, B.Next(c.maxRetries, b, B.Do(j, e)), P.Next(c, s, P.Deliver(id[at])));
  }

  // ---- One event of the whole system ----

  /** What happens in the whole system: something no session takes part in, which may publish a
      message to partition `p`, or something a session or the broker does. */
  datatype Joint =
    | Quiet(l: P.Label)
    | Publishing(l: P.Label, p: nat, m: Message)
    | OfBroker(event: B.Label, reply: Reply, now: Time)

  /** The broker with its sessions, and the pipeline; `id` numbers the messages as the topic
      does, and `run` names the delivery that each session has in hand. */
  datatype Whole = Whole(b: B.State, s: P.State, id: map<B.Place, nat>, run: map<nat, nat>)

  /** The broker's part in what happens. */
  function BrokerAfter(c: P.Config, b: B.State, x: Joint): (b': B.State)
    requires |b.logs| == |b.committed|
    ensures |b'.logs| == |b'.committed|
  {
    match x
    case Quiet(_) => b
    case Publishing(_, p, m) => B.Next(c.maxRetries, b, B.Publish(p, m))
    case OfBroker(l, _, _) => B.Next(c.maxRetries, b, l)
  }

  /** The steps the pipeline takes when a session or the broker does something: a delivery starts
      when a session receives its message, takes its last step when the handler returns,
      waits, writes its dead letter and dies with its session. */
  function Answers(w: Whole, l: B.Label, reply: Reply, now: Time): seq<P.Label> {
    match l
    case Crash(j) =>
      if j < |w.b.sessions| && DiesWithWork(w.b.sessions[j]) && j in w.run then [P.Step(w.run[j], P.Crash)] else []
    case Do(j, e) =>
      if !B.Enabled(w.b, l) then []
      else if e.Receive? then
        var at := (e.partition, w.b.sessions[j].next[e.partition]);
        if at in w.id then [P.Deliver(w.id[at])] else []
      else if ConcernsDelivery(e) && j in w.run then [P.Step(w.run[j], Response(e, reply, now))]
      else []
    case _ => []
  }

  predicate ConcernsDelivery(e: B.Event) {
    e.HandlerReturns? || e.Wake? || e.DeadLetterWrite?
  }

  predicate DiesWithWork(ss: B.Session) {
    B.InHand(ss.phase).Some? && !ss.phase.Committing?
  }

  /** The messages that an accepted commit overtakes, or that lie before a blind start. */
  function NewlyPassed(c: P.Config, b: B.State, l: B.Label): set<B.Place>
    requires |b.logs| == |b.committed|
  {
    var b' := B.Next(c.maxRetries, b, l);
    (b'.overtaken - b.overtaken) + (b'.unseen - b.unseen)
  }

  /** The pipeline's part: exactly these steps. */
  function PipelineAfter(c: P.Config, w: Whole, x: Joint): P.State
    requires |w.b.logs| == |w.b.committed|
  {
    match x
    case Quiet(l) => P.Next(c, w.s, l)
    case Publishing(l, _, _) => P.Next(c, w.s, l)
    case OfBroker(l, reply, now) =>
      PassedOver(P.Exec(c, w.s, Answers(w, l, reply, now)), NumbersOf(w.id, NewlyPassed(c, w.b, l)))
  }

  function After(c: P.Config, w: Whole, x: Joint): (w': Whole)
    requires |w.b.logs| == |w.b.committed|
    ensures |w'.b.logs| == |w'.b.committed|
  {
    Whole(BrokerAfter(c, w.b, x), PipelineAfter(c, w, x),
          if x.Publishing? && x.p < |w.b.logs| then w.id[(x.p, |w.b.logs[x.p]|) := |w.s.topic|] else w.id,
          if x.OfBroker? && x.event.Do? && B.Enabled(w.b, x.event) && x.event.event.Receive?
          then w.run[x.event.session := |w.s.procs|] else w.run)
  }

  /** What can happen: any step of a request or inside a handler, with the message it publishes; and
      anything a session or the broker can do, a handler returning only from its last step. */
  ghost predicate CanHappen(c: P.Config, w: Whole, x: Joint) {
    match x
    case Quiet(l) => Silent(w.s, l) && P.Next(c, w.s, l).topic == w.s.topic
    case Publishing(l, p, m) =>
      Silent(w.s, l) && p < |w.b.logs| && m.value.Decoded? &&
      P.Next(c, w.s, l).topic == w.s.topic + [m.value.request.url]
    case OfBroker(l, reply, _) =>
      && !l.Publish?
      && (l.Do? && B.Enabled(w.b, l) && l.session in w.run && w.run[l.session] < |w.s.procs| ==>
           Fitting(w.s.procs[w.run[l.session]], l.event, reply))
  }

  /** The two agree, and `run` names only sessions there are. */
  ghost predicate Together(w: Whole) {
    Agree(w.b, w.s, w.id, w.run) && forall j :: j in w.run ==> j < |w.b.sessions|
  }

  // ---- Each event keeps the two together ----

  lemma NothingPassed(c: P.Config, b: B.State, l: B.Label)
    requires B.WellFormed(b) && !l.Join? && !l.Rebalance? && !(l.Do? && l.event == B.CommitReply(true))
    ensures NewlyPassed(c, b, l) == {}
  {}

  lemma PassNone(s: P.State, id: map<B.Place, nat>)
    ensures PassedOver(s, NumbersOf(id, {})) == s
  {
    assert s.settled + NumbersOf(id, {}) == s.settled;
  }

  /** An accepted commit passes over what its session has given up. */
  lemma CommitAgrees(c: P.Config, w: Whole, j: nat, applied: bool)
    requires Together(w) && j < |w.b.sessions| && w.b.sessions[j].phase.Committing?
    ensures var l := B.Do(j, B.CommitReply(applied));
      Agree(B.Next(c.maxRetries, w.b, l), PassedOver(w.s, NumbersOf(w.id, NewlyPassed(c, w.b, l))), w.id, w.run)
  {
    var l := B.Do(j, B.CommitReply(applied));
    var ss, b' := w.b.sessions[j], B.Next(c.maxRetries, w.b, l);
    assert SessionMatches(w.s, w.id, w.run, j, ss);
    assert b'.sessions == w.b.sessions[j := ss.(phase := B.Top)];
    forall k | 0 <= k < |b'.sessions| ensures SessionMatches(w.s, w.id, w.run, k, b'.sessions[k]) {
      assert SessionMatches(w.s, w.id, w.run, k, w.b.sessions[k]);
    }
    var more := NewlyPassed(c, w.b, l);
    assert w.b.overtaken <= b'.overtaken && b'.unseen == w.b.unseen && forall x :: x in more ==> x in ss.givenUp;
    PassedOverAgree(w.b, w.s, w.id, w.run, b', more);
  }

  /** A session that joins, or is assigned partitions anew, passes over what lies before a blind start. */
  lemma AssignmentAgrees(c: P.Config, w: Whole, l: B.Label)
    requires Together(w) && (l.Join? || l.Rebalance?) && B.Enabled(w.b, l)
    ensures Agree(B.Next(c.maxRetries, w.b, l), PassedOver(w.s, NumbersOf(w.id, NewlyPassed(c, w.b, l))), w.id, w.run)
  {
    var b', more := B.Next(c.maxRetries, w.b, l), NewlyPassed(c, w.b, l);
    forall k | 0 <= k < |b'.sessions| ensures SessionMatches(w.s, w.id, w.run, k, b'.sessions[k]) {
      if k < |w.b.sessions| { assert SessionMatches(w.s, w.id, w.run, k, w.b.sessions[k]); }
    }
    forall x | x in more ensures x in w.id {
      assert x in B.Unseen(w.b, l.parts) && Published(w.b, x);
    }
    PassedOverAgree(w.b, w.s, w.id, w.run, b', more);
  }

  /** A session dies, and the delivery it was running with it. */
  lemma CrashAgrees(c: P.Config, w: Whole, j: nat)
    requires Together(w) && j < |w.b.sessions|
    ensures var s' := if DiesWithWork(w.b.sessions[j]) then P.Next(c, w.s, P.Step(w.run[j], P.Crash)) else w.s;
      Agree(B.Next(c.maxRetries, w.b, B.Crash(j)), s', w.id, w.run)
  {
    var ss, b' := w.b.sessions[j], B.Next(c.maxRetries, w.b, B.Crash(j));
    assert SessionMatches(w.s, w.id, w.run, j, ss);
    if DiesWithWork(ss) {
      var s' := P.Next(c, w.s, P.Step(w.run[j], P.Crash));
      UnsettledTogether(w.b, w.s, w.id, b', s');
      InHandAgrees(w.b, w.s, w.id, w.run, j, b', s');
    } else {
      IdleAgrees(w.b, w.s, w.id, w.run, j, b');
    }
  }

  /** Sessions with a message in hand have a delivery. */
  lemma InHandRuns(w: Whole, j: nat)
    requires Together(w) && j < |w.b.sessions| && B.InHand(w.b.sessions[j].phase).Some?
    ensures j in w.run && w.run[j] < |w.s.procs|
  {
    assert SessionMatches(w.s, w.id, w.run, j, w.b.sessions[j]);
  }

  /** What follows from the answers when nothing is passed over. */
  lemma JustAnswers(c: P.Config, w: Whole, l: B.Label, reply: Reply, now: Time)
    requires B.WellFormed(w.b) && !l.Join? && !l.Rebalance? && !(l.Do? && l.event == B.CommitReply(true))
    ensures var answers := Answers(w, l, reply, now);
      PipelineAfter(c, w, OfBroker(l, reply, now)) == (if answers == [] then w.s else P.Next(c, w.s, answers[0]))
  {
    var answers := Answers(w, l, reply, now);
    NothingPassed(c, w.b, l);
    PassNone(P.Exec(c, w.s, answers), w.id);
    if answers != [] {
      assert answers == [answers[0]];
      OneLabel(c, w.s, answers[0]);
    }
  }

  lemma DoKeepsTogether(c: P.Config, w: Whole, j: nat, e: B.Event, reply: Reply, now: Time)
    requires c.maxRetries >= 0 && Together(w) && B.Enabled(w.b, B.Do(j, e))
    requires CanHappen(c, w, OfBroker(B.Do(j, e), reply, now))
    ensures Together(After(c, w, OfBroker(B.Do(j, e), reply, now)))
  {
    var l := B.Do(j, e);
    if e == B.CommitReply(true) {
      CommitAgrees(c, w, j, true);
      assert P.Exec(c, w.s, Answers(w, l, reply, now)) == w.s;
    } else {
      JustAnswers(c, w, l, reply, now);
      if e.Receive? {
        ReceiveAgrees(c, w.b, w.s, w.id, w.run, j, e);
      } else if ConcernsDelivery(e) {
        InHandRuns(w, j);
        EventAgrees(c, w.b, w.s, w.id, w.run, j, e, reply, now);
      } else {
        IdleEventAgrees(c, w, j, e);
      }
    }
  }

  /** The loop goes round, a poll fails or a commit is refused. */
  lemma IdleEventAgrees(c: P.Config, w: Whole, j: nat, e: B.Event)
    requires Together(w) && B.Enabled(w.b, B.Do(j, e)) && (e.Loop? || e.PollError? || e == B.CommitReply(false))
    ensures Agree(B.Next(c.maxRetries, w.b, B.Do(j, e)), w.s, w.id, w.run)
  {
    assert SessionMatches(w.s, w.id, w.run, j, w.b.sessions[j]);
    IdleAgrees(w.b, w.s, w.id, w.run, j, B.Next(c.maxRetries, w.b, B.Do(j, e)));
  }

  lemma BrokerKeepsTogether(c: P.Config, w: Whole, l: B.Label, reply: Reply, now: Time)
    requires c.maxRetries >= 0 && Together(w) && CanHappen(c, w, OfBroker(l, reply, now))
    ensures Together(After(c, w, OfBroker(l, reply, now)))
  {
    if l.Do? && B.Enabled(w.b, l) {
      DoKeepsTogether(c, w, l.session, l.event, reply, now);
    } else if (l.Join? || l.Rebalance?) && B.Enabled(w.b, l) {
      AssignmentAgrees(c, w, l);
    } else if !B.Enabled(w.b, l) {
      assert NewlyPassed(c, w.b, l) == {} && Answers(w, l, reply, now) == [];
      PassNone(w.s, w.id);
    } else {
      JustAnswers(c, w, l, reply, now);
      assert SessionMatches(w.s, w.id, w.run, l.session, w.b.sessions[l.session]);
      if l.Crash? {
        CrashAgrees(c, w, l.session);
      } else {
        IdleAgrees(w.b, w.s, w.id, w.run, l.session, B.Next(c.maxRetries, w.b, l));
      }
    }
  }

  lemma EventKeepsTogether(c: P.Config, w: Whole, x: Joint)
    requires c.maxRetries >= 0 && Together(w) && CanHappen(c, w, x)
    ensures Together(After(c, w, x))
  {
    match x
    case Quiet(l) => SilentSteps(c, w.b, w.s, w.id, w.run, l);
    case Publishing(l, p, m) => PublishAgrees(c, w.b, w.s, w.id, w.run, l, p, m);
    case OfBroker(l, reply, now) => BrokerKeepsTogether(c, w, l, reply, now);
  }

  /** The pipeline is never in the way: when a session receives a message, has its handler return,
      wakes, writes its dead letter or dies with a message in hand, the pipeline has exactly one
      step to take, and can take it. */
  lemma AnswersCanBeGiven(c: P.Config, w: Whole, l: B.Label, reply: Reply, now: Time)
    requires c.maxRetries >= 0 && Together(w) && B.Enabled(w.b, l) && CanHappen(c, w, OfBroker(l, reply, now))
    ensures var answers := Answers(w, l, reply, now);
      && (forall k :: 0 <= k < |answers| ==> P.Enabled(w.s, answers[k]))
      && |answers| ==
         if (l.Do? && (l.event.Receive? || ConcernsDelivery(l.event)))
            || (l.Crash? && DiesWithWork(w.b.sessions[l.session]))
         then 1 else 0
  {
    if l.Do? || l.Crash? {
      var ss := w.b.sessions[l.session];
      assert SessionMatches(w.s, w.id, w.run, l.session, ss);
      if l.Do? && l.event.Receive? {
        assert Published(w.b, (l.event.partition, ss.next[l.event.partition]));
      } else if l.Do? && ConcernsDelivery(l.event) {
        ResponseMatches(c, w.b.logs, w.s.store, w.s.procs[w.run[l.session]], w.id[B.InHand(ss.phase).value],
                        ss, l.event,
                        reply, now);
      }
    }
  }

  // ---- Whole histories ----

  /** `n` empty partitions, with committed offsets or without, and an empty store. */
  function Start(n: nat, based: bool): Whole {
    Whole(B.Init(n, based), P.INIT, map[], map[])
  }

  function Happened(c: P.Config, w: Whole, xs: seq<Joint>): (w': Whole)
    requires |w.b.logs| == |w.b.committed|
    ensures |w'.b.logs| == |w'.b.committed|
    decreases |xs|
  {
    if xs == [] then w else Happened(c, After(c, w, xs[0]), xs[1..])
  }

  /** `xs` is a history: each event can happen in the state in which the ones before it leave the system. */
  ghost predicate History(c: P.Config, w: Whole, xs: seq<Joint>)
    requires |w.b.logs| == |w.b.committed|
    decreases |xs|
  {
    xs == [] || (CanHappen(c, w, xs[0]) && History(c, After(c, w, xs[0]), xs[1..]))
  }

  lemma {:induction false} HistoryKeepsTogether(c: P.Config, w: Whole, xs: seq<Joint>)
    requires c.maxRetries >= 0 && Together(w) && History(c, w, xs)
    ensures Together(Happened(c, w, xs))
    decreases |xs|
  {
    if xs != [] {
      EventKeepsTogether(c, w, xs[0]);
      HistoryKeepsTogether(c, After(c, w, xs[0]), xs[1..]);
    }
  }

  /** In every history of the whole system - any requests, handlers, publishes, receipts, retries,
      dead letters, commits, crashes, rebalances and cancellations in any order - the
      deliveries stand where the sessions do, and a message is settled in the pipeline
      exactly if the broker's histories account for it. */
  lemma WholeSystemAgrees(c: P.Config, n: nat, based: bool, xs: seq<Joint>)
    requires c.maxRetries >= 0 && History(c, Start(n, based), xs)
    ensures var w := Happened(c, Start(n, based), xs);
      && Together(w)
      && (forall j :: 0 <= j < |w.b.sessions| && B.InHand(w.b.sessions[j].phase).Some? ==>
           && j in w.run && w.run[j] < |w.s.procs| && B.InHand(w.b.sessions[j].phase).value in w.id
           && JobMatches(w.s.procs[w.run[j]], w.id[B.InHand(w.b.sessions[j].phase).value], w.b.sessions[j].phase))
      && (forall x :: B.Accounted(w.b, x) <==> x in w.id && w.id[x] in w.s.settled)
  {
    HistoryKeepsTogether(c, Start(n, based), xs);
    var w := Happened(c, Start(n, based), xs);
    forall j | 0 <= j < |w.b.sessions| && B.InHand(w.b.sessions[j].phase).Some?
      ensures j in w.run && w.run[j] < |w.s.procs| && B.InHand(w.b.sessions[j].phase).value in w.id
      ensures JobMatches(w.s.procs[w.run[j]], w.id[B.InHand(w.b.sessions[j].phase).value], w.b.sessions[j].phase)
    {
      assert SessionMatches(w.s, w.id, w.run, j, w.b.sessions[j]);
    }
  }

  /** The pipeline's part in an event is a run: the step itself, or the answers and then one label
      for each message passed over. */
  lemma EventIsARun(c: P.Config, w: Whole, x: Joint) returns (ls: seq<P.Label>)
    requires Together(w)
    ensures P.Exec(c, w.s, ls) == PipelineAfter(c, w, x)
    ensures x.OfBroker? ==>
      var answers, ns := Answers(w, x.event, x.reply, x.now), NumbersOf(w.id, NewlyPassed(c, w.b, x.event));
      answers <= ls && forall l :: l in ls[|answers|..] <==> l.PassOver? && l.msg in ns
  {
    match x
    case Quiet(l) => ls := [l]; OneLabel(c, w.s, l);
    case Publishing(l, _, _) => ls := [l]; OneLabel(c, w.s, l);
    case OfBroker(l, reply, now) =>
      var answers := Answers(w, l, reply, now);
      TopicGrows(c, w.s, answers);
      var passing := PassOverAll(c, P.Exec(c, w.s, answers), NumbersOf(w.id, NewlyPassed(c, w.b, l)));
      P.ExecConcat(c, w.s, answers, passing);
      ls := answers + passing;
      assert ls[|answers|..] == passing;
  }

  lemma {:induction false} TopicGrows(c: P.Config, s: P.State, ls: seq<P.Label>)
    ensures |s.topic| <= |P.Exec(c, s, ls).topic|
    decreases |ls|
  {
    if ls != [] {
      TopicGrows(c, P.Next(c, s, ls[0]), ls[1..]);
    }
  }

  /** So in every history the pipeline is where one of its own runs leads and the broker where one of
      its own does, and what is proved of all runs of either holds of the whole system. */
  lemma {:induction false} HistoriesAreRuns(c: P.Config, w: Whole, xs: seq<Joint>)
    requires c.maxRetries >= 0 && Together(w) && History(c, w, xs)
    ensures P.Reachable(c, w.s, Happened(c, w, xs).s)
    ensures A.Reachable(c.maxRetries, w.b, Happened(c, w, xs).b)
    decreases |xs|
  {
    if xs == [] {
      P.Here(c, w.s, (_, _) => true);
      assert B.Exec(c.maxRetries, w.b, []) == w.b;
    } else {
      var w1 := After(c, w, xs[0]);
      EventKeepsTogether(c, w, xs[0]);
      HistoriesAreRuns(c, w1, xs[1..]);
      PipelineRunsOn(c, w, xs[0], Happened(c, w, xs).s);
      BrokerRunsOn(c, w.b, xs[0], Happened(c, w, xs).b);
    }
  }

  lemma PipelineRunsOn(c: P.Config, w: Whole, x: Joint, s: P.State)
    requires Together(w) && P.Reachable(c, PipelineAfter(c, w, x), s)
    ensures P.Reachable(c, w.s, s)
  {
    var first := EventIsARun(c, w, x);
    var rest :| P.Exec(c, PipelineAfter(c, w, x), rest) == s;
    P.ExecConcat(c, w.s, first, rest);
    assert P.Exec(c, w.s, first + rest) == s;
  }

  lemma BrokerRunsOn(c: P.Config, b0: B.State, x: Joint, b: B.State)
    requires B.WellFormed(b0) && A.Reachable(c.maxRetries, BrokerAfter(c, b0, x), b)
    ensures A.Reachable(c.maxRetries, b0, b)
  {
    var rest :| B.Exec(c.maxRetries, BrokerAfter(c, b0, x), rest) == b;
    if !x.Quiet? {
      var l := if x.Publishing? then B.Publish(x.p, x.m) else x.event;
      assert ([l] + rest)[1..] == rest;
      assert B.Exec(c.maxRetries, b0, [l] + rest) == b;
    }
  }

  // ---- No orphaned work in the whole system ----

  /** The pipeline's part in this event orphans no record, and no message is passed over whose record
      is in progress. */
  ghost predicate LeavesNoOrphan(c: P.Config, w: Whole, x: Joint)
    requires |w.b.logs| == |w.b.committed|
  {
    match x
    case Quiet(l) => Progress.NotOrphaning(c, w.s, l)
    case Publishing(l, _, _) => Progress.NotOrphaning(c, w.s, l)
    case OfBroker(l, reply, now) =>
      && (forall k :: k in Answers(w, l, reply, now) ==> Progress.NotOrphaning(c, w.s, k))
      && forall y :: y in NewlyPassed(c, w.b, l) && y in w.id && w.id[y] < |w.s.topic| ==>
           !Progress.InProgressAt(w.s.store, c.hash(w.s.topic[w.id[y]]))
  }

  ghost predicate NeverOrphans(c: P.Config, w: Whole, xs: seq<Joint>)
    requires |w.b.logs| == |w.b.committed|
    decreases |xs|
  {
    xs == [] || (LeavesNoOrphan(c, w, xs[0]) && NeverOrphans(c, After(c, w, xs[0]), xs[1..]))
  }

  lemma PassingFinishedKeepsAttended(c: P.Config, s: P.State, ns: set<nat>)
    requires Progress.Attended(c, s)
    requires forall n :: n in ns ==> n < |s.topic| && !Progress.InProgressAt(s.store, c.hash(s.topic[n]))
    ensures Progress.Attended(c, PassedOver(s, ns))
  {
    var s' := PassedOver(s, ns);
    forall key | Progress.InProgressAt(s'.store, key)
      ensures Progress.HasLive(c, s', key) || Progress.HasDue(c, s', key) {
      if Progress.HasLive(c, s, key) {
        var i :| 0 <= i < |s.procs| && Progress.Live(s.procs[i]) && P.Key(c, s.procs[i]) == key;
        assert s'.procs[i] == s.procs[i];
      } else {
        var n: nat :| Progress.Due(s, n) && c.hash(s.topic[n]) == key;
        assert Progress.Due(s', n) && c.hash(s'.topic[n]) == key;
      }
    }
  }

  lemma EventKeepsAttended(c: P.Config, w: Whole, x: Joint)
    requires c.maxRetries >= 0 && Together(w) && Progress.Attended(c, w.s)
    requires CanHappen(c, w, x) && LeavesNoOrphan(c, w, x)
    ensures Progress.Attended(c, After(c, w, x).s)
  {
    match x
    case Quiet(l) => Progress.StepAttendsExactly(c, w.s, l);
    case Publishing(l, _, _) => Progress.StepAttendsExactly(c, w.s, l);
    case OfBroker(l, reply, now) =>
      var answers := Answers(w, l, reply, now);
      if l.Join? || l.Rebalance? || (l.Do? && l.event == B.CommitReply(true)) {
        assert answers == [];
        PassingFinishedKeepsAttended(c, w.s, NumbersOf(w.id, NewlyPassed(c, w.b, l)));
      } else {
        JustAnswers(c, w, l, reply, now);
        if answers != [] {
          assert answers[0] in answers;
          Progress.StepAttendsExactly(c, w.s, answers[0]);
        }
      }
  }

  lemma {:induction false} HistoryKeepsAttended(c: P.Config, w: Whole, xs: seq<Joint>)
    requires c.maxRetries >= 0 && Together(w) && Progress.Attended(c, w.s)
    requires History(c, w, xs) && NeverOrphans(c, w, xs)
    ensures Progress.Attended(c, Happened(c, w, xs).s)
    decreases |xs|
  {
    if xs != [] {
      EventKeepsTogether(c, w, xs[0]);
      EventKeepsAttended(c, w, xs[0]);
      HistoryKeepsAttended(c, After(c, w, xs[0]), xs[1..]);
    }
  }

  /** No process is live and the broker accounts for every message it holds. */
  ghost predicate AtRest(w: Whole) {
    && (forall i :: 0 <= i < |w.s.procs| ==> !Progress.Live(w.s.procs[i]))
    && forall x :: Published(w.b, x) ==> B.Accounted(w.b, x)
  }

  /** No orphaned work in the whole system: in every history without an orphaning event, each record in
      progress has a live process or a message due; and once no process is live and the broker
      accounts for every message it holds, every record is ready or failed. */
  lemma NoOrphansInTheWholeSystem(c: P.Config, n: nat, based: bool, xs: seq<Joint>)
    requires c.maxRetries >= 0 && History(c, Start(n, based), xs) && NeverOrphans(c, Start(n, based), xs)
    ensures var w := Happened(c, Start(n, based), xs);
      && Progress.Attended(c, w.s)
      && (AtRest(w) ==> Progress.AllFinished(w.s))
  {
    var w := Happened(c, Start(n, based), xs);
    HistoryKeepsTogether(c, Start(n, based), xs);
    HistoryKeepsAttended(c, Start(n, based), xs);
    if AtRest(w) {
      forall n: nat ensures !Progress.Due(w.s, n) {
        if n < |w.s.topic| {
          assert n in w.id.Values;
          var x :| x in w.id && w.id[x] == n;
          assert Published(w.b, x) && B.Accounted(w.b, x);
        }
      }
      Progress.NobodyNeeded(c, w.s);
    }
  }
}
