/** The consume loop, as code, is a session of the broker. */
module Sessions {
  import opened Types
  import opened Producer
  import opened Broker
  import P = Pipeline
  import W = Worker
  import C = Consumer

  // ---- One delivery ----

  /** How the retry loop ends: with the message handled, dead-lettered, or given up. */
  datatype Ending = Handled | DeadLettered | Lost(cancelled: bool)

  /** The session labels of a delivery from attempt `attempt` on, read off the trace that the retry
      loop follows; a wait that is found cancelled is preceded by the cancellation. */
  function AttemptLabels(c: P.Config, i: nat, env: C.DeliveryEnv, attempt: nat): seq<Label>
    requires attempt <= c.maxRetries
    decreases c.maxRetries - attempt
  {
    if W.Succeeds(c, env.attempts(attempt)) then [Do(i, HandlerReturns(true))]
    else
      [Do(i, HandlerReturns(false))] +
      if attempt == c.maxRetries then [Do(i, DeadLetterWrite(env.dlt.Done?))]
      else if env.cancelled(attempt) then [Cancel(i)] + [Do(i, Broker.Wake(true))]
      else [Do(i, Broker.Wake(false))] + AttemptLabels(c, i, env, attempt + 1)
  }

  function EndingOf(c: P.Config, env: C.DeliveryEnv, attempt: nat): Ending
    requires attempt <= c.maxRetries
    decreases c.maxRetries - attempt
  {
    if W.Succeeds(c, env.attempts(attempt)) then Handled
    else if attempt == c.maxRetries then if env.dlt.Done? then DeadLettered else Lost(false)
    else if env.cancelled(attempt) then Lost(true)
    else EndingOf(c, env, attempt + 1)
  }

  lemma {:induction false} EndingIs(c: P.Config, env: C.DeliveryEnv, attempt: nat, n: nat)
    requires attempt <= n && C.ComesTo(c, env, n) && C.IsLast(c, env, n)
    ensures EndingOf(c, env, attempt) ==
      if W.Succeeds(c, env.attempts(n)) then Handled
      else if n == c.maxRetries then if env.dlt.Done? then DeadLettered else Lost(false)
      else Lost(true)
    decreases n - attempt
  {
    if attempt < n { EndingIs(c, env, attempt + 1, n); }
  }

  /** The loop asks for a commit exactly if it did not lose the message. */
  lemma CommitsUnlessGivenUp(c: P.Config, topic: string, store: map<string, Record>, m: Message, env: C.DeliveryEnv)
    requires m.value.Decoded? && c.maxRetries >= 0
    ensures C.Process(c, topic, store, m, env).commit <==> !EndingOf(c, env, 0).Lost?
  {
    C.AttemptsMade(c, topic, store, m, env);
    EndingIs(c, env, 0, C.Process(c, topic, store, m, env).calls - 1);
  }

  /** The state once session `i`, with the message at `at` in hand, has come to that ending. */
  function Ended(s: State, i: nat, at: Place, ending: Ending): State
    requires i < |s.sessions|
  {
    var ss := s.sessions[i];
    match ending
    case Handled => s.(sessions := s.sessions[i := ss.(phase := Committing(at))], fates := s.fates[at := WasHandled])
    case DeadLettered =>
      s.(sessions := s.sessions[i := ss.(phase := Committing(at))], fates := s.fates[at := WasDeadLettered])
    case Lost(cancelled) =>
      s.(sessions := s.sessions[i := ss.(phase := Top, givenUp := ss.givenUp + {at},
                                       cancelled := ss.cancelled || cancelled)])
  }

  lemma ExecCons(maxRetries: int, s: State, l: Label, rest: seq<Label>)
    requires WellFormed(s)
    ensures Exec(maxRetries, s, [l] + rest) == Exec(maxRetries, Next(maxRetries, s, l), rest)
  {
    assert ([l] + rest)[1..] == rest;
  }

  lemma ExecOne(maxRetries: int, s: State, l: Label)
    requires WellFormed(s)
    ensures Exec(maxRetries, s, [l]) == Next(maxRetries, s, l)
  {
    assert [l][1..] == [];
  }

  /** Puts session `i` in phase `phase`. */
  function InPhase(s: State, i: nat, phase: Phase): State
    requires i < |s.sessions|
  {
    s.(sessions := s.sessions[i := s.sessions[i].(phase := phase)])
  }

  lemma HandlerFails(maxRetries: int, s: State, i: nat)
    requires WellFormed(s) && i < |s.sessions| && s.sessions[i].phase.Handling?
    ensures var at, attempt := s.sessions[i].phase.at, s.sessions[i].phase.attempt;
      Next(maxRetries, s, Do(i, HandlerReturns(false)))
      == InPhase(s, i, if attempt < maxRetries then Waiting(at, attempt) else Phase.DeadLettering(at, attempt))
  {}

  lemma DeadLetterEnds(maxRetries: int, s: State, i: nat, ok: bool)
    requires WellFormed(s) && i < |s.sessions| && s.sessions[i].phase.DeadLettering?
    ensures Exec(maxRetries, s, [Do(i, DeadLetterWrite(ok))])
      == Ended(s, i, s.sessions[i].phase.at, if ok then DeadLettered else Lost(false))
  {
    ExecOne(maxRetries, s, Do(i, DeadLetterWrite(ok)));
  }

  lemma WaitIsCut(maxRetries: int, s: State, i: nat)
    requires WellFormed(s) && i < |s.sessions| && s.sessions[i].phase.Waiting?
    ensures Exec(maxRetries, s, [Cancel(i)] + [Do(i, Broker.Wake(true))])
      == Ended(s, i, s.sessions[i].phase.at, Lost(true))
  {
    ExecCons(maxRetries, s, Cancel(i), [Do(i, Broker.Wake(true))]);
    ExecOne(maxRetries, Next(maxRetries, s, Cancel(i)), Do(i, Broker.Wake(true)));
  }

  lemma WaitIsOver(maxRetries: int, s: State, i: nat, rest: seq<Label>)
    requires WellFormed(s) && i < |s.sessions| && s.sessions[i].phase.Waiting?
    ensures Exec(maxRetries, s, [Do(i, Broker.Wake(false))] + rest)
      == Exec(maxRetries, InPhase(s, i, Handling(s.sessions[i].phase.at, s.sessions[i].phase.attempt + 1)), rest)
  {
    ExecCons(maxRetries, s, Do(i, Broker.Wake(false)), rest);
  }

  /** How a message ends does not depend on the phase its session was in. */
  lemma PhaseIsOverwritten(s: State, i: nat, phase: Phase, at: Place, ending: Ending)
    requires i < |s.sessions|
    ensures Ended(InPhase(s, i, phase), i, at, ending) == Ended(s, i, at, ending)
    ensures forall again :: InPhase(InPhase(s, i, phase), i, again) == InPhase(s, i, again)
  {}

  lemma AfterFailedAttempt(c: P.Config, s: State, i: nat, env: C.DeliveryEnv, attempt: nat)
    requires WellFormed(s) && i < |s.sessions| && attempt <= c.maxRetries && !W.Succeeds(c, env.attempts(attempt))
    requires s.sessions[i].phase.Handling? && s.sessions[i].phase.attempt == attempt
    ensures var at := s.sessions[i].phase.at;
      Exec(c.maxRetries, s, AttemptLabels(c, i, env, attempt)) ==
      if attempt < c.maxRetries && !env.cancelled(attempt) then
        Exec(c.maxRetries, InPhase(s, i, Handling(at, attempt + 1)), AttemptLabels(c, i, env, attempt + 1))
      else Ended(s, i, at, EndingOf(c, env, attempt))
  {
    var at, n := s.sessions[i].phase.at, c.maxRetries;
    var rest := AttemptLabels(c, i, env, attempt)[1..];
    var s1 := InPhase(s, i, if attempt < n then Waiting(at, attempt) else Phase.DeadLettering(at, attempt));
    assert AttemptLabels(c, i, env, attempt) == [Do(i, HandlerReturns(false))] + rest;
    ExecCons(n, s, Do(i, HandlerReturns(false)), rest);
    HandlerFails(n, s, i);
    PhaseIsOverwritten(s, i, s1.sessions[i].phase, at, EndingOf(c, env, attempt));
    if attempt == n {
      DeadLetterEnds(n, s1, i, env.dlt.Done?);
    } else if env.cancelled(attempt) {
      WaitIsCut(n, s1, i);
    } else {
      WaitIsOver(n, s1, i, AttemptLabels(c, i, env, attempt + 1));
    }
  }

  lemma {:induction false} AttemptsEnd(c: P.Config, s: State, i: nat, env: C.DeliveryEnv, attempt: nat)
    requires WellFormed(s) && i < |s.sessions| && attempt <= c.maxRetries
    requires s.sessions[i].phase.Handling? && s.sessions[i].phase.attempt == attempt
    ensures Exec(c.maxRetries, s, AttemptLabels(c, i, env, attempt))
      == Ended(s, i, s.sessions[i].phase.at, EndingOf(c, env, attempt))
    decreases c.maxRetries - attempt
  {
    var at := s.sessions[i].phase.at;
    if W.Succeeds(c, env.attempts(attempt)) {
      ExecOne(c.maxRetries, s, Do(i, HandlerReturns(true)));
    } else {
      AfterFailedAttempt(c, s, i, env, attempt);
      if attempt < c.maxRetries && !env.cancelled(attempt) {
        var s1 := InPhase(s, i, Handling(at, attempt + 1));
        AttemptsEnd(c, s1, i, env, attempt + 1);
        PhaseIsOverwritten(s, i, Handling(at, attempt + 1), at, EndingOf(c, env, attempt + 1));
      }
    }
  }

  // ---- One turn of the loop ----

  lemma {:induction false} ExecConcat(maxRetries: int, s: State, ls: seq<Label>, more: seq<Label>)
    requires WellFormed(s)
    ensures WellFormed(Exec(maxRetries, s, ls))
    ensures Exec(maxRetries, s, ls + more) == Exec(maxRetries, Exec(maxRetries, s, ls), more)
    decreases |ls|
  {
    if ls == [] {
      assert ls + more == more;
    } else {
      assert (ls + more)[1..] == ls[1..] + more;
      ExecConcat(maxRetries, Next(maxRetries, s, ls[0]), ls[1..], more);
    }
  }

  predicate Unretried(c: P.Config, m: Message) {
    m.value.Malformed? || c.maxRetries < 0
  }

  /** Whether the loop asks for the commit of the message of this turn. */
  predicate AsksToCommit(c: P.Config, t: C.Turn) {
    t.poll.Polled? && (Unretried(c, t.poll.delivered.message) || !EndingOf(c, t.env, 0).Lost?)
  }

  function PolledLabels(c: P.Config, i: nat, t: C.Turn): seq<Label>
    requires t.poll.Polled?
  {
    [Do(i, Receive(t.poll.delivered.partition))] +
    ((if Unretried(c, t.poll.delivered.message) then [] else AttemptLabels(c, i, t.env, 0)) +
     (if AsksToCommit(c, t) then [Do(i, CommitReply(Applied(t.commit)))] else []))
  }

  function TurnLabels(c: P.Config, i: nat, t: C.Turn): seq<Label> {
    if t.cancelled then [Cancel(i)] + [Do(i, Loop)]
    else [Do(i, Loop)] +
         match t.poll
         case PollFailed(cancelled) => if cancelled then [Cancel(i)] + [Do(i, PollError)] else [Do(i, PollError)]
         case Polled(_) => PolledLabels(c, i, t)
  }

  /** The turn is one that session `i` of `s` can take: it is not yet cancelled, unless the turn
      finds it so, and the message is the next one it has to receive. */
  predicate Fits(s: State, i: nat, t: C.Turn) {
    && i < |s.sessions| && s.sessions[i].phase.Top? && (s.sessions[i].cancelled ==> t.cancelled)
    && (t.poll.Polled? ==>
         var d, next := t.poll.delivered, s.sessions[i].next;
         && d.partition in next && next[d.partition] == d.offset && d.partition < |s.logs| == |s.committed|
         && d.offset < |s.logs[d.partition]| && s.logs[d.partition][d.offset] == d.message)
  }

  /** The fate that the trace of this turn gives its message. */
  function FateOf(c: P.Config, t: C.Turn): Option<Fate>
    requires t.poll.Polled?
  {
    if t.poll.delivered.message.value.Malformed? then Some(WasMalformed)
    else if c.maxRetries < 0 then None
    else match EndingOf(c, t.env, 0)
      case Handled => Some(WasHandled)
      case DeadLettered => Some(WasDeadLettered)
      case Lost(_) => None
  }

  function FatesAfter(c: P.Config, fates: map<Place, Fate>, t: C.Turn): map<Place, Fate> {
    if C.Stops(t) || t.poll.PollFailed? || FateOf(c, t).None? then fates
    else fates[(t.poll.delivered.partition, t.poll.delivered.offset) := FateOf(c, t).value]
  }

  function CommittedAfter(c: P.Config, committed: seq<Option<nat>>, t: C.Turn): seq<Option<nat>> {
    if C.Stops(t) || !AsksToCommit(c, t) || !Applied(t.commit) then committed
    else Raised(committed, t.poll.delivered.partition, t.poll.delivered.offset + 1)
  }

  function Raised(committed: seq<Option<nat>>, p: nat, next: nat): seq<Option<nat>> {
    if p >= |committed| then committed
    else committed[p := Some(Max(if committed[p].Some? then committed[p].value else 0, next))]
  }

  /** What a turn leaves behind: its commit, its fate, and the session at the top of the loop again,
      or stopped. */
  ghost predicate TookTurn(c: P.Config, s: State, i: nat, t: C.Turn, s': State) {
    && WellFormed(s') && s'.logs == s.logs && i < |s'.sessions|
    && s'.committed == CommittedAfter(c, s.committed, t) && s'.fates == FatesAfter(c, s.fates, t)
    && (if C.Stops(t) then s'.sessions[i].phase.Stopped? else s'.sessions[i].phase.Top?)
  }

  lemma CommitRuns(c: P.Config, s: State, i: nat, t: C.Turn)
    requires WellFormed(s) && i < |s.sessions| && t.poll.Polled? && !C.Stops(t) && AsksToCommit(c, t)
    requires s.sessions[i].phase == Committing((t.poll.delivered.partition, t.poll.delivered.offset))
    requires t.poll.delivered.partition < |s.committed|
    ensures var s' := Exec(c.maxRetries, s, [Do(i, CommitReply(Applied(t.commit)))]);
      && WellFormed(s') && s'.logs == s.logs && |s'.sessions| == |s.sessions| && s'.sessions[i].phase.Top?
      && s'.committed == CommittedAfter(c, s.committed, t) && s'.fates == s.fates
  {
    ExecOne(c.maxRetries, s, Do(i, CommitReply(Applied(t.commit))));
  }

  /** The message has been received and handled; only the commit is left, if there is to be one. */
  lemma HandledRuns(c: P.Config, s: State, i: nat, t: C.Turn)
    requires WellFormed(s) && Fits(s, i, t) && t.poll.Polled? && !t.cancelled
    ensures var d := t.poll.delivered;
      var polling := InPhase(s, i, Polling);
      var s1 := Next(c.maxRetries, polling, Do(i, Receive(d.partition)));
      var s2 := Exec(c.maxRetries, s1, if Unretried(c, d.message) then [] else AttemptLabels(c, i, t.env, 0));
      && WellFormed(s1) && WellFormed(s2) && s2.logs == s.logs
      && s2.committed == s.committed && |s2.sessions| == |s.sessions|
      && s2.fates == FatesAfter(c, s.fates, t)
      && s2.sessions[i].phase == if AsksToCommit(c, t) then Committing((d.partition, d.offset)) else Top
  {
    var d := t.poll.delivered;
    var s1 := Next(c.maxRetries, InPhase(s, i, Polling), Do(i, Receive(d.partition)));
    if !Unretried(c, d.message) {
      assert s1.sessions[i].phase == Handling((d.partition, d.offset), 0);
      AttemptsEnd(c, s1, i, t.env, 0);
    }
  }

  lemma PolledTurnRuns(c: P.Config, s: State, i: nat, t: C.Turn)
    requires WellFormed(s) && Fits(s, i, t) && t.poll.Polled? && !t.cancelled
    ensures TookTurn(c, s, i, t, Exec(c.maxRetries, InPhase(s, i, Polling), PolledLabels(c, i, t)))
  {
    var d, n, polling := t.poll.delivered, c.maxRetries, InPhase(s, i, Polling);
    var attempts := if Unretried(c, d.message) then [] else AttemptLabels(c, i, t.env, 0);
    var commit := if AsksToCommit(c, t) then [Do(i, CommitReply(Applied(t.commit)))] else [];
    HandledRuns(c, s, i, t);
    ExecCons(n, polling, Do(i, Receive(d.partition)), attempts + commit);
    var s1 := Next(n, polling, Do(i, Receive(d.partition)));
    ExecConcat(n, s1, attempts, commit);
    if AsksToCommit(c, t) {
      CommitRuns(c, Exec(n, s1, attempts), i, t);
    }
  }

  lemma TurnRuns(c: P.Config, s: State, i: nat, t: C.Turn)
    requires WellFormed(s) && Fits(s, i, t)
    ensures TookTurn(c, s, i, t, Exec(c.maxRetries, s, TurnLabels(c, i, t)))
  {
    var n := c.maxRetries;
    if t.cancelled {
      ExecCons(n, s, Cancel(i), [Do(i, Loop)]);
      ExecOne(n, Next(n, s, Cancel(i)), Do(i, Loop));
    } else {
      ExecCons(n, s, Do(i, Loop), TurnLabels(c, i, t)[1..]);
      assert TurnLabels(c, i, t) == [Do(i, Loop)] + TurnLabels(c, i, t)[1..];
      var polling := InPhase(s, i, Polling);
      assert Next(n, s, Do(i, Loop)) == polling;
      match t.poll {
        case Polled(_) =>
          assert TurnLabels(c, i, t)[1..] == PolledLabels(c, i, t);
          PolledTurnRuns(c, s, i, t);
        case PollFailed(cancelled) => PollFailureRuns(c, s, i, t);
      }
    }
  }

  lemma PollFailureRuns(c: P.Config, s: State, i: nat, t: C.Turn)
    requires WellFormed(s) && Fits(s, i, t) && t.poll.PollFailed? && !t.cancelled
    ensures TookTurn(c, s, i, t, Exec(c.maxRetries, InPhase(s, i, Polling), TurnLabels(c, i, t)[1..]))
  {
    var n, polling := c.maxRetries, InPhase(s, i, Polling);
    if t.poll.cancelled {
      assert TurnLabels(c, i, t)[1..] == [Cancel(i)] + [Do(i, PollError)];
      ExecCons(n, polling, Cancel(i), [Do(i, PollError)]);
      ExecOne(n, Next(n, polling, Cancel(i)), Do(i, PollError));
    } else {
      assert TurnLabels(c, i, t)[1..] == [Do(i, PollError)];
      ExecOne(n, polling, Do(i, PollError));
    }
  }

  // ---- The loop ----

  /** Each turn fits the state in which the ones before it have left the broker. */
  ghost predicate AllFit(c: P.Config, s: State, i: nat, turns: seq<C.Turn>)
    requires WellFormed(s)
    decreases |turns|
  {
    turns == [] ||
    (Fits(s, i, turns[0]) &&
     var s' := Exec(c.maxRetries, s, TurnLabels(c, i, turns[0]));
     WellFormed(s') && (C.Stops(turns[0]) || AllFit(c, s', i, turns[1..])))
  }

  function LoopLabels(c: P.Config, i: nat, turns: seq<C.Turn>): seq<Label> {
    if turns == [] then []
    else TurnLabels(c, i, turns[0]) + if C.Stops(turns[0]) then [] else LoopLabels(c, i, turns[1..])
  }

  /** Committed offsets after accepted commits, each of a partition and its next offset. */
  function CommittedBy(committed: seq<Option<nat>>, commits: seq<(nat, nat)>): seq<Option<nat>>
    decreases |commits|
  {
    if commits == [] then committed else CommittedBy(Raised(committed, commits[0].0, commits[0].1), commits[1..])
  }

  function FatesBy(c: P.Config, fates: map<Place, Fate>, turns: seq<C.Turn>): map<Place, Fate>
    decreases |turns|
  {
    if turns == [] || C.Stops(turns[0]) then fates else FatesBy(c, FatesAfter(c, fates, turns[0]), turns[1..])
  }

  /** The consume loop is a session: over any turns that a session can take, the broker ends up with
      exactly the commits that `Start` made, each message with the fate its trace gives it,
      and the session stopped exactly when `Start` has returned. */
  lemma {:induction false} LoopIsASession(c: P.Config, topic: string, x: C.Consumed, s: State, i: nat,
        turns: seq<C.Turn>)
    requires WellFormed(s) && i < |s.sessions| && s.sessions[i].phase.Top? && AllFit(c, s, i, turns) && !x.stopped
    ensures var r, s' := C.Consume(c, topic, x, turns), Exec(c.maxRetries, s, LoopLabels(c, i, turns));
      && x.commits <= r.commits && s'.committed == CommittedBy(s.committed, r.commits[|x.commits|..])
      && s'.fates == FatesBy(c, s.fates, turns) && s'.logs == s.logs
      && i < |s'.sessions| && (r.stopped <==> s'.sessions[i].phase.Stopped?)
    decreases |turns|
  {
    C.LoopCommitsExactlySettled(c, topic, x, turns);
    if turns != [] {
      var t := turns[0];
      var y, s1 := C.TakeTurn(c, topic, x, t), Exec(c.maxRetries, s, TurnLabels(c, i, t));
      var rest := if C.Stops(t) then [] else LoopLabels(c, i, turns[1..]);
      TurnRuns(c, s, i, t);
      ExecConcat(c.maxRetries, s, TurnLabels(c, i, t), rest);
      C.ConsumeFirst(c, topic, x, turns);
      if C.Stops(t) {
        StoppedConsumes(c, topic, y, turns[1..]);
      } else {
        LoopIsASession(c, topic, y, s1, i, turns[1..]);
        TurnCommitsMatch(c, topic, x, s, i, t);
        CommitsCompose(s.committed, s1.committed, x.commits, y.commits, C.Consume(c, topic, x, turns).commits);
      }
    }
  }

  lemma StoppedConsumes(c: P.Config, topic: string, y: C.Consumed, turns: seq<C.Turn>)
    requires y.stopped
    ensures C.Consume(c, topic, y, turns) == y
  {}

  /** The commit of one turn, in the loop and at the broker. */
  lemma TurnCommitsMatch(c: P.Config, topic: string, x: C.Consumed, s: State, i: nat, t: C.Turn)
    requires !C.Stops(t) && !x.stopped
    ensures var y := C.TakeTurn(c, topic, x, t);
      && x.commits <= y.commits
      && CommittedAfter(c, s.committed, t) == CommittedBy(s.committed, y.commits[|x.commits|..])
  {
    if t.poll.Polled? {
      var d := t.poll.delivered;
      if !Unretried(c, d.message) { CommitsUnlessGivenUp(c, topic, x.store, d.message, t.env); }
      var added := C.TakeTurn(c, topic, x, t).commits[|x.commits|..];
      if AsksToCommit(c, t) && Applied(t.commit) {
        assert added == [(d.partition, d.offset + 1)] && added[1..] == [];
      } else {
        assert added == [];
      }
    }
  }

  lemma CommitsCompose(committed: seq<Option<nat>>, committed1: seq<Option<nat>>, a: seq<(nat, nat)>,
        b: seq<(nat, nat)>,
        r: seq<(nat, nat)>)
    requires a <= b <= r && |b| <= |a| + 1 && committed1 == CommittedBy(committed, b[|a|..])
    ensures CommittedBy(committed1, r[|b|..]) == CommittedBy(committed, r[|a|..])
  {
    if |b| > |a| {
      assert r[|a|..][1..] == r[|b|..] && b[|a|..][1..] == [] && r[|a|..][0] == b[|a|..][0];
    } else {
      assert b[|a|..] == [];
    }
  }
}
