/** Partitions, committed offsets and consumer sessions that crash, restart and rebalance. */
module Broker {
  import opened Types
  import opened RetryPolicy
  import opened Producer

  /** A partition and an offset in it. */
  type Place = (nat, nat)

  datatype Fate = WasMalformed | WasHandled | WasDeadLettered

  /** Where the consume loop stands. */
  datatype Phase =
    | Top
    | Polling
    | Handling(at: Place, attempt: nat)
    | Waiting(at: Place, attempt: nat)
    | DeadLettering(at: Place, attempt: nat)
    | Committing(at: Place)
    | Stopped

  /** One call of `Start`: the next offset to receive from each assigned partition, and the
      messages it has given up without committing them. */
  datatype Session = Session(next: map<nat, nat>, phase: Phase, cancelled: bool, givenUp: set<Place>)

  /** `fates` says how each settled message ended. `overtaken` and `unseen` are histories:
      messages that a session gave up and then committed past, and messages already in a
      partition when a session started at its end for want of a committed offset. */
  datatype State = State(
    logs: seq<seq<Message>>,
    committed: seq<Option<nat>>,
    sessions: seq<Session>,
    fates: map<Place, Fate>,
    overtaken: set<Place>,
    unseen: set<Place>)

  datatype Event =
    | Loop
    | PollError
    | Receive(partition: nat)
    | HandlerReturns(ok: bool)
    | Wake(cancelled: bool)
    | DeadLetterWrite(ok: bool)
    | CommitReply(applied: bool)

  datatype Label =
    | Publish(partition: nat, message: Message)
    | Join(parts: set<nat>)
    | Rebalance(session: nat, parts: set<nat>)
    | Cancel(session: nat)
    | Crash(session: nat)
    | Do(session: nat, event: Event)

  predicate CanDo(logs: seq<seq<Message>>, ss: Session, e: Event) {
    match ss.phase
    case Top => e.Loop?
    case Polling => e.PollError? || (e.Receive? && e.partition in ss.next && e.partition < |logs|
      && ss.next[e.partition] < |logs[e.partition]|)
    case Handling(_, _) => e.HandlerReturns?
    case Waiting(_, _) => e.Wake? && (e.cancelled ==> ss.cancelled)
    case DeadLettering(_, _) => e.DeadLetterWrite?
    case Committing(_) => e.CommitReply?
    case Stopped => false
  }

  /** The session after an event, and the fate it gives the message in hand, if any. */
  datatype Outcome = Outcome(session: Session, fate: Option<Fate>)

  function GiveUp(ss: Session, at: Place): Outcome {
    Outcome(ss.(phase := Top, givenUp := ss.givenUp + {at}), None)
  }

  function SessionStep(maxRetries: int, logs: seq<seq<Message>>, ss: Session, e: Event): Outcome
    requires CanDo(logs, ss, e)
  {
    match ss.phase
    case Top => Outcome(ss.(phase := if ss.cancelled then Stopped else Polling), None)
    case Polling =>
      if e.PollError? then Outcome(ss.(phase := if ss.cancelled then Stopped else Top), None)
      else
        var at := (e.partition, ss.next[e.partition]);
        var received := ss.(next := ss.next[at.0 := at.1 + 1]);
        if logs[at.0][at.1].value.Malformed? then Outcome(received.(phase := Committing(at)), Some(WasMalformed))
        else if maxRetries < 0 then Outcome(received.(phase := Committing(at)), None)
        else Outcome(received.(phase := Handling(at, 0)), None)
    case Handling(at, attempt) =>
      (match Judge(maxRetries, attempt, e.ok)
       case Acknowledge => Outcome(ss.(phase := Committing(at)), Some(WasHandled))
       case RetryLater => Outcome(ss.(phase := Waiting(at, attempt)), None)
       case DeadLetter => Outcome(ss.(phase := DeadLettering(at, attempt)), None))
    case Waiting(at, attempt) =>
      if e.cancelled then GiveUp(ss, at) else Outcome(ss.(phase := Handling(at, attempt + 1)), None)
    case DeadLettering(at, _) =>
      if e.ok then Outcome(ss.(phase := Committing(at)), Some(WasDeadLettered)) else GiveUp(ss, at)
    case _ => Outcome(ss.(phase := Top), None) // Committing; the commit itself is the broker's
  }

  function InHand(phase: Phase): Option<Place> {
    if phase.Handling? || phase.Waiting? || phase.DeadLettering? || phase.Committing? then Some(phase.at) else None
  }

  /** A session starts each partition at its committed offset, or at its end if there is none. */
  function StartOf(s: State, p: nat): nat
    requires p < |s.logs| == |s.committed|
  {
    if s.committed[p].Some? then s.committed[p].value else |s.logs[p]|
  }

  ghost predicate WellFormed(s: State) {
    |s.logs| == |s.committed|
  }

  function Assigned(s: State, parts: set<nat>): map<nat, nat>
    requires |s.logs| == |s.committed|
  {
    map p | p in parts && p < |s.logs| :: StartOf(s, p)
  }

  function Unseen(s: State, parts: set<nat>): set<Place>
    requires |s.logs| == |s.committed|
  {
    set p: nat, o: nat | p in parts && p < |s.logs| && s.committed[p].None? && o < |s.logs[p]| :: (p, o)
  }

  function Max(a: nat, b: nat): nat {
    if a < b then b else a
  }

  function Commit(s: State, at: Place, givenUp: set<Place>): State
    requires at.0 < |s.committed|
  {
    var current := s.committed[at.0];
    s.(committed := s.committed[at.0 := Some(Max(if current.Some? then current.value else 0, at.1 + 1))],
       overtaken := s.overtaken + set x | x in givenUp && x.0 == at.0 && x.1 <= at.1 && x !in s.fates)
  }

  predicate Enabled(s: State, l: Label) {
    match l
    case Publish(p, _) => p < |s.logs|
    case Join(_) => true
    case Do(i, e) => i < |s.sessions| && CanDo(s.logs, s.sessions[i], e)
    case _ => l.session < |s.sessions|
  }

  function Next(maxRetries: int, s: State, l: Label): State
    requires |s.logs| == |s.committed|
  {
    if !Enabled(s, l) then s else
    match l
    case Publish(p, m) => s.(logs := s.logs[p := s.logs[p] + [m]])
    case Join(parts) =>
      s.(sessions := s.sessions + [Session(Assigned(s, parts), Top, false, {})], unseen := s.unseen + Unseen(s, parts))
    case Rebalance(i, parts) =>
      s.(sessions := s.sessions[i := s.sessions[i].(next := Assigned(s, parts))], unseen := s.unseen + Unseen(s, parts))
    case Cancel(i) => s.(sessions := s.sessions[i := s.sessions[i].(cancelled := true)])
    case Crash(i) => s.(sessions := s.sessions[i := s.sessions[i].(phase := Stopped)])
    case Do(i, e) =>
      var ss := s.sessions[i];
      var r := SessionStep(maxRetries, s.logs, ss, e);
      var moved := s.(sessions := s.sessions[i := r.session],
                      fates := if r.fate.Some? && InHand(r.session.phase).Some?
                               then s.fates[InHand(r.session.phase).value := r.fate.value] else s.fates);
      if e.CommitReply? && e.applied && ss.phase.Committing? && ss.phase.at.0 < |s.committed|
      then Commit(moved, ss.phase.at, ss.givenUp) else moved
  }

  function Exec(maxRetries: int, s: State, ls: seq<Label>): State
    requires |s.logs| == |s.committed|
    decreases |ls|
  {
    if ls == [] then s else Exec(maxRetries, Next(maxRetries, s, ls[0]), ls[1..])
  }

  /** `n` empty partitions, each with a committed offset or none yet. */
  function Init(n: nat, based: bool): State {
    State(seq(n, _ => []), seq(n, _ => if based then Some(0) else None), [], map[], {}, {})
  }

  // ---- The invariant ----

  ghost predicate Accounted(s: State, x: Place) {
    x in s.fates || x in s.overtaken || x in s.unseen
  }

  ghost predicate SessionOk(s: State, ss: Session) {
    ss.phase.Stopped? || RunningOk(s, ss)
  }

  ghost predicate RunningOk(s: State, ss: Session) {
    && (forall p: nat, o: nat :: p in ss.next && o < ss.next[p] ==>
         Accounted(s, (p, o)) || (p, o) in ss.givenUp || InHand(ss.phase) == Some((p, o)))
    && (InHand(ss.phase).Some? ==>
         var at := InHand(ss.phase).value;
         at.0 < |s.logs| && forall o: nat :: o < at.1 ==> Accounted(s, (at.0, o)) || (at.0, o) in ss.givenUp)
    && (ss.phase.Committing? ==> ss.phase.at in s.fates)
  }

  ghost predicate CommitsOk(s: State) {
    forall p: nat, o: nat :: p < |s.committed| && s.committed[p].Some? && o < s.committed[p].value ==>
      Accounted(s, (p, o))
  }

  ghost predicate Sound(s: State) {
    WellFormed(s) && CommitsOk(s) && forall i :: 0 <= i < |s.sessions| ==> SessionOk(s, s.sessions[i])
  }

  /** Histories only grow. */
  ghost predicate Extends(s: State, s': State) {
    s.fates.Keys <= s'.fates.Keys && s.overtaken <= s'.overtaken && s.unseen <= s'.unseen && |s.logs| == |s'.logs|
  }

  lemma OthersStayOk(s: State, s': State, ss: Session)
    requires SessionOk(s, ss) && Extends(s, s')
    ensures SessionOk(s', ss)
  {}

  lemma AssignmentOk(s: State, s': State, parts: set<nat>, ss: Session)
    requires WellFormed(s) && CommitsOk(s) && Extends(s, s') && Unseen(s, parts) <= s'.unseen
    requires ss.phase.Top? || SessionOk(s, ss)
    ensures SessionOk(s', ss.(next := Assigned(s, parts)))
  {}

  /** What an event adds to the histories covers the message in hand as soon as it is settled. */
  lemma EventExtends(maxRetries: int, s: State, i: nat, e: Event)
    requires WellFormed(s) && i < |s.sessions| && CanDo(s.logs, s.sessions[i], e)
    ensures var s', r := Next(maxRetries, s, Do(i, e)), SessionStep(maxRetries, s.logs, s.sessions[i], e);
      && Extends(s, s') && s'.logs == s.logs && s'.sessions == s.sessions[i := r.session]
      && (r.fate.Some? && InHand(r.session.phase).Some? ==> InHand(r.session.phase).value in s'.fates)
  {}

  /** A session's own event. */
  lemma EventOk(maxRetries: int, s: State, i: nat, e: Event)
    requires maxRetries >= 0 && Sound(s) && i < |s.sessions| && CanDo(s.logs, s.sessions[i], e)
    ensures var s' := Next(maxRetries, s, Do(i, e));
      Extends(s, s') && SessionOk(s', s'.sessions[i])
  {
    var ss, s' := s.sessions[i], Next(maxRetries, s, Do(i, e));
    EventExtends(maxRetries, s, i, e);
    assert SessionOk(s, ss);
    EventKeepsPlaces(maxRetries, s, s', ss, e);
  }

  lemma EventKeepsPlaces(maxRetries: int, s: State, s': State, ss: Session, e: Event)
    requires maxRetries >= 0 && RunningOk(s, ss) && CanDo(s.logs, ss, e) && Extends(s, s') && s'.logs == s.logs
    requires var r := SessionStep(maxRetries, s.logs, ss, e);
      r.fate.Some? && InHand(r.session.phase).Some? ==> InHand(r.session.phase).value in s'.fates
    ensures SessionOk(s', SessionStep(maxRetries, s.logs, ss, e).session)
  {
    var ss' := SessionStep(maxRetries, s.logs, ss, e).session;
    forall p: nat, o: nat | p in ss'.next && o < ss'.next[p]
      ensures Accounted(s', (p, o)) || (p, o) in ss'.givenUp || InHand(ss'.phase) == Some((p, o))
    {
      if p in ss.next && o < ss.next[p] {
        assert Accounted(s, (p, o)) || (p, o) in ss.givenUp || InHand(ss.phase) == Some((p, o));
      }
    }
  }

  lemma CommitOk(maxRetries: int, s: State, i: nat, e: Event)
    requires maxRetries >= 0 && Sound(s) && i < |s.sessions| && CanDo(s.logs, s.sessions[i], e)
    ensures CommitsOk(Next(maxRetries, s, Do(i, e)))
  {}

  lemma StepKeepsSound(maxRetries: int, s: State, l: Label)
    requires maxRetries >= 0 && Sound(s)
    ensures Sound(Next(maxRetries, s, l))
  {
    var s' := Next(maxRetries, s, l);
    if Enabled(s, l) {
      match l {
        case Publish(_, _) =>
        case Join(parts) => AssignmentOk(s, s', parts, Session(map[], Top, false, {}));
        case Rebalance(i, parts) => AssignmentOk(s, s', parts, s.sessions[i]);
        case Cancel(i) => assert SessionOk(s, s.sessions[i]);
        case Crash(_) =>
        case Do(i, e) =>
          EventOk(maxRetries, s, i, e);
          CommitOk(maxRetries, s, i, e);
      }
      forall j | 0 <= j < |s'.sessions| ensures SessionOk(s', s'.sessions[j]) {
        if j < |s.sessions| { OthersStayOk(s, s', s.sessions[j]); }
      }
    }
  }
}
