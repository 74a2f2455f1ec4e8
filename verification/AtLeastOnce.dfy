/** Which messages a commit may pass over, over whole runs with crashes, restarts and rebalances. */
module AtLeastOnce {
  import opened Types
  import opened Producer
  import opened Broker

  ghost predicate Along(maxRetries: int, s: State, ls: seq<Label>, p: (State, Label) -> bool)
    requires WellFormed(s)
    decreases |ls|
  {
    ls == [] || (p(s, ls[0]) && Along(maxRetries, Next(maxRetries, s, ls[0]), ls[1..], p))
  }

  /** `p` holds of some step of a run. */
  ghost predicate Sometime(maxRetries: int, s: State, ls: seq<Label>, p: (State, Label) -> bool)
    requires WellFormed(s)
    decreases |ls|
  {
    ls != [] && (p(s, ls[0]) || Sometime(maxRetries, Next(maxRetries, s, ls[0]), ls[1..], p))
  }

  lemma {:induction false} RunKeepsSound(maxRetries: int, s: State, ls: seq<Label>)
    requires maxRetries >= 0 && Sound(s)
    ensures Sound(Exec(maxRetries, s, ls))
    decreases |ls|
  {
    if ls != [] {
      StepKeepsSound(maxRetries, s, ls[0]);
      RunKeepsSound(maxRetries, Next(maxRetries, s, ls[0]), ls[1..]);
    }
  }

  /** In every run, with any crashes, restarts, rebalances, cancellations and failed commits and
      dead-letter writes, each message below a committed offset was malformed, handled
      or dead-lettered - or was given up and then overtaken by a later commit of the same
      session, or lay in the partition before a session started at its end. */
  lemma NothingElseIsPassedOver(maxRetries: int, n: nat, based: bool, ls: seq<Label>, p: nat, o: nat)
    requires maxRetries >= 0
    requires var s := Exec(maxRetries, Init(n, based), ls);
      p < |s.committed| && s.committed[p].Some? && o < s.committed[p].value
    ensures Accounted(Exec(maxRetries, Init(n, based), ls), (p, o))
  {
    RunKeepsSound(maxRetries, Init(n, based), ls);
  }

  // ---- Fates are earned ----

  ghost predicate InHandOk(s: State, ss: Session) {
    InHand(ss.phase).Some? ==>
      var at := InHand(ss.phase).value;
      && at.0 < |s.logs| && at.1 < |s.logs[at.0]|
      && (!ss.phase.Committing? ==> s.logs[at.0][at.1].value.Decoded?)
  }

  /** Every fate belongs to a published message, and only malformed ones are skipped as such. */
  ghost predicate FatesOk(s: State) {
    && WellFormed(s)
    && (forall i :: 0 <= i < |s.sessions| ==> InHandOk(s, s.sessions[i]))
    && forall x :: x in s.fates ==>
         x.0 < |s.logs| && x.1 < |s.logs[x.0]| && (s.fates[x].WasMalformed? <==> s.logs[x.0][x.1].value.Malformed?)
  }

  lemma EventKeepsFates(maxRetries: int, s: State, i: nat, e: Event)
    requires WellFormed(s) && i < |s.sessions| && CanDo(s.logs, s.sessions[i], e) && InHandOk(s, s.sessions[i])
    ensures var r := SessionStep(maxRetries, s.logs, s.sessions[i], e);
      && InHandOk(s, r.session)
      && (r.fate.Some? && InHand(r.session.phase).Some? ==>
           var at := InHand(r.session.phase).value;
           at.0 < |s.logs| && at.1 < |s.logs[at.0]|
             && (r.fate.value.WasMalformed? <==> s.logs[at.0][at.1].value.Malformed?))
  {}

  lemma StepKeepsFates(maxRetries: int, s: State, l: Label)
    requires FatesOk(s)
    ensures FatesOk(Next(maxRetries, s, l))
  {
    var s' := Next(maxRetries, s, l);
    if l.Do? && Enabled(s, l) {
      EventKeepsFates(maxRetries, s, l.session, l.event);
      var r := SessionStep(maxRetries, s.logs, s.sessions[l.session], l.event);
      assert s'.logs == s.logs && s'.sessions == s.sessions[l.session := r.session];
      forall i | 0 <= i < |s'.sessions| ensures InHandOk(s', s'.sessions[i]) {
        assert InHandOk(s, s.sessions[i]);
      }
    } else {
      forall i | 0 <= i < |s'.sessions| ensures InHandOk(s', s'.sessions[i]) {
        if i < |s.sessions| { assert InHandOk(s, s.sessions[i]); }
      }
    }
  }

  lemma {:induction false} FatesArePublished(maxRetries: int, s: State, ls: seq<Label>)
    requires FatesOk(s)
    ensures FatesOk(Exec(maxRetries, s, ls))
    decreases |ls|
  {
    if ls != [] {
      StepKeepsFates(maxRetries, s, ls[0]);
      FatesArePublished(maxRetries, Next(maxRetries, s, ls[0]), ls[1..]);
    }
  }

  /** This step settles the message at `x`: a session that has it in hand sees its handler
      succeed or its dead letter confirmed, or receives it and finds it malformed. */
  predicate Settling(s: State, l: Label, x: Place, fate: Fate) {
    l.Do? && Enabled(s, l) &&
    var ss := s.sessions[l.session];
    match fate
    case WasHandled => ss.phase.Handling? && ss.phase.at == x && l.event == HandlerReturns(true)
    case WasDeadLettered => ss.phase.DeadLettering? && ss.phase.at == x && l.event == DeadLetterWrite(true)
    case WasMalformed =>
      && ss.phase.Polling? && l.event == Receive(x.0) && x.0 in ss.next && ss.next[x.0] == x.1
      && x.0 < |s.logs| && x.1 < |s.logs[x.0]| && s.logs[x.0][x.1].value.Malformed?
  }

  predicate Settles(s: State, l: Label, x: Place) {
    Settling(s, l, x, WasHandled) || Settling(s, l, x, WasDeadLettered) || Settling(s, l, x, WasMalformed)
  }

  /** This accepted commit passes over `x`, which its session had given up and nobody settled. */
  predicate Overtaking(s: State, l: Label, x: Place) {
    l.Do? && l.event == CommitReply(true) && Enabled(s, l) &&
    var ss := s.sessions[l.session];
    ss.phase.at.0 < |s.committed| && x in ss.givenUp && x.0 == ss.phase.at.0 && x.1 <= ss.phase.at.1 && x !in s.fates
  }

  /** A session is assigned the partition of `x`, which has no committed offset, after `x` was published. */
  predicate StartingBlind(s: State, l: Label, x: Place) {
    && (l.Join? || l.Rebalance?) && Enabled(s, l) && x.0 in l.parts
    && x.0 < |s.logs| == |s.committed| && s.committed[x.0].None? && x.1 < |s.logs[x.0]|
  }

  lemma StepEarns(maxRetries: int, s: State, l: Label, x: Place)
    requires WellFormed(s)
    ensures var s' := Next(maxRetries, s, l);
      && (x in s'.fates <==> x in s.fates || Settles(s, l, x))
      && (x in s'.fates ==> Settling(s, l, x, s'.fates[x]) || (x in s.fates && s'.fates[x] == s.fates[x]))
  {}

  lemma StepEarnsHistories(maxRetries: int, s: State, l: Label, x: Place)
    requires WellFormed(s)
    ensures var s' := Next(maxRetries, s, l);
      && (x in s'.overtaken <==> x in s.overtaken || Overtaking(s, l, x))
      && (x in s'.unseen <==> x in s.unseen || StartingBlind(s, l, x))
  {}

  /** The histories are earned. A message has a fate exactly if some step of the run settled it,
      and the fate it has is that of such a step; it counts as overtaken exactly if some
      commit passed over it unsettled, and as unseen exactly if some session started blind past it. */
  lemma {:induction false} HistoriesAreEarned(maxRetries: int, s: State, ls: seq<Label>, x: Place)
    requires WellFormed(s)
    ensures var s' := Exec(maxRetries, s, ls);
      && (x in s'.fates <==> x in s.fates || Sometime(maxRetries, s, ls, (s, l) => Settles(s, l, x)))
      && (x in s'.fates ==> Sometime(maxRetries, s, ls, (s, l) => Settling(s, l, x, s'.fates[x]))
                            || (x in s.fates && s'.fates[x] == s.fates[x]))
      && (x in s'.overtaken <==> x in s.overtaken || Sometime(maxRetries, s, ls, (s, l) => Overtaking(s, l, x)))
      && (x in s'.unseen <==> x in s.unseen || Sometime(maxRetries, s, ls, (s, l) => StartingBlind(s, l, x)))
    decreases |ls|
  {
    if ls != [] {
      StepEarns(maxRetries, s, ls[0], x);
      StepEarnsHistories(maxRetries, s, ls[0], x);
      HistoriesAreEarned(maxRetries, Next(maxRetries, s, ls[0]), ls[1..], x);
    }
  }

  // ---- At least once, and when it fails ----

  /** A dead-letter write that fails although the session has not been cancelled. */
  predicate LiveDltFailure(s: State, l: Label) {
    l.Do? && l.event == DeadLetterWrite(false) && Enabled(s, l) && !s.sessions[l.session].cancelled
  }

  predicate NoLiveDltFailure(s: State, l: Label) {
    !LiveDltFailure(s, l)
  }

  /** An accepted commit that passes over a message the session has given up and nobody has settled. */
  ghost predicate OvertakingCommit(s: State, l: Label) {
    l.Do? && l.event == CommitReply(true) && Enabled(s, l) &&
    exists x :: x in s.sessions[l.session].givenUp && x.0 == s.sessions[l.session].phase.at.0
                && x.1 <= s.sessions[l.session].phase.at.1 && x !in s.fates
  }

  ghost predicate NoOvertakingCommit(s: State, l: Label) {
    !OvertakingCommit(s, l)
  }

  /** Every partition has a committed offset, so no session ever starts blind. */
  ghost predicate Based(s: State) {
    WellFormed(s) && s.unseen == {} && forall p :: 0 <= p < |s.committed| ==> s.committed[p].Some?
  }

  lemma StepKeepsBased(maxRetries: int, s: State, l: Label)
    requires Based(s)
    ensures Based(Next(maxRetries, s, l))
  {}

  /** At least once: from committed offsets, if no commit overtakes a message its session gave
      up, every message below a committed offset was malformed, handled or dead-lettered. */
  lemma {:induction false} AtLeastOnce(maxRetries: int, s: State, ls: seq<Label>)
    requires maxRetries >= 0 && Sound(s) && Based(s) && s.overtaken == {}
    requires Along(maxRetries, s, ls, NoOvertakingCommit)
    ensures var s' := Exec(maxRetries, s, ls);
      forall p: nat, o: nat :: p < |s'.committed| && s'.committed[p].Some? && o < s'.committed[p].value ==>
        (p, o) in s'.fates
    decreases |ls|
  {
    if ls == [] {
      forall p: nat, o: nat | p < |s.committed| && s.committed[p].Some? && o < s.committed[p].value
      ensures (p, o) in s.fates {
        assert Accounted(s, (p, o));
      }
    } else {
      StepKeepsSound(maxRetries, s, ls[0]);
      StepKeepsBased(maxRetries, s, ls[0]);
      OnlyOvertakingOvertakes(maxRetries, s, ls[0]);
      AtLeastOnce(maxRetries, Next(maxRetries, s, ls[0]), ls[1..]);
    }
  }

  lemma OnlyOvertakingOvertakes(maxRetries: int, s: State, l: Label)
    requires WellFormed(s)
    ensures Next(maxRetries, s, l).overtaken != s.overtaken ==> OvertakingCommit(s, l)
  {}

  ghost predicate SettledBelow(s: State) {
    forall p: nat, o: nat :: p < |s.committed| && s.committed[p].Some? && o < s.committed[p].value ==> (p, o) in s.fates
  }

  ghost predicate AlwaysSettledBelow(maxRetries: int, s: State, ls: seq<Label>)
    requires WellFormed(s)
    decreases |ls|
  {
    SettledBelow(s) && (ls == [] || AlwaysSettledBelow(maxRetries, Next(maxRetries, s, ls[0]), ls[1..]))
  }

  /** The condition of `AtLeastOnce` is exact: a run from committed offsets keeps every message
      below a commit settled, all the way, exactly when none of its commits is overtaking. */
  lemma {:induction false} SettledExactlyWithoutOvertaking(maxRetries: int, s: State, ls: seq<Label>)
    requires maxRetries >= 0 && Sound(s) && Based(s) && s.overtaken == {}
    ensures AlwaysSettledBelow(maxRetries, s, ls) <==> Along(maxRetries, s, ls, NoOvertakingCommit)
    decreases |ls|
  {
    AtLeastOnce(maxRetries, s, []);
    if ls != [] {
      var s' := Next(maxRetries, s, ls[0]);
      StepKeepsSound(maxRetries, s, ls[0]);
      StepKeepsBased(maxRetries, s, ls[0]);
      OnlyOvertakingOvertakes(maxRetries, s, ls[0]);
      if OvertakingCommit(s, ls[0]) {
        OvertakingUnsettles(maxRetries, s, ls[0]);
      } else {
        SettledExactlyWithoutOvertaking(maxRetries, s', ls[1..]);
      }
    }
  }

  lemma OvertakingUnsettles(maxRetries: int, s: State, l: Label)
    requires Sound(s) && OvertakingCommit(s, l)
    ensures !SettledBelow(Next(maxRetries, s, l))
  {
    var ss, s' := s.sessions[l.session], Next(maxRetries, s, l);
    var x :| x in ss.givenUp && x.0 == ss.phase.at.0 && x.1 <= ss.phase.at.1 && x !in s.fates;
    assert SessionOk(s, ss) && s'.fates == s.fates;
    assert x.1 < s'.committed[x.0].value && x == (x.0, x.1);
  }

  /** A session that has given anything up has been cancelled and is on its way out. */
  ghost predicate GivesUpOnlyToStop(s: State) {
    && WellFormed(s)
    && forall i :: 0 <= i < |s.sessions| && s.sessions[i].givenUp != {} ==>
         s.sessions[i].cancelled && (s.sessions[i].phase.Top? || s.sessions[i].phase.Stopped?)
  }

  lemma StepKeepsGivingUp(maxRetries: int, s: State, l: Label)
    requires GivesUpOnlyToStop(s) && NoLiveDltFailure(s, l)
    ensures GivesUpOnlyToStop(Next(maxRetries, s, l)) && NoOvertakingCommit(s, l)
  {}

  /** The code meets the condition of `AtLeastOnce` by itself as long as no dead-letter write
      fails in a session that has not been cancelled. */
  lemma {:induction false} CancellationNeverOvertakes(maxRetries: int, s: State, ls: seq<Label>)
    requires GivesUpOnlyToStop(s) && Along(maxRetries, s, ls, NoLiveDltFailure)
    ensures Along(maxRetries, s, ls, NoOvertakingCommit)
    decreases |ls|
  {
    if ls != [] {
      StepKeepsGivingUp(maxRetries, s, ls[0]);
      CancellationNeverOvertakes(maxRetries, Next(maxRetries, s, ls[0]), ls[1..]);
    }
  }

  /** A session on its way out: cancelled with nothing in hand, or stopped. */
  predicate Leaving(ss: Session) {
    ss.phase.Stopped? || (ss.cancelled && ss.phase.Top?)
  }

  predicate NeitherReceivesNorCommits(i: nat, s: State, l: Label) {
    l.Do? && l.session == i && Enabled(s, l) ==> !l.event.Receive? && !l.event.CommitReply?
  }

  lemma {:induction false} LeavingIsForGood(maxRetries: int, s: State, ls: seq<Label>, i: nat)
    requires WellFormed(s) && i < |s.sessions| && Leaving(s.sessions[i])
    ensures Along(maxRetries, s, ls, (s, l) => NeitherReceivesNorCommits(i, s, l))
    ensures i < |Exec(maxRetries, s, ls).sessions| && Leaving(Exec(maxRetries, s, ls).sessions[i])
    decreases |ls|
  {
    if ls != [] {
      LeavingIsForGood(maxRetries, Next(maxRetries, s, ls[0]), ls[1..], i);
    }
  }

  /** A cancelled session that gives a message up - because its wait was cut short, or because the
      dead-letter write failed - never receives or commits anything again. (One that is
      cancelled while its handler runs may still succeed and commit that message.) */
  lemma CancelledGiveUpIsTheLast(maxRetries: int, s: State, i: nat, e: Event, ls: seq<Label>)
    requires WellFormed(s) && i < |s.sessions| && s.sessions[i].cancelled && CanDo(s.logs, s.sessions[i], e)
    requires e in {Broker.Wake(true), DeadLetterWrite(false)}
    ensures var at, s' := s.sessions[i].phase.at, Next(maxRetries, s, Do(i, e));
      && s'.sessions[i].givenUp == s.sessions[i].givenUp + {at} && s'.committed == s.committed
      && Along(maxRetries, s', ls, (s, l) => NeitherReceivesNorCommits(i, s, l))
  {
    LeavingIsForGood(maxRetries, Next(maxRetries, s, Do(i, e)), ls, i);
  }

  lemma CommitAfterCancellation(maxRetries: int, m: Message) returns (s0: State, s: State)
    requires maxRetries >= 0 && m.value.Decoded?
    ensures WellFormed(s0) && Reachable(maxRetries, Init(1, true), s0) && |s0.sessions| == 1 && s0.sessions[0].cancelled
    ensures Reachable(maxRetries, s0, s) && s0.committed == [Some(0)]
    ensures s.committed == [Some(1)] && s.fates == map[(0, 0) := WasHandled]
  {
    var init := Init(1, true);
    s0 := Joined(maxRetries, true, m);
    s0 := Drive(maxRetries, init, s0, Loop);
    s0 := Drive(maxRetries, init, s0, Receive(0));
    s0 := Go(maxRetries, init, s0, Cancel(0));
    assert Exec(maxRetries, s0, []) == s0;
    s := Drive(maxRetries, s0, s0, HandlerReturns(true));
    s := DriveCommit(maxRetries, s0, s);
  }

  /** So offsets are committed only after success, a malformed message or a dead letter, in every
      run from committed offsets in which dead-letter writes fail only after cancellation. */
  lemma CommittedMeansSettled(maxRetries: int, n: nat, ls: seq<Label>, p: nat, o: nat)
    requires maxRetries >= 0 && Along(maxRetries, Init(n, true), ls, NoLiveDltFailure)
    requires var s := Exec(maxRetries, Init(n, true), ls);
      p < |s.committed| && s.committed[p].Some? && o < s.committed[p].value
    ensures var s := Exec(maxRetries, Init(n, true), ls);
      && (p, o) in s.fates && p < |s.logs| && o < |s.logs[p]|
      && (s.fates[(p, o)].WasMalformed? <==> s.logs[p][o].value.Malformed?)
  {
    CancellationNeverOvertakes(maxRetries, Init(n, true), ls);
    AtLeastOnce(maxRetries, Init(n, true), ls);
    FatesArePublished(maxRetries, Init(n, true), ls);
  }

  /** Nor is anything else lost: from committed offsets, a published message that is neither settled
      nor overtaken lies at or above the committed offset of its partition, so every session
      that is assigned the partition from now on starts no later than at that message. */
  lemma OutstandingIsRedelivered(maxRetries: int, n: nat, ls: seq<Label>, p: nat, o: nat, parts: set<nat>)
    requires maxRetries >= 0 && p in parts
    requires var s := Exec(maxRetries, Init(n, true), ls);
      p < |s.logs| && o < |s.logs[p]| && (p, o) !in s.fates && (p, o) !in s.overtaken
    ensures var s := Exec(maxRetries, Init(n, true), ls);
      |s.logs| == |s.committed| && p in Assigned(s, parts) && Assigned(s, parts)[p] <= o
  {
    RunKeepsSound(maxRetries, Init(n, true), ls);
    RunKeepsBased(maxRetries, Init(n, true), ls);
    var s := Exec(maxRetries, Init(n, true), ls);
    assert o < s.committed[p].value ==> Accounted(s, (p, o));
  }

  lemma {:induction false} RunKeepsBased(maxRetries: int, s: State, ls: seq<Label>)
    requires Based(s)
    ensures Based(Exec(maxRetries, s, ls))
    decreases |ls|
  {
    if ls != [] {
      StepKeepsBased(maxRetries, s, ls[0]);
      RunKeepsBased(maxRetries, Next(maxRetries, s, ls[0]), ls[1..]);
    }
  }

  // ---- What is committed, and what a session receives ----

  /** The broker accepts the commit of the message at offset `o` of partition `p`. */
  predicate Commits(s: State, l: Label, p: nat, o: nat) {
    l.Do? && l.event == CommitReply(true) && Enabled(s, l) && s.sessions[l.session].phase.at == (p, o)
  }

  ghost predicate EverCommits(maxRetries: int, s: State, ls: seq<Label>, p: nat, o: nat)
    requires WellFormed(s)
    decreases |ls|
  {
    ls != [] && (Commits(s, ls[0], p, o) || EverCommits(maxRetries, Next(maxRetries, s, ls[0]), ls[1..], p, o))
  }

  lemma {:induction false} CommitsCount(maxRetries: int, s: State, ls: seq<Label>, p: nat, o: nat)
    requires WellFormed(s) && p < |s.committed|
    ensures var s' := Exec(maxRetries, s, ls);
      && |s'.committed| == |s.committed|
      && (s.committed[p].Some? ==> s'.committed[p].Some? && s.committed[p].value <= s'.committed[p].value)
      && (EverCommits(maxRetries, s, ls, p, o) ==> s'.committed[p].Some? && o + 1 <= s'.committed[p].value)
    decreases |ls|
  {
    if ls != [] {
      CommitsCount(maxRetries, Next(maxRetries, s, ls[0]), ls[1..], p, o);
    }
  }

  lemma {:induction false} CommitsAreEarned(maxRetries: int, s: State, ls: seq<Label>, p: nat)
    requires WellFormed(s) && p < |s.committed| == |Exec(maxRetries, s, ls).committed|
    ensures var after := Exec(maxRetries, s, ls).committed[p];
      after == s.committed[p] || (after.Some? && after.value >= 1 && EverCommits(maxRetries, s, ls, p, after.value - 1))
    decreases |ls|
  {
    if ls != [] {
      CommitsAreEarned(maxRetries, Next(maxRetries, s, ls[0]), ls[1..], p);
    }
  }

  /** The committed offset of a partition is the highest there has been: that of its first state or one
      past the furthest message whose commit was accepted; it never goes back. */
  lemma CommittedIsTheHighest(maxRetries: int, s: State, ls: seq<Label>, p: nat)
    requires WellFormed(s) && p < |s.committed|
    ensures var s' := Exec(maxRetries, s, ls);
      && |s'.committed| == |s.committed|
      && (s.committed[p].Some? ==> s'.committed[p].Some? && s.committed[p].value <= s'.committed[p].value)
      && (forall o: nat :: EverCommits(maxRetries, s, ls, p, o) ==>
           s'.committed[p].Some? && o + 1 <= s'.committed[p].value)
      && (s'.committed[p] == s.committed[p]
          || (s'.committed[p].Some? && s'.committed[p].value >= 1
              && EverCommits(maxRetries, s, ls, p, s'.committed[p].value - 1)))
  {
    CommitsCount(maxRetries, s, ls, p, 0);
    CommitsAreEarned(maxRetries, s, ls, p);
    forall o: nat | EverCommits(maxRetries, s, ls, p, o)
      ensures Exec(maxRetries, s, ls).committed[p].Some? && o + 1 <= Exec(maxRetries, s, ls).committed[p].value
    {
      CommitsCount(maxRetries, s, ls, p, o);
    }
  }

  predicate Receives(s: State, l: Label, i: nat, p: nat) {
    l == Do(i, Receive(p)) && Enabled(s, l)
  }

  /** The offsets that session `i` takes in hand from partition `p`. */
  function ReceivedFrom(maxRetries: int, s: State, ls: seq<Label>, i: nat, p: nat): seq<nat>
    requires |s.logs| == |s.committed|
    decreases |ls|
  {
    if ls == [] then []
    else
      var s1 := Next(maxRetries, s, ls[0]);
      (if Receives(s, ls[0], i, p) && i < |s1.sessions| && InHand(s1.sessions[i].phase).Some?
       then [InHand(s1.sessions[i].phase).value.1] else [])
      + ReceivedFrom(maxRetries, s1, ls[1..], i, p)
  }

  predicate NotReassigned(i: nat, l: Label) {
    !(l.Rebalance? && l.session == i)
  }

  /** `from`, `from + 1` and so on. */
  predicate Consecutive(offsets: seq<nat>, from: nat) {
    forall k :: 0 <= k < |offsets| ==> offsets[k] == from + k
  }

  lemma OneReceipt(maxRetries: int, s: State, l: Label, i: nat, p: nat)
    requires WellFormed(s) && i < |s.sessions| && p in s.sessions[i].next && NotReassigned(i, l)
    ensures var s1, from := Next(maxRetries, s, l), s.sessions[i].next[p];
      && i < |s1.sessions| && p in s1.sessions[i].next
      && (Receives(s, l, i, p) ==>
           InHand(s1.sessions[i].phase) == Some((p, from)) && s1.sessions[i].next[p] == from + 1)
      && (!Receives(s, l, i, p) ==> s1.sessions[i].next[p] == from)
  {}

  /** Until it is assigned partitions anew, a session receives from each of its partitions every
      message from its next offset on, in order and each once. */
  lemma {:induction false} ReceivesInOrder(maxRetries: int, s: State, ls: seq<Label>, i: nat, p: nat)
    requires WellFormed(s) && i < |s.sessions| && p in s.sessions[i].next
    requires forall k :: 0 <= k < |ls| ==> NotReassigned(i, ls[k])
    ensures Consecutive(ReceivedFrom(maxRetries, s, ls, i, p), s.sessions[i].next[p])
    decreases |ls|
  {
    if ls != [] {
      var s1 := Next(maxRetries, s, ls[0]);
      OneReceipt(maxRetries, s, ls[0], i, p);
      ReceivesInOrder(maxRetries, s1, ls[1..], i, p);
      OneMore(s.sessions[i].next[p], ReceivedFrom(maxRetries, s1, ls[1..], i, p));
    }
  }

  lemma OneMore(from: nat, rest: seq<nat>)
    ensures Consecutive(rest, from + 1) ==> Consecutive([from] + rest, from)
    ensures [] + rest == rest
  {
    forall k | 0 < k < |[from] + rest| ensures ([from] + rest)[k] == rest[k - 1] {}
  }

  /** That offset is, when a session joins or is assigned partitions anew, the committed one - or the
      end of the partition, if nothing was committed. */
  lemma AssignedFromTheCommit(maxRetries: int, s: State, l: Label, p: nat)
    requires WellFormed(s) && (l.Join? || l.Rebalance?) && Enabled(s, l) && p in l.parts && p < |s.logs|
    ensures var i, s' := if l.Join? then |s.sessions| else l.session, Next(maxRetries, s, l);
      && i < |s'.sessions| && p in s'.sessions[i].next
      && s'.sessions[i].next[p] == if s.committed[p].Some? then s.committed[p].value else |s.logs[p]|
  {}

  /** A session that has crashed never receives or commits again. */
  lemma CrashIsTheEnd(maxRetries: int, s: State, i: nat, ls: seq<Label>)
    requires WellFormed(s) && i < |s.sessions|
    ensures var s' := Next(maxRetries, s, Crash(i));
      && s'.committed == s.committed && s'.fates == s.fates
      && Along(maxRetries, s', ls, (s, l) => NeitherReceivesNorCommits(i, s, l))
  {
    LeavingIsForGood(maxRetries, Next(maxRetries, s, Crash(i)), ls, i);
  }

  // ---- Runs that lose messages ----

  ghost predicate Reachable(maxRetries: int, s0: State, s: State)
    requires WellFormed(s0)
  {
    exists ls :: Exec(maxRetries, s0, ls) == s
  }

  lemma {:induction false} ExecConcat(maxRetries: int, s: State, ls: seq<Label>, l: Label)
    requires WellFormed(s)
    ensures WellFormed(Exec(maxRetries, s, ls))
      && Exec(maxRetries, s, ls + [l]) == Next(maxRetries, Exec(maxRetries, s, ls), l)
    decreases |ls|
  {
    if ls == [] {
      assert ([] + [l])[1..] == [];
    } else {
      assert (ls + [l])[1..] == ls[1..] + [l];
      ExecConcat(maxRetries, Next(maxRetries, s, ls[0]), ls[1..], l);
    }
  }

  lemma Go(maxRetries: int, s0: State, s: State, l: Label) returns (s': State)
    requires WellFormed(s0) && WellFormed(s) && Reachable(maxRetries, s0, s)
    ensures s' == Next(maxRetries, s, l) && WellFormed(s') && Reachable(maxRetries, s0, s')
  {
    var ls :| Exec(maxRetries, s0, ls) == s;
    ExecConcat(maxRetries, s0, ls, l);
    s' := Next(maxRetries, s, l);
    assert Exec(maxRetries, s0, ls + [l]) == s';
  }

  lemma FirstPublished(maxRetries: int, based: bool, m0: Message) returns (s: State)
    ensures WellFormed(s) && Reachable(maxRetries, Init(1, based), s)
    ensures s == State([[m0]], [if based then Some(0) else None], [], map[], {}, {})
  {
    var s0 := Init(1, based);
    assert Exec(maxRetries, s0, []) == s0;
    s := Go(maxRetries, s0, s0, Publish(0, m0));
    assert s.logs[0] == [m0];
  }

  lemma Joined(maxRetries: int, based: bool, m0: Message) returns (s: State)
    ensures WellFormed(s) && Reachable(maxRetries, Init(1, based), s)
    ensures s.logs == [[m0]] && s.committed == [if based then Some(0) else None]
    ensures s.fates == map[] && s.overtaken == {} && s.unseen == if based then {} else {(0, 0)}
    ensures s.sessions == [Session(map[0 := if based then 0 else 1], Top, false, {})]
  {
    var s1 := FirstPublished(maxRetries, based, m0);
    assert Assigned(s1, {0}) == map[0 := if based then 0 else 1];
    assert Unseen(s1, {0}) == if based then {} else {(0, 0)};
    s := Go(maxRetries, Init(1, based), s1, Join({0}));
  }

  /** Two messages, one published before a session joins their partition and one after. */
  lemma Started(maxRetries: int, based: bool, m0: Message, m1: Message) returns (s: State)
    ensures WellFormed(s) && Reachable(maxRetries, Init(1, based), s)
    ensures s.logs == [[m0, m1]] && s.committed == [if based then Some(0) else None]
    ensures s.fates == map[] && s.overtaken == {} && s.unseen == if based then {} else {(0, 0)}
    ensures s.sessions == [Session(map[0 := if based then 0 else 1], Polling, false, {})]
  {
    var s0 := Init(1, based);
    s := Joined(maxRetries, based, m0);
    s := Drive(maxRetries, s0, s, Loop);
    s := Go(maxRetries, s0, s, Publish(0, m1));
    assert s.logs[0] == [m0] + [m1] == [m0, m1];
    assert s.logs == [[m0, m1]];
  }

  /** One event of the only session, other than a commit. */
  lemma Drive(maxRetries: int, s0: State, s: State, e: Event) returns (s': State)
    requires WellFormed(s0) && WellFormed(s) && Reachable(maxRetries, s0, s)
    requires |s.sessions| == 1 && CanDo(s.logs, s.sessions[0], e) && !e.CommitReply?
    ensures WellFormed(s') && Reachable(maxRetries, s0, s')
    ensures var r := SessionStep(maxRetries, s.logs, s.sessions[0], e);
      && s'.logs == s.logs && s'.committed == s.committed && s'.overtaken == s.overtaken
      && s'.unseen == s.unseen && s'.sessions == [r.session]
      && s'.fates == if r.fate.Some?
        && InHand(r.session.phase).Some? then s.fates[InHand(r.session.phase).value := r.fate.value] else s.fates
  {
    s' := Go(maxRetries, s0, s, Do(0, e));
  }

  lemma DriveCommit(maxRetries: int, s0: State, s: State) returns (s': State)
    requires WellFormed(s0) && WellFormed(s) && Reachable(maxRetries, s0, s)
    requires |s.sessions| == 1 && |s.committed| == 1 && s.sessions[0].phase.Committing? && s.sessions[0].phase.at.0 == 0
    requires s.committed[0].Some? ==> s.committed[0].value <= s.sessions[0].phase.at.1
    ensures WellFormed(s') && Reachable(maxRetries, s0, s')
    ensures s'.logs == s.logs && s'.fates == s.fates && s'.committed == [Some(s.sessions[0].phase.at.1 + 1)]
    ensures s'.sessions == [s.sessions[0].(phase := Top)] && s'.unseen == s.unseen
    ensures s'.overtaken ==
      s.overtaken + set x | x in s.sessions[0].givenUp && x.0 == 0 && x.1 <= s.sessions[0].phase.at.1 && x !in s.fates
  {
    s' := Go(maxRetries, s0, s, Do(0, CommitReply(true)));
  }

  lemma AllAttemptsFail(maxRetries: int, s0: State, s1: State, attempt: nat) returns (s: State)
    requires WellFormed(s0) && WellFormed(s1) && Reachable(maxRetries, s0, s1) && attempt <= maxRetries
    requires |s1.sessions| == 1 && s1.sessions[0].phase == Handling((0, 0), attempt)
    ensures WellFormed(s) && Reachable(maxRetries, s0, s)
    ensures s.logs == s1.logs && s.committed == s1.committed && s.fates == s1.fates && s.unseen == s1.unseen
    ensures s.sessions == [s1.sessions[0].(phase := DeadLettering((0, 0), maxRetries))]
    decreases maxRetries - attempt
  {
    s := Drive(maxRetries, s0, s1, HandlerReturns(false));
    if attempt < maxRetries {
      s := Drive(maxRetries, s0, s, Broker.Wake(false));
      s := AllAttemptsFail(maxRetries, s0, s, attempt + 1);
    }
  }

  /** Whatever the retry limit: a dead-letter write fails in a live session, the next message
      succeeds, and its commit passes over the first, which nothing has settled. */
  lemma LiveDltFailureIsOvertaken(maxRetries: int, m0: Message, m1: Message) returns (s: State)
    requires maxRetries >= 0 && m0.value.Decoded? && m1.value.Decoded?
    ensures WellFormed(s) && Reachable(maxRetries, Init(1, true), s)
    ensures s.logs == [[m0, m1]] && s.committed == [Some(2)]
    ensures (0, 0) !in s.fates && (0, 0) in s.overtaken && s.unseen == {}
  {
    var s0 := Init(1, true);
    s := Started(maxRetries, true, m0, m1);
    s := Drive(maxRetries, s0, s, Receive(0));
    s := AllAttemptsFail(maxRetries, s0, s, 0);
    s := Drive(maxRetries, s0, s, DeadLetterWrite(false));
    assert s.sessions[0].givenUp == {(0, 0)};
    s := Drive(maxRetries, s0, s, Loop);
    s := Drive(maxRetries, s0, s, Receive(0));
    s := Drive(maxRetries, s0, s, HandlerReturns(true));
    assert s.sessions[0].givenUp == {(0, 0)};
    s := DriveCommit(maxRetries, s0, s);
  }

  /** A negative retry limit commits a well-formed message that no handler has seen. */
  lemma NegativeRetriesCommitUnhandled(maxRetries: int, m0: Message, m1: Message) returns (s: State)
    requires maxRetries < 0 && m0.value.Decoded?
    ensures WellFormed(s) && Reachable(maxRetries, Init(1, true), s)
    ensures s.logs == [[m0, m1]] && s.committed == [Some(1)] && (0, 0) !in s.fates
  {
    s := Started(maxRetries, true, m0, m1);
    s := Drive(maxRetries, Init(1, true), s, Receive(0));
    s := DriveCommit(maxRetries, Init(1, true), s);
  }

  /** Without a committed offset a session starts at the partition's end and commits past what was
      there, without a failed dead letter or a message given up. */
  lemma BlindStartSkips(maxRetries: int, m0: Message, m1: Message) returns (s: State)
    requires maxRetries >= 0 && m0.value.Decoded? && m1.value.Decoded?
    ensures WellFormed(s) && Reachable(maxRetries, Init(1, false), s)
    ensures s.logs == [[m0, m1]] && s.committed == [Some(2)] && s.fates == map[(0, 1) := WasHandled]
    ensures s.unseen == {(0, 0)} && s.overtaken == {} && |s.sessions| == 1 && s.sessions[0].givenUp == {}
  {
    s := Started(maxRetries, false, m0, m1);
    s := Drive(maxRetries, Init(1, false), s, Receive(0));
    s := Drive(maxRetries, Init(1, false), s, HandlerReturns(true));
    s := DriveCommit(maxRetries, Init(1, false), s);
  }
}
