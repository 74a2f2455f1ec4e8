/** When a record in progress always has somebody left to finish it, and when it never will. */
module Progress {
  import opened Types
  import opened Store
  import opened Fetcher
  import opened Pipeline

  /** A process that has still to write ready or failed, or to queue a message for it. */
  predicate Live(p: Proc) {
    match p
    case Post(_, pc) => pc.PostPublish? || pc.PostMark? || pc.PostFetch? || pc.PostFail? || pc.PostReady?
    case Get(_, pc) => pc.GetPublish?
    case Job(_, _, pc, _) => pc.JobMark? || pc.JobFetch? || pc.JobFail? || pc.JobReady?
  }

  /** Steps that write ready or failed. */
  predicate WritesTerminal(p: Proc) {
    (p.Post? && (p.post.PostFail? || p.post.PostReady?)) || (p.Job? && (p.job.JobFail? || p.job.JobReady?))
  }

  predicate Publishes(p: Proc) {
    (p.Post? && p.post.PostPublish?) || (p.Get? && p.get.GetPublish?)
  }

  predicate Upserts(p: Proc) {
    (p.Post? && p.post.PostUpsert?) || (p.Get? && p.get.GetUpsert?)
  }

  predicate InProgressAt(store: Records, key: string) {
    key in store && InProgress(store[key].status)
  }

  /** Some delivery of message `n` has failed for good and is writing the dead letter. */
  ghost predicate DeadLetteringOf(s: State, n: nat) {
    exists i :: 0 <= i < |s.procs| && s.procs[i].Job? && s.procs[i].msg == n && s.procs[i].job.DeadLettering?
  }

  /** The retry loop will try again: attempts are left, and the message will not be lost meanwhile. */
  ghost predicate WillRetry(c: Config, s: State, p: Proc) {
    p.Job? && p.attempt < c.maxRetries && p.msg !in s.settled && !DeadLetteringOf(s, p.msg)
  }

  /** The faults that can lose work: a publish that does not take effect; a terminal write that does
      not take effect and will not be retried; an upsert that takes effect but reports an error;
      a request that dies with work left; a delivery that dies with work left when its message
      will not come back, because another delivery was acknowledged or is past its last attempt;
      and a commit that passes over a message whose record is in progress. */
  datatype Fault =
    | LostPublish | LostTerminalWrite | AmbiguousUpsert | RequestCrash
    | CrashOfSettled | CrashBesideDeadLetter | PassedOver

  /** The fault a label is, if it is one. Everything else is tolerated: failed lookups and
      "mark fetching" writes, lost terminal writes that are retried, other crashes, cancelled
      deliveries, repeated and overlapping deliveries of one message, failed and repeated
      dead-letter writes, and commits past a message whose record is finished. */
  ghost function FaultOf(c: Config, s: State, l: Label): Option<Fault> {
    if !Enabled(s, l) then None else
    match l
    case PassOver(n) => if n !in s.settled && InProgressAt(s.store, c.hash(s.topic[n])) then Some(PassedOver) else None
    case Step(i, Call(reply, _, _)) =>
      var p := s.procs[i];
      if WritesTerminal(p) && !Applied(reply) then if WillRetry(c, s, p) then None else Some(LostTerminalWrite)
      else if Publishes(p) && !Applied(reply) then Some(LostPublish)
      else if Upserts(p) && Applied(reply) && !reply.Done? then Some(AmbiguousUpsert)
      else None
    case Step(i, Crash) =>
      var p := s.procs[i];
      if !Live(p) then None
      else if !p.Job? then Some(RequestCrash)
      else if p.msg in s.settled then Some(CrashOfSettled)
      else if DeadLetteringOf(s, p.msg) then Some(CrashBesideDeadLetter)
      else None
    case _ => None
  }

  /** Steps that are tolerable but for the faults in `allowed`. */
  ghost function Only(c: Config, allowed: set<Fault>): (State, Label) -> bool {
    (s: State, l: Label) => FaultOf(c, s, l).None? || FaultOf(c, s, l).value in allowed
  }

  // ---- No orphaned work ----

  /** A message that has still to be delivered: first, again after a crash, or after the
      deliveries it has are done. */
  ghost predicate Due(s: State, n: nat) {
    n < |s.topic| && n !in s.settled && !DeadLetteringOf(s, n)
  }

  ghost predicate HasLive(c: Config, s: State, key: string) {
    exists i :: 0 <= i < |s.procs| && Live(s.procs[i]) && Key(c, s.procs[i]) == key
  }

  ghost predicate HasDue(c: Config, s: State, key: string) {
    exists n: nat :: Due(s, n) && c.hash(s.topic[n]) == key
  }

  /** Every record in progress has a live process or a message due. */
  ghost predicate Attended(c: Config, s: State) {
    DeliveriesMatch(s) && forall key :: InProgressAt(s.store, key) ==> HasLive(c, s, key) || HasDue(c, s, key)
  }

  /** A step by a live process that is no fault ends its duty only by finishing the record, by
      publishing, or, in a delivery, by a crash or a retry; only a process that is then live
      puts a record in progress; and a delivery stops being due only by finishing the record. */
  lemma DutyIsHandedOn(c: Config, s: State, i: nat, ch: Choice)
    requires c.maxRetries >= 0 && i < |s.procs| && CanAct(s.procs[i], ch) && FaultOf(c, s, Step(i, ch)).None?
    ensures var p := s.procs[i];
      var e := Act(c, s.store, p, ch);
      var busy := InProgressAt(StoreAfter(c, s.store, e), Key(c, p));
      && (Live(p) && busy ==>
           Live(e.next) || e.publishes || (p.Job? && (ch.Crash? || (e.next.job.Backoff? && WillRetry(c, s, p)))))
      && (e.write.Some? && busy ==> Live(e.next))
      && (p.Job? && (e.next.job.Acked? || e.next.job.DeadLettering?) ==> p.job.DeadLettering? || !busy)
  {}

  lemma DueStays(c: Config, s: State, i: nat, ch: Choice, n: nat)
    requires i < |s.procs| && CanAct(s.procs[i], ch) && Due(s, n)
    requires var e := Act(c, s.store, s.procs[i], ch);
      s.procs[i].Job? && s.procs[i].msg == n ==> !e.next.job.Acked? && !e.next.job.DeadLettering?
    ensures Due(Perform(c, s, i, ch), n)
  {
    var s' := Perform(c, s, i, ch);
    KeepsUrl(c, s.store, s.procs[i], ch);
    forall j | 0 <= j < |s'.procs|
      ensures !(s'.procs[j].Job? && s'.procs[j].msg == n && s'.procs[j].job.DeadLettering?) {
      assert j != i ==> s'.procs[j] == s.procs[j];
    }
  }

  /** What a step leaves to the record of a process other than the one that acts, or that
      was already in progress. */
  lemma OldDutyStays(c: Config, s: State, i: nat, ch: Choice, key: string)
    requires c.maxRetries >= 0 && Attended(c, s) && i < |s.procs| && CanAct(s.procs[i], ch)
    requires FaultOf(c, s, Step(i, ch)).None? && InProgressAt(s.store, key)
    requires var s' := Perform(c, s, i, ch);
      InProgressAt(s'.store, key) && (Key(c, s.procs[i]) == key ==> !Live(s'.procs[i]) && |s'.topic| == |s.topic|)
    ensures var s' := Perform(c, s, i, ch); HasLive(c, s', key) || HasDue(c, s', key)
  {
    var p, s' := s.procs[i], Perform(c, s, i, ch);
    DutyIsHandedOn(c, s, i, ch);
    if j :| 0 <= j < |s.procs| && j != i && Live(s.procs[j]) && Key(c, s.procs[j]) == key {
      assert s'.procs[j] == s.procs[j];
    } else if HasLive(c, s, key) {
      assert p.Job? && Due(s, p.msg);
      DueStays(c, s, i, ch, p.msg);
      assert c.hash(s'.topic[p.msg]) == key;
    } else {
      var n: nat :| Due(s, n) && c.hash(s.topic[n]) == key;
      assert !(p.Job? && p.msg == n && p.job.DeadLettering?);
      DueStays(c, s, i, ch, n);
      assert c.hash(s'.topic[n]) == key;
    }
  }

  lemma ActKeepsAttended(c: Config, s: State, i: nat, ch: Choice)
    requires c.maxRetries >= 0 && Attended(c, s) && i < |s.procs| && CanAct(s.procs[i], ch)
    requires FaultOf(c, s, Step(i, ch)).None?
    ensures Attended(c, Perform(c, s, i, ch))
  {
    var p, s' := s.procs[i], Perform(c, s, i, ch);
    StepKeepsMatch(c, s, Step(i, ch));
    KeepsUrl(c, s.store, p, ch);
    forall key | InProgressAt(s'.store, key) ensures HasLive(c, s', key) || HasDue(c, s', key) {
      if Key(c, p) != key {
        WritesOwnRecord(c, s.store, p, ch, key);
        OldDutyStays(c, s, i, ch, key);
      } else if Live(s'.procs[i]) {
        assert Key(c, s'.procs[i]) == key;
      } else if |s'.topic| > |s.topic| {
        assert Due(s', |s.topic|) && c.hash(s'.topic[|s.topic|]) == key;
      } else {
        DutyIsHandedOn(c, s, i, ch);
        OldDutyStays(c, s, i, ch, key);
      }
    }
  }

  lemma StepKeepsAttended(c: Config, s: State, l: Label)
    requires c.maxRetries >= 0 && Attended(c, s) && FaultOf(c, s, l).None?
    ensures Attended(c, Next(c, s, l))
  {
    if l.Step? && Enabled(s, l) {
      ActKeepsAttended(c, s, l.i, l.choice);
    } else {
      var s' := Next(c, s, l);
      StepKeepsMatch(c, s, l);
      forall key | InProgressAt(s'.store, key) ensures HasLive(c, s', key) || HasDue(c, s', key) {
        if HasLive(c, s, key) {
          var i :| 0 <= i < |s.procs| && Live(s.procs[i]) && Key(c, s.procs[i]) == key;
          assert s'.procs[i] == s.procs[i];
        } else {
          var n: nat :| Due(s, n) && c.hash(s.topic[n]) == key;
          assert Due(s', n);
        }
      }
    }
  }

  // ---- Exactly which steps leave a record unattended ----

  /** Somebody other than process `i`, and the message it delivers, attends to the record. */
  ghost predicate OthersAttend(c: Config, s: State, i: nat, key: string)
    requires i < |s.procs|
  {
    || (exists j :: 0 <= j < |s.procs| && j != i && Live(s.procs[j]) && Key(c, s.procs[j]) == key)
    || (exists n: nat :: Due(s, n) && c.hash(s.topic[n]) == key && !(s.procs[i].Job? && s.procs[i].msg == n))
  }

  /** Somebody attends to the record even without message `n`. */
  ghost predicate AttendedWithout(c: Config, s: State, n: nat, key: string) {
    HasLive(c, s, key) || exists k: nat :: k != n && Due(s, k) && c.hash(s.topic[k]) == key
  }

  /** A fault that hits the last attendant of a record in progress. (An ambiguous upsert puts the
      record in progress itself.) */
  ghost predicate Orphaning(c: Config, s: State, l: Label) {
    FaultOf(c, s, l).Some? &&
    match l
    case PassOver(n) => !AttendedWithout(c, s, n, c.hash(s.topic[n]))
    case Step(i, _) =>
      var key := Key(c, s.procs[i]);
      (FaultOf(c, s, l).value.AmbiguousUpsert? || InProgressAt(s.store, key)) && !OthersAttend(c, s, i, key)
    case _ => false
  }

  ghost predicate NotOrphaning(c: Config, s: State, l: Label) {
    !Orphaning(c, s, l)
  }

  /** A faulty step leaves the store alone, unless it is an ambiguous upsert, and stops its process. */
  lemma FaultyStep(c: Config, s: State, i: nat, ch: Choice)
    requires i < |s.procs| && CanAct(s.procs[i], ch) && FaultOf(c, s, Step(i, ch)).Some?
    ensures var p, e, f := s.procs[i], Act(c, s.store, s.procs[i], ch), FaultOf(c, s, Step(i, ch)).value;
      && !Live(e.next) && !e.publishes && SettledBy(e.next) == {} && !(p.Job? && p.job.DeadLettering?)
      && (if f.AmbiguousUpsert? then InProgressAt(StoreAfter(c, s.store, e), Key(c, p)) else e.write.None?)
      && (p.Job? ==> p.msg in s.settled || DeadLetteringOf(s, p.msg) || e.next.job.DeadLettering?)
  {}

  lemma OthersStillAttend(c: Config, s: State, i: nat, ch: Choice, key: string)
    requires DeliveriesMatch(s) && i < |s.procs| && CanAct(s.procs[i], ch) && FaultOf(c, s, Step(i, ch)).Some?
    requires OthersAttend(c, s, i, key)
    ensures HasLive(c, Perform(c, s, i, ch), key) || HasDue(c, Perform(c, s, i, ch), key)
  {
    var s' := Perform(c, s, i, ch);
    FaultyStep(c, s, i, ch);
    if j :| 0 <= j < |s.procs| && j != i && Live(s.procs[j]) && Key(c, s.procs[j]) == key {
      assert s'.procs[j] == s.procs[j];
    } else {
      var n: nat :| Due(s, n) && c.hash(s.topic[n]) == key && !(s.procs[i].Job? && s.procs[i].msg == n);
      DueStays(c, s, i, ch, n);
      assert c.hash(s'.topic[n]) == key;
    }
  }

  lemma HarmlessFaultKeepsAttended(c: Config, s: State, i: nat, ch: Choice)
    requires Attended(c, s) && i < |s.procs| && CanAct(s.procs[i], ch)
    requires FaultOf(c, s, Step(i, ch)).Some? && !Orphaning(c, s, Step(i, ch))
    ensures Attended(c, Perform(c, s, i, ch))
  {
    var p, s' := s.procs[i], Perform(c, s, i, ch);
    StepKeepsMatch(c, s, Step(i, ch));
    FaultyStep(c, s, i, ch);
    forall key | InProgressAt(s'.store, key) ensures HasLive(c, s', key) || HasDue(c, s', key) {
      if Key(c, p) != key {
        WritesOwnRecord(c, s.store, p, ch, key);
        assert HasLive(c, s, key) || HasDue(c, s, key);
      }
      OthersStillAttend(c, s, i, ch, key);
    }
  }

  /** After such a fault nobody is left. */
  lemma NobodyIsLeft(c: Config, s: State, i: nat, ch: Choice)
    requires DeliveriesMatch(s) && i < |s.procs| && CanAct(s.procs[i], ch) && Orphaning(c, s, Step(i, ch))
    ensures !Attended(c, Perform(c, s, i, ch))
  {
    var p, s', key := s.procs[i], Perform(c, s, i, ch), Key(c, s.procs[i]);
    FaultyStep(c, s, i, ch);
    forall j | 0 <= j < |s'.procs| && Key(c, s'.procs[j]) == key ensures !Live(s'.procs[j]) {
      assert j != i ==> s'.procs[j] == s.procs[j];
    }
    forall n: nat | n < |s'.topic| && c.hash(s'.topic[n]) == key ensures !Due(s', n) {
      OnlyOwnMessageStopsBeingDue(c, s, i, ch, n);
    }
    assert InProgressAt(s'.store, key);
  }

  lemma OnlyOwnMessageStopsBeingDue(c: Config, s: State, i: nat, ch: Choice, n: nat)
    requires i < |s.procs| && CanAct(s.procs[i], ch) && FaultOf(c, s, Step(i, ch)).Some?
    ensures Due(Perform(c, s, i, ch), n) ==> Due(s, n) && !(s.procs[i].Job? && s.procs[i].msg == n)
  {
    var p, s' := s.procs[i], Perform(c, s, i, ch);
    FaultyStep(c, s, i, ch);
    KeepsUrl(c, s.store, p, ch);
    forall k | DeadLetteringOf(s, k) ensures DeadLetteringOf(s', k) {
      var j :| 0 <= j < |s.procs| && s.procs[j].Job? && s.procs[j].msg == k && s.procs[j].job.DeadLettering?;
      assert j != i && s'.procs[j] == s.procs[j];
    }
    if p.Job? && s'.procs[i].job.DeadLettering? { assert DeadLetteringOf(s', p.msg); }
  }

  lemma PassingOver(c: Config, s: State, n: nat)
    requires Attended(c, s) && n < |s.topic| && FaultOf(c, s, PassOver(n)).Some?
    ensures Attended(c, Next(c, s, PassOver(n))) <==> AttendedWithout(c, s, n, c.hash(s.topic[n]))
  {
    var s', key := Next(c, s, PassOver(n)), c.hash(s.topic[n]);
    assert forall k :: Due(s', k) <==> Due(s, k) && k != n;
    assert forall k :: HasLive(c, s', k) <==> HasLive(c, s, k);
    forall k | InProgressAt(s'.store, k) && k != key ensures HasLive(c, s', k) || HasDue(c, s', k) {
      if !HasLive(c, s, k) {
        var m: nat :| Due(s, m) && c.hash(s.topic[m]) == k;
        assert Due(s', m) && c.hash(s'.topic[m]) == k;
      }
    }
  }

  /** One step leaves every record in progress attended exactly if it is not orphaning. */
  lemma StepAttendsExactly(c: Config, s: State, l: Label)
    requires c.maxRetries >= 0 && Attended(c, s)
    ensures Attended(c, Next(c, s, l)) <==> NotOrphaning(c, s, l)
  {
    if FaultOf(c, s, l).None? {
      StepKeepsAttended(c, s, l);
    } else if l.PassOver? {
      PassingOver(c, s, l.msg);
    } else if Orphaning(c, s, l) {
      NobodyIsLeft(c, s, l.i, l.choice);
    } else {
      HarmlessFaultKeepsAttended(c, s, l.i, l.choice);
    }
  }

  ghost predicate AlwaysAttended(c: Config, s: State, ls: seq<Label>)
    decreases |ls|
  {
    Attended(c, s) && (ls == [] || AlwaysAttended(c, Next(c, s, ls[0]), ls[1..]))
  }

  /** Exactly, run by run: every record in progress has somebody to finish it, all the way, if and
      only if no step of the run is a fault that hits the last attendant of its record. */
  lemma {:induction false} AttendedExactly(c: Config, s: State, ls: seq<Label>)
    requires c.maxRetries >= 0 && Attended(c, s)
    ensures AlwaysAttended(c, s, ls) <==> Along(c, s, ls, (s, l) => NotOrphaning(c, s, l))
    ensures AlwaysAttended(c, s, ls) ==> Attended(c, Exec(c, s, ls))
    decreases |ls|
  {
    if ls != [] {
      StepAttendsExactly(c, s, ls[0]);
      if NotOrphaning(c, s, ls[0]) {
        AttendedExactly(c, Next(c, s, ls[0]), ls[1..]);
      } else {
        assert !AlwaysAttended(c, Next(c, s, ls[0]), ls[1..]);
      }
    }
  }

  ghost predicate AllFinished(s: State) {
    forall key :: key in s.store ==> s.store[key].status.Ready? || s.store[key].status.Failed?
  }

  lemma NobodyNeeded(c: Config, s: State)
    requires Attended(c, s) && (forall i :: 0 <= i < |s.procs| ==> !Live(s.procs[i])) && forall n: nat :: !Due(s, n)
    ensures AllFinished(s)
  {
    forall key | key in s.store ensures s.store[key].status.Ready? || s.store[key].status.Failed? {
      assert !InProgressAt(s.store, key);
    }
  }

  /** No orphaned work: in every run without an orphaning step, however its requests and
      deliveries interleave, each record in progress has a live process or a message due; so
      when nothing is live and no message due, every record is ready or failed. */
  lemma NoOrphanedWork(c: Config, ls: seq<Label>)
    requires c.maxRetries >= 0 && Along(c, INIT, ls, (s, l) => NotOrphaning(c, s, l))
    ensures var s := Exec(c, INIT, ls);
      && Attended(c, s)
      && ((forall i :: 0 <= i < |s.procs| ==> !Live(s.procs[i])) && (forall n: nat :: !Due(s, n)) ==> AllFinished(s))
  {
    AttendedExactly(c, INIT, ls);
    var s := Exec(c, INIT, ls);
    if (forall i :: 0 <= i < |s.procs| ==> !Live(s.procs[i])) && forall n: nat :: !Due(s, n) {
      NobodyNeeded(c, s);
    }
  }

  /** Own steps a live process needs at most before the record is finished; a due message,
      whose next delivery starts at `JobMark`, needs one more than that delivery. */
  function Duty(p: Proc): nat {
    match p
    case Post(_, pc) =>
      (match pc case PostPublish => 5 case PostMark => 3 case PostFetch => 2
       case PostFail => 1 case PostReady(_) => 1 case _ => 0)
    case Get(_, pc) => if pc.GetPublish? then 5 else 0
    case Job(_, _, pc, _) =>
      (match pc case JobMark => 3 case JobFetch => 2 case JobFail => 1 case JobReady(_) => 1 case _ => 0)
  }

  const DUTY_OF_DUE := 4

  /** "Live" and "due" mean what they say: each step of a live process that is neither a crash
      nor a fault brings the record one step closer to ready or failed, and the last one
      finishes it or is retried; delivering a due message does the same. */
  lemma LiveProcessesFinish(c: Config, s: State, i: nat, ch: Choice)
    requires c.maxRetries >= 0 && i < |s.procs| && Live(s.procs[i]) && CanAct(s.procs[i], ch)
    requires FaultOf(c, s, Step(i, ch)).None? && !ch.Crash? && Key(c, s.procs[i]) in s.store
    ensures Duty(s.procs[i]) >= 1
    ensures var p, s' := s.procs[i], Perform(c, s, i, ch);
      var r := s'.store[Key(c, p)];
      || (Duty(p) == 1 && (r.status.Ready? || r.status.Failed?))
      || (Live(s'.procs[i]) && Duty(s'.procs[i]) == Duty(p) - 1)
      || (s'.topic == s.topic + [p.url] && Duty(p) == DUTY_OF_DUE + 1)
      || (p.Job? && s'.procs[i] == p.(job := Backoff) && p.attempt < c.maxRetries && Duty(p) == 1)
    ensures forall url, n :: Live(NewDelivery(c, url, n)) && Duty(NewDelivery(c, url, n)) == DUTY_OF_DUE - 1
  {}

  // ---- Records nobody will ever finish ----

  /** A process that will leave a record in progress as it finds it. */
  predicate Quiet(p: Proc) {
    match p
    case Post(_, pc) => pc.PostFind? || pc.PostRefind? || pc.PostFinal? || pc.PostDone? || pc.PostCrashed?
    case Get(_, pc) => pc.GetFind? || pc.GetDone? || pc.GetCrashed?
    case Job(_, _, pc, _) => pc.DeadLettering? || pc.Acked? || pc.Unacked? || pc.JobCrashed?
  }

  /** In progress, with nobody at work on it and no message left to deliver for it. */
  ghost predicate Abandoned(c: Config, s: State, key: string) {
    && InProgressAt(s.store, key)
    && (forall i :: 0 <= i < |s.procs| && Key(c, s.procs[i]) == key ==> Quiet(s.procs[i]))
    && (forall n :: 0 <= n < |s.topic| && c.hash(s.topic[n]) == key ==> n in s.settled)
  }

  /** Requests numbered from `n0` on for `key` report "in progress" or a failed lookup, and
      no message for it has been queued since there were `m0` of them. */
  ghost predicate ReportsInProgress(c: Config, s: State, key: string, n0: nat, m0: nat) {
    && InProgressAt(s.store, key) && n0 <= |s.procs| && m0 <= |s.topic|
    && (forall n :: m0 <= n < |s.topic| ==> c.hash(s.topic[n]) != key)
    && forall i :: n0 <= i < |s.procs| && Key(c, s.procs[i]) == key ==>
         match s.procs[i]
         case Post(_, pc) => pc.PostFind? || pc.PostCrashed?
                             || pc == PostDone(Returned(Some(s.store[key]), false))
                             || pc == PostDone(Rejected(DatabaseError))
         case Get(_, pc) => pc.GetFind? || pc.GetCrashed?
                            || pc == GetDone(Returned(None, true)) || pc == GetDone(Rejected(DatabaseError))
         case Job(_, _, _, _) => false
  }

  /** No message for `key` is delivered; all of them are settled. */
  ghost predicate NotRedelivered(c: Config, key: string, s: State, l: Label) {
    l.Deliver? && Enabled(s, l) ==> c.hash(s.topic[l.msg]) != key
  }

  lemma QuietStep(c: Config, store: Records, p: Proc, ch: Choice)
    requires CanAct(p, ch) && Quiet(p) && InProgressAt(store, Key(c, p))
    ensures var e := Act(c, store, p, ch);
      Quiet(e.next) && !e.publishes && e.write.None?
  {}

  lemma StepKeepsAbandoned(c: Config, s: State, l: Label, key: string, n0: nat, m0: nat)
    requires Abandoned(c, s, key) && ReportsInProgress(c, s, key, n0, m0) && NotRedelivered(c, key, s, l)
    ensures var s' := Next(c, s, l);
      Abandoned(c, s', key) && s'.store[key] == s.store[key] && ReportsInProgress(c, s', key, n0, m0)
  {
    if l.Step? && Enabled(s, l) {
      var p, ch := s.procs[l.i], l.choice;
      KeepsUrl(c, s.store, p, ch);
      if Key(c, p) == key {
        QuietStep(c, s.store, p, ch);
      } else {
        WritesOwnRecord(c, s.store, p, ch, key);
      }
    }
  }

  /** Once abandoned, a record stays exactly as it is through any run at all - any requests
      for this or other URLs, any deliveries, any faults - as long as none of its own messages,
      all settled, is delivered once more; every later GET and POST for it, lookup errors
      aside, answers "in progress" and queues nothing. */
  lemma {:induction false} AbandonedForever(c: Config, s: State, ls: seq<Label>, key: string, n0: nat, m0: nat)
    requires Abandoned(c, s, key) && ReportsInProgress(c, s, key, n0, m0)
    requires Along(c, s, ls, (s, l) => NotRedelivered(c, key, s, l))
    ensures var s' := Exec(c, s, ls);
      Abandoned(c, s', key) && s'.store[key] == s.store[key] && ReportsInProgress(c, s', key, n0, m0)
    decreases |ls|
  {
    if ls != [] {
      StepKeepsAbandoned(c, s, ls[0], key, n0, m0);
      AbandonedForever(c, Next(c, s, ls[0]), ls[1..], key, n0, m0);
    }
  }

  /** A publish that fails, and a request that dies before its publish, orphan the record for good. */
  lemma PublishFailureIsPermanent(c: Config, s: State, i: nat, ch: Choice, key: string, ls: seq<Label>)
    requires i < |s.procs| && Key(c, s.procs[i]) == key && InProgressAt(s.store, key)
    requires s.procs[i] in {Get(s.procs[i].url, GetPublish), Post(s.procs[i].url, PostPublish)}
    requires forall j :: 0 <= j < |s.procs| && j != i && Key(c, s.procs[j]) == key ==> Quiet(s.procs[j])
    requires forall n :: 0 <= n < |s.topic| && c.hash(s.topic[n]) == key ==> n in s.settled
    requires ch.Crash? || (ch.Call? && ch.reply.Error? && !ch.reply.applied)
    requires Along(c, Perform(c, s, i, ch), ls, (s, l) => NotRedelivered(c, key, s, l))
    ensures var s1 := Perform(c, s, i, ch);
      var s2 := Exec(c, s1, ls);
      Abandoned(c, s2, key) && s2.store[key] == s.store[key] && ReportsInProgress(c, s2, key, |s1.procs|, |s1.topic|)
  {
    var s1 := Perform(c, s, i, ch);
    assert Abandoned(c, s1, key) && ReportsInProgress(c, s1, key, |s1.procs|, |s1.topic|);
    AbandonedForever(c, s1, ls, key, |s1.procs|, |s1.topic|);
  }

  // ---- Each kind of fault can orphan a record, and nothing else can ----

  predicate Over(p: Proc) {
    match p
    case Post(_, pc) => pc.PostDone? || pc.PostCrashed?
    case Get(_, pc) => pc.GetDone? || pc.GetCrashed?
    case Job(_, _, pc, _) => pc.Acked? || pc.Unacked? || pc.JobCrashed?
  }

  /** Nothing is left to run: every process is over and every message settled. */
  ghost predicate Quiescent(s: State) {
    (forall i :: 0 <= i < |s.procs| ==> Over(s.procs[i])) && forall n :: 0 <= n < |s.topic| ==> n in s.settled
  }

  /** A run whose only faults are those allowed ends with nothing left to run and the record
      abandoned. */
  ghost predicate Orphans(c: Config, allowed: set<Fault>, s: State, url: string) {
    Via(c, INIT, s, Only(c, allowed)) && Quiescent(s) && Abandoned(c, s, c.hash(url))
  }

  function Asked(url: string): Proc {
    Get(url, GetDone(Returned(None, true)))
  }

  lemma AfterUpsert(c: Config, allowed: set<Fault>, url: string, at: Time, reply: Reply) returns (s: State)
    requires Applied(reply) && (reply.Done? || AmbiguousUpsert in allowed)
    ensures Via(c, INIT, s, Only(c, allowed))
    ensures s.procs == [Get(url, if reply.Done? then GetPublish else GetDone(Rejected(DatabaseError)))]
    ensures InProgressAt(s.store, c.hash(url)) && s.topic == [] && s.settled == {}
  {
    s := AfterMiss(c, allowed, url, at);
    s := TakeVia(c, INIT, s, 0, Call(reply, at, at), Only(c, allowed));
  }

  lemma AfterMiss(c: Config, allowed: set<Fault>, url: string, at: Time) returns (s: State)
    ensures Via(c, INIT, s, Only(c, allowed)) && s.procs == [Get(url, GetUpsert)] && s.topic == [] && s.settled == {}
  {
    var p := Only(c, allowed);
    Here(c, INIT, p);
    s := GoVia(c, INIT, INIT, StartGet(url), p);
    assert s.procs == [Get(url, GetFind)];
    s := TakeVia(c, INIT, s, 0, Call(Done, at, at), p);
  }

  lemma AfterPublish(c: Config, allowed: set<Fault>, url: string, at: Time) returns (s: State)
    ensures Via(c, INIT, s, Only(c, allowed)) && s.procs == [Asked(url)]
    ensures InProgressAt(s.store, c.hash(url)) && s.topic == [url] && s.settled == {}
  {
    s := AfterUpsert(c, allowed, url, at, Done);
    s := TakeVia(c, INIT, s, 0, Call(Done, at, at), Only(c, allowed));
  }

  /** A first GET whose publish is lost, or that dies before it. */
  lemma PublishOrphans(c: Config, f: Fault, url: string, at: Time, cause: string) returns (s: State)
    requires f.LostPublish? || f.RequestCrash?
    ensures Orphans(c, {f}, s, url)
  {
    s := AfterUpsert(c, {f}, url, at, Done);
    s := TakeVia(c, INIT, s, 0, if f.RequestCrash? then Crash else Call(Error(false, cause), at, at), Only(c, {f}));
  }

  /** An upsert that takes effect but is reported as failed. */
  lemma UpsertOrphans(c: Config, url: string, at: Time, cause: string) returns (s: State)
    ensures Orphans(c, {AmbiguousUpsert}, s, url)
  {
    s := AfterUpsert(c, {AmbiguousUpsert}, url, at, Error(true, cause));
  }

  /** A message that a commit passes over before it is delivered. */
  lemma PassingOverOrphans(c: Config, url: string, at: Time) returns (s: State)
    ensures Orphans(c, {PassedOver}, s, url)
  {
    s := AfterPublish(c, {PassedOver}, url, at);
    s := GoVia(c, INIT, s, PassOver(0), Only(c, {PassedOver}));
  }

  /** Under a negative retry limit no fault is needed at all. */
  lemma NegativeRetriesOrphan(c: Config, url: string, at: Time) returns (s: State)
    requires c.maxRetries < 0
    ensures Orphans(c, {}, s, url)
  {
    s := AfterPublish(c, {}, url, at);
    s := GoVia(c, INIT, s, Deliver(0), Only(c, {}));
    assert s.procs == [Asked(url), Job(url, 0, Acked, 0)];
  }

  /** Process `i` of `s0` is at `pc` in `s`, and otherwise only the record of `url` differs. */
  ghost predicate Moved(c: Config, allowed: set<Fault>, s0: State, s: State, i: nat, pc: JobPc, attempt: nat,
        url: string) {
    && Via(c, INIT, s, Only(c, allowed)) && i < |s0.procs|
    && s.procs == s0.procs[i := Job(url, 0, pc, attempt)]
    && s.topic == s0.topic && s.settled == s0.settled && c.hash(url) in s.store
  }

  /** One attempt whose fetch fails; `write` says what becomes of the failed write. */
  lemma FailedAttempt(c: Config, allowed: set<Fault>, s0: State, i: nat, url: string, attempt: nat, at: Time,
        cause: string, write: Reply) returns (s: State)
    requires i < |s0.procs| && Moved(c, allowed, s0, s0, i, JobMark, attempt, url) && attempt <= c.maxRetries
    requires Applied(write) || LostTerminalWrite in allowed
    ensures Moved(c, allowed, s0, s, i, if attempt < c.maxRetries then Backoff else DeadLettering, attempt, url)
    ensures !Applied(write) ==> InProgressAt(s.store, c.hash(url))
  {
    s := FailedFetch(c, allowed, s0, i, url, attempt, at, cause);
    assert s.procs[i] == Job(url, 0, JobFail, attempt);
    s := TakeVia(c, INIT, s, i, Call(write, at, at), Only(c, allowed));
  }

  lemma FailedFetch(c: Config, allowed: set<Fault>, s0: State, i: nat, url: string, attempt: nat, at: Time,
        cause: string) returns (s: State)
    requires i < |s0.procs| && Moved(c, allowed, s0, s0, i, JobMark, attempt, url)
    ensures Moved(c, allowed, s0, s, i, JobFail, attempt, url) && InProgressAt(s.store, c.hash(url))
  {
    var p := Only(c, allowed);
    assert s0.procs[i] == Job(url, 0, JobMark, attempt);
    s := TakeVia(c, INIT, s0, i, Call(Done, at, at), p);
    assert s.procs[i] == Job(url, 0, JobFetch, attempt) && InProgressAt(s.store, c.hash(url));
    s := TakeVia(c, INIT, s, i, Fetch(FetchError(cause)), p);
  }

  lemma FailedAttempts(c: Config, allowed: set<Fault>, s0: State, i: nat, url: string, attempt: nat, at: Time,
        cause: string, write: Reply) returns (s: State)
    requires i < |s0.procs| && Moved(c, allowed, s0, s0, i, JobMark, attempt, url) && attempt <= c.maxRetries
    requires Applied(write) || LostTerminalWrite in allowed
    ensures Moved(c, allowed, s0, s, i, DeadLettering, c.maxRetries, url)
    ensures !Applied(write) ==> InProgressAt(s.store, c.hash(url))
    decreases c.maxRetries - attempt
  {
    s := FailedAttempt(c, allowed, s0, i, url, attempt, at, cause, write);
    if attempt < c.maxRetries {
      assert s.procs[i] == Job(url, 0, Backoff, attempt);
      var s1 := TakeVia(c, INIT, s, i, Wake(false), Only(c, allowed));
      s := FailedAttempts(c, allowed, s1, i, url, attempt + 1, at, cause, write);
    }
  }

  /** Message 0 is delivered as process `|s0.procs|`. */
  lemma Delivered(c: Config, allowed: set<Fault>, s0: State, url: string) returns (s: State)
    requires c.maxRetries >= 0 && Via(c, INIT, s0, Only(c, allowed)) && s0.topic == [url] && c.hash(url) in s0.store
    ensures Moved(c, allowed, s, s, |s0.procs|, JobMark, 0, url) && s.procs == s0.procs + [Job(url, 0, JobMark, 0)]
    ensures s.store == s0.store && s.topic == s0.topic && s.settled == s0.settled
  {
    s := GoVia(c, INIT, s0, Deliver(0), Only(c, allowed));
  }

  /** Whatever the retry limit: if the failed write is lost on every attempt, the message is
      dead-lettered and acknowledged with its record still in progress. */
  lemma LostTerminalWritesOrphan(c: Config, url: string, at: Time, cause: string) returns (s: State)
    requires c.maxRetries >= 0
    ensures Orphans(c, {LostTerminalWrite}, s, url)
    ensures s.procs == [Asked(url), Job(url, 0, Acked, c.maxRetries)]
  {
    var F := {LostTerminalWrite};
    s := AfterPublish(c, F, url, at);
    s := Delivered(c, F, s, url);
    s := FailedAttempts(c, F, s, 1, url, 0, at, cause, Error(false, cause));
    assert s.procs == [Asked(url), Job(url, 0, DeadLettering, c.maxRetries)];
    s := TakeVia(c, INIT, s, 1, Call(Done, at, at), Only(c, F));
  }

  /** The same message delivered to two consumers, as after a rebalance. */
  lemma DeliveredTwice(c: Config, allowed: set<Fault>, url: string, at: Time) returns (s: State)
    requires c.maxRetries >= 0
    ensures Moved(c, allowed, s, s, 1, JobMark, 0, url) && s.topic == [url] && s.settled == {}
    ensures s.procs == [Asked(url), Job(url, 0, JobMark, 0), Job(url, 0, JobMark, 0)]
  {
    s := AfterPublish(c, allowed, url, at);
    s := Delivered(c, allowed, s, url);
    s := Delivered(c, allowed, s, url);
  }

  /** The delivery at 2 marks the record as fetching. */
  lemma SecondMarks(c: Config, allowed: set<Fault>, s0: State, url: string, at: Time) returns (s: State)
    requires Via(c, INIT, s0, Only(c, allowed)) && |s0.procs| == 3 && s0.procs[2] == Job(url, 0, JobMark, 0)
    requires c.hash(url) in s0.store
    ensures Via(c, INIT, s, Only(c, allowed)) && s.procs == s0.procs[2 := Job(url, 0, JobFetch, 0)]
    ensures s.topic == s0.topic && s.settled == s0.settled && InProgressAt(s.store, c.hash(url))
  {
    s := TakeVia(c, INIT, s0, 2, Call(Done, at, at), Only(c, allowed));
  }

  lemma FirstSucceeds(c: Config, allowed: set<Fault>, url: string, res: FetchResult, at: Time) returns (s: State)
    requires c.maxRetries >= 0
    ensures Via(c, INIT, s, Only(c, allowed)) && c.hash(url) in s.store && s.topic == [url] && s.settled == {0}
    ensures s.procs == [Asked(url), Job(url, 0, Acked, 0), Job(url, 0, JobMark, 0)]
  {
    s := DeliveredTwice(c, allowed, url, at);
    s := TakeVia(c, INIT, s, 1, Call(Done, at, at), Only(c, allowed));
    assert s.procs == [Asked(url), Job(url, 0, JobFetch, 0), Job(url, 0, JobMark, 0)] && c.hash(url) in s.store;
    s := TakeVia(c, INIT, s, 1, Fetch(Fetched(res)), Only(c, allowed));
    assert s.procs == [Asked(url), Job(url, 0, JobReady(res), 0), Job(url, 0, JobMark, 0)] && c.hash(url) in s.store;
    s := TakeVia(c, INIT, s, 1, Call(Done, at, at), Only(c, allowed));
  }

  /** One consumer makes the record ready and has the message acknowledged; the other, still at
      work on it, marks it as fetching and dies. */
  lemma CrashOfSettledOrphans(c: Config, url: string, res: FetchResult, at: Time) returns (s: State)
    requires c.maxRetries >= 0
    ensures Orphans(c, {CrashOfSettled}, s, url)
    ensures s.procs == [Asked(url), Job(url, 0, Acked, 0), Job(url, 0, JobCrashed, 0)]
  {
    s := FirstSucceeds(c, {CrashOfSettled}, url, res, at);
    s := SecondMarks(c, {CrashOfSettled}, s, url, at);
    s := TakeVia(c, INIT, s, 2, Crash, Only(c, {CrashOfSettled}));
  }

  lemma FirstFailsForGood(c: Config, allowed: set<Fault>, url: string, at: Time, cause: string) returns (s: State)
    requires c.maxRetries >= 0
    ensures Via(c, INIT, s, Only(c, allowed)) && s.topic == [url] && s.settled == {}
    ensures s.procs == [Asked(url), Job(url, 0, DeadLettering, c.maxRetries), Job(url, 0, JobFetch, 0)]
    ensures InProgressAt(s.store, c.hash(url))
  {
    s := DeliveredTwice(c, allowed, url, at);
    s := FailedAttempts(c, allowed, s, 1, url, 0, at, cause, Done);
    assert s.procs == [Asked(url), Job(url, 0, DeadLettering, c.maxRetries), Job(url, 0, JobMark, 0)];
    s := SecondMarks(c, allowed, s, url, at);
  }

  /** One consumer has failed for good and is about to write the dead letter; the other marks
      the record as fetching and dies; the dead letter then has the message acknowledged. */
  lemma CrashBesideDeadLetterOrphans(c: Config, url: string, at: Time, cause: string) returns (s: State)
    requires c.maxRetries >= 0
    ensures Orphans(c, {CrashBesideDeadLetter}, s, url)
    ensures s.procs == [Asked(url), Job(url, 0, Acked, c.maxRetries), Job(url, 0, JobCrashed, 0)]
  {
    s := FirstFailsForGood(c, {CrashBesideDeadLetter}, url, at, cause);
    assert s.procs[1].job.DeadLettering? && s.procs[1].msg == 0;
    s := TakeVia(c, INIT, s, 2, Crash, Only(c, {CrashBesideDeadLetter}));
    assert s.procs == [Asked(url), Job(url, 0, DeadLettering, c.maxRetries), Job(url, 0, JobCrashed, 0)];
    s := TakeVia(c, INIT, s, 1, Call(Done, at, at), Only(c, {CrashBesideDeadLetter}));
  }

  lemma EachFaultOrphans(c: Config, f: Fault, url: string, at: Time, cause: string) returns (s: State)
    requires c.maxRetries >= 0
    ensures Orphans(c, {f}, s, url)
  {
    match f
    case LostPublish => s := PublishOrphans(c, f, url, at, cause);
    case RequestCrash => s := PublishOrphans(c, f, url, at, cause);
    case LostTerminalWrite => s := LostTerminalWritesOrphan(c, url, at, cause);
    case AmbiguousUpsert => s := UpsertOrphans(c, url, at, cause);
    case CrashOfSettled => s := CrashOfSettledOrphans(c, url, FetchResult(map[], [], [], 0, 0, 0), at);
    case CrashBesideDeadLetter => s := CrashBesideDeadLetterOrphans(c, url, at, cause);
    case PassedOver => s := PassingOverOrphans(c, url, at);
  }

  /** The list of faults is exact. Whichever kinds are allowed, every run that has come to rest
      leaves every record ready or failed exactly when none of the seven is among them
      and the retry limit is not negative. */
  lemma HypothesesAreExact(c: Config, allowed: set<Fault>)
    ensures (forall s :: Via(c, INIT, s, Only(c, allowed)) && Quiescent(s) ==> AllFinished(s))
      <==> (allowed == {} && c.maxRetries >= 0)
  {
    if allowed == {} && c.maxRetries >= 0 {
      forall s | Via(c, INIT, s, Only(c, allowed)) && Quiescent(s) ensures AllFinished(s) {
        var ls :| Exec(c, INIT, ls) == s && Along(c, INIT, ls, Only(c, allowed));
        AlongWeaker(c, INIT, ls, Only(c, allowed), (s, l) => NotOrphaning(c, s, l));
        NoOrphanedWork(c, ls);
      }
    } else {
      var url := "";
      var s, f: set<Fault>;
      if c.maxRetries < 0 {
        s := NegativeRetriesOrphan(c, url, 1);
        f := {};
      } else {
        var one :| one in allowed;
        s := EachFaultOrphans(c, one, url, 1, "");
        f := {one};
      }
      var ls :| Exec(c, INIT, ls) == s && Along(c, INIT, ls, Only(c, f));
      AlongWeaker(c, INIT, ls, Only(c, f), Only(c, allowed));
      assert Via(c, INIT, s, Only(c, allowed)) && !AllFinished(s);
    }
  }

  // ---- What retries are for ----

  /** The ready write that the run below loses. */
  const LOST := Step(1, Call(Error(false, "timeout"), ZERO_TIME, ZERO_TIME))

  lemma FirstFetched(c: Config, url: string, res: FetchResult, at: Time) returns (s: State)
    requires c.maxRetries >= 1
    ensures Via(c, INIT, s, Only(c, {})) && s.procs == [Asked(url), Job(url, 0, JobReady(res), 0)]
    ensures s.topic == [url] && s.settled == {} && InProgressAt(s.store, c.hash(url))
  {
    s := AfterPublish(c, {}, url, at);
    s := Delivered(c, {}, s, url);
    s := TakeVia(c, INIT, s, 1, Call(Done, at, at), Only(c, {}));
    assert s.procs == [Asked(url), Job(url, 0, JobFetch, 0)] && InProgressAt(s.store, c.hash(url));
    s := TakeVia(c, INIT, s, 1, Fetch(Fetched(res)), Only(c, {}));
  }

  lemma RetryFetches(c: Config, s0: State, url: string, res: FetchResult, at: Time) returns (s: State)
    requires c.maxRetries >= 1 && s0.procs == [Asked(url), Job(url, 0, Backoff, 0)] && c.hash(url) in s0.store
    ensures Via(c, s0, s, Only(c, {})) && c.hash(url) in s.store
    ensures s.procs == [Asked(url), Job(url, 0, JobReady(res), 1)]
  {
    Here(c, s0, Only(c, {}));
    s := TakeVia(c, s0, s0, 1, Wake(false), Only(c, {}));
    assert s.procs == [Asked(url), Job(url, 0, JobMark, 1)];
    s := TakeVia(c, s0, s, 1, Call(Done, at, at), Only(c, {}));
    assert s.procs == [Asked(url), Job(url, 0, JobFetch, 1)] && c.hash(url) in s.store;
    s := TakeVia(c, s0, s, 1, Fetch(Fetched(res)), Only(c, {}));
  }

  /** With at least one retry, a delivery that loses its ready write once is no fault: it waits with
      its message due, tries again, and is acknowledged with the record ready. */
  lemma RetriesRepairALostWrite(c: Config, url: string, res: FetchResult, at: Time) returns (before: State, s: State)
    requires c.maxRetries >= 1
    ensures Via(c, INIT, before, Only(c, {})) && before.procs == [Asked(url), Job(url, 0, JobReady(res), 0)]
    ensures FaultOf(c, before, LOST).None?
    ensures Via(c, Next(c, before, LOST), s, Only(c, {})) && s.procs == [Asked(url), Job(url, 0, Acked, 1)]
    ensures c.hash(url) in s.store && s.store[c.hash(url)].status.Ready? && Holds(s.store[c.hash(url)], res)
  {
    before := FirstFetched(c, url, res, at);
    var lost := Next(c, before, LOST);
    assert lost.procs == [Asked(url), Job(url, 0, Backoff, 0)] && c.hash(url) in lost.store;
    s := RetryFetches(c, lost, url, res, at);
    s := TakeVia(c, lost, s, 1, Call(Done, at, at), Only(c, {}));
  }
}
