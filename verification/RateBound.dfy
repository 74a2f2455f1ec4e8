/** How many requests of one key any stretch of time can admit. */
module RateBound {
  import opened Types
  import opened RateLimiter

  type Window = w: Duration | 0 <= w

  /** A limiter whose rate is below one still admits the request that opens a window. */
  function PerWindow(rate: int): int {
    if rate < 1 then 1 else rate
  }

  function Positive(x: int): nat {
    if x < 0 then 0 else x
  }

  /** What the windows can admit that still open in a stretch of `length` after one has opened. */
  function Capacity(rate: int, window: Window, length: int): nat
    decreases Positive(length)
  {
    if length <= window then 0 else PerWindow(rate) + Capacity(rate, window, length - (window + 1))
  }

  lemma {:induction false} CapacityGrows(rate: int, window: Window, x: int, y: int)
    requires x <= y
    ensures Capacity(rate, window, x) <= Capacity(rate, window, y)
    decreases Positive(x)
  {
    if x > window {
      CapacityGrows(rate, window, x - (window + 1), y - (window + 1));
    }
  }

  /** Windows open more than one window apart, so `k` windows of time leave room for fewer than `k`. */
  lemma {:induction false} CapacityIsSmall(rate: int, window: Window, length: int, k: nat)
    requires k >= 1 && length <= k * window
    ensures Capacity(rate, window, length) <= PerWindow(rate) * (k - 1)
    decreases k
  {
    if length > window {
      assert k != 1;
      assert (k - 1) * window == k * window - window;
      CapacityIsSmall(rate, window, length - (window + 1), k - 1);
      assert PerWindow(rate) * (k - 1) == PerWindow(rate) * (k - 2) + PerWindow(rate);
    } else {
      assert PerWindow(rate) * (k - 1) >= 0;
    }
  }

  lemma {:induction false} NothingAfter(rate: int, window: Window, t: Time, v: Option<Visitor>, tr: seq<Event>,
        key: string, a: Time, b: Time)
    requires WellTimed(t, tr) && t > b
    ensures Admitted(Alone(rate, window, v, tr, key), key, a, b) == 0
    decreases |tr|
  {
    if tr != [] {
      var e := tr[0];
      if e.Allow? && e.key == key {
        NothingAfter(rate, window, e.stamp, Some(Served(rate, window, v, e.now, e.stamp)), tr[1..], key, a, b);
      } else {
        NothingAfter(rate, window, if e.Allow? then e.stamp else e.end, v, tr[1..], key, a, b);
      }
    }
  }

  /** Up to time `b`: the tokens left, and a full window for every reset that still fits. */
  lemma {:induction false} UpTo(rate: int, window: Window, t: Time, v: Visitor, tr: seq<Event>, key: string, a: Time,
        b: Time)
    requires WellTimed(t, tr) && v.lastReset <= t
    ensures Admitted(Alone(rate, window, Some(v), tr, key), key, a, b)
      <= Positive(v.tokens) + Capacity(rate, window, b - v.lastReset)
    decreases |tr|
  {
    if tr == [] {
    } else if !(tr[0].Allow? && tr[0].key == key) {
      UpTo(rate, window, if tr[0].Allow? then tr[0].stamp else tr[0].end, v, tr[1..], key, a, b);
    } else {
      var e := tr[0];
      var v' := Served(rate, window, Some(v), e.now, e.stamp);
      if e.now > b {
        NothingAfter(rate, window, e.stamp, Some(v'), tr[1..], key, a, b);
      } else {
        UpTo(rate, window, e.stamp, v', tr[1..], key, a, b);
        if Expired(window, v, e.now) {
          CapacityGrows(rate, window, b - e.stamp, b - v.lastReset - (window + 1));
        }
      }
    }
  }

  lemma MulMonotone(r: int, x: int, y: int)
    requires r >= 0 && x <= y
    ensures r * x <= r * y && r * (x + 1) == r * x + r
  {}

  /** Once the interval has begun: the tokens left, and at most `k` full windows. */
  lemma {:induction false} FromStart(rate: int, window: Window, t: Time, v: Option<Visitor>, tr: seq<Event>,
        key: string, a: Time, k: nat)
    requires k >= 1 && WellTimed(t, tr) && t >= a
    requires v.Some? ==> v.value.lastReset <= t
    ensures Admitted(Alone(rate, window, v, tr, key), key, a, a + k * window)
      <= (if v.Some? then Positive(v.value.tokens) else 0) + PerWindow(rate) * k
    decreases |tr|
  {
    if tr == [] {
      assert PerWindow(rate) * k >= 0;
    } else if !(tr[0].Allow? && tr[0].key == key) {
      FromStart(rate, window, if tr[0].Allow? then tr[0].stamp else tr[0].end, v, tr[1..], key, a, k);
    } else {
      var e := tr[0];
      var v' := Served(rate, window, v, e.now, e.stamp);
      if Resets(window, v, e.now) {
        UpTo(rate, window, e.stamp, v', tr[1..], key, a, a + k * window);
        CapacityIsSmall(rate, window, a + k * window - e.stamp, k);
        assert PerWindow(rate) * k == PerWindow(rate) * (k - 1) + PerWindow(rate);
      } else {
        FromStart(rate, window, e.stamp, Some(v'), tr[1..], key, a, k);
      }
    }
  }

  lemma {:induction false} Anywhere(rate: int, window: Window, t: Time, v: Option<Visitor>, tr: seq<Event>,
        key: string, a: Time, k: nat)
    requires k >= 1 && WellTimed(t, tr)
    requires v.Some? ==> v.value.lastReset <= t && v.value.tokens <= PerWindow(rate) - 1
    ensures Admitted(Alone(rate, window, v, tr, key), key, a, a + k * window)
      <= PerWindow(rate) - 1 + PerWindow(rate) * k
    decreases |tr|
  {
    if tr == [] {
      assert PerWindow(rate) * k >= 0;
    } else {
      var e := tr[0];
      if !(e.Allow? && e.key == key) {
        Anywhere(rate, window, if e.Allow? then e.stamp else e.end, v, tr[1..], key, a, k);
      } else if e.now < a {
        Anywhere(rate, window, e.stamp, Some(Served(rate, window, v, e.now, e.stamp)), tr[1..], key, a, k);
      } else {
        StartAtRequest(rate, window, v, tr, key, a, k);
      }
    }
  }

  lemma StartAtRequest(rate: int, window: Window, v: Option<Visitor>, tr: seq<Event>, key: string, a: Time, k: nat)
    requires k >= 1 && tr != [] && tr[0].Allow? && tr[0].now >= a && WellTimed(tr[0].now, tr)
    requires v.Some? ==> v.value.lastReset <= tr[0].now && v.value.tokens <= PerWindow(rate) - 1
    ensures Admitted(Alone(rate, window, v, tr, key), key, a, a + k * window)
      <= PerWindow(rate) - 1 + PerWindow(rate) * k
  {
    FromStart(rate, window, tr[0].now, v, tr, key, a, k);
  }

  lemma {:induction false} CountOwn(ds: seq<Decision>, key: string, a: Time, b: Time)
    ensures Admitted(ds, key, a, b) == Admitted(For(ds, key), key, a, b)
  {
    if ds != [] {
      CountOwn(ds[1..], key, a, b);
    }
  }

  /** In any closed interval of `k` windows one key is admitted at most `(k+1) * rate - 1`
      times, whatever the traffic and wherever the sweeps fall, as long as twice the window
      can be computed or nothing is swept. */
  lemma RateIsBounded(rate: int, window: Window, t: Time, tr: seq<Event>, key: string, a: Time, k: nat)
    requires k >= 1 && WellTimed(t, tr) && SparesLive(window, tr)
    ensures Admitted(Decisions(rate, window, map[], tr), key, a, a + k * window) <= (k + 1) * PerWindow(rate) - 1
  {
    CountOwn(Decisions(rate, window, map[], tr), key, a, a + k * window);
    SharedIsAlone(rate, window, t, map[], None, tr, key);
    Anywhere(rate, window, t, None, tr, key, a, k);
    assert (k + 1) * PerWindow(rate) == PerWindow(rate) * k + PerWindow(rate);
  }

  // ---- The bound is reached ----

  /** `n` requests at the same instant. */
  function Burst(n: nat, key: string, at: Time): seq<Event> {
    if n == 0 then [] else [Allow(key, at, at)] + Burst(n - 1, key, at)
  }

  /** Full bursts at the earliest instants that open windows `i`, ..., `k`. */
  function Bursts(rate: nat, window: Window, key: string, i: nat, k: nat): seq<Event>
    decreases k + 1 - i
  {
    if i > k then [] else Burst(rate, key, i * (window + 1)) + Bursts(rate, window, key, i + 1, k)
  }

  /** One request opens a window, the rest of its tokens go at the window's last instant,
      and full bursts follow as soon as windows can open again. */
  function WorstTrace(rate: nat, window: Window, key: string, k: nat): seq<Event>
    requires rate >= 1
  {
    [Allow(key, 0, 0)] + (Burst(rate - 1, key, window) + Bursts(rate, window, key, 1, k))
  }

  lemma FirstOfBurst(rate: int, window: Window, v: Option<Visitor>, n: nat, key: string, at: Time, rest: seq<Event>)
    requires n >= 1
    ensures var tail := Burst(n - 1, key, at) + rest;
      && Alone(rate, window, v, Burst(n, key, at) + rest, key)
         == [Decide(window, v, key, at)] + Alone(rate, window, Some(Served(rate, window, v, at, at)), tail, key)
      && (forall a: Time, b: Time :: a <= at <= b && Admits(window, v, at) ==>
           Admitted(Alone(rate, window, v, Burst(n, key, at) + rest, key), key, a, b)
           == 1 + Admitted(Alone(rate, window, Some(Served(rate, window, v, at, at)), tail, key), key, a, b))
      && (WellTimed(at, tail) ==> WellTimed(at, Burst(n, key, at) + rest))
  {
    var tail := Burst(n - 1, key, at) + rest;
    assert Burst(n, key, at) + rest == [Allow(key, at, at)] + tail;
    assert ([Allow(key, at, at)] + tail)[1..] == tail;
    var later := Alone(rate, window, Some(Served(rate, window, v, at, at)), tail, key);
    assert ([Decide(window, v, key, at)] + later)[1..] == later;
  }

  lemma {:induction false} BurstIsAdmitted(rate: int, window: Window, v: Visitor, n: nat, key: string, at: Time,
        rest: seq<Event>, a: Time, b: Time)
    requires n <= v.tokens && v.lastReset <= at <= v.lastReset + window && a <= at <= b && WellTimed(at, rest)
    ensures WellTimed(at, Burst(n, key, at) + rest)
    ensures Admitted(Alone(rate, window, Some(v), Burst(n, key, at) + rest, key), key, a, b)
      == n + Admitted(Alone(rate, window, Some(v.(tokens := v.tokens - n)), rest, key), key, a, b)
    decreases n
  {
    if n == 0 {
      assert [] + rest == rest;
    } else {
      var v' := v.(tokens := v.tokens - 1);
      assert Served(rate, window, Some(v), at, at) == v';
      FirstOfBurst(rate, window, Some(v), n, key, at, rest);
      BurstIsAdmitted(rate, window, v', n - 1, key, at, rest, a, b);
    }
  }

  /** A full burst that opens a window. */
  lemma FreshBurstIsAdmitted(rate: nat, window: Window, v: Visitor, key: string, at: Time, rest: seq<Event>, a: Time,
        b: Time)
    requires rate >= 1 && Expired(window, v, at) && a <= at <= b && WellTimed(at, rest)
    ensures WellTimed(at, Burst(rate, key, at) + rest)
    ensures Admitted(Alone(rate, window, Some(v), Burst(rate, key, at) + rest, key), key, a, b)
      == rate + Admitted(Alone(rate, window, Some(Visitor(0, at)), rest, key), key, a, b)
  {
    var tail := Burst(rate - 1, key, at) + rest;
    FirstOfBurst(rate, window, Some(v), rate, key, at, rest);
    BurstIsAdmitted(rate, window, Visitor(rate - 1, at), rate - 1, key, at, rest, a, b);
  }

  lemma {:induction false} BurstsAreAdmitted(rate: nat, window: Window, v: Visitor, key: string, i: nat, k: nat,
        a: Time, b: Time)
    requires rate >= 1 && 1 <= i <= k + 1 && v.lastReset == (i - 1) * (window + 1)
    requires a <= window + 1 && k * (window + 1) <= b
    ensures WellTimed((i - 1) * (window + 1), Bursts(rate, window, key, i, k))
    ensures Admitted(Alone(rate, window, Some(v), Bursts(rate, window, key, i, k), key), key, a, b)
      == (k + 1 - i) * rate
    decreases k + 1 - i
  {
    if i <= k {
      var at := i * (window + 1);
      assert at == v.lastReset + (window + 1);
      assert window + 1 <= at <= k * (window + 1) by {
        MulMonotone(window + 1, i, k);
        MulMonotone(window + 1, 1, i);
      }
      BurstsAreAdmitted(rate, window, Visitor(0, at), key, i + 1, k, a, b);
      FreshBurstIsAdmitted(rate, window, v, key, at, Bursts(rate, window, key, i + 1, k), a, b);
      Earlier((i - 1) * (window + 1), at, Bursts(rate, window, key, i, k));
      assert (k + 1 - i) * rate == (k - i) * rate + rate;
    }
  }

  lemma Earlier(t: Time, t': Time, tr: seq<Event>)
    requires t <= t' && WellTimed(t', tr)
    ensures WellTimed(t, tr)
  {}

  /** For every rate and every `k` up to the window's length in nanoseconds, some trace
      admits exactly the bound, so no smaller bound holds. */
  lemma RateBoundIsTight(rate: nat, window: Window, key: string, k: nat)
    requires rate >= 1 && 1 <= k <= window
    ensures var tr := WorstTrace(rate, window, key, k);
      WellTimed(0, tr) && Admitted(Decisions(rate, window, map[], tr), key, window, window + k * window)
      == (k + 1) * rate - 1
  {
    var tr, b := WorstTrace(rate, window, key, k), window + k * window;
    var bursts := Bursts(rate, window, key, 1, k);
    var tail := Burst(rate - 1, key, window) + bursts;
    assert k * (window + 1) == k * window + k;
    BurstsAreAdmitted(rate, window, Visitor(0, 0), key, 1, k, window, b);
    BurstsFollow(rate, window, key, k);
    BurstIsAdmitted(rate, window, Visitor(rate - 1, 0), rate - 1, key, window, bursts, window, b);
    Earlier(0, window, tail);
    assert tr[1..] == tail;
    NeverSwept(rate, window, key, k);
    SharedIsAlone(rate, window, 0, map[], None, tr, key);
    CountOwn(Decisions(rate, window, map[], tr), key, window, b);
    assert (k + 1) * rate == k * rate + rate;
  }

  lemma {:induction false} BurstOnlyAsks(n: nat, key: string, at: Time)
    ensures forall e :: e in Burst(n, key, at) ==> e.Allow?
  {
    if n > 0 { BurstOnlyAsks(n - 1, key, at); }
  }

  lemma {:induction false} BurstsOnlyAsk(rate: nat, window: Window, key: string, i: nat, k: nat)
    ensures forall e :: e in Bursts(rate, window, key, i, k) ==> e.Allow?
    decreases k + 1 - i
  {
    if i <= k {
      BurstOnlyAsks(rate, key, i * (window + 1));
      BurstsOnlyAsk(rate, window, key, i + 1, k);
    }
  }

  lemma NeverSwept(rate: nat, window: Window, key: string, k: nat)
    requires rate >= 1
    ensures SparesLive(window, WorstTrace(rate, window, key, k))
  {
    BurstOnlyAsks(rate - 1, key, window);
    BurstsOnlyAsk(rate, window, key, 1, k);
    var tr := WorstTrace(rate, window, key, k);
    forall i | 0 <= i < |tr| ensures tr[i].Allow? {
      assert tr[i] in tr;
    }
  }

  lemma BurstsFollow(rate: nat, window: Window, key: string, k: nat)
    requires rate >= 1 && k >= 1 && WellTimed(0, Bursts(rate, window, key, 1, k))
    ensures WellTimed(window, Bursts(rate, window, key, 1, k))
  {}

  // ---- Windows whose double overflows ----

  ghost predicate SweepsAreInvisible(rate: int, window: Duration) {
    forall t, tr :: WellTimed(t, tr) ==>
      Decisions(rate, window, map[], tr) == Decisions(rate, window, map[], NoSweeps(tr))
  }

  predicate DecidesAlone(rate: int, window: Duration, tr: seq<Event>, key: string) {
    For(Decisions(rate, window, map[], tr), key) == For(Decisions(rate, window, map[], Only(tr, key)), key)
  }

  ghost predicate KeysDecideAlone(rate: int, window: Duration) {
    forall t, tr, key :: WellTimed(t, tr) ==> DecidesAlone(rate, window, tr, key)
  }

  predicate WithinRate(rate: int, window: Window, tr: seq<Event>, key: string, a: Time, k: nat) {
    Admitted(Decisions(rate, window, map[], tr), key, a, a + k * window) <= (k + 1) * PerWindow(rate) - 1
  }

  ghost predicate RateHolds(rate: int, window: Window) {
    forall t, tr, key, a, k :: k >= 1 && WellTimed(t, tr) ==> WithinRate(rate, window, tr, key, a, k)
  }

  /** A sweep at the instant 0. */
  function SweepAtOnce(): Event {
    Sweep(_ => 0, 0)
  }

  /** A full burst, a sweep and another full burst, all at one instant. */
  function SweptBursts(rate: int, key: string): seq<Event> {
    Burst(PerWindow(rate), key, 0) + ([SweepAtOnce()] + Burst(PerWindow(rate), key, 0))
  }

  lemma {:induction false} AdmittedConcat(ds: seq<Decision>, more: seq<Decision>, key: string, a: Time, b: Time)
    ensures Admitted(ds + more, key, a, b) == Admitted(ds, key, a, b) + Admitted(more, key, a, b)
  {
    if ds == [] {
      assert ds + more == more;
    } else {
      assert (ds + more)[1..] == ds[1..] + more;
      AdmittedConcat(ds[1..], more, key, a, b);
    }
  }

  lemma OneAdmitted(rate: int, window: Window, vs: Visitors, n: nat, key: string)
    requires n >= 1 && Admits(window, EntryOf(vs, key), 0)
    ensures var vs' := Step(rate, window, vs, Allow(key, 0, 0));
      && After(rate, window, vs, Burst(n, key, 0)) == After(rate, window, vs', Burst(n - 1, key, 0))
      && Admitted(Decisions(rate, window, vs, Burst(n, key, 0)), key, 0, window)
         == 1 + Admitted(Decisions(rate, window, vs', Burst(n - 1, key, 0)), key, 0, window)
  {
    var tr := Burst(n, key, 0);
    assert tr[1..] == Burst(n - 1, key, 0);
    var rest := Decisions(rate, window, Step(rate, window, vs, tr[0]), tr[1..]);
    assert Decisions(rate, window, vs, tr)[1..] == rest;
  }

  /** A burst spends the tokens of a window that is open. */
  lemma {:induction false} BurstSpends(rate: int, window: Window, vs: Visitors, n: nat, key: string)
    requires key in vs && vs[key].lastReset == 0 && n <= Positive(vs[key].tokens)
    ensures var vs' := After(rate, window, vs, Burst(n, key, 0));
      && key in vs' && vs'[key].lastReset == 0
      && Admitted(Decisions(rate, window, vs, Burst(n, key, 0)), key, 0, window) == n
    decreases n
  {
    if n > 0 {
      OneAdmitted(rate, window, vs, n, key);
      BurstSpends(rate, window, Step(rate, window, vs, Allow(key, 0, 0)), n - 1, key);
    }
  }

  lemma FullBurst(rate: int, window: Window, vs: Visitors, key: string)
    requires key !in vs
    ensures var vs' := After(rate, window, vs, Burst(PerWindow(rate), key, 0));
      && key in vs' && vs'[key].lastReset == 0
      && Admitted(Decisions(rate, window, vs, Burst(PerWindow(rate), key, 0)), key, 0, window) == PerWindow(rate)
  {
    OneAdmitted(rate, window, vs, PerWindow(rate), key);
    BurstSpends(rate, window, Step(rate, window, vs, Allow(key, 0, 0)), PerWindow(rate) - 1, key);
  }

  /** If twice the window overflows, a sweep drops even the newest entry, and a second burst is let in. */
  lemma SweepLetsMoreIn(rate: int, window: Window, key: string)
    requires !Doubles(window)
    ensures Admitted(Decisions(rate, window, map[], SweptBursts(rate, key)), key, 0, window) == 2 * PerWindow(rate)
  {
    var burst := Burst(PerWindow(rate), key, 0);
    var full := After(rate, window, map[], burst);
    var swept := Step(rate, window, full, SweepAtOnce());
    FullBurst(rate, window, map[], key);
    assert MaxAge(window) < 0 && key !in swept;
    FullBurst(rate, window, swept, key);
    assert ([SweepAtOnce()] + burst)[1..] == burst;
    DecisionsConcat(rate, window, map[], burst, [SweepAtOnce()] + burst);
    AdmittedConcat(Decisions(rate, window, map[], burst), Decisions(rate, window, swept, burst), key, 0, window);
  }

  lemma {:induction false} BurstIsTimed(n: nat, key: string, rest: seq<Event>)
    requires WellTimed(0, rest)
    ensures WellTimed(0, Burst(n, key, 0) + rest)
  {
    if n == 0 {
      assert Burst(n, key, 0) + rest == rest;
    } else {
      assert (Burst(n, key, 0) + rest)[1..] == Burst(n - 1, key, 0) + rest;
      BurstIsTimed(n - 1, key, rest);
    }
  }

  lemma SweptBurstsAreTimed(rate: int, key: string)
    ensures WellTimed(0, SweptBursts(rate, key))
  {
    var burst := Burst(PerWindow(rate), key, 0);
    BurstIsTimed(PerWindow(rate), key, []);
    assert burst + [] == burst && ([SweepAtOnce()] + burst)[1..] == burst;
    BurstIsTimed(PerWindow(rate), key, [SweepAtOnce()] + burst);
  }

  lemma {:induction false} WithoutSweeps(t: Time, tr: seq<Event>)
    requires WellTimed(t, tr)
    ensures forall t0 :: t0 <= t ==> WellTimed(t0, NoSweeps(tr))
    ensures forall i :: 0 <= i < |NoSweeps(tr)| ==> NoSweeps(tr)[i].Allow?
    decreases |tr|
  {
    if tr != [] {
      WithoutSweeps(if tr[0].Allow? then tr[0].stamp else tr[0].end, tr[1..]);
      if tr[0].Allow? { assert NoSweeps(tr)[1..] == NoSweeps(tr[1..]); }
    }
  }

  /** What the limiter promises - invisible sweeps, keys that do not affect each other, the rate bound -
      holds exactly for the windows whose double fits in an int64. */
  lemma PromisesHoldExactlyIfItDoubles(rate: int, window: Window)
    ensures SweepsAreInvisible(rate, window) <==> Doubles(window)
    ensures KeysDecideAlone(rate, window) <==> Doubles(window)
    ensures RateHolds(rate, window) <==> Doubles(window)
  {
    if Doubles(window) {
      PromisesHold(rate, window);
    } else {
      PromisesBreak(rate, window);
    }
  }

  lemma PromisesHold(rate: int, window: Window)
    requires Doubles(window)
    ensures SweepsAreInvisible(rate, window) && KeysDecideAlone(rate, window) && RateHolds(rate, window)
  {
    forall t, tr | WellTimed(t, tr)
      ensures Decisions(rate, window, map[], tr) == Decisions(rate, window, map[], NoSweeps(tr))
    {
      CleanupIsInvisible(rate, window, t, tr);
    }
    forall t, tr, key | WellTimed(t, tr) ensures DecidesAlone(rate, window, tr, key) {
      KeysAreIndependent(rate, window, t, tr, key);
    }
    forall t, tr, key, a, k: nat | k >= 1 && WellTimed(t, tr) ensures WithinRate(rate, window, tr, key, a, k) {
      RateIsBounded(rate, window, t, tr, key, a, k);
    }
  }

  lemma PromisesBreak(rate: int, window: Window)
    requires !Doubles(window)
    ensures !SweepsAreInvisible(rate, window) && !KeysDecideAlone(rate, window) && !RateHolds(rate, window)
  {
    var key := "";
    var tr := SweptBursts(rate, key);
    SweptBurstsAreTimed(rate, key);
    SweepLetsMoreIn(rate, window, key);
    assert 1 * window == window;
    assert !WithinRate(rate, window, tr, key, 0, 1);
    WithoutSweeps(0, tr);
    RateIsBounded(rate, window, 0, NoSweeps(tr), key, 0, 1);
    AloneNeedsOnlyItsOwn(rate, window, 0, None, tr, key);
    RateIsBounded(rate, window, 0, Only(tr, key), key, 0, 1);
    CountOwn(Decisions(rate, window, map[], tr), key, 0, window);
    CountOwn(Decisions(rate, window, map[], Only(tr, key)), key, 0, window);
    assert !DecidesAlone(rate, window, tr, key);
  }
}
