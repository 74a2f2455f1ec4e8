/** The per-client rate limiter: a token window per key and a sweep that drops stale windows. */
module RateLimiter {
  import opened Types

  datatype Visitor = Visitor(tokens: int, lastReset: Time)

  type Visitors = map<string, Visitor>

  /** A request reads the clock once to test the window (`now`) and once more to stamp a
      new one (`stamp`); a sweep reads it afresh for every entry it visits. */
  datatype Event =
    | Allow(key: string, now: Time, stamp: Time)
    | Sweep(clock: string -> Time, end: Time)

  /** The clock never runs backwards from `t` on. */
  ghost predicate WellTimed(t: Time, tr: seq<Event>)
    decreases |tr|
  {
    tr == [] ||
    match tr[0]
    case Allow(_, now, stamp) => t <= now <= stamp && WellTimed(stamp, tr[1..])
    case Sweep(clock, end) => t <= end && (forall key :: t <= clock(key) <= end) && WellTimed(end, tr[1..])
  }

  predicate Expired(window: Duration, v: Visitor, now: Time) {
    now - v.lastReset > window
  }

  predicate Resets(window: Duration, v: Option<Visitor>, now: Time) {
    v.None? || Expired(window, v.value, now)
  }

  predicate Admits(window: Duration, v: Option<Visitor>, now: Time) {
    Resets(window, v, now) || v.value.tokens > 0
  }

  function Served(rate: int, window: Duration, v: Option<Visitor>, now: Time, stamp: Time): Visitor {
    if Resets(window, v, now) then Visitor(rate - 1, stamp)
    else if v.value.tokens <= 0 then v.value
    else v.value.(tokens := v.value.tokens - 1)
  }

  function EntryOf(vs: Visitors, key: string): Option<Visitor> {
    if key in vs then Some(vs[key]) else None
  }

  /** The age beyond which a sweep drops an entry: twice the window, computed in int64. */
  function MaxAge(window: Duration): int {
    WrapInt64(2 * window)
  }

  /** Twice the window still fits in an int64. */
  predicate Doubles(window: Duration) {
    window <= MAX_INT64 / 2
  }

  function Swept(window: Duration, vs: Visitors, clock: string -> Time): Visitors {
    map key | key in vs && clock(key) - vs[key].lastReset <= MaxAge(window) :: vs[key]
  }

  function Step(rate: int, window: Duration, vs: Visitors, e: Event): Visitors {
    match e
    case Allow(key, now, stamp) => vs[key := Served(rate, window, EntryOf(vs, key), now, stamp)]
    case Sweep(clock, _) => Swept(window, vs, clock)
  }

  class RateLimiter {
    var visitors: Visitors
    const rate: int
    const window: Duration

    constructor (rate: int, window: Duration)
      ensures this.rate == rate && this.window == window && visitors == map[]
    {
      this.rate, this.window := rate, window;
      visitors := map[];
    }

    method Allow(ip: string, now: Time, stamp: Time) returns (ok: bool)
      modifies this
      ensures visitors == Step(rate, window, old(visitors), Event.Allow(ip, now, stamp))
      ensures ok == Admits(window, EntryOf(old(visitors), ip), now)
    {
      if ip !in visitors || now - visitors[ip].lastReset > window {
        visitors := visitors[ip := Visitor(rate - 1, stamp)];
        return true;
      }
      var v := visitors[ip];
      if v.tokens <= 0 {
        assert visitors == visitors[ip := v];
        return false;
      }
      visitors := visitors[ip := v.(tokens := v.tokens - 1)];
      ok := true;
    }

    /** One tick of the background sweep; the map is visited in no particular order. */
    method Cleanup(clock: string -> Time)
      modifies this
      ensures visitors == Swept(window, old(visitors), clock)
      ensures -MAX_INT64 / 2 <= window <= MAX_INT64 / 2 ==> forall key ::
        if key in old(visitors) && !(clock(key) - old(visitors)[key].lastReset > 2 * window)
        then key in visitors && visitors[key] == old(visitors)[key]
        else key !in visitors
    {
      var todo := visitors.Keys;
      while todo != {}
        invariant todo <= visitors.Keys <= old(visitors).Keys
        invariant forall key :: key in visitors ==> visitors[key] == old(visitors)[key]
        invariant forall key :: key in old(visitors) && key !in todo ==>
          (key in visitors <==> clock(key) - old(visitors)[key].lastReset <= MaxAge(window))
        decreases todo
      {
        var ip :| ip in todo;
        if clock(ip) - visitors[ip].lastReset > MaxAge(window) {
          visitors := visitors - {ip};
        }
        todo := todo - {ip};
      }
    }
  }

  // ---- Runs ----

  datatype Decision = Decision(key: string, now: Time, admitted: bool, reset: bool)

  function Decide(window: Duration, v: Option<Visitor>, key: string, now: Time): Decision {
    Decision(key, now, Admits(window, v, now), Resets(window, v, now))
  }

  function Decisions(rate: int, window: Duration, vs: Visitors, tr: seq<Event>): seq<Decision>
    decreases |tr|
  {
    if tr == [] then [] else
    var rest := Decisions(rate, window, Step(rate, window, vs, tr[0]), tr[1..]);
    if tr[0].Allow? then [Decide(window, EntryOf(vs, tr[0].key), tr[0].key, tr[0].now)] + rest else rest
  }

  function After(rate: int, window: Duration, vs: Visitors, tr: seq<Event>): Visitors
    decreases |tr|
  {
    if tr == [] then vs else After(rate, window, Step(rate, window, vs, tr[0]), tr[1..])
  }

  function For(ds: seq<Decision>, key: string): seq<Decision> {
    if ds == [] then [] else if ds[0].key == key then [ds[0]] + For(ds[1..], key) else For(ds[1..], key)
  }

  ghost predicate OnlyAsks(es: seq<Event>) {
    forall i :: 0 <= i < |es| ==> es[i].Allow?
  }

  function NoSweeps(tr: seq<Event>): (es: seq<Event>)
    ensures OnlyAsks(es)
  {
    if tr == [] then [] else if tr[0].Allow? then [tr[0]] + NoSweeps(tr[1..]) else NoSweeps(tr[1..])
  }

  function Only(tr: seq<Event>, key: string): (es: seq<Event>)
    ensures OnlyAsks(es)
  {
    if tr == [] then [] else if tr[0].Allow? && tr[0].key == key then [tr[0]] + Only(tr[1..], key)
    else Only(tr[1..], key)
  }

  /** Admissions of `key` at times in the closed interval [from, to]. */
  function Admitted(ds: seq<Decision>, key: string, from: Time, to: Time): nat {
    if ds == [] then 0 else
    (if ds[0].key == key && ds[0].admitted && from <= ds[0].now <= to then 1 else 0) + Admitted(ds[1..], key, from, to)
  }

  // ---- The sweep is invisible ----

  /** The sweeps of this trace, if there are any, drop only entries older than a window. */
  ghost predicate SparesLive(window: Duration, tr: seq<Event>) {
    Doubles(window) || forall i :: 0 <= i < |tr| ==> tr[i].Allow?
  }

  /** `swept` is `kept` less some entries that the next request would reset anyway. */
  ghost predicate Forgets(window: Duration, t: Time, swept: Visitors, kept: Visitors) {
    && (forall key :: key in swept ==> key in kept && swept[key] == kept[key])
    && (forall key :: key in kept && key !in swept ==> Expired(window, kept[key], t))
    && (forall key :: key in kept ==> kept[key].lastReset <= t)
  }

  lemma {:induction false} ForgettingIsInvisible(rate: int, window: Duration, t: Time, swept: Visitors, kept: Visitors,
        tr: seq<Event>)
    requires Doubles(window) && WellTimed(t, tr) && Forgets(window, t, swept, kept)
    ensures Decisions(rate, window, swept, tr) == Decisions(rate, window, kept, NoSweeps(tr))
    decreases |tr|
  {
    if tr != [] {
      var e, rest := tr[0], NoSweeps(tr[1..]);
      if e.Allow? {
        assert NoSweeps(tr) == [e] + rest;
        ForgettingIsInvisible(rate, window, e.stamp, Step(rate, window, swept, e), Step(rate, window, kept, e),
                              tr[1..]);
      } else {
        ForgettingIsInvisible(rate, window, e.end, Step(rate, window, swept, e), kept, tr[1..]);
      }
    }
  }

  /** Sweeps inserted anywhere, even mid-traffic, change no decision, as long as twice the window
      can be computed. */
  lemma CleanupIsInvisible(rate: int, window: Duration, t: Time, tr: seq<Event>)
    requires Doubles(window) && WellTimed(t, tr)
    ensures Decisions(rate, window, map[], tr) == Decisions(rate, window, map[], NoSweeps(tr))
  {
    ForgettingIsInvisible(rate, window, t, map[], map[], tr);
  }

  // ---- One key on its own ----

  /** What a limiter that serves only `key` decides. */
  function Alone(rate: int, window: Duration, v: Option<Visitor>, tr: seq<Event>, key: string): seq<Decision>
    decreases |tr|
  {
    if tr == [] then []
    else if tr[0].Allow? && tr[0].key == key then
      [Decide(window, v, key, tr[0].now)] +
      Alone(rate, window, Some(Served(rate, window, v, tr[0].now, tr[0].stamp)), tr[1..], key)
    else Alone(rate, window, v, tr[1..], key)
  }

  lemma {:induction false} SharedIsAlone(rate: int, window: Duration, t: Time, vs: Visitors, v: Option<Visitor>,
        tr: seq<Event>, key: string)
    requires WellTimed(t, tr) && SparesLive(window, tr)
    requires v.Some? ==> v.value.lastReset <= t
    requires if key in vs then v == Some(vs[key]) else Resets(window, v, t)
    ensures For(Decisions(rate, window, vs, tr), key) == Alone(rate, window, v, tr, key)
    decreases |tr|
  {
    if tr != [] {
      var e := tr[0];
      var vs' := Step(rate, window, vs, e);
      var rest := Decisions(rate, window, vs', tr[1..]);
      if e.Allow? {
        var d := Decide(window, EntryOf(vs, e.key), e.key, e.now);
        assert ([d] + rest)[1..] == rest;
        var v' := if e.key == key then Some(Served(rate, window, v, e.now, e.stamp)) else v;
        SharedIsAlone(rate, window, e.stamp, vs', v', tr[1..], key);
      } else {
        SharedIsAlone(rate, window, e.end, vs', v, tr[1..], key);
      }
    }
  }

  lemma {:induction false} AloneNeedsOnlyItsOwn(rate: int, window: Duration, t: Time, v: Option<Visitor>,
        tr: seq<Event>,
        key: string)
    requires WellTimed(t, tr)
    ensures Alone(rate, window, v, tr, key) == Alone(rate, window, v, Only(tr, key), key)
    ensures forall t0 :: t0 <= t ==> WellTimed(t0, Only(tr, key))
    ensures forall i :: 0 <= i < |Only(tr, key)| ==> Only(tr, key)[i].Allow?
    decreases |tr|
  {
    if tr != [] {
      var e := tr[0];
      var v' := if e.Allow? && e.key == key then Some(Served(rate, window, v, e.now, e.stamp)) else v;
      AloneNeedsOnlyItsOwn(rate, window, if e.Allow? then e.stamp else e.end, v', tr[1..], key);
      if e.Allow? && e.key == key {
        assert Only(tr, key)[1..] == Only(tr[1..], key);
      }
    }
  }

  /** The decisions for a key depend on that key's requests alone, however other keys
      and sweeps are mixed in. */
  lemma KeysAreIndependent(rate: int, window: Duration, t: Time, tr: seq<Event>, key: string)
    requires WellTimed(t, tr) && SparesLive(window, tr)
    ensures For(Decisions(rate, window, map[], tr), key) == For(Decisions(rate, window, map[], Only(tr, key)), key)
  {
    AloneNeedsOnlyItsOwn(rate, window, t, None, tr, key);
    SharedIsAlone(rate, window, t, map[], None, tr, key);
    SharedIsAlone(rate, window, t, map[], None, Only(tr, key), key);
  }

  // ---- Tokens count admissions ----

  /** Admissions of `key` since, and including, its last window reset. */
  function SinceReset(ds: seq<Decision>, key: string): nat {
    if ds == [] then 0 else
    var d, before := ds[|ds| - 1], SinceReset(ds[..|ds| - 1], key);
    if d.key != key || !d.admitted then before else if d.reset then 1 else before + 1
  }

  ghost predicate TokensMatch(rate: int, vs: Visitors, ds: seq<Decision>) {
    forall key :: key in vs ==>
      vs[key].tokens == rate - SinceReset(ds, key) && (rate >= 1 ==> 0 <= vs[key].tokens <= rate - 1)
  }

  lemma OneDecisionMatches(rate: int, window: Duration, vs: Visitors, ds: seq<Decision>, key: string, now: Time,
        stamp: Time)
    requires TokensMatch(rate, vs, ds)
    ensures TokensMatch(rate, Step(rate, window, vs, Allow(key, now, stamp)),
                        ds + [Decide(window, EntryOf(vs, key), key, now)])
  {}

  lemma {:induction false} TokensKeepMatching(rate: int, window: Duration, vs: Visitors, ds: seq<Decision>,
        tr: seq<Event>)
    requires TokensMatch(rate, vs, ds)
    ensures TokensMatch(rate, After(rate, window, vs, tr), ds + Decisions(rate, window, vs, tr))
    decreases |tr|
  {
    if tr == [] {
      assert ds + [] == ds;
    } else {
      var vs' := Step(rate, window, vs, tr[0]);
      if tr[0].Allow? {
        var d := Decide(window, EntryOf(vs, tr[0].key), tr[0].key, tr[0].now);
        OneDecisionMatches(rate, window, vs, ds, tr[0].key, tr[0].now, tr[0].stamp);
        TokensKeepMatching(rate, window, vs', ds + [d], tr[1..]);
        var rest := Decisions(rate, window, vs', tr[1..]);
        assert Decisions(rate, window, vs, tr) == [d] + rest;
        assert ds + [d] + rest == ds + ([d] + rest);
      } else {
        TokensKeepMatching(rate, window, vs', ds, tr[1..]);
      }
    }
  }

  /** After any trace a key holds `rate` less its admissions since its last reset. */
  lemma TokensCountAdmissions(rate: int, window: Duration, tr: seq<Event>)
    ensures TokensMatch(rate, After(rate, window, map[], tr), Decisions(rate, window, map[], tr))
  {
    TokensKeepMatching(rate, window, map[], [], tr);
    assert [] + Decisions(rate, window, map[], tr) == Decisions(rate, window, map[], tr);
  }

  // ---- Each decision, read off the trace ----

  lemma {:induction false} DecisionsConcat(rate: int, window: Duration, vs: Visitors, tr: seq<Event>, more: seq<Event>)
    ensures Decisions(rate, window, vs, tr + more)
      == Decisions(rate, window, vs, tr) + Decisions(rate, window, After(rate, window, vs, tr), more)
    decreases |tr|
  {
    if tr == [] {
      assert tr + more == more;
    } else {
      assert (tr + more)[1..] == tr[1..] + more;
      DecisionsConcat(rate, window, Step(rate, window, vs, tr[0]), tr[1..], more);
    }
  }

  /** A request at `now` opens a window: its key has none, or more than one window has passed since the
      last one was opened. */
  predicate Opens(window: Duration, since: Option<Time>, now: Time) {
    since.None? || now - since.value > window
  }

  /** When the last window was opened in these requests of one key: the stamp of the request that did. */
  function OpenedAt(window: Duration, own: seq<Event>): Option<Time>
    requires OnlyAsks(own)
  {
    if own == [] then None
    else
      var before, e := OpenedAt(window, own[..|own| - 1]), own[|own| - 1];
      if Opens(window, before, e.now) then Some(e.stamp) else before
  }

  /** The requests of one key since then, the one that opened the window included. */
  function SinceOpening(window: Duration, own: seq<Event>): nat
    requires OnlyAsks(own)
  {
    if own == [] then 0
    else if Opens(window, OpenedAt(window, own[..|own| - 1]), own[|own| - 1].now) then 1
    else SinceOpening(window, own[..|own| - 1]) + 1
  }

  lemma {:induction false} AfterSnoc(rate: int, window: Duration, vs: Visitors, tr: seq<Event>, e: Event)
    ensures After(rate, window, vs, tr + [e]) == Step(rate, window, After(rate, window, vs, tr), e)
    decreases |tr|
  {
    if tr == [] {
      assert ([] + [e])[1..] == [];
    } else {
      assert (tr + [e])[1..] == tr[1..] + [e];
      AfterSnoc(rate, window, Step(rate, window, vs, tr[0]), tr[1..], e);
    }
  }

  lemma {:induction false} OnlySnoc(tr: seq<Event>, e: Event, key: string)
    ensures Only(tr + [e], key) == Only(tr, key) + if e.Allow? && e.key == key then [e] else []
  {
    if tr == [] {
      assert ([] + [e])[1..] == [];
    } else {
      assert (tr + [e])[1..] == tr[1..] + [e];
      OnlySnoc(tr[1..], e, key);
    }
  }

  /** The entry holds the time that the last window was opened at and what is left of it. */
  ghost predicate EntryIs(rate: int, window: Duration, v: Option<Visitor>, own: seq<Event>)
    requires OnlyAsks(own)
  {
    var asked := SinceOpening(window, own);
    && (v.None? <==> own == [])
    && (v.Some? ==>
         && OpenedAt(window, own) == Some(v.value.lastReset)
         && if asked < rate then v.value.tokens == rate - asked else v.value.tokens <= 0)
  }

  lemma ServedIs(rate: int, window: Duration, v: Option<Visitor>, own: seq<Event>, e: Event)
    requires OnlyAsks(own) && EntryIs(rate, window, v, own) && e.Allow?
    ensures EntryIs(rate, window, Some(Served(rate, window, v, e.now, e.stamp)), own + [e])
  {
    assert (own + [e])[..|own|] == own;
  }

  /** The entry of a key is what its requests made of it. */
  lemma {:induction false} EntryIsReadOff(rate: int, window: Duration, es: seq<Event>, key: string)
    requires OnlyAsks(es)
    ensures EntryIs(rate, window, EntryOf(After(rate, window, map[], es), key), Only(es, key))
    decreases |es|
  {
    if es != [] {
      var before, e := es[..|es| - 1], es[|es| - 1];
      assert es == before + [e] && e.Allow?;
      EntryIsReadOff(rate, window, before, key);
      AfterSnoc(rate, window, map[], before, e);
      OnlySnoc(before, e, key);
      if e.key == key {
        ServedIs(rate, window, EntryOf(After(rate, window, map[], before), key), Only(before, key), e);
      } else {
        assert Only(es, key) == Only(before, key);
      }
    }
  }

  lemma DecisionAt(rate: int, window: Duration, es: seq<Event>, m: nat)
    requires OnlyAsks(es) && m < |es|
    ensures m < |Decisions(rate, window, map[], es)|
    ensures Decisions(rate, window, map[], es)[m]
      == Decide(window, EntryOf(After(rate, window, map[], es[..m]), es[m].key), es[m].key, es[m].now)
  {
    assert es == es[..m] + es[m..];
    DecisionsConcat(rate, window, map[], es[..m], es[m..]);
    AllDecided(rate, window, map[], es[..m]);
  }

  lemma {:induction false} AllDecided(rate: int, window: Duration, vs: Visitors, es: seq<Event>)
    requires OnlyAsks(es)
    ensures |Decisions(rate, window, vs, es)| == |es|
    decreases |es|
  {
    if es != [] { AllDecided(rate, window, Step(rate, window, vs, es[0]), es[1..]); }
  }

  lemma {:induction false} NothingToSkip(tr: seq<Event>)
    ensures OnlyAsks(tr) ==> NoSweeps(tr) == tr
  {
    if tr != [] { NothingToSkip(tr[1..]); }
  }

  /** Every decision, exactly: a request is admitted if and only if its key has not asked before, or more
      than one window has passed since its last window was opened, or it has asked fewer than `rate`
      times since then. Refusals count for nothing else: they neither renew nor prolong a window. */
  lemma DecidedExactly(rate: int, window: Duration, t: Time, tr: seq<Event>, m: nat)
    requires WellTimed(t, tr) && SparesLive(window, tr) && m < |NoSweeps(tr)|
    ensures m < |Decisions(rate, window, map[], tr)|
    ensures var e, d := NoSweeps(tr)[m], Decisions(rate, window, map[], tr)[m];
      var own := Only(NoSweeps(tr)[..m], e.key);
      && d.key == e.key && d.now == e.now && (d.reset <==> Opens(window, OpenedAt(window, own), e.now))
      && (d.admitted <==>
           own == [] || e.now - OpenedAt(window, own).value > window || SinceOpening(window, own) < rate)
  {
    var es := NoSweeps(tr);
    NothingToSkip(tr);
    if Doubles(window) { CleanupIsInvisible(rate, window, t, tr); }
    DecisionAt(rate, window, es, m);
    EntryIsReadOff(rate, window, es[..m], es[m].key);
  }

  /** A refused request leaves no trace: without it, every other decision is the same. */
  lemma RefusalsLeaveNoTrace(rate: int, window: Duration, tr: seq<Event>, k: nat)
    requires k < |tr| && tr[k].Allow?
    requires var m := |Decisions(rate, window, map[], tr[..k])|;
      m < |Decisions(rate, window, map[], tr)| && !Decisions(rate, window, map[], tr)[m].admitted
    ensures var m, ds := |Decisions(rate, window, map[], tr[..k])|, Decisions(rate, window, map[], tr);
      Decisions(rate, window, map[], tr[..k] + tr[k + 1..]) == ds[..m] + ds[m + 1..]
  {
    var vs := After(rate, window, map[], tr[..k]);
    assert tr == tr[..k] + tr[k..] && tr[k..][1..] == tr[k + 1..];
    DecisionsConcat(rate, window, map[], tr[..k], tr[k..]);
    DecisionsConcat(rate, window, map[], tr[..k], tr[k + 1..]);
    var v := EntryOf(vs, tr[k].key);
    assert !Admits(window, v, tr[k].now);
    assert Step(rate, window, vs, tr[k]) == vs;
  }
}
