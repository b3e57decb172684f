/** The distributed fixed-window rate limiter: one atomic upsert per request on a stored counter, and
    a purge of expired counters at any moment. */
module RateLimit {
  import opened Tables

  datatype Counter = Counter(count: nat, expiresAt: Instant)

  /** RATE_LIMIT_MAX and RATE_LIMIT_WINDOW_MS; the environment is only accepted when positive. */
  datatype Limits = Limits(max: nat, window: nat)

  predicate Configured(l: Limits) {
    l.max > 0 && l.window > 0
  }

  datatype Event =
    | Request(key: Id, now: Instant, dbUp: bool)
    | Purge(now: Instant)

  /** INSERT ... ON CONFLICT DO UPDATE: a counter past its expiry starts again at 1. */
  function Upsert(l: Limits, table: map<Id, Counter>, key: Id, now: Instant): map<Id, Counter> {
    table[key := if key in table && table[key].expiresAt >= now
                 then Counter(table[key].count + 1, table[key].expiresAt)
                 else Counter(1, now + l.window)]
  }

  function Purged(table: map<Id, Counter>, now: Instant): map<Id, Counter> {
    map k | k in table && table[k].expiresAt >= now :: table[k]
  }

  /** The counters after one event; `purging` says whether purges are carried out. */
  function Step(l: Limits, purging: bool, table: map<Id, Counter>, e: Event): map<Id, Counter> {
    match e
    case Request(key, now, dbUp) => if dbUp then Upsert(l, table, key, now) else table
    case Purge(now) => if purging then Purged(table, now) else table
  }

  function Run(l: Limits, purging: bool, trace: seq<Event>): map<Id, Counter>
    decreases |trace|
  {
    if |trace| == 0 then map[]
    else Step(l, purging, Run(l, purging, trace[..|trace| - 1]), trace[|trace| - 1])
  }

  /** Whether a request arriving at these counters is let through; a database failure lets it
      through uncounted. */
  function Passes(l: Limits, table: map<Id, Counter>, e: Event): bool
    requires e.Request?
  {
    e.dbUp ==> Upsert(l, table, e.key, e.now)[e.key].count <= l.max
  }

  class Limiter {
    const limits: Limits
    var table: map<Id, Counter>

    constructor (limits: Limits)
      ensures this.limits == limits && table == map[]
    {
      this.limits, table := limits, map[];
    }

    method IsRateLimited(key: Id, now: Instant, dbUp: bool) returns (limited: bool)
      modifies this`table
      ensures table == Step(limits, true, old(table), Request(key, now, dbUp))
      ensures limited == !Passes(limits, old(table), Request(key, now, dbUp))
    {
      if !dbUp { return false; }
      var expiresAt := now + limits.window;
      var count := 1;
      if key in table {
        var row := table[key];
        count := if row.expiresAt < now then 1 else row.count + 1;
        table := table[key := Counter(count, if row.expiresAt < now then expiresAt else row.expiresAt)];
      } else {
        table := table[key := Counter(1, expiresAt)];
      }
      return count > limits.max;
    }

    /** DELETE ... WHERE "expiresAt" < NOW(), returning the number of rows deleted. */
    method PurgeExpired(now: Instant) returns (deleted: nat)
      modifies this`table
      ensures table == Step(limits, true, old(table), Purge(now))
      ensures deleted + |table| == |old(table)|
    {
      var left := table.Keys;
      deleted := 0;
      while left != {}
        invariant left <= old(table).Keys && left <= table.Keys <= old(table).Keys
        invariant forall k :: k in table ==> table[k] == old(table)[k]
        invariant forall k :: k in old(table) && k !in left ==> (k in table <==> old(table)[k].expiresAt >= now)
        invariant deleted + |table| == |old(table)|
        decreases left
      {
        var k :| k in left;
        left := left - {k};
        if table[k].expiresAt < now {
          assert (table - {k}).Keys == table.Keys - {k};
          assert |table.Keys| == |table| && |(table - {k}).Keys| == |table - {k}|;
          table := table - {k};
          deleted := deleted + 1;
        }
      }
    }
  }

  // ----- Purging is invisible

  ghost predicate Ordered(trace: seq<Event>) {
    forall i, j :: 0 <= i < j < |trace| ==> trace[i].now <= trace[j].now
  }

  /** Equal but for counters that have expired. */
  ghost predicate AgreeFrom(a: map<Id, Counter>, b: map<Id, Counter>, now: Instant) {
    && (forall k :: k in a ==> k in b && a[k] == b[k])
    && forall k :: k in b && k !in a ==> b[k].expiresAt < now
  }

  lemma {:induction false} PurgesOnlyDropExpired(l: Limits, trace: seq<Event>, now: Instant)
    requires Ordered(trace) && (|trace| > 0 ==> trace[|trace| - 1].now <= now)
    ensures AgreeFrom(Run(l, true, trace), Run(l, false, trace), now)
    decreases |trace|
  {
    if |trace| > 0 {
      PurgesOnlyDropExpired(l, trace[..|trace| - 1], trace[|trace| - 1].now);
    }
  }

  /** Whatever the moments of the purges, every request gets the answer it would get without them. */
  lemma PurgeIsInvisible(l: Limits, trace: seq<Event>, i: nat)
    requires Ordered(trace) && i < |trace| && trace[i].Request?
    ensures Passes(l, Run(l, true, trace[..i]), trace[i]) == Passes(l, Run(l, false, trace[..i]), trace[i])
  {
    PurgesOnlyDropExpired(l, trace[..i], trace[i].now);
  }

  // ----- How many pass

  /** Counted requests of a key that pass at an instant of [from, to]. */
  function PassedIn(l: Limits, purging: bool, trace: seq<Event>, key: Id, from: int, to: int): nat
    decreases |trace|
  {
    if |trace| == 0 then 0
    else
      var before, e := trace[..|trace| - 1], trace[|trace| - 1];
      PassedIn(l, purging, before, key, from, to)
      + if e.Request? && e.dbUp && e.key == key && from <= e.now <= to && Passes(l, Run(l, purging, before), e)
        then 1 else 0
  }

  /** Every request of a key that is not answered 429 at an instant of [from, to], counted or not. */
  function LetThrough(l: Limits, trace: seq<Event>, key: Id, from: int, to: int): nat
    decreases |trace|
  {
    if |trace| == 0 then 0
    else
      var before, e := trace[..|trace| - 1], trace[|trace| - 1];
      LetThrough(l, before, key, from, to)
      + if e.Request? && e.key == key && from <= e.now <= to && Passes(l, Run(l, true, before), e) then 1 else 0
  }

  /** Requests of a key that met a database failure at an instant of [from, to]. */
  function Uncounted(trace: seq<Event>, key: Id, from: int, to: int): nat
    decreases |trace|
  {
    if |trace| == 0 then 0
    else
      var before, e := trace[..|trace| - 1], trace[|trace| - 1];
      Uncounted(before, key, from, to) + if e.Request? && !e.dbUp && e.key == key && from <= e.now <= to then 1 else 0
  }

  /** What is let through beyond the counted requests is exactly what met a database failure. */
  lemma {:induction false} LetThroughIs(l: Limits, trace: seq<Event>, key: Id, from: int, to: int)
    ensures LetThrough(l, trace, key, from, to)
            == PassedIn(l, true, trace, key, from, to) + Uncounted(trace, key, from, to)
    decreases |trace|
  {
    if |trace| > 0 {
      LetThroughIs(l, trace[..|trace| - 1], key, from, to);
    }
  }

  function Min(a: nat, b: nat): nat {
    if a <= b then a else b
  }

  /** The current window of a key and what passed in it: exactly the first `max` requests. */
  ghost predicate WindowCounted(l: Limits, trace: seq<Event>, key: Id) {
    var table := Run(l, false, trace);
    key in table ==>
      && table[key].count > 0
      && l.window <= table[key].expiresAt <= trace[|trace| - 1].now + l.window
      && PassedIn(l, false, trace, key, table[key].expiresAt - l.window, table[key].expiresAt)
         == Min(table[key].count, l.max)
  }

  lemma {:induction false} NonePassedAfter(l: Limits, purging: bool, trace: seq<Event>, key: Id, from: int, to: int)
    requires forall i :: 0 <= i < |trace| ==> trace[i].now < from
    ensures PassedIn(l, purging, trace, key, from, to) == 0
    decreases |trace|
  {
    if |trace| > 0 {
      NonePassedAfter(l, purging, trace[..|trace| - 1], key, from, to);
    }
  }

  lemma {:induction false} EachWindowIsCounted(l: Limits, trace: seq<Event>, key: Id)
    requires Configured(l) && Ordered(trace)
    ensures key in Run(l, false, trace) ==> |trace| > 0
    ensures WindowCounted(l, trace, key)
    decreases |trace|
  {
    if |trace| > 0 {
      var before, e := trace[..|trace| - 1], trace[|trace| - 1];
      EachWindowIsCounted(l, before, key);
      var table := Run(l, false, before);
      if e.Request? && e.dbUp && e.key == key && !(key in table && table[key].expiresAt >= e.now) {
        NonePassedBefore(l, before, key, e.now, e.now + l.window);
      }
    }
  }

  /** Requests at the very instant a window opens were counted by no earlier window. */
  lemma {:induction false} NonePassedBefore(l: Limits, trace: seq<Event>, key: Id, now: Instant, to: int)
    requires Configured(l) && Ordered(trace) && (|trace| > 0 ==> trace[|trace| - 1].now <= now)
    requires var table := Run(l, false, trace); !(key in table && table[key].expiresAt >= now)
    ensures PassedIn(l, false, trace, key, now, to) == 0
    decreases |trace|
  {
    if |trace| > 0 {
      var before, e := trace[..|trace| - 1], trace[|trace| - 1];
      if e.now < now {
        NonePassedAfter(l, false, trace, key, now, to);
      } else {
        NonePassedBefore(l, before, key, now, to);
      }
    }
  }

  /** What can have passed in [from, from + window], by where the current window of the key lies. */
  ghost predicate IntervalBounded(l: Limits, trace: seq<Event>, key: Id, from: int) {
    var table := Run(l, false, trace);
    var passed := PassedIn(l, false, trace, key, from, from + l.window);
    if key !in table then passed == 0
    else
      var start := table[key].expiresAt - l.window;
      if start < from then passed < Min(table[key].count, l.max)
      else if start <= from + l.window then passed < l.max + Min(table[key].count, l.max)
      else passed < 2 * l.max
  }

  lemma {:induction false} IntervalsAreBounded(l: Limits, trace: seq<Event>, key: Id, from: int)
    requires Configured(l) && Ordered(trace)
    ensures IntervalBounded(l, trace, key, from)
    decreases |trace|
  {
    if |trace| > 0 {
      var before := trace[..|trace| - 1];
      if trace[|trace| - 1].now < from {
        NonePassedAfter(l, false, trace, key, from, from + l.window);
        NonePassedAfter(l, false, before, key, from, from + l.window);
      }
      IntervalsAreBounded(l, before, key, from);
      EachWindowIsCounted(l, before, key);
      EachWindowIsCounted(l, trace, key);
    }
  }

  lemma {:induction false} SamePassed(l: Limits, trace: seq<Event>, key: Id, from: int, to: int)
    requires Ordered(trace)
    ensures PassedIn(l, true, trace, key, from, to) == PassedIn(l, false, trace, key, from, to)
    decreases |trace|
  {
    if |trace| > 0 {
      SamePassed(l, trace[..|trace| - 1], key, from, to);
      if trace[|trace| - 1].Request? { PurgeIsInvisible(l, trace, |trace| - 1); }
    }
  }

  /** Over every non-decreasing trace, with purges at arbitrary moments: at most `max` counted requests
      of a key pass in its window, and fewer than 2 * max in any closed interval as long as a window,
      because the request that opens a window is at least one window away from the next one. Only
      requests that met a database failure are let through beyond that. */
  lemma FewerThanTwiceMax(l: Limits, trace: seq<Event>, key: Id, from: int)
    requires Configured(l) && Ordered(trace)
    ensures PassedIn(l, true, trace, key, from, from + l.window) < 2 * l.max
    ensures LetThrough(l, trace, key, from, from + l.window)
            < 2 * l.max + Uncounted(trace, key, from, from + l.window)
    ensures var table := Run(l, true, trace);
            key in table ==>
              PassedIn(l, true, trace, key, table[key].expiresAt - l.window, table[key].expiresAt)
              == Min(table[key].count, l.max)
  {
    LetThroughIs(l, trace, key, from, from + l.window);
    SamePassed(l, trace, key, from, from + l.window);
    IntervalsAreBounded(l, trace, key, from);
    var table := Run(l, true, trace);
    if key in table {
      EachWindowIsCounted(l, trace, key);
      PurgesOnlyDropExpired(l, trace, trace[|trace| - 1].now);
      SamePassed(l, trace, key, table[key].expiresAt - l.window, table[key].expiresAt);
    }
  }

  /** n requests of one key at one instant. */
  function Requests(now: Instant, n: nat): seq<Event> {
    if n == 0 then [] else Requests(now, n - 1) + [Request(0, now, true)]
  }

  /** One request opens the window at 0, the others of that window come at its last instant, and those
      of the next window right after. */
  function Burst(l: Limits): seq<Event>
    requires Configured(l)
  {
    [Request(0, 0, true)] + Requests(l.window, l.max - 1) + Requests(l.window + 1, l.max)
  }

  lemma Append(l: Limits, trace: seq<Event>, e: Event, from: int, to: int)
    ensures Run(l, true, trace + [e]) == Step(l, true, Run(l, true, trace), e)
    ensures PassedIn(l, true, trace + [e], 0, from, to)
            == PassedIn(l, true, trace, 0, from, to)
               + if e.Request? && e.dbUp && e.key == 0 && from <= e.now <= to && Passes(l, Run(l, true, trace), e)
                 then 1 else 0
  {
    assert (trace + [e])[..|trace|] == trace;
  }

  lemma {:induction false} RequestsAt(now: Instant, n: nat)
    ensures |Requests(now, n)| == n && forall i :: 0 <= i < n ==> Requests(now, n)[i] == Request(0, now, true)
  {
    if n > 0 { RequestsAt(now, n - 1); }
  }

  /** As long as the current window has room, requests at one instant all pass and are all counted. */
  lemma {:induction false} RoomForAll(l: Limits, trace: seq<Event>, c: Counter, now: Instant, n: nat, from: int,
                                      to: int)
    requires Run(l, true, trace) == map[0 := c] && now <= c.expiresAt && c.count + n <= l.max && from <= now <= to
    ensures Run(l, true, trace + Requests(now, n)) == map[0 := Counter(c.count + n, c.expiresAt)]
    ensures PassedIn(l, true, trace + Requests(now, n), 0, from, to) == PassedIn(l, true, trace, 0, from, to) + n
  {
    hide Run, PassedIn;
    if n == 0 {
      assert trace + Requests(now, 0) == trace;
    } else {
      RoomForAll(l, trace, c, now, n - 1, from, to);
      assert trace + Requests(now, n) == (trace + Requests(now, n - 1)) + [Request(0, now, true)];
      Append(l, trace + Requests(now, n - 1), Request(0, now, true), from, to);
    }
  }

  lemma FirstThenRest(now: Instant, n: nat)
    requires n > 0
    ensures Requests(now, n) == [Request(0, now, true)] + Requests(now, n - 1)
  {
    RequestsAt(now, n);
    RequestsAt(now, n - 1);
  }

  lemma FirstRequest(l: Limits, to: int)
    requires Configured(l)
    ensures Run(l, true, [Request(0, 0, true)]) == map[0 := Counter(1, l.window)]
    ensures PassedIn(l, true, [Request(0, 0, true)], 0, 1, to) == 0
  {
    var first := [Request(0, 0, true)];
    assert [] + first == first;
    Append(l, [], first[0], 1, to);
  }

  /** The request that finds its window past opens the next one and passes. */
  lemma NextWindow(l: Limits, trace: seq<Event>, c: Counter, from: int)
    requires Configured(l) && Run(l, true, trace) == map[0 := c] && from <= c.expiresAt + 1
    ensures var e := Request(0, c.expiresAt + 1, true);
            && Run(l, true, trace + [e]) == map[0 := Counter(1, e.now + l.window)]
            && PassedIn(l, true, trace + [e], 0, from, e.now) == PassedIn(l, true, trace, 0, from, e.now) + 1
  {
    Append(l, trace, Request(0, c.expiresAt + 1, true), from, c.expiresAt + 1);
    hide Run, PassedIn;
  }

  lemma BurstIsOrdered(l: Limits)
    requires Configured(l)
    ensures Ordered(Burst(l))
  {
    RequestsAt(l.window, l.max - 1);
    RequestsAt(l.window + 1, l.max);
    hide Requests;
  }

  /** The bound is reached for every maximum and window. */
  lemma BoundIsReached(l: Limits)
    requires Configured(l)
    ensures Ordered(Burst(l)) && PassedIn(l, true, Burst(l), 0, 1, 1 + l.window) == 2 * l.max - 1
  {
    BurstIsOrdered(l);
    hide Run, PassedIn, Requests, Ordered;
    var first, last := [Request(0, 0, true)], l.window + 1;
    var full := first + Requests(l.window, l.max - 1);
    FirstRequest(l, last);
    RoomForAll(l, first, Counter(1, l.window), l.window, l.max - 1, 1, last);
    NextWindow(l, full, Counter(l.max, l.window), 1);
    RoomForAll(l, full + [Request(0, last, true)], Counter(1, last + l.window), last, l.max - 1, 1, last);
    FirstThenRest(last, l.max);
    assert Burst(l) == full + [Request(0, last, true)] + Requests(last, l.max - 1);
  }
}
