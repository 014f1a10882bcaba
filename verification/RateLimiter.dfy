/**
 The budget accounting against Discord's rate limits (src/ratelimit.py): buckets that several routes share, a
 global pause, and what any interleaving of callers may spend between two updates.

 Each method is what runs without an await; callers interleave only between them.
 */
module RateLimiter {
  import opened Wrappers

  type Route = string
  type BucketId = string

  // `_Bucket`: an allowance not learned yet is None.
  datatype Bucket = Bucket(remaining: Option<int>, resetAt: real)

  // A header that may be missing, or hold something that is no number.
  datatype Header<+T> = Absent | Garbage | Given(value: T)

  datatype Headers = Headers(bucket: Option<BucketId>, remaining: Header<int>, resetAfter: Header<real>, isGlobal: bool)

  datatype Limits = Limits(buckets: map<BucketId, Bucket>, routes: map<Route, BucketId>, globalUntil: real)

  function MaxReal(a: real, b: real): real { if a >= b then a else b }

  // The bucket a route draws on, if both are known.
  function BucketOf(s: Limits, route: Route): Option<BucketId> {
    if route in s.routes && s.routes[route] in s.buckets then Some(s.routes[route]) else None
  }

  // Spent, and its window still open.
  predicate Exhausted(b: Bucket, now: real) { b.remaining.Some? && b.remaining.value <= 0 && b.resetAt > now }

  // `_delay`.
  function Delay(s: Limits, route: Route, now: real): (d: real)
    ensures d >= 0.0
    ensures d == 0.0 ==> s.globalUntil <= now && (BucketOf(s, route).Some? ==> !Exhausted(s.buckets[BucketOf(s, route).value], now))
  {
    var wait := s.globalUntil - now;
    var id := BucketOf(s, route);
    var longer := if id.Some? && Exhausted(s.buckets[id.value], now) then MaxReal(wait, s.buckets[id.value].resetAt - now) else wait;
    MaxReal(0.0, longer)
  }

  // One unit spent, if the bucket counts.
  function Spent(s: Limits, route: Route): Limits {
    var id := BucketOf(s, route);
    if id.Some? && s.buckets[id.value].remaining.Some? then
      var b := s.buckets[id.value];
      s.(buckets := s.buckets[id.value := b.(remaining := Some(b.remaining.value - 1))])
    else s
  }

  function Acquired(s: Limits, route: Route, now: real): Limits { if Delay(s, route, now) <= 0.0 then Spent(s, route) else s }

  // What one response's headers do to a bucket: a count that does not parse leaves the reset alone too.
  function Reported(b: Bucket, headers: Headers, now: real): Bucket {
    if headers.remaining.Garbage? then b
    else
      var counted := if headers.remaining.Given? then b.(remaining := Some(headers.remaining.value)) else b;
      if headers.resetAfter.Given? then counted.(resetAt := now + headers.resetAfter.value) else counted
  }

  function Updated(s: Limits, route: Route, headers: Headers, now: real): Limits {
    if headers.bucket.None? then s
    else
      var id := headers.bucket.value;
      var b := if id in s.buckets then s.buckets[id] else Bucket(None, 0.0);
      s.(routes := s.routes[route := id], buckets := s.buckets[id := Reported(b, headers, now)])
  }

  function Paused(s: Limits, headers: Headers, retryAfter: real, now: real): Limits {
    if headers.isGlobal then s.(globalUntil := MaxReal(s.globalUntil, now + retryAfter)) else s
  }

  class RateLimiter {
    var buckets: map<BucketId, Bucket>
    var routes: map<Route, BucketId>
    var globalUntil: real

    function State(): Limits
      reads this
    {
      Limits(buckets, routes, globalUntil)
    }

    constructor ()
      ensures State() == Limits(map[], map[], 0.0)
    {
      buckets, routes, globalUntil := map[], map[], 0.0;
    }

    // `acquire`, the part under the lock: granted when the delay is 0.
    method TryAcquire(route: Route, now: real) returns (delay: real)
      modifies this`buckets
      ensures delay == Delay(old(State()), route, now) && State() == Acquired(old(State()), route, now)
    {
      delay := Delay(State(), route, now);
      if delay <= 0.0 {
        if route in routes && routes[route] in buckets {
          var id := routes[route];
          var bucket := buckets[id];
          if bucket.remaining.Some? {
            buckets := buckets[id := bucket.(remaining := Some(bucket.remaining.value - 1))];
          }
        }
      }
    }

    /** `acquire` with nobody else about: it goes ahead as soon as its own delay is over, and not before. */
    method Acquire(route: Route, now: real) returns (granted: real)
      modifies this`buckets
      ensures granted == now + Delay(old(State()), route, now)
      ensures State() == Spent(old(State()), route) && granted >= globalUntil
    {
      granted := now;
      var delay := TryAcquire(route, granted);
      ghost var first := delay;
      DelaySuffices(old(State()), route, now);
      while delay > 0.0
        invariant delay >= 0.0 && (granted == now || granted == now + first) && delay == Delay(old(State()), route, granted)
        invariant delay > 0.0 ==> State() == old(State()) && granted == now
        invariant delay == 0.0 ==> State() == Spent(old(State()), route) && granted == now + first
        decreases delay > 0.0, granted == now
      {
        granted := granted + delay;
        delay := TryAcquire(route, granted);
      }
    }

    method Update(route: Route, headers: Headers, now: real)
      modifies this`buckets, this`routes
      ensures State() == Updated(old(State()), route, headers, now)
      ensures headers.bucket.None? ==> unchanged(this)
      ensures headers.bucket.Some? ==>
                && routes == old(routes)[route := headers.bucket.value] && headers.bucket.value in buckets
                && (forall id :: id != headers.bucket.value ==>
                      (id in buckets <==> id in old(buckets)) && (id in buckets ==> buckets[id] == old(buckets)[id]))
                && var b, known := buckets[headers.bucket.value], headers.bucket.value in old(buckets);
                   && b.remaining == (if headers.remaining.Given? then Some(headers.remaining.value)
                                      else if known then old(buckets)[headers.bucket.value].remaining else None)
                   && b.resetAt == (if headers.resetAfter.Given? && !headers.remaining.Garbage? then now + headers.resetAfter.value
                                    else if known then old(buckets)[headers.bucket.value].resetAt else 0.0)
    {
      if headers.bucket.None? { return; }
      var id := headers.bucket.value;
      routes := routes[route := id];
      var bucket := if id in buckets then buckets[id] else Bucket(None, 0.0);
      if !headers.remaining.Garbage? {
        if headers.remaining.Given? { bucket := bucket.(remaining := Some(headers.remaining.value)); }
        if headers.resetAfter.Given? { bucket := bucket.(resetAt := now + headers.resetAfter.value); }
      }
      buckets := buckets[id := bucket];
    }

    method Note429(headers: Headers, retryAfter: real, now: real)
      modifies this`globalUntil
      ensures State() == Paused(old(State()), headers, retryAfter, now)
      ensures !headers.isGlobal ==> globalUntil == old(globalUntil)
      ensures headers.isGlobal ==> globalUntil == if old(globalUntil) >= now + retryAfter then old(globalUntil) else now + retryAfter
    {
      if headers.isGlobal { globalUntil := MaxReal(globalUntil, now + retryAfter); }
    }
  }

  /** A route may be used exactly when no pause is on and its bucket, if one is known, has something left or has been refilled. */
  lemma DelayMeans(s: Limits, route: Route, now: real)
    ensures Delay(s, route, now) == 0.0
            <==> s.globalUntil <= now
                 && (route in s.routes && s.routes[route] in s.buckets && s.buckets[s.routes[route]].remaining.Some?
                     ==> s.buckets[s.routes[route]].remaining.value > 0 || s.buckets[s.routes[route]].resetAt <= now)
  {
  }

  /** Sleeping the announced delay is enough, if nothing else happens meanwhile, */
  lemma DelaySuffices(s: Limits, route: Route, now: real)
    ensures Delay(s, route, now + Delay(s, route, now)) == 0.0
  {
  }

  /** and nothing less is. */
  lemma DelayIsLeast(s: Limits, route: Route, now: real, t: real)
    requires 0.0 <= t < Delay(s, route, now)
    ensures Delay(s, route, now + t) > 0.0
  {
  }

  // ------------------------------------------------------------------ runs

  datatype Event =
    | Try(route: Route, now: real)
    | Response(route: Route, headers: Headers, now: real)
    | Limited(headers: Headers, retryAfter: real, now: real)

  function After(s: Limits, e: Event): Limits {
    match e
    case Try(route, now) => Acquired(s, route, now)
    case Response(route, headers, now) => Updated(s, route, headers, now)
    case Limited(headers, retryAfter, now) => Paused(s, headers, retryAfter, now)
  }

  ghost predicate Run(states: seq<Limits>, events: seq<Event>) {
    |states| == |events| + 1 && forall i :: 0 <= i < |events| ==> Follows(states, events, i)
  }

  ghost predicate Follows(states: seq<Limits>, events: seq<Event>, i: nat)
    requires i < |events| && i + 1 < |states|
  {
    states[i + 1] == After(states[i], events[i])
  }

  // The event goes ahead, on whatever route, at the expense of bucket `id`.
  predicate Grants(s: Limits, e: Event, id: BucketId) {
    e.Try? && Delay(s, e.route, e.now) <= 0.0 && BucketOf(s, e.route) == Some(id)
  }

  // How many times that happens from `from` up to `upto`.
  function GrantCount(states: seq<Limits>, events: seq<Event>, id: BucketId, from: nat, upto: nat): nat
    requires from <= upto <= |events| && |states| == |events| + 1
    decreases upto
  {
    if from == upto then 0
    else GrantCount(states, events, id, from, upto - 1) + if Grants(states[upto - 1], events[upto - 1], id) then 1 else 0
  }

  // No response reports on the bucket, and its window stays open.
  ghost predicate BetweenUpdates(states: seq<Limits>, events: seq<Event>, id: BucketId, from: nat, upto: nat) {
    && from <= upto <= |events| && |states| == |events| + 1 && id in states[from].buckets
    && forall i :: from <= i < upto ==> StaysOpen(events[i], id, states[from].buckets[id].resetAt)
  }

  predicate StaysOpen(e: Event, id: BucketId, resetAt: real) { e.now < resetAt && (e.Response? ==> e.headers.bucket != Some(id)) }

  // What one event does to a bucket nobody reports on: nothing, or one unit less.
  lemma OneEvent(s: Limits, e: Event, id: BucketId, resetAt: real)
    requires id in s.buckets && s.buckets[id].resetAt == resetAt && s.buckets[id].remaining.Some? && StaysOpen(e, id, resetAt)
    ensures var s' := After(s, e);
            && id in s'.buckets && s'.buckets[id].resetAt == resetAt && s'.buckets[id].remaining.Some?
            && s'.buckets[id].remaining.value == s.buckets[id].remaining.value - (if Grants(s, e, id) then 1 else 0)
            && (Grants(s, e, id) ==> s.buckets[id].remaining.value > 0)
  {
  }

  /**
   Between two updates of a bucket, while its window is open, all callers on all its routes together are
   granted no more than the count it reported; and what is left is exactly that count less the grants.
   */
  lemma {:induction false} GrantsStayWithinBudget(states: seq<Limits>, events: seq<Event>, id: BucketId, from: nat, upto: nat)
    requires Run(states, events) && BetweenUpdates(states, events, id, from, upto)
    requires states[from].buckets[id].remaining.Some?
    ensures var reported, n := states[from].buckets[id].remaining.value, GrantCount(states, events, id, from, upto);
            && id in states[upto].buckets && states[upto].buckets[id].remaining == Some(reported - n)
            && states[upto].buckets[id].resetAt == states[from].buckets[id].resetAt
            && n <= if reported > 0 then reported else 0
    decreases upto
  {
    if upto > from {
      GrantsStayWithinBudget(states, events, id, from, upto - 1);
      assert Follows(states, events, upto - 1);
      assert StaysOpen(events[upto - 1], id, states[from].buckets[id].resetAt);
      OneEvent(states[upto - 1], events[upto - 1], id, states[from].buckets[id].resetAt);
    }
  }

  // A pause, once set, is never shortened.
  lemma {:induction false} PauseNeverMovesBack(states: seq<Limits>, events: seq<Event>, from: nat, upto: nat)
    requires Run(states, events) && from <= upto <= |events|
    ensures states[from].globalUntil <= states[upto].globalUntil
    decreases upto
  {
    if upto > from {
      PauseNeverMovesBack(states, events, from, upto - 1);
      assert Follows(states, events, upto - 1);
    }
  }

  /** Nobody is granted anything, on any route, before the end of any pause set earlier in the run. */
  lemma NoGrantDuringPause(states: seq<Limits>, events: seq<Event>, i: nat, j: nat)
    requires Run(states, events) && i <= j < |events|
    requires events[j].Try? && Delay(states[j], events[j].route, events[j].now) <= 0.0
    ensures events[j].now >= states[i].globalUntil
  {
    PauseNeverMovesBack(states, events, i, j);
  }

  /** The pause a global refusal asks for is kept by every route, counted from the refusal. */
  lemma RefusalIsHeeded(states: seq<Limits>, events: seq<Event>, i: nat, j: nat)
    requires Run(states, events) && i < j < |events| && events[i].Limited? && events[i].headers.isGlobal
    requires events[j].Try? && Delay(states[j], events[j].route, events[j].now) <= 0.0
    ensures events[j].now >= events[i].now + events[i].retryAfter
  {
    assert Follows(states, events, i);
    NoGrantDuringPause(states, events, i + 1, j);
  }

  /**
   The budget in the server's own terms: after a response that gives a bucket `count` more calls for the next
   `window` seconds, and before the next response about it, all routes together make no more than `count` in
   that window; and the route that was answered draws on that bucket.
   */
  lemma ReportedBudgetHolds(states: seq<Limits>, events: seq<Event>, k: nat, upto: nat, id: BucketId, count: int, window: real)
    requires Run(states, events) && k < upto <= |events| && events[k].Response?
    requires events[k].headers.bucket == Some(id) && events[k].headers.remaining == Given(count)
    requires events[k].headers.resetAfter == Given(window)
    requires forall i :: k < i < upto ==> StaysOpen(events[i], id, events[k].now + window)
    ensures BucketOf(states[k + 1], events[k].route) == Some(id)
    ensures id in states[upto].buckets && states[upto].buckets[id].resetAt == events[k].now + window
    ensures var n := GrantCount(states, events, id, k + 1, upto);
            n <= (if count > 0 then count else 0) && states[upto].buckets[id].remaining == Some(count - n)
  {
    assert Follows(states, events, k);
    GrantsStayWithinBudget(states, events, id, k + 1, upto);
  }
}
