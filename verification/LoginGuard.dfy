/**
 The lockout arithmetic of the login endpoint (src/webauth.py): two counters an attempt, one for the address
 and device together and one for the address alone, and what they add up to over any run.
 */
module LoginGuard {
  import opened Wrappers

  type Address = string
  type Device = string

  const DEVICE_THRESHOLD: nat := 5
  const ADDRESS_THRESHOLD: nat := 20
  const BASE_LOCKOUT_SECONDS: real := 30.0
  const MAX_LOCKOUT_SECONDS: real := 900.0
  const FORGET_AFTER_SECONDS: real := 3600.0

  datatype Key = Pair(address: Address, device: Device) | Addr(address: Address)

  datatype Counter = Counter(failures: nat, lockedUntil: real, lastTouched: real)

  type Counters = map<Key, Counter>

  // `device_id or "-"`.
  function PairKey(a: Address, d: Device): Key { Pair(a, if d == [] then "-" else d) }

  /** Attempts share a counter exactly when address and device agree, no device counting as the device "-". */
  lemma PairsShared(a: Address, d: Device, b: Address, e: Device)
    ensures PairKey(a, d) == PairKey(b, e) <==> a == b && (d == e || (d in ["", "-"] && e in ["", "-"]))
  {
    assert |"-"| == 1;
  }

  function Threshold(key: Key): nat { if key.Pair? then DEVICE_THRESHOLD else ADDRESS_THRESHOLD }

  function Pow2(n: nat): real { if n == 0 then 1.0 else 2.0 * Pow2(n - 1) }

  // Doubling per failure past the threshold, up to the cap.
  function Penalty(over: nat): real {
    var doubled := BASE_LOCKOUT_SECONDS * Pow2(over);
    if doubled <= MAX_LOCKOUT_SECONDS then doubled else MAX_LOCKOUT_SECONDS
  }

  // ------------------------------------------------------------------ one step

  predicate Stale(c: Counter, now: real) { now - c.lastTouched > FORGET_AFTER_SECONDS && c.lockedUntil <= now }

  // `_forget_stale`.
  function Forgotten(cs: Counters, now: real): Counters { map k | k in cs && !Stale(cs[k], now) :: cs[k] }

  predicate Blocks(cs: Counters, key: Key, now: real) { key in cs && cs[key].lockedUntil > now }

  // What `check` lets through.
  predicate Passes(cs: Counters, a: Address, d: Device, now: real) {
    !Blocks(Forgotten(cs, now), PairKey(a, d), now) && !Blocks(Forgotten(cs, now), Addr(a), now)
  }

  function Failed(cs: Counters, key: Key, now: real): Counters {
    var c := if key in cs then cs[key] else Counter(0, 0.0, 0.0);
    var failures := c.failures + 1;
    var lockedUntil := if failures >= Threshold(key) then now + Penalty(failures - Threshold(key)) else c.lockedUntil;
    cs[key := Counter(failures, lockedUntil, now)]
  }

  datatype Event =
    | Check(a: Address, d: Device, now: real)
    | Failure(a: Address, d: Device, now: real)
    | Success(a: Address, d: Device, now: real)

  function After(cs: Counters, e: Event): Counters {
    match e
    case Check(_, _, now) => Forgotten(cs, now)
    case Failure(a, d, now) => Failed(Failed(cs, PairKey(a, d), now), Addr(a), now)
    case Success(a, d, _) => cs - {PairKey(a, d)}
  }

  function Max(a: int, b: int): int { if a >= b then a else b }

  class LoginGuard {
    var counters: Counters

    constructor ()
      ensures counters == map[]
    {
      counters := map[];
    }

    // `_forget_stale`: gather, then delete.
    method ForgetStale(now: real)
      modifies this
      ensures counters == Forgotten(old(counters), now)
    {
      var stale := set k | k in counters && Stale(counters[k], now);
      var left := stale;
      while left != {}
        invariant left <= stale && counters == old(counters) - (stale - left)
        decreases left
      {
        var key :| key in left;
        left := left - {key};
        counters := counters - {key};
      }
    }

    // The seconds announced for one key; 0 if it does not block.
    function RetryFor(key: Key, now: real): (r: int)
      reads this
      ensures r > 0 <==> Blocks(counters, key, now)
      ensures r >= 0
      ensures Blocks(counters, key, now) ==> r as real - 1.0 <= counters[key].lockedUntil - now < r as real
    {
      if Blocks(counters, key, now) then (counters[key].lockedUntil - now).Floor + 1 else 0
    }

    /**
     `check`: 0 lets the attempt through; anything else is the `retry_after` of the refusal. Waiting that long is
     enough, and a second less would not do.
     */
    method TryCheck(a: Address, d: Device, now: real) returns (retry: int)
      modifies this
      ensures counters == After(old(counters), Check(a, d, now))
      ensures forall k :: k in counters
                          <==> k in old(counters)
                               && (now <= old(counters)[k].lastTouched + 3600.0 || old(counters)[k].lockedUntil > now)
      ensures forall k :: k in counters ==> counters[k] == old(counters)[k]
      ensures retry >= 0 && (retry == 0 <==> Passes(old(counters), a, d, now))
      ensures retry > 0 ==> Passes(counters, a, d, now + retry as real)
      ensures forall t :: now <= t < now + retry as real - 1.0 ==> !Passes(counters, a, d, t)
    {
      ForgetStale(now);
      retry := 0;
      var keys := [PairKey(a, d), Addr(a)];
      for i := 0 to |keys|
        invariant retry >= 0 && (retry == 0 <==> forall j :: 0 <= j < i ==> !Blocks(counters, keys[j], now))
        invariant forall j :: 0 <= j < i && keys[j] in counters && retry > 0 ==> counters[keys[j]].lockedUntil <= now + retry as real
        invariant retry > 0 ==> exists j :: 0 <= j < i && keys[j] in counters && counters[keys[j]].lockedUntil >= now + retry as real - 1.0
      {
        retry := Max(retry, RetryFor(keys[i], now));
      }
      assert keys[0] == PairKey(a, d) && keys[1] == Addr(a);
      forall t | now <= t < now + retry as real - 1.0 ensures !Passes(counters, a, d, t) {
        var j :| 0 <= j < 2 && keys[j] in counters && counters[keys[j]].lockedUntil >= now + retry as real - 1.0;
        assert Blocks(Forgotten(counters, t), keys[j], t);
      }
    }

    method RecordFailure(a: Address, d: Device, now: real)
      modifies this
      ensures counters == After(old(counters), Failure(a, d, now))
    {
      var keys := [PairKey(a, d), Addr(a)];
      for i := 0 to |keys|
        invariant i == 0 ==> counters == old(counters)
        invariant i == 1 ==> counters == Failed(old(counters), PairKey(a, d), now)
        invariant i == 2 ==> counters == Failed(Failed(old(counters), PairKey(a, d), now), Addr(a), now)
      {
        var key := keys[i];
        var c := if key in counters then counters[key] else Counter(0, 0.0, 0.0);
        c := c.(failures := c.failures + 1, lastTouched := now);
        var over := c.failures - Threshold(key);
        if over >= 0 { c := c.(lockedUntil := now + Penalty(over)); }
        counters := counters[key := c];
      }
    }

    // `record_success`: the pair is cleared, the address is not.
    method RecordSuccess(a: Address, d: Device, now: real)
      modifies this
      ensures counters == After(old(counters), Success(a, d, now))
      ensures forall b :: Addr(b) in counters <==> Addr(b) in old(counters)
    {
      counters := counters - {PairKey(a, d)};
    }
  }

  // ------------------------------------------------------------------ runs

  // The guard's counters before and after each event, times never going back.
  ghost predicate Run(states: seq<Counters>, events: seq<Event>) {
    && |states| == |events| + 1
    && (forall i :: 0 <= i < |events| ==> Follows(states, events, i))
    && (forall i, j :: 0 <= i < j < |events| ==> events[i].now <= events[j].now)
  }

  ghost predicate Follows(states: seq<Counters>, events: seq<Event>, i: nat)
    requires i < |events| && i + 1 < |states|
  {
    states[i + 1] == After(states[i], events[i])
  }

  // `at` are failures from one address, each after the first preceded, since the last, by a check that let `a` through.
  ghost predicate Attempts(states: seq<Counters>, events: seq<Event>, a: Address, at: seq<nat>) {
    && (forall k :: 0 <= k < |at| ==> IsFailure(events, a, at[k]))
    && (forall k :: 0 <= k < |at| - 1 ==> LetThrough(states, events, a, at[k], at[k + 1]))
  }

  ghost predicate IsFailure(events: seq<Event>, a: Address, i: nat) { i < |events| && events[i].Failure? && events[i].a == a }

  ghost predicate LetThrough(states: seq<Counters>, events: seq<Event>, a: Address, from: nat, to: nat) {
    exists j :: from < j < to && CheckedAt(states, events, a, j)
  }

  ghost predicate CheckedAt(states: seq<Counters>, events: seq<Event>, a: Address, j: nat) {
    j < |events| && j < |states| && events[j].Check? && events[j].a == a && Passes(states[j], a, events[j].d, events[j].now)
  }

  // After `m` failures under one key, the last of them no earlier than `last`.
  ghost predicate Counted(cs: Counters, key: Key, m: nat, last: real) {
    && key in cs && cs[key].failures >= m && cs[key].lastTouched >= last
    && (m >= Threshold(key) ==> cs[key].lockedUntil >= last + Penalty(m - Threshold(key)))
  }

  // The keys a failure is counted under; the one a success clears.
  predicate Counts(e: Event, key: Key) { e.Failure? && (key == PairKey(e.a, e.d) || key == Addr(e.a)) }

  predicate Clears(e: Event, key: Key) { e.Success? && key == PairKey(e.a, e.d) }

  lemma {:induction false} Pow2Grows(m: nat, n: nat)
    requires m <= n
    ensures 1.0 <= Pow2(m) <= Pow2(n)
    decreases n
  {
    if m < n { Pow2Grows(m, n - 1); } else if m > 0 { Pow2Grows(m - 1, n - 1); }
  }

  /** Thirty seconds, doubled for every failure past the threshold, fifteen minutes at the most. */
  lemma PenaltyDoubles(n: nat)
    ensures Penalty(0) == 30.0
    ensures Penalty(n + 1) == if 2.0 * Penalty(n) <= 900.0 then 2.0 * Penalty(n) else 900.0
  {
    assert Pow2(0) == 1.0;
    Pow2Grows(0, n);
  }

  lemma PenaltyGrows(m: nat, n: nat)
    requires m <= n
    ensures 0.0 < Penalty(m) <= Penalty(n)
  {
    Pow2Grows(m, n);
  }

  // No event forgets or lowers a counter but the pair's success, unless an hour has passed since it was last touched.
  lemma EventKeeps(cs: Counters, e: Event, key: Key, m: nat, last: real)
    requires Counted(cs, key, m, last) && e.now >= last
    ensures Counted(After(cs, e), key, m, last) || e.now > last + FORGET_AFTER_SECONDS || Clears(e, key)
  {
    if Counts(e, key) && m >= Threshold(key) {
      PenaltyGrows(m - Threshold(key), cs[key].failures + 1 - Threshold(key));
    }
  }

  // And a failure counts.
  lemma FailureCounts(cs: Counters, e: Event, key: Key, m: nat)
    requires Counts(e, key) && (m > 0 ==> key in cs && cs[key].failures >= m)
    ensures Counted(After(cs, e), key, m + 1, e.now)
  {
    var failures := (if key in cs then cs[key].failures else 0) + 1;
    assert key in After(cs, e) && After(cs, e)[key].failures == failures;
    if m + 1 >= Threshold(key) { PenaltyGrows(m + 1 - Threshold(key), failures - Threshold(key)); }
  }

  // From one event to a later one.
  lemma {:induction false} Walk(states: seq<Counters>, events: seq<Event>, key: Key, from: nat, j: nat, m: nat, last: real)
    requires Run(states, events) && from <= j <= |events| && Counted(states[from], key, m, last)
    requires forall i :: from <= i < j ==> events[i].now >= last && !Clears(events[i], key)
    ensures Counted(states[j], key, m, last) || (j > from && events[j - 1].now > last + FORGET_AFTER_SECONDS)
    decreases j
  {
    hide Counted;
    if j > from {
      Walk(states, events, key, from, j - 1, m, last);
      assert Follows(states, events, j - 1);
      if Counted(states[j - 1], key, m, last) { EventKeeps(states[j - 1], events[j - 1], key, m, last); }
    }
  }

  // A check that lets the address through has waited out its lockout, or the counter has been forgotten.
  lemma CheckWaits(cs: Counters, a: Address, d: Device, now: real, m: nat, last: real)
    requires Counted(cs, Addr(a), m, last) && Passes(cs, a, d, now) && m >= ADDRESS_THRESHOLD
    ensures now >= last + Penalty(m - ADDRESS_THRESHOLD) || now > last + FORGET_AFTER_SECONDS
  {
  }

  // The least time from a first failure to an `m`th.
  function LeastSpan(m: nat): real {
    if m <= ADDRESS_THRESHOLD then 0.0 else LeastSpan(m - 1) + Penalty(m - 1 - ADDRESS_THRESHOLD)
  }

  lemma {:induction false} SpanGrows(states: seq<Counters>, events: seq<Event>, a: Address, at: seq<nat>, k: nat)
    requires Run(states, events) && Attempts(states, events, a, at) && k < |at|
    ensures at[k] < |events|
    ensures var first, now := events[at[0]].now, events[at[k]].now;
            now > first + FORGET_AFTER_SECONDS
            || (Counted(states[at[k] + 1], Addr(a), k + 1, now) && now >= first + LeastSpan(k + 1))
    decreases k
  {
    assert IsFailure(events, a, at[k]) && IsFailure(events, a, at[0]) && Follows(states, events, at[k]);
    hide Counted, Passes, Penalty;
    if k == 0 {
      FailureCounts(states[at[0]], events[at[0]], Addr(a), 0);
    } else {
      SpanGrows(states, events, a, at, k - 1);
      EarlierFirst(events, a, at, k - 1, states);
      assert IsFailure(events, a, at[k - 1]) && LetThrough(states, events, a, at[k - 1], at[k]);
      NextFailure(states, events, a, at[k - 1], at[k], k);
    }
  }

  // From one failure to the next that a check has let through: the lockout has been sat out, or an hour has passed.
  lemma NextFailure(states: seq<Counters>, events: seq<Event>, a: Address, from: nat, to: nat, m: nat)
    requires Run(states, events) && IsFailure(events, a, from) && IsFailure(events, a, to)
    requires LetThrough(states, events, a, from, to)
    ensures var last, now := events[from].now, events[to].now;
            && now >= last
            && (Counted(states[from + 1], Addr(a), m, last) ==>
                  now > last + FORGET_AFTER_SECONDS
                  || (Counted(states[to + 1], Addr(a), m + 1, now)
                      && (m >= ADDRESS_THRESHOLD ==> now >= last + Penalty(m - ADDRESS_THRESHOLD))))
  {
    hide Counted, Passes, Penalty;
    var j :| from < j < to && CheckedAt(states, events, a, j);
    var last, now := events[from].now, events[to].now;
    assert last <= events[j].now <= now && Follows(states, events, to);
    if Counted(states[from + 1], Addr(a), m, last) {
      Walk(states, events, Addr(a), from + 1, j, m, last);
      Walk(states, events, Addr(a), from + 1, to, m, last);
      if Counted(states[j], Addr(a), m, last) && Counted(states[to], Addr(a), m, last) {
        if m >= ADDRESS_THRESHOLD { CheckWaits(states[j], a, events[j].d, events[j].now, m, last); }
        CountedSays(states[to], Addr(a), m, last);
        FailureCounts(states[to], events[to], Addr(a), m);
      }
    }
  }

  lemma CountedSays(cs: Counters, key: Key, m: nat, last: real)
    requires Counted(cs, key, m, last)
    ensures key in cs && cs[key].failures >= m
  {
  }

  lemma {:induction false} EarlierFirst(events: seq<Event>, a: Address, at: seq<nat>, k: nat, states: seq<Counters>)
    requires Run(states, events) && Attempts(states, events, a, at) && k < |at|
    ensures at[0] < |events| && at[k] < |events| && events[at[0]].now <= events[at[k]].now
    decreases k
  {
    assert IsFailure(events, a, at[k]) && IsFailure(events, a, at[0]);
    if k > 0 {
      EarlierFirst(events, a, at, k - 1, states);
      assert LetThrough(states, events, a, at[k - 1], at[k]);
    }
  }

  lemma LeastSpanOf28()
    ensures LeastSpan(27) == 2730.0 && LeastSpan(28) == 3630.0
  {
    assert Pow2(0) == 1.0 && Pow2(1) == 2.0 && Pow2(2) == 4.0 && Pow2(3) == 8.0 && Pow2(4) == 16.0 && Pow2(5) == 32.0;
    assert Pow2(6) == 64.0 && Pow2(7) == 128.0;
    assert Penalty(0) == 30.0 && Penalty(1) == 60.0 && Penalty(2) == 120.0 && Penalty(3) == 240.0 && Penalty(4) == 480.0;
    assert Penalty(5) == 900.0 && Penalty(6) == 900.0 && Penalty(7) == 900.0;
    assert LeastSpan(21) == 30.0 && LeastSpan(22) == 90.0 && LeastSpan(23) == 210.0 && LeastSpan(24) == 450.0;
    assert LeastSpan(25) == 930.0 && LeastSpan(26) == 1830.0;
  }

  /**
   Twenty-eight failures from one address, each let through by `check` after the one before was recorded, take
   more than an hour: whatever devices they claim, whatever succeeds in between, whatever else goes on.
   */
  lemma TwentyEightTakeAnHour(states: seq<Counters>, events: seq<Event>, a: Address, at: seq<nat>)
    requires Run(states, events) && Attempts(states, events, a, at) && |at| == 28
    ensures at[0] < |events| && at[27] < |events| && events[at[27]].now - events[at[0]].now > 3600.0
  {
    EarlierFirst(events, a, at, 27, states);
    SpanGrows(states, events, a, at, 27);
    LeastSpanOf28();
  }

  // ------------------------------------------------------------------ how long, exactly

  ghost predicate LockedFor(cs: Counters, key: Key) {
    key in cs ==> cs[key].lockedUntil == if cs[key].failures < Threshold(key) then 0.0
                                         else cs[key].lastTouched + Penalty(cs[key].failures - Threshold(key))
  }

  /**
   In any run of a new guard: a browser is locked out from its fifth failure, an address from its twentieth, and
   never for longer than the penalty from the last failure on.
   */
  lemma {:induction false} LockoutsAreExact(states: seq<Counters>, events: seq<Event>, j: nat, key: Key)
    requires Run(states, events) && states[0] == map[] && j <= |events| && key in states[j]
    ensures var c, free := states[j][key], if key.Pair? then 4 else 19;
            c.lockedUntil == if c.failures <= free then 0.0 else c.lastTouched + Penalty(c.failures - free - 1)
  {
    LockedForStays(states, events, j, key);
  }

  lemma {:induction false} LockedForStays(states: seq<Counters>, events: seq<Event>, j: nat, key: Key)
    requires Run(states, events) && states[0] == map[] && j <= |events|
    ensures LockedFor(states[j], key)
  {
    if j > 0 {
      LockedForStays(states, events, j - 1, key);
      assert Follows(states, events, j - 1);
      OneLocked(states[j - 1], events[j - 1], key);
    }
  }

  lemma OneLocked(cs: Counters, e: Event, key: Key)
    requires LockedFor(cs, key)
    ensures LockedFor(After(cs, e), key)
  {
    hide Penalty;
  }

  // ------------------------------------------------------------------ one browser

  // `at` are failures of one browser at one address, in order, at most an hour apart.
  ghost predicate Stumbles(events: seq<Event>, a: Address, d: Device, at: seq<nat>) {
    && (forall k :: 0 <= k < |at| ==> at[k] < |events| && Counts(events[at[k]], PairKey(a, d)))
    && (forall k :: 0 <= k < |at| - 1 ==> at[k] < at[k + 1] && events[at[k + 1]].now <= events[at[k]].now + FORGET_AFTER_SECONDS)
  }

  ghost predicate NoSuccess(events: seq<Event>, a: Address, d: Device, from: nat, upto: nat) {
    upto <= |events| && forall i :: from <= i < upto ==> !Clears(events[i], PairKey(a, d))
  }

  lemma {:induction false} StumblesCount(states: seq<Counters>, events: seq<Event>, a: Address, d: Device, at: seq<nat>, n: nat)
    requires Run(states, events) && Stumbles(events, a, d, at) && 0 < n <= |at|
    requires NoSuccess(events, a, d, at[0], at[n - 1])
    ensures at[0] <= at[n - 1] && Counted(states[at[n - 1] + 1], PairKey(a, d), n, events[at[n - 1]].now)
    decreases n
  {
    hide Counted;
    var key, last := PairKey(a, d), at[n - 1];
    assert Counts(events[last], key) && Follows(states, events, last);
    if n == 1 {
      FailureCounts(states[last], events[last], key, 0);
    } else {
      var before := at[n - 2];
      assert before < last && events[last].now <= events[before].now + FORGET_AFTER_SECONDS;
      StumblesCount(states, events, a, d, at, n - 1);
      Walk(states, events, key, before + 1, last, n - 1, events[before].now);
      assert Counted(states[last], key, n - 1, events[before].now);
      CountedSays(states[last], key, n - 1, events[before].now);
      FailureCounts(states[last], events[last], key, n - 1);
    }
  }

  /**
   The fifth failure of a browser, no success between, blocks it for thirty seconds, and every further one for
   twice as long, up to fifteen minutes.
   */
  lemma FiveFailuresBlock(states: seq<Counters>, events: seq<Event>, a: Address, d: Device, at: seq<nat>, j: nat, now: real)
    requires Run(states, events) && Stumbles(events, a, d, at) && |at| >= 5
    requires at[|at| - 1] < j <= |events| && NoSuccess(events, a, d, at[0], j)
    requires forall i :: at[|at| - 1] < i < j ==> events[i].now <= now
    requires events[at[|at| - 1]].now <= now < events[at[|at| - 1]].now + Penalty(|at| - 5)
    ensures 30.0 <= Penalty(|at| - 5) <= 900.0 && !Passes(states[j], a, d, now)
  {
    var key, last := PairKey(a, d), at[|at| - 1];
    StumblesCount(states, events, a, d, at, |at|);
    assert forall i :: last < i < j ==> events[last].now <= events[i].now;
    Walk(states, events, key, last + 1, j, |at|, events[last].now);
    PenaltyGrows(0, |at| - 5);
    assert Penalty(0) == 30.0 by { assert Pow2(0) == 1.0; }
    assert Counted(states[j], key, |at|, events[last].now);
  }

  // The failures of one browser among the events from `from` up to `upto`.
  function Since(events: seq<Event>, a: Address, d: Device, from: nat, upto: nat): nat
    requires from <= upto <= |events|
    decreases upto
  {
    if from == upto then 0
    else Since(events, a, d, from, upto - 1) + if Counts(events[upto - 1], PairKey(a, d)) then 1 else 0
  }

  // What a pair that has just succeeded can have been counted for.
  ghost predicate Light(cs: Counters, key: Key, m: nat) {
    key in cs ==> cs[key].failures <= m && (m < DEVICE_THRESHOLD ==> cs[key].lockedUntil == 0.0)
  }

  lemma {:induction false} SinceSuccess(states: seq<Counters>, events: seq<Event>, a: Address, d: Device, i: nat, j: nat)
    requires Run(states, events) && i < j <= |events| && Clears(events[i], PairKey(a, d))
    ensures Light(states[j], PairKey(a, d), Since(events, a, d, i + 1, j))
    decreases j
  {
    assert Follows(states, events, j - 1);
    if j > i + 1 { SinceSuccess(states, events, a, d, i, j - 1); }
  }

  /** A success clears the browser: until it has failed five times again, only its address can keep it out. */
  lemma SuccessLetsPass(states: seq<Counters>, events: seq<Event>, a: Address, d: Device, i: nat, j: nat, now: real)
    requires Run(states, events) && i < j <= |events| && events[i].Success? && events[i].a == a && events[i].d == d
    requires Since(events, a, d, i + 1, j) < 5 && now >= 0.0
    ensures Passes(states[j], a, d, now) <==> !Blocks(states[j], Addr(a), now)
  {
    SinceSuccess(states, events, a, d, i, j);
  }

  // ------------------------------------------------------------------ and not one fewer

  // A device nobody has claimed yet.
  function DeviceNo(k: nat): Device { seq(k + 2, i => 'd') }

  // The counters when `k` failures have come as fast as they can, each from a device of its own.
  ghost predicate Hurried(cs: Counters, a: Address, k: nat) {
    && (forall key :: key in cs && key.Pair? ==> key.address == a && cs[key].lockedUntil == 0.0 && cs[key].failures == 1
                                                 && |key.device| < k + 2)
    && (forall key :: key in cs && key.Addr? ==> key == Addr(a))
    && (k == 0 ==> cs == map[])
    && (k > 0 ==> Addr(a) in cs && cs[Addr(a)] == Counter(k, if k < ADDRESS_THRESHOLD then 0.0 else LeastSpan(k + 1), LeastSpan(k)))
  }

  lemma {:induction false} SpanStep(k: nat)
    ensures 0.0 <= LeastSpan(k) <= LeastSpan(k + 1) <= LeastSpan(k) + MAX_LOCKOUT_SECONDS
    ensures k >= ADDRESS_THRESHOLD ==> LeastSpan(k + 1) == LeastSpan(k) + Penalty(k - ADDRESS_THRESHOLD)
    decreases k
  {
    if k > 0 { SpanStep(k - 1); }
    if k >= ADDRESS_THRESHOLD { PenaltyGrows(k - ADDRESS_THRESHOLD, k - ADDRESS_THRESHOLD); }
  }

  lemma HurryCheck(cs: Counters, a: Address, k: nat)
    requires Hurried(cs, a, k)
    ensures Passes(cs, a, DeviceNo(k), LeastSpan(k + 1)) && Hurried(After(cs, Check(a, DeviceNo(k), LeastSpan(k + 1))), a, k)
  {
    SpanStep(k);
    hide Penalty, LeastSpan;
    var cs' := Forgotten(cs, LeastSpan(k + 1));
    if k == 0 { assert cs' == map[]; }
  }

  lemma HurryFailure(cs: Counters, a: Address, k: nat)
    requires Hurried(cs, a, k)
    ensures Hurried(After(cs, Failure(a, DeviceNo(k), LeastSpan(k + 1))), a, k + 1)
  {
    SpanStep(k);
    SpanStep(k + 1);
    hide Penalty, LeastSpan;
    assert PairKey(a, DeviceNo(k)) !in cs;
  }

  /** Any number of failures can come in the least time, so the bound is exact: 27 fit in 2730 seconds. */
  lemma {:induction false} LeastSpanIsReached(a: Address, n: nat)
    returns (states: seq<Counters>, events: seq<Event>, at: seq<nat>)
    ensures Run(states, events) && Attempts(states, events, a, at) && |at| == n && states[0] == map[]
    ensures Hurried(states[|events|], a, n) && |events| == 2 * n
    ensures n > 0 ==> at[n - 1] == 2 * n - 1 && at[0] == 1 && events[at[0]].now == 0.0 && events[at[n - 1]].now == LeastSpan(n)
    ensures forall i :: 0 <= i < |events| ==> events[i].now <= LeastSpan(n)
  {
    if n == 0 {
      states, events, at := [map[]], [], [];
    } else {
      var s, e, t := LeastSpanIsReached(a, n - 1);
      var k, now := n - 1, LeastSpan(n);
      SpanStep(k);
      var c, f := Check(a, DeviceNo(k), now), Failure(a, DeviceNo(k), now);
      var cs := s[|e|];
      HurryCheck(cs, a, k);
      HurryFailure(After(cs, c), a, k);
      states, events, at := s + [After(cs, c), After(After(cs, c), f)], e + [c, f], t + [2 * n - 1];
      hide Hurried, Passes, LeastSpan, After;
      RunGrows(s, e, c, f, states, events, LeastSpan(k), now);
      AttemptsGrow(s, e, a, t, c, f, states, events, at, n);
    }
  }

  lemma RunGrows(s: seq<Counters>, e: seq<Event>, c: Event, f: Event, states: seq<Counters>, events: seq<Event>, last: real, now: real)
    requires Run(s, e) && c.now == now && f.now == now && last <= now && forall i :: 0 <= i < |e| ==> e[i].now <= last
    requires states == s + [After(s[|e|], c), After(After(s[|e|], c), f)] && events == e + [c, f]
    ensures Run(states, events)
  {
    hide After;
    forall i | 0 <= i < |events| ensures Follows(states, events, i) {
      if i < |e| { assert Follows(s, e, i); }
    }
  }

  lemma AttemptsGrow(s: seq<Counters>, e: seq<Event>, a: Address, t: seq<nat>, c: Event, f: Event, states: seq<Counters>,
                     events: seq<Event>, at: seq<nat>, n: nat)
    requires Attempts(s, e, a, t) && |t| == n - 1 && |e| == 2 * n - 2 && |s| == |e| + 1 && n > 0
    requires n > 1 ==> t[n - 2] == 2 * n - 3
    requires c.Check? && c.a == a && Passes(s[|e|], a, c.d, c.now) && f.Failure? && f.a == a
    requires |states| == |s| + 2 && states[..|s|] == s && events == e + [c, f] && at == t + [2 * n - 1]
    ensures Attempts(states, events, a, at)
  {
    hide Passes;
    forall k | 0 <= k < |at| ensures IsFailure(events, a, at[k]) {
      if k < |t| { assert IsFailure(e, a, t[k]); }
    }
    forall k | 0 <= k < |at| - 1 ensures LetThrough(states, events, a, at[k], at[k + 1]) {
      if k < |t| - 1 {
        assert LetThrough(s, e, a, t[k], t[k + 1]);
        var j :| t[k] < j < t[k + 1] && CheckedAt(s, e, a, j);
        assert states[j] == s[j] && CheckedAt(states, events, a, j);
      } else {
        assert states[2 * n - 2] == s[|e|] && CheckedAt(states, events, a, 2 * n - 2);
      }
    }
  }
}
