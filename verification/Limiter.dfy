/** The sliding-window request limiter and its bounded table of clients. */
module Limiter {

  const MAX_CLIENTS: nat := 4096

  type Times = seq<int>

  /** How many of the recorded times lie after the threshold. */
  function Count(times: Times, threshold: int): nat {
    if times == [] then 0
    else Count(times[..|times| - 1], threshold) + (if times[|times| - 1] > threshold then 1 else 0)
  }

  ghost predicate Ordered(times: Times) {
    forall i, j :: 0 <= i < j < |times| ==> times[i] <= times[j]
  }

  lemma {:induction false} NoneAfter(times: Times, threshold: int)
    requires forall i :: 0 <= i < |times| ==> times[i] <= threshold
    ensures Count(times, threshold) == 0
  {
    if times != [] {
      NoneAfter(times[..|times| - 1], threshold);
    }
  }

  lemma {:induction false} AllAfter(times: Times, threshold: int)
    requires forall i :: 0 <= i < |times| ==> times[i] > threshold
    ensures Count(times, threshold) == |times|
  {
    if times != [] {
      AllAfter(times[..|times| - 1], threshold);
    }
  }

  lemma {:induction false} CountJoins(a: Times, b: Times, threshold: int)
    ensures Count(a + b, threshold) == Count(a, threshold) + Count(b, threshold)
  {
    if b == [] {
      assert a + b == a;
    } else {
      assert (a + b)[..|a + b| - 1] == a + b[..|b| - 1];
      CountJoins(a, b[..|b| - 1], threshold);
    }
  }

  /** Dropping an expired front, the length of the rest is the count over everything. */
  lemma RestIsCount(dropped: Times, rest: Times, threshold: int)
    requires forall i :: 0 <= i < |dropped| ==> dropped[i] <= threshold
    requires forall i :: 0 <= i < |rest| ==> rest[i] > threshold
    ensures Count(dropped + rest, threshold) == |rest|
  {
    CountJoins(dropped, rest, threshold);
    NoneAfter(dropped, threshold);
    AllAfter(rest, threshold);
  }

  /** A client's last request is still inside the window. */
  predicate Live(times: Times, threshold: int) {
    times != [] && times[|times| - 1] > threshold
  }

  function Living(requests: map<string, Times>, threshold: int): map<string, Times> {
    map key | key in requests && Live(requests[key], threshold) :: requests[key]
  }

  function Recorded(log: map<string, Times>, key: string): Times {
    if key in log then log[key] else []
  }

  /** What the table holds of a client: the whole record but for times that had
      left the window. */
  ghost predicate Faithful(log: Times, held: Times, expired: int) {
    && |held| <= |log|
    && held == log[|log| - |held|..]
    && Ordered(log)
    && forall i :: 0 <= i < |log| - |held| ==> log[i] <= expired
  }

  lemma FaithfulShift(log: Times, held: Times, expired: int, threshold: int, first: nat)
    requires Faithful(log, held, expired) && expired <= threshold && first <= |held|
    requires forall i :: 0 <= i < first ==> held[i] <= threshold
    ensures Faithful(log, held[first..], threshold)
  {
  }

  lemma FaithfulMore(log: Times, held: Times, expired: int, now: int)
    requires Faithful(log, held, expired)
    requires forall i :: 0 <= i < |log| ==> log[i] <= now
    ensures Faithful(log + [now], held + [now], expired)
  {
  }

  /** Nothing live is lost with an evicted client. */
  lemma EvictedIsExpired(log: Times, held: Times, expired: int, threshold: int)
    requires Faithful(log, held, expired) && expired <= threshold && !Live(held, threshold)
    ensures Faithful(log, [], threshold)
  {
  }

  ghost predicate Tracked(log: map<string, Times>, requests: map<string, Times>, clock: int, window: int, key: string) {
    Sound(Recorded(log, key), Recorded(requests, key), clock, window)
  }

  ghost predicate Sound(all: Times, held: Times, clock: int, window: int) {
    Faithful(all, held, clock - window) && forall i :: 0 <= i < |all| ==> all[i] <= clock
  }

  ghost predicate AllTracked(log: map<string, Times>, requests: map<string, Times>, clock: int, window: int) {
    forall key :: Tracked(log, requests, clock, window, key)
  }

  /** Time passing and clients being evicted keep the table faithful. */
  lemma EvictionKeeps(log: map<string, Times>, requests: map<string, Times>, clock: int, window: int, now: int)
    requires AllTracked(log, requests, clock, window) && clock <= now
    ensures AllTracked(log, requests, now, window)
    ensures AllTracked(log, Living(requests, now - window), now, window)
  {
    forall key ensures Tracked(log, requests, now, window, key) {
      assert Tracked(log, requests, clock, window, key);
      var held := Recorded(requests, key);
      FaithfulShift(Recorded(log, key), held, clock - window, now - window, 0);
      assert held[0..] == held;
    }
    var living := Living(requests, now - window);
    forall key ensures Tracked(log, living, now, window, key) {
      assert Tracked(log, requests, now, window, key);
      if !Live(Recorded(requests, key), now - window) {
        EvictedIsExpired(Recorded(log, key), Recorded(requests, key), now - window, now - window);
      }
    }
  }

  lemma HeldIsCount(all: Times, rest: Times, now: int, window: int)
    requires Faithful(all, rest, now - window) && window > 0 && (rest != [] ==> rest[0] > now - window)
    ensures Count(all + [now], now - window) == |rest + [now]|
  {
    var cut := |all| - |rest|;
    var dropped, kept := all[..cut], rest + [now];
    assert all + [now] == dropped + kept;
    forall i | 0 <= i < |kept| ensures kept[i] > now - window {
      if i < |rest| {
        assert rest[0] == all[cut] && rest[i] == all[cut + i];
      }
    }
    RestIsCount(dropped, kept, now - window);
  }

  /** Recording one more request keeps the client's times sound, and what is
      held of the client is then exactly what lies in its window. */
  lemma RecordOne(all: Times, held: Times, now: int, window: int, first: nat)
    requires Sound(all, held, now, window) && window > 0 && first <= |held|
    requires forall i :: 0 <= i < first ==> held[i] <= now - window
    requires first < |held| ==> held[first] > now - window
    ensures Sound(all + [now], held[first..] + [now], now, window)
    ensures Count(all + [now], now - window) == |held[first..] + [now]|
  {
    FaithfulShift(all, held, now - window, now - window, first);
    FaithfulMore(all, held[first..], now - window, now);
    HeldIsCount(all, held[first..], now, window);
  }

  lemma RecordKeeps(log: map<string, Times>, requests: map<string, Times>, now: int, window: int, key: string, all: Times, values: Times)
    requires AllTracked(log, requests, now, window) && Sound(all, values, now, window)
    ensures AllTracked(log[key := all], requests[key := values], now, window)
  {
    var log', requests' := log[key := all], requests[key := values];
    forall k ensures Tracked(log', requests', now, window, k) {
      assert Tracked(log, requests, now, window, k);
    }
  }

  lemma RecordedIsWindow(log: map<string, Times>, requests: map<string, Times>, now: int, window: int, key: string, values: Times, first: nat)
    requires AllTracked(log, requests, now, window) && window > 0 && values == Recorded(requests, key) && first <= |values|
    requires forall i :: 0 <= i < first ==> values[i] <= now - window
    requires first < |values| ==> values[first] > now - window
    ensures AllTracked(log[key := Recorded(log, key) + [now]], requests[key := values[first..] + [now]], now, window)
    ensures Count(Recorded(log, key) + [now], now - window) == |values[first..] + [now]|
  {
    assert Tracked(log, requests, now, window, key);
    RecordOne(Recorded(log, key), values, now, window, first);
    RecordKeeps(log, requests, now, window, key, Recorded(log, key) + [now], values[first..] + [now]);
  }

  lemma OneMoreKey(m: map<string, Times>, key: string, value: Times)
    ensures |m[key := value]| == |m| + (if key in m then 0 else 1)
  {
  }

  method FirstLive(values: Times, threshold: int) returns (first: nat)
    ensures first <= |values| && forall i :: 0 <= i < first ==> values[i] <= threshold
    ensures first < |values| ==> values[first] > threshold
  {
    first := 0;
    while first < |values| && values[first] <= threshold
      invariant first <= |values| && forall i :: 0 <= i < first ==> values[i] <= threshold
    {
      first := first + 1;
    }
  }

  class WindowLimiter {
    const limit: int
    const window: int
    var requests: map<string, Times>
    /** Every time ever recorded for a client, the last clock reading, and
        whether the clock has never gone back. */
    ghost var log: map<string, Times>
    ghost var clock: int
    ghost var steady: bool

    ghost predicate Valid()
      reads this
    {
      && |requests| <= MAX_CLIENTS && window > 0
      && (steady ==> AllTracked(log, requests, clock, window))
    }

    constructor (limit: int, window: int, ghost start: int)
      requires window > 0
      ensures Valid() && requests == map[] && log == map[] && clock == start && steady
      ensures this.limit == limit && this.window == window
    {
      this.limit, this.window := limit, window;
      requests, log, clock, steady := map[], map[], start, true;
    }

    /** One request: refused unrecorded exactly when the client is new and the
        table is full of live clients; otherwise recorded, and, as long as the
        clock has never gone back, allowed exactly when the requests recorded in
        the window, this one included, do not exceed the limit. */
    method Allow(key: string, now: int) returns (allowed: bool)
      requires Valid()
      modifies this
      ensures Valid() && clock == now && steady == (old(steady) && old(clock) <= now)
      ensures TableFull(old(requests), key, now - window) ==> !allowed && log == old(log)
      ensures !TableFull(old(requests), key, now - window) ==>
                && log == old(log)[key := Recorded(old(log), key) + [now]]
                && (steady ==> (allowed <==> Count(log[key], now - window) <= limit))
    {
      ghost var was := requests;
      if steady && clock <= now {
        EvictionKeeps(log, requests, clock, window, now);
      }
      steady, clock := steady && clock <= now, now;
      if key !in requests && |requests| >= MAX_CLIENTS {
        Evict(now - window);
        LivingIsNoMore(was, now - window);
        if |requests| >= MAX_CLIENTS {
          return false;
        }
      }
      allowed := Record(key, now);
    }

    /** Records the request over what is left of the client's window. */
    method Record(key: string, now: int) returns (allowed: bool)
      requires Valid() && clock == now && (key in requests || |requests| < MAX_CLIENTS)
      modifies this`requests, this`log
      ensures Valid() && log == old(log)[key := Recorded(old(log), key) + [now]]
      ensures steady ==> (allowed <==> Count(log[key], now - window) <= limit)
    {
      var values := if key in requests then requests[key] else [];
      var first := FirstLive(values, now - window);
      ghost var all := Recorded(log, key) + [now];
      if steady {
        RecordedIsWindow(log, requests, now, window, key, values, first);
      }
      values := values[first..] + [now];
      OneMoreKey(requests, key, values);
      requests, log := requests[key := values], log[key := all];
      allowed := |values| <= limit;
    }

    /** Removes the clients whose last request has left the window. */
    method Evict(threshold: int)
      modifies this`requests
      ensures requests == Living(old(requests), threshold)
    {
      var keys := requests.Keys;
      while keys != {}
        invariant keys <= requests.Keys
        invariant requests.Keys <= old(requests).Keys
        invariant forall key :: key in requests ==> requests[key] == old(requests)[key]
        invariant forall key :: key in old(requests) && key !in keys ==> (key in requests <==> Live(old(requests)[key], threshold))
        invariant forall key :: key in keys ==> key in requests
        decreases keys
      {
        var tracked :| tracked in keys;
        var timestamps := requests[tracked];
        if |timestamps| == 0 || timestamps[|timestamps| - 1] <= threshold {
          requests := requests - {tracked};
        }
        keys := keys - {tracked};
      }
    }
  }

  /** A new client finds no room even after the expired ones are evicted. */
  predicate TableFull(requests: map<string, Times>, key: string, threshold: int) {
    key !in requests && |requests| >= MAX_CLIENTS && |Living(requests, threshold)| >= MAX_CLIENTS
  }

  lemma LivingIsNoMore(requests: map<string, Times>, threshold: int)
    ensures |Living(requests, threshold)| <= |requests|
  {
    var living := Living(requests, threshold);
    NoMore(living.Keys, requests.Keys);
    assert |living| == |living.Keys| && |requests| == |requests.Keys|;
  }

  lemma NoMore(a: set<string>, b: set<string>)
    requires a <= b
    ensures |a| <= |b|
  {
    assert b == a + (b - a);
  }

  /** The verdict on the request recorded at index `i` of a client's record. */
  predicate Granted(log: Times, i: nat, limit: int, window: int)
    requires i < |log|
  {
    Count(log[..i + 1], log[i] - window) <= limit
  }

  /** It is the verdict given when the request was recorded, whatever came later. */
  lemma VerdictStands(log: Times, now: int, later: Times, limit: int, window: int)
    ensures Granted(log + [now] + later, |log|, limit, window) <==> Count(log + [now], now - window) <= limit
  {
  }

  /** How many of the first `n` recorded requests were granted between two times. */
  function Grants(log: Times, n: nat, limit: int, window: int, after: int, upTo: int): nat
    requires n <= |log|
  {
    if n == 0 then 0
    else Grants(log, n - 1, limit, window, after, upTo) +
         (if after < log[n - 1] <= upTo && Granted(log, n - 1, limit, window) then 1 else 0)
  }

  lemma {:induction false} GrantsAreCounted(log: Times, n: nat, limit: int, window: int, after: int, upTo: int, threshold: int)
    requires n <= |log| && threshold <= after
    ensures Grants(log, n, limit, window, after, upTo) <= Count(log[..n], threshold)
  {
    if n > 0 {
      GrantsAreCounted(log, n - 1, limit, window, after, upTo, threshold);
      assert log[..n][..n - 1] == log[..n - 1];
    }
  }

  /** Whenever a window of time is placed, no client is granted more requests
      in it than the limit. */
  lemma {:induction false} GrantsAreBounded(log: Times, n: nat, limit: nat, window: int, upTo: int)
    requires n <= |log|
    ensures Grants(log, n, limit, window, upTo - window, upTo) <= limit
  {
    if n > 0 {
      GrantsAreBounded(log, n - 1, limit, window, upTo);
      if upTo - window < log[n - 1] <= upTo && Granted(log, n - 1, limit, window) {
        GrantsAreCounted(log, n, limit, window, upTo - window, upTo, log[n - 1] - window);
      }
    }
  }
}
