/**
 * The fixed-window rate limiter (src/lib/rateLimit.ts). Each key owns an
 * entry `{count, resetTime}`; a request is allowed when the key is new or its
 * window has passed (both start a window at count 1), or when the count of the
 * current window is below `maxRequests`, in which case the count grows by one.
 *
 * The clock (`Date.now()`) is the parameter `now`. `Admit` is the decision of
 * `isAllowed` as a function of the map, and the class method is proved to
 * perform exactly that decision on its field.
 */
module RateLimit {
  const ApiWindowMs := 60000
  const ApiMaxRequests := 100
  const AuthMaxRequests := 10

  datatype Entry = Entry(count: int, resetTime: int)

  /** Whether the request is allowed, and the entries afterwards. */
  datatype Decision = Decision(allowed: bool, requests: map<string, Entry>)

  function Max(a: int, b: int): int
  {
    if a < b then b else a
  }

  /** The step of `isAllowed(key)` at time `now`. */
  function Admit(requests: map<string, Entry>, key: string, now: int, windowMs: int, maxRequests: int): (d: Decision)
    // only the entry of `key` may change
    ensures forall k :: k != key ==> (k in d.requests <==> k in requests)
    ensures forall k :: k != key && k in requests ==> d.requests[k] == requests[k]
    ensures key in d.requests
    // a new key or a passed window: allowed, and a new window starts at count 1
    ensures key !in requests || now > requests[key].resetTime ==>
      d.allowed && d.requests[key] == Entry(1, now + windowMs)
    // inside the window (`now == resetTime` included): allowed iff below the limit
    ensures key in requests && now <= requests[key].resetTime ==>
      && (d.allowed <==> requests[key].count < maxRequests)
      && (d.allowed ==> d.requests[key] == requests[key].(count := requests[key].count + 1))
      && (!d.allowed ==> d.requests == requests)
  {
    if key !in requests || now > requests[key].resetTime then
      Decision(true, requests[key := Entry(1, now + windowMs)])
    else if requests[key].count >= maxRequests then
      Decision(false, requests)
    else
      Decision(true, requests[key := requests[key].(count := requests[key].count + 1)])
  }

  /** Every count is at least 1 and at most `maxRequests` (at least 1, since a first request is always allowed). */
  predicate Bounded(requests: map<string, Entry>, maxRequests: int)
  {
    forall k :: k in requests ==> 1 <= requests[k].count <= Max(maxRequests, 1)
  }

  lemma AdmitKeepsBound(requests: map<string, Entry>, key: string, now: int, windowMs: int, maxRequests: int)
    requires Bounded(requests, maxRequests)
    ensures Bounded(Admit(requests, key, now, windowMs, maxRequests).requests, maxRequests)
  {
  }

  /** A series of requests for one key at the given times: how many were allowed, and the entries afterwards. */
  function Run(requests: map<string, Entry>, key: string, times: seq<int>, windowMs: int, maxRequests: int)
    : (r: (nat, map<string, Entry>))
    ensures r.0 <= |times|
    decreases times
  {
    if times == [] then (0, requests)
    else
      var d := Admit(requests, key, times[0], windowMs, maxRequests);
      var rest := Run(d.requests, key, times[1..], windowMs, maxRequests);
      ((if d.allowed then 1 else 0) + rest.0, rest.1)
  }

  /**
   * Inside one window, the requests allowed fill the room left by the count
   * and no more; the window keeps its reset time and counts each of them.
   */
  lemma {:induction false} WindowLimit(requests: map<string, Entry>, key: string, times: seq<int>,
                                       windowMs: int, maxRequests: int)
    requires key in requests
    requires forall i :: 0 <= i < |times| ==> times[i] <= requests[key].resetTime
    ensures var r := Run(requests, key, times, windowMs, maxRequests);
      && r.0 <= Max(0, maxRequests - requests[key].count)
      && key in r.1
      && r.1[key] == requests[key].(count := requests[key].count + r.0)
  {
    if times != [] {
      var d := Admit(requests, key, times[0], windowMs, maxRequests);
      WindowLimit(d.requests, key, times[1..], windowMs, maxRequests);
    }
  }

  /**
   * From a first request at `start` that opens a window, at most
   * `max(maxRequests, 1)` requests are allowed until the window ends.
   */
  lemma {:induction false} AtMostMaxPerWindow(requests: map<string, Entry>, key: string, start: int,
                                              times: seq<int>, windowMs: int, maxRequests: int)
    requires key !in requests || start > requests[key].resetTime
    requires forall i :: 0 <= i < |times| ==> times[i] <= start + windowMs
    ensures Run(requests, key, [start] + times, windowMs, maxRequests).0 <= Max(maxRequests, 1)
  {
    var d := Admit(requests, key, start, windowMs, maxRequests);
    assert ([start] + times)[1..] == times;
    WindowLimit(d.requests, key, times, windowMs, maxRequests);
  }

  /** The entries `cleanup()` keeps: exactly those whose window has not passed. */
  function Live(requests: map<string, Entry>, now: int): (r: map<string, Entry>)
    ensures forall k :: k in r <==> k in requests && now <= requests[k].resetTime
    ensures forall k :: k in r ==> r[k] == requests[k]
  {
    map k | k in requests && now <= requests[k].resetTime :: requests[k]
  }

  /**
   * Cleaning up never changes a later decision: a removed entry had passed
   * its window, and a passed window and a missing key are treated alike.
   */
  lemma {:induction false} CleanupInvisible(requests: map<string, Entry>, now: int, key: string, later: int,
                                            windowMs: int, maxRequests: int)
    requires now <= later
    ensures var before := Admit(requests, key, later, windowMs, maxRequests);
      var after := Admit(Live(requests, now), key, later, windowMs, maxRequests);
      && before.allowed == after.allowed
      && before.requests[key] == after.requests[key]
  {
    if key in requests && key !in Live(requests, now) {
      assert later > requests[key].resetTime;
    }
  }

  class RateLimiter {
    var requests: map<string, Entry>
    const windowMs: int
    const maxRequests: int

    ghost predicate Valid()
      reads this
    {
      Bounded(requests, maxRequests)
    }

    constructor(windowMs: int := 60000, maxRequests: int := 100)
      ensures this.windowMs == windowMs && this.maxRequests == maxRequests
      ensures requests == map[] && Valid()
    {
      this.windowMs := windowMs;
      this.maxRequests := maxRequests;
      requests := map[];
    }

    /** `isAllowed(key)` at time `now`. */
    method IsAllowed(key: string, now: int) returns (allowed: bool)
      requires Valid()
      modifies this
      ensures Decision(allowed, requests) == Admit(old(requests), key, now, windowMs, maxRequests)
      ensures Valid()
    {
      AdmitKeepsBound(requests, key, now, windowMs, maxRequests);
      if key !in requests {
        requests := requests[key := Entry(1, now + windowMs)];
        return true;
      }
      var entry := requests[key];
      if now > entry.resetTime {
        requests := requests[key := Entry(1, now + windowMs)];
        return true;
      }
      if entry.count >= maxRequests {
        return false;
      }
      requests := requests[key := entry.(count := entry.count + 1)];
      allowed := true;
    }

    /** `getRemaining(key)`: the limit for an unknown key, else what the count leaves, never below 0; expiry is not looked at. */
    function Remaining(key: string): (r: int)
      reads this
      ensures key !in requests ==> r == maxRequests
      ensures key in requests ==> r >= 0 && r == Max(0, maxRequests - requests[key].count)
    {
      if key !in requests then maxRequests else Max(0, maxRequests - requests[key].count)
    }

    /** `reset(key)`. */
    method Reset(key: string)
      requires Valid()
      modifies this
      ensures requests == old(requests) - {key}
      ensures Valid()
    {
      requests := requests - {key};
    }

    /** `cleanup()` at time `now`: one pass over the entries, deleting those whose window has passed. */
    method Cleanup(now: int)
      requires Valid()
      modifies this
      ensures requests == Live(old(requests), now)
      ensures Valid()
    {
      var keys := requests.Keys;
      ghost var start := requests;
      while keys != {}
        invariant keys <= start.Keys
        invariant forall k :: k in requests <==> k in start && (k in keys || now <= start[k].resetTime)
        invariant forall k :: k in requests ==> requests[k] == start[k]
        decreases keys
      {
        var k :| k in keys;
        if now > requests[k].resetTime {
          requests := requests - {k};
        }
        keys := keys - {k};
      }
    }
  }

  /**
   * Inside the window, what `getRemaining` reports decides the next request:
   * it is allowed iff something remains, and then one less remains.
   */
  lemma RemainingPredictsAdmit(limiter: RateLimiter, key: string, now: int)
    requires key in limiter.requests && now <= limiter.requests[key].resetTime
    ensures var d := Admit(limiter.requests, key, now, limiter.windowMs, limiter.maxRequests);
      && (d.allowed <==> limiter.Remaining(key) > 0)
      && (d.allowed ==> Max(0, limiter.maxRequests - d.requests[key].count) == limiter.Remaining(key) - 1)
  {
  }
}
