/**
 * `GET /api/dashboard` (src/app/api/dashboard/route.ts): rate limiting by
 * client address first, then the admin gate, then four counts over the
 * orders and the drivers the store returns (`orders` answers `GET /orders`,
 * `drivers` answers `GET /users?role=driver`).
 */
module DashboardRoute {
  import opened Types
  import opened Auth
  import opened Seqs
  import opened RateLimit

  const TooManyRequests := Reply(429, Error("Too many requests"))

  /** `x-forwarded-for || x-real-ip || 'unknown'`: the first truthy header. */
  function ClientIp(forwardedFor: Option<string>, realIp: Option<string>): (ip: string)
    ensures ip != ""
    ensures Present(forwardedFor) ==> ip == forwardedFor.value
    ensures !Present(forwardedFor) && Present(realIp) ==> ip == realIp.value
    ensures !Present(forwardedFor) && !Present(realIp) ==> ip == "unknown"
  {
    if Present(forwardedFor) then forwardedFor.value
    else if Present(realIp) then realIp.value
    else "unknown"
  }

  /** The key the limiter counts under. */
  function LimiterKey(forwardedFor: Option<string>, realIp: Option<string>): (key: string)
    ensures |key| > 10 && key[..10] == "dashboard:" && key[10..] == ClientIp(forwardedFor, realIp)
  {
    "dashboard:" + ClientIp(forwardedFor, realIp)
  }

  predicate Completed(o: Order)
  {
    o.status == OrderStatus.Delivered
  }

  predicate Underway(o: Order)
  {
    o.status == OrderStatus.Assigned || o.status == OrderStatus.InProgress
  }

  predicate Available(u: User)
  {
    IsTrue(u.isAvailable)
  }

  /** The four statistics. */
  function DashboardCounts(orders: seq<Order>, drivers: seq<User>): DashboardStats
  {
    DashboardStats(|orders|, Count(drivers, Available), Count(orders, Completed), Count(orders, Underway))
  }

  /**
   * The counts are consistent: completed and in-progress orders are disjoint
   * and together at most all orders, and no count exceeds the list it counts.
   */
  lemma {:induction false} CountsConsistent(orders: seq<Order>, drivers: seq<User>)
    ensures var s := DashboardCounts(orders, drivers);
      && s.totalCompletedOrders + s.totalInProgressOrders <= s.totalOrders
      && s.totalAvailableDrivers <= |drivers|
      && (s.totalAvailableDrivers == |drivers| <==> forall i :: 0 <= i < |drivers| ==> IsTrue(drivers[i].isAvailable))
      && (s.totalCompletedOrders == 0 <==> forall i :: 0 <= i < |orders| ==> orders[i].status != OrderStatus.Delivered)
  {
    DisjointCounts(orders, Completed, Underway);
    CountBounds(drivers, Available);
    CountBounds(orders, Completed);
  }

  /** The reply, given the limiter's decision. */
  function DashboardReply(allowed: bool, header: Option<string>, tokens: map<string, Claims>,
                          orders: seq<Order>, drivers: seq<User>): Reply
  {
    if !allowed then TooManyRequests
    else
      var gate := AdminGate(header, tokens);
      if gate.Deny? then gate.reply
      else Reply(200, Stats(DashboardCounts(orders, drivers)))
  }

  /**
   * A throttled client gets 429 whatever it presents, even no token at all;
   * an allowed one meets the admin gate: 401 without a token, 403 for a bad or
   * non-admin token, the statistics for an admin.
   */
  lemma {:induction false} ThrottleBeforeAuth(allowed: bool, header: Option<string>, tokens: map<string, Claims>,
                                              orders: seq<Order>, drivers: seq<User>)
    ensures !allowed ==> DashboardReply(allowed, header, tokens, orders, drivers) == TooManyRequests
    ensures allowed && PresentedToken(header).None? ==>
      DashboardReply(allowed, header, tokens, orders, drivers) == Unauthorized
    ensures allowed && PresentedToken(header).Some? ==>
      var r := DashboardReply(allowed, header, tokens, orders, drivers);
      && (r.status == 200 <==> Verify(tokens, PresentedToken(header).value).Some?
                               && Verify(tokens, PresentedToken(header).value).value.role == "admin")
      && (r.status != 200 ==> r == AdminRequired)
  {
  }

  /**
   * The handler, with the shared API limiter (60000 ms, 100 requests): the
   * limiter is consulted, and counts the request, before anything else.
   */
  method Dashboard(limiter: RateLimiter, forwardedFor: Option<string>, realIp: Option<string>,
                   header: Option<string>, tokens: map<string, Claims>, now: int,
                   orders: seq<Order>, drivers: seq<User>)
    returns (reply: Reply)
    requires limiter.Valid() && limiter.windowMs == ApiWindowMs && limiter.maxRequests == ApiMaxRequests
    modifies limiter
    ensures limiter.Valid()
    ensures var d := Admit(old(limiter.requests), LimiterKey(forwardedFor, realIp), now,
                           limiter.windowMs, limiter.maxRequests);
      && limiter.requests == d.requests
      && reply == DashboardReply(d.allowed, header, tokens, orders, drivers)
  {
    var key := LimiterKey(forwardedFor, realIp);
    var allowed := limiter.IsAllowed(key, now);
    if !allowed {
      return TooManyRequests;
    }
    var gate := AdminGate(header, tokens);
    if gate.Deny? {
      return gate.reply;
    }
    reply := Reply(200, Stats(DashboardCounts(orders, drivers)));
  }
}
