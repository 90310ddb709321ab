/**
 * RateLimitService with the parts of OrganizationsService it shares its keys
 * with, one method per stretch of code that runs without interruption, and the
 * whole calls as their sequences.
 */
module RateLimitService {
  import opened Basics
  import opened RateLimitModel
  import RateLimitCache

  class RateLimiter {
    var clock: nat
    var limits: map<OrgId, nat>                 // organizations.requestsPerMinute
    var cache: map<OrgId, CachedLimit>          // Redis rl:limit:*
    var counters: map<(OrgId, nat), Counter>    // Redis rl:count:*
    var requests: map<Pid, Request>             // calls of consume in progress
    var notices: seq<Notice>                    // emitted events
    var history: History                        // the model's own record; it decides nothing

    ghost function Now(): State
      reads this
    {
      State(clock, limits, cache, counters, requests, notices, history)
    }

    constructor ()
      ensures Now() == INIT
    {
      clock, limits, cache, counters, requests, notices := 0, map[], map[], map[], map[], [];
      history := INIT.history;
    }

    method Pass(ms: nat)
      modifies this
      ensures Now() == Apply(old(Now()), Tick(ms))
    {
      clock := clock + ms;
    }

    method SaveOrganization(org: OrgId, limit: nat)
      modifies this
      ensures Now() == Apply(old(Now()), SaveLimit(org, limit))
    {
      limits := limits[org := limit];
      history := history.(versions := history.versions[org := Versions(history, org) + [Version(limit, clock)]]);
    }

    method InvalidateLimit(org: OrgId)
      modifies this
      ensures Now() == Apply(old(Now()), DropCache(org))
    {
      cache := cache - {org};
    }

    /** Update, then invalidate: the tail of `updateRateLimit`. */
    method UpdateRateLimit(org: OrgId, limit: nat)
      modifies this
      ensures Now() == Apply(Apply(old(Now()), SaveLimit(org, limit)), DropCache(org))
      ensures LimitFound(Now(), org) == Some(limit)
      ensures old(RateLimitCache.Coherent(Now())) ==> RateLimitCache.Coherent(Now())
    {
      if RateLimitCache.Coherent(Now()) {
        RateLimitCache.AtomicCallsStayCoherent(Now(), 0, org, limit);
      }
      SaveOrganization(org, limit);
      InvalidateLimit(org);
    }

    method ReadCachedLimit(p: Pid, org: OrgId)
      requires p !in requests
      modifies this
      ensures Now() == Apply(old(Now()), CacheGet(p, org))
    {
      if org in cache && clock < cache[org].expiresAt {
        var cached := cache[org];
        requests := requests[p := Limited(org, cached.limit)];
        history := history.(grants := history.grants + [Grant(org, cached.limit, cached.readAt, clock)]);
      } else {
        requests := requests[p := Missed(org)];
      }
    }

    method GetRateLimit(p: Pid)
      requires p in requests && requests[p].Missed?
      modifies this
      ensures Now() == Apply(old(Now()), DbRead(p))
    {
      var org := requests[p].org;
      if org in limits {
        requests := requests[p := Loaded(org, limits[org], clock)];
      } else {
        requests := requests[p := Failed(org)];
      }
    }

    method StoreLimit(p: Pid)
      requires p in requests && requests[p].Loaded?
      modifies this
      ensures Now() == Apply(old(Now()), CacheSet(p))
    {
      var org, limit, readAt := requests[p].org, requests[p].limit, requests[p].readAt;
      cache := cache[org := CachedLimit(limit, readAt, clock, clock + WINDOW_MS)];
      requests := requests[p := Limited(org, limit)];
      history := history.(grants := history.grants + [Grant(org, limit, readAt, clock)],
                          slowest := Max(history.slowest, Max(0, clock - readAt)));
    }

    method TakeTimestamp(p: Pid)
      requires p in requests && requests[p].Limited?
      modifies this
      ensures Now() == Apply(old(Now()), Stamp(p))
    {
      requests := requests[p := Stamped(requests[p].org, requests[p].limit, clock)];
    }

    method Increment(p: Pid)
      requires p in requests && requests[p].Stamped?
      modifies this
      ensures Now() == Apply(old(Now()), Incr(p))
    {
      var org, limit, now := requests[p].org, requests[p].limit, requests[p].now;
      var key := (org, WindowOf(now));
      var live := key in counters && (counters[key].expiresAt.Some? ==> clock < counters[key].expiresAt.value);
      var counter := if live then Counter(counters[key].value + 1, counters[key].expiresAt) else Counter(1, None);
      counters := counters[key := counter];
      var hit := |history.hits|;
      history := history.(hits := history.hits + [Hit(org, WindowOf(now), now, clock, limit, counter.value)]);
      if counter.value == 1 {
        requests := requests[p := FirstHit(org, limit, now, 1, hit)];
      } else {
        requests := requests[p := Counted(org, limit, now, counter.value, hit)];
      }
    }

    method SetExpiry(p: Pid)
      requires p in requests && requests[p].FirstHit?
      modifies this
      ensures Now() == Apply(old(Now()), Expire(p))
    {
      var r := requests[p];
      var key := (r.org, WindowOf(r.now));
      if key in counters && (counters[key].expiresAt.Some? ==> clock < counters[key].expiresAt.value) {
        counters := counters[key := Counter(counters[key].value, Some(clock + WINDOW_MS))];
        history := history.(ends := EndsAt(history.ends, key, clock + WINDOW_MS));
      }
      requests := requests[p := Counted(r.org, r.limit, r.now, r.count, r.hit)];
    }

    /** Notify on the first breach and build the result. */
    method Answer(p: Pid) returns (result: RateLimitResult)
      requires p in requests && requests[p].Counted?
      modifies this
      ensures Now() == Apply(old(Now()), Finish(p))
      ensures var r := old(requests)[p];
        && result == ResultOf(r.limit, r.count, r.now)
        && result.limit == r.limit && result.count == r.count && (result.allowed <==> r.count <= r.limit)
        && result.remaining == (if r.count < r.limit then r.limit - r.count else 0)
        && r.now < result.resetAtEpoch * 1000 == WindowEnd(WindowOf(r.now))
        && result.retryAfter == result.resetAtEpoch - r.now / 1000
    {
      var r := requests[p];
      if r.count == r.limit + 1 {
        notices := notices + [Notice(r.org, r.limit, r.hit)];
      }
      var resetAtEpoch := (WindowOf(r.now) + 1) * WINDOW_SECONDS;
      var remaining := Max(0, r.limit - r.count);
      var retryAfter := Max(0, resetAtEpoch - r.now / 1000);
      result := RateLimitResult(r.limit, r.count, remaining, r.count <= r.limit, resetAtEpoch, retryAfter);
      requests := requests[p := Done(r.org, result)];
      history := history.(answers := history.answers[r.hit := result]);
    }

    /** The cached limit, or the stored one, which it then caches. */
    method GetLimit(p: Pid, org: OrgId) returns (limit: Option<nat>)
      requires p !in requests
      modifies this
      ensures Now() == AfterGetLimit(old(Now()), p, org) && limit == LimitFound(old(Now()), org)
      ensures p in requests && requests[p] == if limit.Some? then Limited(org, limit.value) else Failed(org)
      ensures CountNow(Now(), org) == CountNow(old(Now()), org) && clock == old(clock)
    {
      ReadCachedLimit(p, org);
      if requests[p].Missed? {
        GetRateLimit(p);
        if requests[p].Failed? {
          return None;
        }
        StoreLimit(p);
      }
      limit := Some(requests[p].limit);
    }

    method Count(p: Pid, org: OrgId, limit: nat) returns (result: RateLimitResult)
      requires p in requests && requests[p] == Limited(org, limit)
      modifies this
      ensures Now() == AfterCount(old(Now()), p)
      ensures result == ResultOf(limit, CountNow(old(Now()), org) + 1, old(clock))
    {
      TakeTimestamp(p);
      Increment(p);
      if requests[p].FirstHit? {
        SetExpiry(p);
      }
      result := Answer(p);
    }

    /** What follows `getLimit`: its failure ends the call, a limit is counted against. */
    method CountAgainst(p: Pid, org: OrgId, limit: Option<nat>) returns (result: Outcome<RateLimitResult>)
      requires p in requests && requests[p] == if limit.Some? then Limited(org, limit.value) else Failed(org)
      modifies this
      ensures Now() == AfterCount(old(Now()), p)
      ensures result == AnswerTo(limit, CountNow(old(Now()), org), old(clock))
    {
      if limit.None? {
        FailedStops(Now(), p, org);
        return NotFound;
      }
      var answer := Count(p, org, limit.value);
      result := Ok(answer);
    }

    /** A whole call with nothing in between. */
    method Consume(p: Pid, org: OrgId) returns (result: Outcome<RateLimitResult>)
      requires p !in requests
      modifies this
      ensures Now() == AfterCount(AfterGetLimit(old(Now()), p, org), p)
      ensures if LimitFound(old(Now()), org).Some? then result.Ok? else result == NotFound
      ensures result.Ok? ==>
        var before := CountNow(old(Now()), org);
        && Some(result.value.limit) == LimitFound(old(Now()), org) && result.value.count == before + 1
        && (result.value.allowed <==> before < result.value.limit)
        && (result.value.allowed ==> result.value.remaining == result.value.limit - result.value.count)
    {
      var limit := GetLimit(p, org);
      result := CountAgainst(p, org, limit);
    }
  }
}
