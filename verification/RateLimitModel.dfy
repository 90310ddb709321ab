/**
 * The rate limiter as a step system: requests to `consume` and owner updates
 * interleave at every await. One action is one command that lands at Redis or
 * Postgres, or one synchronous stretch of code between two awaits.
 */
module RateLimitModel {
  import opened Basics

  type OrgId = nat
  type Pid = nat

  const WINDOW_SECONDS: nat := 60
  const WINDOW_MS: nat := 60_000

  /** A value the limit column held, from the millisecond it was written. */
  datatype Version = Version(limit: nat, since: nat)

  /** `rl:limit:<org>`; `readAt` and `setAt` record when it was read and stored. */
  datatype CachedLimit = CachedLimit(limit: nat, readAt: nat, setAt: nat, expiresAt: nat)

  /** `rl:count:<org>:<window>`; no expiry until EXPIRE lands. */
  datatype Counter = Counter(value: nat, expiresAt: Option<nat>)

  datatype RateLimitResult = RateLimitResult(
    limit: nat, count: nat, remaining: nat, allowed: bool, resetAtEpoch: nat, retryAfter: nat)

  /** Where one call of `consume` stands. */
  datatype Request =
    | Missed(org: OrgId)
    | Loaded(org: OrgId, limit: nat, readAt: nat)
    | Limited(org: OrgId, limit: nat)
    | Stamped(org: OrgId, limit: nat, now: nat)
    | FirstHit(org: OrgId, limit: nat, now: nat, count: nat, hit: nat)
    | Counted(org: OrgId, limit: nat, now: nat, count: nat, hit: nat)
    | Done(org: OrgId, result: RateLimitResult)
    | Failed(org: OrgId)
    | Dead

  /** An INCR that landed, with the request's own timestamp and limit. */
  datatype Hit = Hit(org: OrgId, window: nat, now: nat, at: nat, limit: nat, count: nat)

  /** A limit that `getLimit` handed to a request at time `at`. */
  datatype Grant = Grant(org: OrgId, limit: nat, readAt: nat, at: nat)

  /** A rate-limit-exceeded event, and which hit caused it. */
  datatype Notice = Notice(org: OrgId, limit: nat, hit: nat)

  datatype State = State(
    clock: nat,
    limits: map<OrgId, nat>,
    cache: map<OrgId, CachedLimit>,
    counters: map<(OrgId, nat), Counter>,
    requests: map<Pid, Request>,
    notices: seq<Notice>,
    history: History)

  /** For each counter key, when its first counter was set to expire. */
  type Ends = map<(OrgId, nat), nat>

  /** What has happened so far; no step reads it. `answers` is what the request of each hit was told. */
  datatype History = History(
    versions: map<OrgId, seq<Version>>, hits: seq<Hit>, ends: Ends, grants: seq<Grant>,
    answers: map<nat, RateLimitResult>, slowest: nat)

  datatype Action =
    | Tick(ms: nat)
    | SaveLimit(org: OrgId, limit: nat)
    | DropCache(org: OrgId)
    | CacheGet(p: Pid, org: OrgId)
    | DbRead(p: Pid)
    | CacheSet(p: Pid)
    | Stamp(p: Pid)
    | Incr(p: Pid)
    | Expire(p: Pid)
    | Finish(p: Pid)
    | Crash(p: Pid)

  const INIT := State(0, map[], map[], map[], map[], [], History(map[], [], map[], [], map[], 0))

  function WindowOf(now: nat): nat {
    now / WINDOW_MS
  }

  function WindowEnd(w: nat): nat {
    (w + 1) * WINDOW_MS
  }

  /** The result record of `consume`. */
  function ResultOf(limit: nat, count: nat, now: nat): RateLimitResult {
    var resetAtEpoch := (WindowOf(now) + 1) * WINDOW_SECONDS;
    RateLimitResult(limit, count, Max(0, limit - count), count <= limit, resetAtEpoch,
                    Max(0, resetAtEpoch - now / 1000))
  }

  predicate CacheLive(s: State, org: OrgId) {
    org in s.cache && s.clock < s.cache[org].expiresAt
  }

  predicate CounterLive(s: State, key: (OrgId, nat)) {
    key in s.counters && (s.counters[key].expiresAt.Some? ==> s.clock < s.counters[key].expiresAt.value)
  }

  function Versions(h: History, org: OrgId): seq<Version> {
    if org in h.versions then h.versions[org] else []
  }

  /** Only the first expiry of a key is recorded. */
  function EndsAt(ends: Ends, key: (OrgId, nat), end: nat): Ends {
    if key in ends then ends else ends[key := end]
  }

  function With(s: State, p: Pid, r: Request): State {
    s.(requests := s.requests[p := r])
  }

  // ----- The steps -----------------------------------------------------------

  function DoSaveLimit(s: State, org: OrgId, limit: nat): State {
    var vs := Versions(s.history, org) + [Version(limit, s.clock)];
    s.(limits := s.limits[org := limit], history := s.history.(versions := s.history.versions[org := vs]))
  }

  function DoCacheGet(s: State, p: Pid, org: OrgId): State {
    if CacheLive(s, org) then
      var c := s.cache[org];
      With(s, p, Limited(org, c.limit)).(history :=
        s.history.(grants := s.history.grants + [Grant(org, c.limit, c.readAt, s.clock)]))
    else With(s, p, Missed(org))
  }

  function DoDbRead(s: State, p: Pid, org: OrgId): State {
    if org in s.limits then With(s, p, Loaded(org, s.limits[org], s.clock)) else With(s, p, Failed(org))
  }

  function DoCacheSet(s: State, p: Pid, org: OrgId, limit: nat, readAt: nat): State {
    var entry := CachedLimit(limit, readAt, s.clock, s.clock + WINDOW_MS);
    With(s, p, Limited(org, limit)).(
      cache := s.cache[org := entry],
      history := s.history.(
        grants := s.history.grants + [Grant(org, limit, readAt, s.clock)],
        slowest := Max(s.history.slowest, Max(0, s.clock - readAt))))
  }

  function DoIncr(s: State, p: Pid, org: OrgId, limit: nat, now: nat): State {
    var key := (org, WindowOf(now));
    var counter := if CounterLive(s, key) then Counter(s.counters[key].value + 1, s.counters[key].expiresAt)
                   else Counter(1, None);
    var hit := |s.history.hits|;
    With(s, p, if counter.value == 1 then FirstHit(org, limit, now, 1, hit)
               else Counted(org, limit, now, counter.value, hit)).(
      counters := s.counters[key := counter],
      history := s.history.(
        hits := s.history.hits + [Hit(org, WindowOf(now), now, s.clock, limit, counter.value)]))
  }

  function DoExpire(s: State, p: Pid, r: Request): State
    requires r.FirstHit?
  {
    var key := (r.org, WindowOf(r.now));
    var s' := With(s, p, Counted(r.org, r.limit, r.now, r.count, r.hit));
    if CounterLive(s, key) then
      s'.(counters := s.counters[key := s.counters[key].(expiresAt := Some(s.clock + WINDOW_MS))],
          history := s.history.(ends := EndsAt(s.history.ends, key, s.clock + WINDOW_MS)))
    else s'
  }

  function DoFinish(s: State, p: Pid, r: Request): State
    requires r.Counted?
  {
    var result := ResultOf(r.limit, r.count, r.now);
    With(s, p, Done(r.org, result)).(
      notices := s.notices + (if r.count == r.limit + 1 then [Notice(r.org, r.limit, r.hit)] else []),
      history := s.history.(answers := s.history.answers[r.hit := result]))
  }

  /** One step; an action whose moment has not come changes nothing. */
  function Apply(s: State, a: Action): State {
    match a
    case Tick(ms) => s.(clock := s.clock + ms)
    case SaveLimit(org, limit) => DoSaveLimit(s, org, limit)
    case DropCache(org) => s.(cache := s.cache - {org})
    case CacheGet(p, org) => if p in s.requests then s else DoCacheGet(s, p, org)
    case DbRead(p) =>
      if p in s.requests && s.requests[p].Missed? then DoDbRead(s, p, s.requests[p].org) else s
    case CacheSet(p) =>
      if p in s.requests && s.requests[p].Loaded? then
        DoCacheSet(s, p, s.requests[p].org, s.requests[p].limit, s.requests[p].readAt)
      else s
    case Stamp(p) =>
      if p in s.requests && s.requests[p].Limited? then
        With(s, p, Stamped(s.requests[p].org, s.requests[p].limit, s.clock))
      else s
    case Incr(p) =>
      if p in s.requests && s.requests[p].Stamped? then
        DoIncr(s, p, s.requests[p].org, s.requests[p].limit, s.requests[p].now)
      else s
    case Expire(p) => if p in s.requests && s.requests[p].FirstHit? then DoExpire(s, p, s.requests[p]) else s
    case Finish(p) => if p in s.requests && s.requests[p].Counted? then DoFinish(s, p, s.requests[p]) else s
    case Crash(p) => if p in s.requests && !s.requests[p].Done? && !s.requests[p].Failed? then With(s, p, Dead) else s
  }

  function Exec(s: State, actions: seq<Action>): State
    decreases |actions|
  {
    if actions == [] then s else Exec(Apply(s, actions[0]), actions[1..])
  }

  lemma {:induction false} ExecAppend(s: State, xs: seq<Action>, ys: seq<Action>)
    ensures Exec(s, xs + ys) == Exec(Exec(s, xs), ys)
    decreases |xs|
  {
    if xs == [] {
      assert xs + ys == ys;
    } else {
      assert (xs + ys)[1..] == xs[1..] + ys;
      ExecAppend(Apply(s, xs[0]), xs[1..], ys);
    }
  }

  lemma ExecCons(s: State, a: Action, rest: seq<Action>)
    ensures Exec(s, [a] + rest) == Exec(Apply(s, a), rest)
  {
    assert ([a] + rest)[1..] == rest;
  }

  // ----- One call of consume with nothing in between -------------------------

  /** The steps of one call, for every branch: a step the branch skips is not enabled. */
  function ConsumeSteps(p: Pid, org: OrgId): seq<Action> {
    [CacheGet(p, org)] + ([DbRead(p)] + ([CacheSet(p)] +
      ([Stamp(p)] + ([Incr(p)] + ([Expire(p)] + ([Finish(p)] + []))))))
  }

  /** The steps of `getLimit`. */
  function AfterGetLimit(s: State, p: Pid, org: OrgId): State {
    Apply(Apply(Apply(s, CacheGet(p, org)), DbRead(p)), CacheSet(p))
  }

  /** The steps of `consume` after its `getLimit`. */
  function AfterCount(s: State, p: Pid): State {
    Apply(Apply(Apply(Apply(s, Stamp(p)), Incr(p)), Expire(p)), Finish(p))
  }

  /** The limit a call finds when it runs alone. */
  function LimitFound(s: State, org: OrgId): Option<nat> {
    if CacheLive(s, org) then Some(s.cache[org].limit) else Get(s.limits, org)
  }

  function CountNow(s: State, org: OrgId): nat {
    var key := (org, WindowOf(s.clock));
    if CounterLive(s, key) then s.counters[key].value else 0
  }

  /** The answer to a call that found this limit and this many requests before it. */
  function AnswerTo(limit: Option<nat>, before: nat, now: nat): Outcome<RateLimitResult> {
    match limit
    case None => NotFound
    case Some(l) => Ok(ResultOf(l, before + 1, now))
  }

  lemma ExecConsume(s: State, p: Pid, org: OrgId)
    ensures Exec(s, ConsumeSteps(p, org)) == AfterCount(AfterGetLimit(s, p, org), p)
  {
    var s1 := Apply(s, CacheGet(p, org));
    var s2 := Apply(s1, DbRead(p));
    var s3 := Apply(s2, CacheSet(p));
    var s4 := Apply(s3, Stamp(p));
    var s5 := Apply(s4, Incr(p));
    var s6 := Apply(s5, Expire(p));
    var t6 := [Finish(p)] + [];
    var t5 := [Expire(p)] + t6;
    var t4 := [Incr(p)] + t5;
    var t3 := [Stamp(p)] + t4;
    var t2 := [CacheSet(p)] + t3;
    var t1 := [DbRead(p)] + t2;
    ExecCons(s, CacheGet(p, org), t1);
    ExecCons(s1, DbRead(p), t2);
    ExecCons(s2, CacheSet(p), t3);
    ExecCons(s3, Stamp(p), t4);
    ExecCons(s4, Incr(p), t5);
    ExecCons(s5, Expire(p), t6);
    ExecCons(s6, Finish(p), []);
  }

  /**
   * A call that runs alone counts one more request in its window, answers by
   * comparing that count with the limit, and notifies only on the first breach.
   */
  lemma ConsumeAlone(s: State, p: Pid, org: OrgId, limit: nat)
    requires p !in s.requests && LimitFound(s, org) == Some(limit)
    ensures var s' := Exec(s, ConsumeSteps(p, org));
      var count := CountNow(s, org) + 1;
      && s'.clock == s.clock && s'.limits == s.limits
      && LimitFound(s', org) == Some(limit) && CountNow(s', org) == count
      && s'.requests == s.requests[p := Done(org, ResultOf(limit, count, s.clock))]
      && s'.notices == s.notices + (if count == limit + 1 then [Notice(org, limit, |s.history.hits|)] else [])
      && s'.history.hits == s.history.hits + [Hit(org, WindowOf(s.clock), s.clock, s.clock, limit, count)]
      && s'.history.answers == s.history.answers[|s.history.hits| := ResultOf(limit, count, s.clock)]
      && CacheLive(s', org)
  {
    ExecConsume(s, p, org);
    GetLimitAlone(s, p, org, limit);
    CountAlone(AfterGetLimit(s, p, org), p, org, limit);
  }

  /** The counters after a call: a first hit gave its counter a minute to live, a later one left the expiry alone. */
  ghost predicate CountedIn(
    was: map<(OrgId, nat), Counter>, now: map<(OrgId, nat), Counter>, clock: nat, key: (OrgId, nat), count: nat)
  {
    && key in now && now[key].value == count
    && (count == 1 ==> now[key].expiresAt == Some(clock + 60_000))
    && (count > 1 ==> key in was && now[key].expiresAt == was[key].expiresAt)
  }

  lemma ConsumeCounter(s: State, p: Pid, org: OrgId, limit: nat)
    requires p !in s.requests && LimitFound(s, org) == Some(limit)
    ensures CountedIn(s.counters, Exec(s, ConsumeSteps(p, org)).counters, s.clock,
                      (org, WindowOf(s.clock)), CountNow(s, org) + 1)
  {
    ExecConsume(s, p, org);
    GetLimitAlone(s, p, org, limit);
    CounterAfter(AfterGetLimit(s, p, org), p, org, limit);
  }

  lemma CounterAfter(s: State, p: Pid, org: OrgId, limit: nat)
    requires p in s.requests && s.requests[p] == Limited(org, limit)
    ensures CountedIn(s.counters, AfterCount(s, p).counters, s.clock, (org, WindowOf(s.clock)), CountNow(s, org) + 1)
  {
    IncrAlone(s, p, org, limit);
    var s2 := Apply(Apply(s, Stamp(p)), Incr(p));
    var s3 := Apply(s2, Expire(p));
    assert s3.requests[p] == Counted(org, limit, s.clock, CountNow(s, org) + 1, |s.history.hits|);
    assert CountedIn(s.counters, s3.counters, s.clock, (org, WindowOf(s.clock)), CountNow(s, org) + 1);
  }

  /** A call that runs alone, and then `rest` happens. */
  lemma ServeAlone(s: State, p: Pid, org: OrgId, limit: nat, rest: seq<Action>) returns (s': State)
    requires p !in s.requests && LimitFound(s, org) == Some(limit)
    ensures Exec(s, ConsumeSteps(p, org) + rest) == Exec(s', rest)
    ensures s'.clock == s.clock && LimitFound(s', org) == Some(limit) && CountNow(s', org) == CountNow(s, org) + 1
    ensures s'.requests == s.requests[p := Done(org, ResultOf(limit, CountNow(s, org) + 1, s.clock))]
    ensures s'.notices ==
      s.notices + (if CountNow(s, org) == limit then [Notice(org, limit, |s.history.hits|)] else [])
    ensures s'.history.hits ==
      s.history.hits + [Hit(org, WindowOf(s.clock), s.clock, s.clock, limit, CountNow(s, org) + 1)]
    ensures CountedIn(s.counters, s'.counters, s.clock, (org, WindowOf(s.clock)), CountNow(s, org) + 1)
  {
    ExecAppend(s, ConsumeSteps(p, org), rest);
    ConsumeAlone(s, p, org, limit);
    ConsumeCounter(s, p, org, limit);
    s' := Exec(s, ConsumeSteps(p, org));
  }

  /** `getLimit`, run alone, leaves the limit cached. */
  lemma GetLimitAlone(s: State, p: Pid, org: OrgId, limit: nat)
    requires p !in s.requests && LimitFound(s, org) == Some(limit)
    ensures var s' := AfterGetLimit(s, p, org);
      && s'.requests == s.requests[p := Limited(org, limit)]
      && CacheLive(s', org) && s'.cache[org].limit == limit
      && s'.clock == s.clock && s'.limits == s.limits && s'.counters == s.counters && s'.notices == s.notices
      && s'.history.hits == s.history.hits && s'.history.answers == s.history.answers
  {
    var s1 := Apply(s, CacheGet(p, org));
    if CacheLive(s, org) {
      assert Apply(s1, DbRead(p)) == s1 && Apply(s1, CacheSet(p)) == s1;
    } else {
      var s2 := Apply(s1, DbRead(p));
      assert s2.requests == s.requests[p := Loaded(org, limit, s.clock)];
    }
  }

  /** A call whose organization was not found takes no further step. */
  lemma FailedStops(s: State, p: Pid, org: OrgId)
    requires p in s.requests && s.requests[p] == Failed(org)
    ensures AfterCount(s, p) == s
  {
    assert Apply(s, Stamp(p)) == s && Apply(s, Incr(p)) == s && Apply(s, Expire(p)) == s;
  }

  lemma CountAlone(s: State, p: Pid, org: OrgId, limit: nat)
    requires p in s.requests && s.requests[p] == Limited(org, limit)
    ensures var s' := AfterCount(s, p);
      var count := CountNow(s, org) + 1;
      && CountNow(s', org) == count
      && s'.requests == s.requests[p := Done(org, ResultOf(limit, count, s.clock))]
      && s'.notices == s.notices + (if count == limit + 1 then [Notice(org, limit, |s.history.hits|)] else [])
      && s'.clock == s.clock && s'.limits == s.limits && s'.cache == s.cache
      && s'.history.hits == s.history.hits + [Hit(org, WindowOf(s.clock), s.clock, s.clock, limit, count)]
      && s'.history.answers == s.history.answers[|s.history.hits| := ResultOf(limit, count, s.clock)]
  {
    IncrAlone(s, p, org, limit);
    var s2 := Apply(Apply(s, Stamp(p)), Incr(p));
    var s3 := Apply(s2, Expire(p));
    assert s3.requests == s.requests[p := Counted(org, limit, s.clock, CountNow(s, org) + 1, |s.history.hits|)];
    assert CounterLive(s3, (org, WindowOf(s.clock)));
  }

  lemma IncrAlone(s: State, p: Pid, org: OrgId, limit: nat)
    requires p in s.requests && s.requests[p] == Limited(org, limit)
    ensures var s' := Apply(Apply(s, Stamp(p)), Incr(p));
      var count := CountNow(s, org) + 1;
      && s'.clock == s.clock && s'.limits == s.limits && s'.cache == s.cache && s'.notices == s.notices
      && CounterLive(s', (org, WindowOf(s.clock))) && CountNow(s', org) == count
      && s'.requests == s.requests[p := if count == 1 then FirstHit(org, limit, s.clock, 1, |s.history.hits|)
                                        else Counted(org, limit, s.clock, count, |s.history.hits|)]
      && s'.history.hits == s.history.hits + [Hit(org, WindowOf(s.clock), s.clock, s.clock, limit, count)]
      && s'.history.answers == s.history.answers
  {
    var s1 := Apply(s, Stamp(p));
    assert s1.requests[p] == Stamped(org, limit, s.clock);
  }

  /** A rejected client that waits `retryAfter` seconds, always 1 to 60, meets a later window. */
  lemma RetryMeetsLaterWindow(limit: nat, count: nat, now: nat, later: nat)
    ensures var r := ResultOf(limit, count, now);
      && 1 <= r.retryAfter <= 60
      && r.resetAtEpoch * 1000 == WindowEnd(WindowOf(now))
      && (later >= now + r.retryAfter * 1000 ==> WindowOf(later) > WindowOf(now))
      && (later < (now / 1000 + r.retryAfter) * 1000 && later >= now ==> WindowOf(later) == WindowOf(now))
  {
    var w := WindowOf(now);
    assert w * 60_000 <= now < w * 60_000 + 60_000;
  }
}
