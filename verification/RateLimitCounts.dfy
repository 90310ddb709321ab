/**
 * What a window's counter guarantees over every run: a request is told its place
 * in its window exactly if it lands before the counter expires, hence exact
 * admissions and the sliding bound.
 */
module RateLimitCounts {
  import opened Basics
  import opened RateLimitModel
  import opened RateLimitExpiry

  // ----- Hits that land before their counter expires -------------------------

  /** A hit of the window that landed before the window's counter was set to expire. */
  ghost predicate OnTime(ends: Ends, h: Hit, org: OrgId, w: nat) {
    h.org == org && h.window == w && ((org, w) in ends ==> h.at < ends[(org, w)])
  }

  ghost function Landed(ends: Ends, hits: seq<Hit>, org: OrgId, w: nat): seq<Hit> {
    if hits == [] then []
    else Landed(ends, ButLast(hits), org, w) + if OnTime(ends, Last(hits), org, w) then [Last(hits)] else []
  }

  lemma LandedAppend(ends: Ends, hits: seq<Hit>, h: Hit, org: OrgId, w: nat)
    ensures Landed(ends, hits + [h], org, w) == Landed(ends, hits, org, w) + if OnTime(ends, h, org, w) then [h] else []
  {
    AppendLast(hits, h);
  }

  lemma {:induction false} LandedAreOnTime(ends: Ends, hits: seq<Hit>, org: OrgId, w: nat)
    ensures forall k :: 0 <= k < |Landed(ends, hits, org, w)| ==>
      OnTime(ends, Landed(ends, hits, org, w)[k], org, w) && Landed(ends, hits, org, w)[k] in hits
  {
    if hits != [] {
      LandedAreOnTime(ends, ButLast(hits), org, w);
    }
  }

  /** The place of an on-time hit among its window's hits. */
  lemma {:induction false} PlaceInWindow(ends: Ends, hits: seq<Hit>, i: nat, org: OrgId, w: nat)
    requires i < |hits| && OnTime(ends, hits[i], org, w)
    ensures var k := |Landed(ends, hits[..i], org, w)|;
      k < |Landed(ends, hits, org, w)| && Landed(ends, hits, org, w)[k] == hits[i]
  {
    if i == |hits| - 1 {
      assert hits[..i] == ButLast(hits);
    } else {
      PlaceInWindow(ends, ButLast(hits), i, org, w);
      assert ButLast(hits)[..i] == hits[..i];
    }
  }

  lemma {:induction false} LandedGrows(ends: Ends, hits: seq<Hit>, i: nat, org: OrgId, w: nat)
    requires i <= |hits|
    ensures |Landed(ends, hits[..i], org, w)| <= |Landed(ends, hits, org, w)|
  {
    if i == |hits| {
      assert hits[..i] == hits;
    } else {
      LandedGrows(ends, ButLast(hits), i, org, w);
      assert ButLast(hits)[..i] == hits[..i];
    }
  }

  // ----- The invariant -------------------------------------------------------

  /** How many hits of the window have landed, on time or not. */
  ghost function Arrived(hits: seq<Hit>, org: OrgId, w: nat): nat {
    if hits == [] then 0
    else Arrived(ButLast(hits), org, w) + if Last(hits).org == org && Last(hits).window == w then 1 else 0
  }

  lemma ArrivedAppend(hits: seq<Hit>, h: Hit, org: OrgId, w: nat)
    ensures Arrived(hits + [h], org, w) == Arrived(hits, org, w) + if h.org == org && h.window == w then 1 else 0
  {
    AppendLast(hits, h);
  }

  /** A hit is told its place in its window exactly if it is on time. */
  ghost predicate ToldPlace(s: State, i: nat)
    requires i < |s.history.hits|
  {
    var h := s.history.hits[i];
    h.count == Arrived(s.history.hits[..i], h.org, h.window) + 1 <==> OnTime(s.history.ends, h, h.org, h.window)
  }

  /** The window's first counter, holding the number of its hits. */
  ghost predicate FirstLife(s: State, key: (OrgId, nat), n: nat)
    requires key in s.counters
  {
    && s.counters[key].value == n
    && s.counters[key].expiresAt == if key in s.history.ends then Some(s.history.ends[key]) else None
  }

  /** Past the end of its first counter, a window's key holds less than the number of hits. */
  ghost predicate LaterLife(s: State, key: (OrgId, nat), n: nat)
    requires key in s.counters
  {
    key in s.history.ends && s.history.ends[key] <= s.clock && s.counters[key].value < n
  }

  ghost predicate CounterTracks(s: State, org: OrgId, w: nat) {
    var key, n := (org, w), Arrived(s.history.hits, org, w);
    if n == 0 then key !in s.counters && key !in s.history.ends
    else key in s.counters && (FirstLife(s, key, n) || LaterLife(s, key, n))
  }

  /** A window's counter never expires before the window ends. */
  ghost predicate EndsLate(ends: Ends) {
    forall key :: key in ends ==> ends[key] >= WindowEnd(key.1)
  }

  ghost predicate RequestTimes(s: State) {
    forall p :: p in s.requests ==>
      var r := s.requests[p];
      (r.Stamped? || r.FirstHit? || r.Counted?) ==> r.now <= s.clock
  }

  ghost predicate HitTime(s: State, h: Hit) {
    h.now <= h.at <= s.clock && h.window == WindowOf(h.now) && h.count >= 1
  }

  ghost predicate InOrder(hits: seq<Hit>) {
    forall i, j :: 0 <= i < j < |hits| ==> hits[i].at <= hits[j].at
  }

  ghost predicate Times(s: State) {
    && RequestTimes(s) && InOrder(s.history.hits) && EndsLate(s.history.ends)
    && (forall i :: 0 <= i < |s.history.hits| ==> HitTime(s, s.history.hits[i]))
  }

  ghost predicate CountInv(s: State) {
    && Times(s)
    && (forall i :: 0 <= i < |s.history.hits| ==> ToldPlace(s, i))
    && (forall org, w :: CounterTracks(s, org, w))
  }

  lemma InitCounts()
    ensures CountInv(INIT) && ExpireInv(INIT)
  {
    assert forall org, w :: Arrived([], org, w) == 0;
  }

  lemma IncrKeepsCounts(s: State, p: Pid)
    requires CountInv(s) && p in s.requests && s.requests[p].Stamped?
    ensures CountInv(Apply(s, Incr(p)))
  {
    var s' := Apply(s, Incr(p));
    var h := Last(s'.history.hits);
    assert s'.history.hits == s.history.hits + [h] && s'.history.ends == s.history.ends;
    forall o, v ensures CounterTracks(s', o, v) {
      assert CounterTracks(s, o, v);
      ArrivedAppend(s.history.hits, h, o, v);
    }
    forall i | 0 <= i < |s'.history.hits| ensures ToldPlace(s', i) {
      if i < |s.history.hits| {
        assert ToldPlace(s, i) && s'.history.hits[..i] == s.history.hits[..i];
      } else {
        assert s'.history.hits[..i] == s.history.hits;
        LastToldPlace(s, p);
      }
    }
  }

  lemma LastToldPlace(s: State, p: Pid)
    requires CountInv(s) && p in s.requests && s.requests[p].Stamped?
    ensures var h := Last(Apply(s, Incr(p)).history.hits);
      h.count == Arrived(s.history.hits, h.org, h.window) + 1 <==> OnTime(s.history.ends, h, h.org, h.window)
  {
    assert CounterTracks(s, s.requests[p].org, WindowOf(s.requests[p].now));
  }

  lemma ExpireKeepsCounts(s: State, p: Pid)
    requires CountInv(s) && ExpireInv(s) && p in s.requests && s.requests[p].FirstHit?
    ensures CountInv(Apply(s, Expire(p)))
  {
    var s' := Apply(s, Expire(p));
    var key := KeyOf(s.requests[p]);
    assert Owes(s, p, key) && CounterTracks(s, key.0, key.1);
    assert key.1 * WINDOW_MS <= s.requests[p].now <= s.clock;
    forall o, v ensures CounterTracks(s', o, v) {
      assert CounterTracks(s, o, v);
    }
    forall i | 0 <= i < |s'.history.hits| ensures ToldPlace(s', i) {
      assert ToldPlace(s, i) && HitTime(s, s.history.hits[i]);
    }
  }

  lemma OtherStepFrame(s: State, a: Action)
    requires !a.Incr? && !a.Expire?
    ensures var s' := Apply(s, a);
      && s'.history.hits == s.history.hits && s'.history.ends == s.history.ends
      && s'.counters == s.counters && s'.clock >= s.clock
  {
  }

  lemma OtherStepKeepsTimes(s: State, a: Action)
    requires RequestTimes(s) && !a.Incr? && !a.Expire?
    ensures RequestTimes(Apply(s, a))
  {
  }

  lemma OtherStepKeepsCounts(s: State, a: Action)
    requires CountInv(s) && !a.Incr? && !a.Expire?
    ensures CountInv(Apply(s, a))
  {
    var s' := Apply(s, a);
    OtherStepFrame(s, a);
    OtherStepKeepsTimes(s, a);
    forall o, v ensures CounterTracks(s', o, v) { assert CounterTracks(s, o, v); }
    forall i | 0 <= i < |s'.history.hits| ensures ToldPlace(s', i) { assert ToldPlace(s, i); }
    forall i | 0 <= i < |s'.history.hits| ensures HitTime(s', s'.history.hits[i]) {
      assert HitTime(s, s.history.hits[i]);
    }
  }

  lemma {:induction false} CountsHold(s: State, actions: seq<Action>)
    requires CountInv(s) && ExpireInv(s)
    ensures CountInv(Exec(s, actions)) && ExpireInv(Exec(s, actions))
    decreases |actions|
  {
    if actions != [] {
      var a := actions[0];
      if a.Incr? && a.p in s.requests && s.requests[a.p].Stamped? {
        IncrKeepsCounts(s, a.p);
      } else if a.Expire? && a.p in s.requests && s.requests[a.p].FirstHit? {
        ExpireKeepsCounts(s, a.p);
      } else if !a.Incr? && !a.Expire? {
        OtherStepKeepsCounts(s, a);
      }
      StepKeepsExpire(s, a);
      CountsHold(Apply(s, a), actions[1..]);
    }
  }

  /**
   * In every run a request is told its place among its window's requests if and
   * only if its INCR landed before the window's counter was set to expire; that
   * is never before the window ends.
   */
  lemma ToldPlaceIffOnTime(actions: seq<Action>, i: nat)
    requires i < |Exec(INIT, actions).history.hits|
    ensures var r := Exec(INIT, actions).history;
      var h := r.hits[i];
      && (h.count == Arrived(r.hits[..i], h.org, h.window) + 1 <==> OnTime(r.ends, h, h.org, h.window))
      && (h.at < WindowEnd(h.window) ==> OnTime(r.ends, h, h.org, h.window))
  {
    InitCounts();
    CountsHold(INIT, actions);
    assert ToldPlace(Exec(INIT, actions), i);
  }

  /** The k-th on-time hit of a window was told the count k. */
  ghost predicate CountsUp(ends: Ends, hits: seq<Hit>, org: OrgId, w: nat) {
    forall k :: 0 <= k < |Landed(ends, hits, org, w)| ==> Landed(ends, hits, org, w)[k].count == k + 1
  }

  lemma {:induction false} AllLanded(ends: Ends, hits: seq<Hit>, org: OrgId, w: nat)
    requires forall i :: 0 <= i < |hits| && hits[i].org == org && hits[i].window == w ==> OnTime(ends, hits[i], org, w)
    ensures |Landed(ends, hits, org, w)| == Arrived(hits, org, w)
  {
    if hits != [] {
      AllLanded(ends, ButLast(hits), org, w);
    }
  }

  /** Hits before an on-time hit are on time, so on-time hits are told 1, 2, 3, ... */
  lemma {:induction false} LandedCounts(ends: Ends, hits: seq<Hit>, org: OrgId, w: nat)
    requires InOrder(hits)
    requires forall i :: 0 <= i < |hits| && OnTime(ends, hits[i], org, w) ==>
      hits[i].count == Arrived(hits[..i], org, w) + 1
    ensures CountsUp(ends, hits, org, w)
  {
    if hits != [] {
      var front, i := ButLast(hits), |hits| - 1;
      forall j | 0 <= j < |front| ensures front[..j] == hits[..j] {}
      LandedCounts(ends, front, org, w);
      if OnTime(ends, hits[i], org, w) {
        assert hits[..i] == front;
        AllLanded(ends, front, org, w);
      }
    }
  }

  lemma OnTimeCounts(s: State, org: OrgId, w: nat)
    requires CountInv(s)
    ensures CountsUp(s.history.ends, s.history.hits, org, w)
  {
    forall i | 0 <= i < |s.history.hits| && OnTime(s.history.ends, s.history.hits[i], org, w)
      ensures s.history.hits[i].count == Arrived(s.history.hits[..i], org, w) + 1
    {
      assert ToldPlace(s, i);
    }
    LandedCounts(s.history.ends, s.history.hits, org, w);
  }

  // ----- Admissions ----------------------------------------------------------

  ghost function Admitted(hits: seq<Hit>): nat {
    if hits == [] then 0 else Admitted(ButLast(hits)) + if Last(hits).count <= Last(hits).limit then 1 else 0
  }

  lemma {:induction false} AdmittedOfCounts(hits: seq<Hit>, bound: nat)
    requires forall k :: 0 <= k < |hits| ==> hits[k].count == k + 1 && hits[k].limit <= bound
    ensures Admitted(hits) <= Min(|hits|, bound)
    ensures (forall k :: 0 <= k < |hits| ==> hits[k].limit == bound) ==> Admitted(hits) == Min(|hits|, bound)
  {
    if hits != [] {
      AdmittedOfCounts(ButLast(hits), bound);
    }
  }

  /**
   * Every interleaving of requests, owner updates and crashes: a window's on-time
   * hits are counted 1..n. If their limits are at most `bound` then at most
   * min(n, bound) are admitted, and exactly that many if every limit is `bound`.
   */
  lemma WindowAdmissions(actions: seq<Action>, org: OrgId, w: nat, bound: nat)
    requires var r := Exec(INIT, actions).history;
      forall h :: h in Landed(r.ends, r.hits, org, w) ==> h.limit <= bound
    ensures var r := Exec(INIT, actions).history;
      var landed := Landed(r.ends, r.hits, org, w);
      && (forall k :: 0 <= k < |landed| ==> landed[k].count == k + 1)
      && Admitted(landed) <= Min(|landed|, bound)
      && ((forall h :: h in landed ==> h.limit == bound) ==> Admitted(landed) == Min(|landed|, bound))
  {
    InitCounts();
    CountsHold(INIT, actions);
    OnTimeCounts(Exec(INIT, actions), org, w);
    var r := Exec(INIT, actions).history;
    var landed := Landed(r.ends, r.hits, org, w);
    forall k | 0 <= k < |landed| ensures landed[k].limit <= bound {
      assert landed[k] in landed;
    }
    AdmittedOfCounts(landed, bound);
    if forall h :: h in landed ==> h.limit == bound {
      forall k | 0 <= k < |landed| ensures landed[k].limit == bound {
        assert landed[k] in landed;
      }
    }
  }

  // ----- The sliding bound ---------------------------------------------------

  /** Requests of `org` stamped in [a, b) that landed on time and were admitted. */
  ghost function AdmittedBetween(ends: Ends, hits: seq<Hit>, org: OrgId, a: nat, b: nat): nat {
    if hits == [] then 0
    else AdmittedBetween(ends, ButLast(hits), org, a, b) +
         (var h := Last(hits);
          if OnTime(ends, h, org, h.window) && a <= h.now < b && h.count <= h.limit then 1 else 0)
  }

  lemma {:induction false} BetweenSplits(ends: Ends, hits: seq<Hit>, org: OrgId, a: nat, b: nat, c: nat)
    requires a <= b <= c
    ensures AdmittedBetween(ends, hits, org, a, c)
      == AdmittedBetween(ends, hits, org, a, b) + AdmittedBetween(ends, hits, org, b, c)
  {
    if hits != [] {
      BetweenSplits(ends, ButLast(hits), org, a, b, c);
    }
  }

  lemma {:induction false} BetweenWithinWindow(ends: Ends, hits: seq<Hit>, org: OrgId, w: nat, a: nat, b: nat)
    requires w * WINDOW_MS <= a && b <= WindowEnd(w)
    requires forall i :: 0 <= i < |hits| ==> hits[i].window == WindowOf(hits[i].now)
    ensures AdmittedBetween(ends, hits, org, a, b) <= Admitted(Landed(ends, hits, org, w))
  {
    if hits != [] {
      var h := Last(hits);
      BetweenWithinWindow(ends, ButLast(hits), org, w, a, b);
      if OnTime(ends, h, org, w) {
        AppendLast(Landed(ends, ButLast(hits), org, w), h);
      } else {
        assert Landed(ends, hits, org, w) == Landed(ends, ButLast(hits), org, w);
      }
      if OnTime(ends, h, org, h.window) && a <= h.now < b {
        assert WindowOf(h.now) == w;
      }
    }
  }

  /** If every window admits at most `bound`, n windows admit at most n times that. */
  lemma {:induction false} BetweenWindows(
    ends: Ends, hits: seq<Hit>, org: OrgId, w: nat, n: nat, a: nat, b: nat, bound: nat)
    requires w * WINDOW_MS <= a <= b <= (w + n) * WINDOW_MS
    requires forall i :: 0 <= i < |hits| ==> hits[i].window == WindowOf(hits[i].now)
    requires forall v :: Admitted(Landed(ends, hits, org, v)) <= bound
    ensures AdmittedBetween(ends, hits, org, a, b) <= n * bound
    decreases n
  {
    if n == 0 {
      BetweenEmpty(ends, hits, org, a);
    } else {
      var e := Min(Max(a, WindowEnd(w)), b);
      BetweenSplits(ends, hits, org, a, e, b);
      if a <= WindowEnd(w) {
        BetweenWithinWindow(ends, hits, org, w, a, e);
        assert Admitted(Landed(ends, hits, org, w)) <= bound;
      } else {
        BetweenEmpty(ends, hits, org, a);
      }
      if e < WindowEnd(w) {
        BetweenEmpty(ends, hits, org, b);
      } else {
        BetweenWindows(ends, hits, org, w + 1, n - 1, e, b, bound);
      }
      OneMore(n - 1, bound);
    }
  }

  lemma OneMore(n: nat, bound: nat)
    ensures 0 <= n * bound && (n + 1) * bound == n * bound + bound
  {
  }

  /**
   * Over any run whose limits for `org` are at most L, any half-open interval of
   * k minutes of request timestamps admits at most (k+1) * L on-time requests.
   */
  lemma SlidingBound(actions: seq<Action>, org: OrgId, L: nat, start: nat, k: nat)
    requires forall h :: h in Exec(INIT, actions).history.hits && h.org == org ==> h.limit <= L
    ensures var r := Exec(INIT, actions).history;
      AdmittedBetween(r.ends, r.hits, org, start, start + k * 60_000) <= (k + 1) * L
  {
    var r := Exec(INIT, actions).history;
    InitCounts();
    CountsHold(INIT, actions);
    forall i | 0 <= i < |r.hits| ensures r.hits[i].window == WindowOf(r.hits[i].now) {
      assert HitTime(Exec(INIT, actions), r.hits[i]);
    }
    forall w ensures Admitted(Landed(r.ends, r.hits, org, w)) <= L {
      LandedAreOnTime(r.ends, r.hits, org, w);
      WindowAdmissions(actions, org, w, L);
    }
    BetweenWindows(r.ends, r.hits, org, WindowOf(start), k + 1, start, start + k * WINDOW_MS, L);
  }

  lemma {:induction false} BetweenEmpty(ends: Ends, hits: seq<Hit>, org: OrgId, a: nat)
    ensures AdmittedBetween(ends, hits, org, a, a) == 0
  {
    if hits != [] {
      BetweenEmpty(ends, ButLast(hits), org, a);
    }
  }

  // ----- Why only hits that land in time -------------------------------------

  /** Request 0 is stamped and held, and then `rest` happens. */
  function HoldFirst(limit: nat, rest: seq<Action>): seq<Action> {
    [SaveLimit(0, limit)] + ([CacheGet(0, 0)] + ([DbRead(0)] + ([CacheSet(0)] + ([Stamp(0)] + rest))))
  }

  ghost predicate Held(s: State, limit: nat) {
    && s.clock == 0 && s.requests == map[0 := Stamped(0, limit, 0)] && s.counters == map[]
    && s.history.hits == [] && s.notices == [] && CacheLive(s, 0) && s.cache[0].limit == limit
  }

  lemma HoldFirstRuns(limit: nat, rest: seq<Action>) returns (s: State)
    ensures Exec(INIT, HoldFirst(limit, rest)) == Exec(s, rest) && Held(s, limit)
  {
    var t3 := [CacheSet(0)] + ([Stamp(0)] + rest);
    var t2 := [DbRead(0)] + t3;
    ExecCons(INIT, SaveLimit(0, limit), [CacheGet(0, 0)] + t2);
    var s1 := Apply(INIT, SaveLimit(0, limit));
    ExecCons(s1, CacheGet(0, 0), t2);
    var s2 := Apply(s1, CacheGet(0, 0));
    ExecCons(s2, DbRead(0), t3);
    var s3 := Apply(s2, DbRead(0));
    ExecCons(s3, CacheSet(0), [Stamp(0)] + rest);
    var s4 := Apply(s3, CacheSet(0));
    assert s4.requests == map[0 := Limited(0, limit)];
    ExecCons(s4, Stamp(0), rest);
    s := Apply(s4, Stamp(0));
  }

  /** Request 1 is counted, a minute passes, request 0 is counted. */
  function LateTail(): seq<Action> {
    [CacheGet(1, 0)] + ([Stamp(1)] + ([Incr(1)] + ([Expire(1)] + ([Tick(WINDOW_MS)] + ([Incr(0)] + [])))))
  }

  /** The two requests belong to one window, and both are told the count 1. */
  lemma LateHitCountsAgain(limit: nat)
    ensures Exec(INIT, HoldFirst(limit, LateTail())).history.hits ==
      [Hit(0, 0, 0, 0, limit, 1), Hit(0, 0, 0, WINDOW_MS, limit, 1)]
  {
    var s := HoldFirstRuns(limit, LateTail());
    LateTailRuns(s, limit);
  }

  /** What request 1 does, alone, while request 0 waits. */
  function AfterOther(s: State): State {
    Apply(Apply(Apply(Apply(s, CacheGet(1, 0)), Stamp(1)), Incr(1)), Expire(1))
  }

  lemma OtherCounts(s: State, limit: nat)
    requires Held(s, limit)
    ensures var s4 := AfterOther(s);
      && s4.clock == 0 && 0 in s4.requests && s4.requests[0] == Stamped(0, limit, 0)
      && s4.counters == map[(0, 0) := Counter(1, Some(WINDOW_MS))] && s4.history.hits == [Hit(0, 0, 0, 0, limit, 1)]
  {
    var s2 := Apply(Apply(s, CacheGet(1, 0)), Stamp(1));
    assert s2.requests == map[0 := Stamped(0, limit, 0), 1 := Stamped(0, limit, 0)];
    var s3 := Apply(s2, Incr(1));
    assert s3.counters == map[(0, 0) := Counter(1, None)];
  }

  lemma LateTailRuns(s: State, limit: nat)
    requires Held(s, limit)
    ensures Exec(s, LateTail()).history.hits == [Hit(0, 0, 0, 0, limit, 1), Hit(0, 0, 0, WINDOW_MS, limit, 1)]
  {
    LateTailExec(s);
    OtherCounts(s, limit);
    var s5 := Apply(AfterOther(s), Tick(WINDOW_MS));
    assert !CounterLive(s5, (0, 0));
  }

  lemma LateTailExec(s: State)
    ensures Exec(s, LateTail()) == Apply(Apply(AfterOther(s), Tick(WINDOW_MS)), Incr(0))
  {
    var t5 := [Incr(0)] + [];
    var t4 := [Tick(WINDOW_MS)] + t5;
    var t3 := [Expire(1)] + t4;
    var t2 := [Incr(1)] + t3;
    var s1 := Apply(s, CacheGet(1, 0));
    var s2 := Apply(s1, Stamp(1));
    var s3 := Apply(s2, Incr(1));
    var s4 := Apply(s3, Expire(1));
    ExecCons(s, CacheGet(1, 0), [Stamp(1)] + t2);
    ExecCons(s1, Stamp(1), t2);
    ExecCons(s2, Incr(1), t3);
    ExecCons(s3, Expire(1), t4);
    ExecCons(s4, Tick(WINDOW_MS), t5);
    ExecCons(Apply(s4, Tick(WINDOW_MS)), Incr(0), []);
  }
}
