/** The sliding bound is met: a burst on each side of a window boundary. */
module RateLimitBurst {
  import opened Basics
  import opened RateLimitModel
  import opened RateLimitCounts

  /** Calls of requests p, p+1, ..., one after the other. */
  function Burst(p: Pid, n: nat, org: OrgId): seq<Action>
    decreases n
  {
    if n == 0 then [] else ConsumeSteps(p, org) + Burst(p + 1, n - 1, org)
  }

  /** The hits of a burst at one moment, told `first`, first + 1, ... */
  function BurstHits(org: OrgId, now: nat, limit: nat, first: nat, n: nat): seq<Hit>
    decreases n
  {
    if n == 0 then []
    else [Hit(org, WindowOf(now), now, now, limit, first)] + BurstHits(org, now, limit, first + 1, n - 1)
  }

  ghost predicate AllAnswered(r: History) {
    forall i :: 0 <= i < |r.hits| ==> i in r.answers
  }

  lemma {:induction false} BurstAlone(s: State, p: Pid, n: nat, org: OrgId, limit: nat)
    requires forall q :: q >= p ==> q !in s.requests
    requires LimitFound(s, org) == Some(limit)
    ensures var s' := Exec(s, Burst(p, n, org));
      && s'.clock == s.clock && s'.limits == s.limits && LimitFound(s', org) == Some(limit)
      && s'.history.hits == s.history.hits + BurstHits(org, s.clock, limit, CountNow(s, org) + 1, n)
      && (forall q :: q >= p + n ==> q !in s'.requests)
      && (AllAnswered(s.history) ==> AllAnswered(s'.history))
      && (n > 0 ==>
           p + n - 1 in s'.requests
           && s'.requests[p + n - 1] == Done(org, ResultOf(limit, CountNow(s, org) + n, s.clock)))
    decreases n
  {
    if n > 0 {
      ExecAppend(s, ConsumeSteps(p, org), Burst(p + 1, n - 1, org));
      ConsumeAlone(s, p, org, limit);
      BurstAlone(Exec(s, ConsumeSteps(p, org)), p + 1, n - 1, org, limit);
    }
  }

  lemma {:induction false} BurstShape(org: OrgId, now: nat, limit: nat, first: nat, n: nat)
    ensures forall h :: h in BurstHits(org, now, limit, first, n) ==> h.window == WindowOf(now) && h.limit == limit
    decreases n
  {
    if n > 0 {
      BurstShape(org, now, limit, first + 1, n - 1);
    }
  }

  lemma OneAdmitted(ends: Ends, hits: seq<Hit>, h: Hit, a: nat, b: nat)
    requires EndsLate(ends) && h.window == WindowOf(h.now) && h.at == h.now && a <= h.now < b && h.count <= h.limit
    ensures AdmittedBetween(ends, hits + [h], h.org, a, b) == AdmittedBetween(ends, hits, h.org, a, b) + 1
  {
    AppendLast(hits, h);
    assert h.now < WindowEnd(h.window);
  }

  lemma Regroup(hits: seq<Hit>, h: Hit, rest: seq<Hit>)
    ensures hits + ([h] + rest) == hits + [h] + rest
  {
  }

  /** A burst within the limit is admitted whole. */
  lemma {:induction false} BurstAdmitted(
    ends: Ends, hits: seq<Hit>, org: OrgId, now: nat, limit: nat, first: nat, n: nat, a: nat, b: nat)
    requires EndsLate(ends) && a <= now < b && first + n <= limit + 1
    ensures AdmittedBetween(ends, hits + BurstHits(org, now, limit, first, n), org, a, b)
      == AdmittedBetween(ends, hits, org, a, b) + n
    decreases n
  {
    if n == 0 {
      assert hits + [] == hits;
    } else {
      var h := Hit(org, WindowOf(now), now, now, limit, first);
      OneAdmitted(ends, hits, h, a, b);
      BurstAdmitted(ends, hits + [h], org, now, limit, first + 1, n - 1, a, b);
      Regroup(hits, h, BurstHits(org, now, limit, first + 1, n - 1));
    }
  }

  lemma {:induction false} NoneArrived(hits: seq<Hit>, org: OrgId, w: nat)
    requires forall h :: h in hits ==> h.window != w
    ensures Arrived(hits, org, w) == 0
  {
    if hits != [] {
      NoneArrived(ButLast(hits), org, w);
      assert Last(hits) in hits;
    }
  }

  /** Up to the end of the first burst: L calls in the last millisecond of window 0. */
  function FirstBurst(L: nat): seq<Action> {
    [SaveLimit(0, L)] + ([Tick(WINDOW_MS - 1)] + Burst(0, L, 0))
  }

  lemma FirstBurstRuns(L: nat)
    ensures var s := Exec(INIT, FirstBurst(L));
      && s.clock == WINDOW_MS - 1 && s.limits == map[0 := L] && LimitFound(s, 0) == Some(L)
      && s.history.hits == BurstHits(0, WINDOW_MS - 1, L, 1, L) && (forall q :: q >= L ==> q !in s.requests)
      && AllAnswered(s.history)
  {
    ExecCons(INIT, SaveLimit(0, L), [Tick(WINDOW_MS - 1)] + Burst(0, L, 0));
    var s1 := Apply(INIT, SaveLimit(0, L));
    ExecCons(s1, Tick(WINDOW_MS - 1), Burst(0, L, 0));
    var s2 := Apply(s1, Tick(WINDOW_MS - 1));
    BurstAlone(s2, 0, L, 0, L);
    assert CountNow(s2, 0) == 0 && s2.history.hits == [];
  }

  /** A millisecond later window 1 starts from nothing. */
  lemma NewWindowStarts(L: nat)
    ensures var s := Apply(Exec(INIT, FirstBurst(L)), Tick(1));
      CountNow(s, 0) == 0 && LimitFound(s, 0) == Some(L)
  {
    FirstBurstRuns(L);
    var s0 := Exec(INIT, FirstBurst(L));
    InitCounts();
    CountsHold(INIT, FirstBurst(L));
    BurstShape(0, WINDOW_MS - 1, L, 1, L);
    NoneArrived(s0.history.hits, 0, 1);
    assert CounterTracks(s0, 0, 1);
    assert WindowOf(s0.clock + 1) == 1;
  }

  function TwoBursts(L: nat): seq<Action> {
    FirstBurst(L) + ([Tick(1)] + Burst(L, L, 0))
  }

  lemma TwoBurstsRun(L: nat)
    ensures Exec(INIT, TwoBursts(L)).history.hits ==
      BurstHits(0, WINDOW_MS - 1, L, 1, L) + BurstHits(0, WINDOW_MS, L, 1, L)
    ensures AllAnswered(Exec(INIT, TwoBursts(L)).history)
  {
    ExecAppend(INIT, FirstBurst(L), [Tick(1)] + Burst(L, L, 0));
    FirstBurstRuns(L);
    var s0 := Exec(INIT, FirstBurst(L));
    ExecCons(s0, Tick(1), Burst(L, L, 0));
    NewWindowStarts(L);
    BurstAlone(Apply(s0, Tick(1)), L, L, 0, L);
  }

  /**
   * For every limit L there is a run under that limit in which one minute of
   * request timestamps admits 2L: the bound of `SlidingBound` cannot be improved.
   */
  lemma SlidingBoundIsMet(L: nat)
    ensures var r := Exec(INIT, TwoBursts(L)).history;
      && (forall h :: h in r.hits ==> h.limit == L)
      && AdmittedBetween(r.ends, r.hits, 0, WINDOW_MS - 1, WINDOW_MS - 1 + WINDOW_MS) == 2 * L
  {
    TwoBurstsRun(L);
    InitCounts();
    CountsHold(INIT, TwoBursts(L));
    BurstShape(0, WINDOW_MS - 1, L, 1, L);
    BurstShape(0, WINDOW_MS, L, 1, L);
    var ends := Exec(INIT, TwoBursts(L)).history.ends;
    var first := BurstHits(0, WINDOW_MS - 1, L, 1, L);
    BurstAdmitted(ends, [], 0, WINDOW_MS - 1, L, 1, L, WINDOW_MS - 1, WINDOW_MS - 1 + WINDOW_MS);
    assert [] + first == first;
    BurstAdmitted(ends, first, 0, WINDOW_MS, L, 1, L, WINDOW_MS - 1, WINDOW_MS - 1 + WINDOW_MS);
  }
}
