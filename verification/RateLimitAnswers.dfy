/**
 * What the requests of a run are told: which of them are allowed, and how that
 * keeps the limit.
 */
module RateLimitAnswers {
  import opened Basics
  import opened RateLimitModel
  import opened RateLimitCounts
  import opened RateLimitNotices
  import opened RateLimitBurst
  import RateLimitCache

  // ----- Every answer fits its hit -------------------------------------------

  /** The answer repeats the hit's limit and count, and allows exactly the first `limit` of a window. */
  ghost predicate AnswerFits(h: Hit, r: RateLimitResult) {
    && r.limit == h.limit && r.count == h.count
    && (r.allowed <==> h.count <= h.limit)
    && (h.count <= h.limit ==> r.count + r.remaining == r.limit) && (h.count > h.limit ==> r.remaining == 0)
    && r.resetAtEpoch * 1000 == WindowEnd(WindowOf(h.now))
    && h.now < (h.now / 1000 + r.retryAfter) * 1000 == r.resetAtEpoch * 1000
  }

  /** A finished request holds the answer recorded for a hit of its organization. */
  ghost predicate HoldsAnswer(s: State, p: Pid)
    requires p in s.requests && s.requests[p].Done?
  {
    exists i :: AnswerOf(s, i, s.requests[p].org, s.requests[p].result)
  }

  ghost predicate AnswerOf(s: State, i: int, org: OrgId, result: RateLimitResult) {
    && 0 <= i < |s.history.hits| && i in s.history.answers
    && s.history.answers[i] == result && s.history.hits[i].org == org
  }

  ghost predicate AnswerInv(s: State) {
    && (forall i :: i in s.history.answers ==>
         i < |s.history.hits| && AnswerFits(s.history.hits[i], s.history.answers[i]))
    && (forall p :: p in s.requests && s.requests[p].Done? ==> HoldsAnswer(s, p))
  }

  lemma ResultFits(h: Hit)
    ensures AnswerFits(h, ResultOf(h.limit, h.count, h.now))
  {
    RetryMeetsLaterWindow(h.limit, h.count, h.now, h.now);
  }

  lemma FinishKeepsAnswers(s: State, p: Pid)
    requires AnswerInv(s) && RequestsTellHits(s) && p in s.requests && s.requests[p].Counted?
    ensures AnswerInv(Apply(s, Finish(p)))
  {
    var s' := Apply(s, Finish(p));
    var r := s.requests[p];
    assert TellsHit(s, p);
    ResultFits(s.history.hits[r.hit]);
    forall q | q in s'.requests && s'.requests[q].Done? ensures HoldsAnswer(s', q) {
      if q == p {
        assert AnswerOf(s', r.hit, r.org, s'.requests[p].result);
      } else {
        var i :| AnswerOf(s, i, s.requests[q].org, s.requests[q].result);
        assert AnswerOf(s', i, s.requests[q].org, s.requests[q].result);
      }
    }
  }

  /** No other step answers, or changes an answer. */
  lemma OtherStepAnswers(s: State, a: Action)
    requires !a.Finish?
    ensures s.history.hits <= Apply(s, a).history.hits && Apply(s, a).history.answers == s.history.answers
  {
  }

  lemma OtherStepFinishesNone(s: State, a: Action, p: Pid)
    requires !a.Finish? && p in Apply(s, a).requests && Apply(s, a).requests[p].Done?
    ensures p in s.requests && s.requests[p] == Apply(s, a).requests[p]
  {
  }

  lemma OtherStepKeepsAnswers(s: State, a: Action)
    requires AnswerInv(s) && !a.Finish?
    ensures AnswerInv(Apply(s, a))
  {
    var s' := Apply(s, a);
    OtherStepAnswers(s, a);
    forall p | p in s'.requests && s'.requests[p].Done? ensures HoldsAnswer(s', p) {
      OtherStepFinishesNone(s, a, p);
      var i :| AnswerOf(s, i, s.requests[p].org, s.requests[p].result);
      assert AnswerOf(s', i, s.requests[p].org, s.requests[p].result);
    }
  }

  lemma {:induction false} AnswersHold(s: State, actions: seq<Action>)
    requires AnswerInv(s) && NoticeInv(s)
    ensures AnswerInv(Exec(s, actions))
    decreases |actions|
  {
    if actions != [] {
      var a := actions[0];
      if !a.Finish? {
        OtherStepKeepsAnswers(s, a);
        OtherStepKeepsNotices(s, a);
      } else if a.p in s.requests && s.requests[a.p].Counted? {
        FinishKeepsAnswers(s, a.p);
        FinishKeepsNotices(s, a.p);
      }
      AnswersHold(Apply(s, a), actions[1..]);
    }
  }

  /**
   * In every run each answer given is allowed exactly if the request's place in its
   * window is within the limit it was measured against, and says how many more fit,
   * when the window ends and how long that is.
   */
  lemma AnswersFit(actions: seq<Action>)
    ensures AnswerInv(Exec(INIT, actions))
  {
    InitNotices();
    AnswersHold(INIT, actions);
  }

  // ----- How many are allowed ------------------------------------------------

  /** Of the first n hits of the run, those on time in this window that were told they are allowed. */
  ghost function AllowedIn(r: History, org: OrgId, w: nat, n: nat): nat
    requires n <= |r.hits|
  {
    if n == 0 then 0
    else AllowedIn(r, org, w, n - 1) +
         if OnTime(r.ends, r.hits[n - 1], org, w) && n - 1 in r.answers && r.answers[n - 1].allowed then 1 else 0
  }

  /** The first n hits of the run that are on time in this window have been answered. */
  ghost predicate Answered(r: History, org: OrgId, w: nat, n: nat) {
    forall i :: 0 <= i < |r.hits| && i < n && OnTime(r.ends, r.hits[i], org, w) ==> i in r.answers
  }

  ghost predicate AllFit(r: History) {
    forall i :: i in r.answers ==> i < |r.hits| && AnswerFits(r.hits[i], r.answers[i])
  }

  lemma AdmittedStep(ends: Ends, hits: seq<Hit>, h: Hit, org: OrgId, w: nat)
    ensures Admitted(Landed(ends, hits + [h], org, w))
      == Admitted(Landed(ends, hits, org, w)) + if OnTime(ends, h, org, w) && h.count <= h.limit then 1 else 0
  {
    LandedAppend(ends, hits, h, org, w);
    var landed := Landed(ends, hits, org, w);
    AppendLast(landed, h);
    assert landed + [] == landed;
  }

  /** The n-th hit adds to the allowed answers at most what it adds to the admitted hits. */
  lemma AllowedStep(r: History, org: OrgId, w: nat, n: nat)
    requires n < |r.hits| && AllFit(r)
    ensures var h := r.hits[n];
      var told := if OnTime(r.ends, h, org, w) && n in r.answers && r.answers[n].allowed then 1 else 0;
      var admitted := if OnTime(r.ends, h, org, w) && h.count <= h.limit then 1 else 0;
      && AllowedIn(r, org, w, n + 1) == AllowedIn(r, org, w, n) + told
      && Admitted(Landed(r.ends, r.hits[..n + 1], org, w)) == Admitted(Landed(r.ends, r.hits[..n], org, w)) + admitted
      && told <= admitted && (OnTime(r.ends, h, org, w) && n in r.answers ==> told == admitted)
  {
    assert r.hits[..n + 1] == r.hits[..n] + [r.hits[n]];
    AdmittedStep(r.ends, r.hits[..n], r.hits[n], org, w);
    assert n in r.answers ==> AnswerFits(r.hits[n], r.answers[n]);
  }

  lemma {:induction false} AllowedIsAdmitted(r: History, org: OrgId, w: nat, n: nat)
    requires n <= |r.hits| && AllFit(r)
    ensures AllowedIn(r, org, w, n) <= Admitted(Landed(r.ends, r.hits[..n], org, w))
    ensures Answered(r, org, w, n) ==> AllowedIn(r, org, w, n) == Admitted(Landed(r.ends, r.hits[..n], org, w))
  {
    if n > 0 {
      AllowedIsAdmitted(r, org, w, n - 1);
      AllowedStep(r, org, w, n - 1);
      assert Answered(r, org, w, n) ==> Answered(r, org, w, n - 1);
    } else {
      assert r.hits[..0] == [];
    }
  }

  /**
   * The promise of the limiter, on the answers themselves: under every interleaving, of
   * the n on-time requests of a window at most min(n, L) are told they are allowed if
   * no limit was above L, and exactly min(n, L) if every limit was L and all are answered.
   */
  lemma AllowedAnswers(actions: seq<Action>, org: OrgId, w: nat, L: nat)
    requires var r := Exec(INIT, actions).history;
      forall h :: h in Landed(r.ends, r.hits, org, w) ==> h.limit <= L
    ensures var r := Exec(INIT, actions).history;
      var landed := Landed(r.ends, r.hits, org, w);
      && AllowedIn(r, org, w, |r.hits|) <= Min(|landed|, L)
      && ((forall h :: h in landed ==> h.limit == L) && Answered(r, org, w, |r.hits|) ==>
           AllowedIn(r, org, w, |r.hits|) == Min(|landed|, L))
  {
    var r := Exec(INIT, actions).history;
    AnswersFit(actions);
    AllowedIsAdmitted(r, org, w, |r.hits|);
    assert r.hits[..|r.hits|] == r.hits;
    WindowAdmissions(actions, org, w, L);
  }

  /** Of the first n hits, the on-time requests stamped in [a, b) that were told they are allowed. */
  ghost function AllowedBetween(r: History, org: OrgId, a: nat, b: nat, n: nat): nat
    requires n <= |r.hits|
  {
    if n == 0 then 0
    else
      var h := r.hits[n - 1];
      AllowedBetween(r, org, a, b, n - 1) +
      if OnTime(r.ends, h, org, h.window) && a <= h.now < b && n - 1 in r.answers && r.answers[n - 1].allowed then 1
      else 0
  }

  lemma {:induction false} AllowedBetweenIsAdmitted(r: History, org: OrgId, a: nat, b: nat, n: nat)
    requires n <= |r.hits| && AllFit(r)
    ensures AllowedBetween(r, org, a, b, n) <= AdmittedBetween(r.ends, r.hits[..n], org, a, b)
    ensures AllAnswered(r) ==> AllowedBetween(r, org, a, b, n) == AdmittedBetween(r.ends, r.hits[..n], org, a, b)
  {
    if n > 0 {
      AllowedBetweenIsAdmitted(r, org, a, b, n - 1);
      assert r.hits[..n] == r.hits[..n - 1] + [r.hits[n - 1]];
      AppendLast(r.hits[..n - 1], r.hits[n - 1]);
    } else {
      assert r.hits[..0] == [];
    }
  }

  /**
   * From the database's side: if the organization's stored limit was never above L,
   * at most L on-time requests of a window and at most (k+1)L of any k minutes are told
   * they are allowed.
   */
  lemma StoredLimitBoundsAnswers(actions: seq<Action>, org: OrgId, L: nat, w: nat, start: nat, k: nat)
    requires var vs := Versions(Exec(INIT, actions).history, org);
      forall i :: 0 <= i < |vs| ==> vs[i].limit <= L
    ensures var r := Exec(INIT, actions).history;
      && AllowedIn(r, org, w, |r.hits|) <= L
      && AllowedBetween(r, org, start, start + k * 60_000, |r.hits|) <= (k + 1) * L
  {
    var r := Exec(INIT, actions).history;
    AnswersFit(actions);
    AllowedIsAdmitted(r, org, w, |r.hits|);
    AllowedBetweenIsAdmitted(r, org, start, start + k * 60_000, |r.hits|);
    assert r.hits[..|r.hits|] == r.hits;
    RateLimitCache.StoredLimitBoundsAdmissions(actions, org, L, w, start, k);
  }

  /** The bound for one minute is met: for every L a run that tells 2L requests of a minute they are allowed. */
  lemma TwiceTheLimitAllowed(L: nat)
    ensures var r := Exec(INIT, TwoBursts(L)).history;
      AllowedBetween(r, 0, 59_999, 59_999 + 60_000, |r.hits|) == 2 * L
  {
    var r := Exec(INIT, TwoBursts(L)).history;
    AnswersFit(TwoBursts(L));
    TwoBurstsRun(L);
    SlidingBoundIsMet(L);
    AllowedBetweenIsAdmitted(r, 0, 59_999, 59_999 + 60_000, |r.hits|);
    assert r.hits[..|r.hits|] == r.hits;
  }

  /**
   * A lone call is allowed exactly if fewer than the limit came before it in its
   * window, and `remaining` is how many further calls would be: of n more, one after
   * the other, the last is allowed exactly if n is at most that.
   */
  lemma RemainingIsExact(s: State, p: Pid, n: nat, org: OrgId, limit: nat)
    requires (forall q :: q >= p ==> q !in s.requests) && LimitFound(s, org) == Some(limit) && n > 0
    ensures var s1 := Exec(s, ConsumeSteps(p, org));
      var s2 := Exec(s1, Burst(p + 1, n, org));
      && p in s1.requests && s1.requests[p].Done? && p + n in s2.requests && s2.requests[p + n].Done?
      && (s1.requests[p].result.allowed <==> CountNow(s, org) < limit)
      && (s2.requests[p + n].result.allowed <==> n <= s1.requests[p].result.remaining)
  {
    ConsumeAlone(s, p, org, limit);
    BurstAlone(Exec(s, ConsumeSteps(p, org)), p + 1, n, org, limit);
  }
}
