/** Exactly which requests fire the rate-limit-exceeded event. */
module RateLimitNotices {
  import opened Basics
  import opened RateLimitModel
  import opened RateLimitExpiry
  import opened RateLimitCounts

  predicate Counting(r: Request) {
    r.FirstHit? || r.Counted?
  }

  /** A request between INCR and its answer owns one unanswered hit. */
  ghost predicate TellsHit(s: State, p: Pid)
    requires p in s.requests
  {
    var r := s.requests[p];
    Counting(r) ==>
      && r.hit < |s.history.hits| && r.hit !in s.history.answers
      && s.history.hits[r.hit].org == r.org && s.history.hits[r.hit].limit == r.limit
      && s.history.hits[r.hit].count == r.count && s.history.hits[r.hit].now == r.now
  }

  ghost predicate OwnHits(s: State, p: Pid, q: Pid)
    requires p in s.requests && q in s.requests
  {
    p != q && Counting(s.requests[p]) && Counting(s.requests[q]) ==> s.requests[p].hit != s.requests[q].hit
  }

  ghost predicate RequestsTellHits(s: State) {
    && (forall p :: p in s.requests ==> TellsHit(s, p))
    && (forall p, q :: p in s.requests && q in s.requests ==> OwnHits(s, p, q))
  }

  ghost predicate NoticesTellBreaches(s: State) {
    && (forall j :: 0 <= j < |s.notices| ==>
      var n := s.notices[j];
      && n.hit < |s.history.hits| && n.hit in s.history.answers
      && s.history.hits[n.hit].org == n.org && s.history.hits[n.hit].limit == n.limit
      && s.history.hits[n.hit].count == n.limit + 1)
    && (forall j, k :: 0 <= j < k < |s.notices| ==> s.notices[j].hit != s.notices[k].hit)
    && (forall i :: i in s.history.answers ==> i < |s.history.hits| && BreachIsNoticed(s, i))
  }

  ghost predicate BreachIsNoticed(s: State, i: nat)
    requires i < |s.history.hits|
  {
    s.history.hits[i].count == s.history.hits[i].limit + 1 ==>
      exists j :: 0 <= j < |s.notices| && s.notices[j].hit == i
  }

  ghost predicate NoticeInv(s: State) {
    RequestsTellHits(s) && NoticesTellBreaches(s)
  }

  lemma FinishKeepsNotices(s: State, p: Pid)
    requires NoticeInv(s) && p in s.requests && s.requests[p].Counted?
    ensures NoticeInv(Apply(s, Finish(p)))
  {
    var s' := Apply(s, Finish(p));
    FinishKeepsRequests(s, p);
    assert TellsHit(s, p);
    forall i | i in s'.history.answers ensures i < |s'.history.hits| && BreachIsNoticed(s', i) {
      if i == s.requests[p].hit {
        OwnBreachNoticed(s, p);
      } else {
        OldBreachNoticed(s, p, i);
      }
    }
  }

  /** Answering a hit notifies if it was told its limit + 1. */
  lemma OwnBreachNoticed(s: State, p: Pid)
    requires p in s.requests && s.requests[p].Counted? && TellsHit(s, p)
    ensures BreachIsNoticed(Apply(s, Finish(p)), s.requests[p].hit)
  {
    if s.requests[p].count == s.requests[p].limit + 1 {
      assert Last(Apply(s, Finish(p)).notices).hit == s.requests[p].hit;
    }
  }

  lemma OldBreachNoticed(s: State, p: Pid, i: nat)
    requires p in s.requests && s.requests[p].Counted? && i < |s.history.hits| && BreachIsNoticed(s, i)
    ensures BreachIsNoticed(Apply(s, Finish(p)), i)
  {
    if s.history.hits[i].count == s.history.hits[i].limit + 1 {
      var j :| 0 <= j < |s.notices| && s.notices[j].hit == i;
      assert Apply(s, Finish(p)).notices[j] == s.notices[j];
    }
  }

  lemma FinishKeepsRequests(s: State, p: Pid)
    requires RequestsTellHits(s) && p in s.requests && s.requests[p].Counted?
    ensures RequestsTellHits(Apply(s, Finish(p)))
  {
    var s' := Apply(s, Finish(p));
    assert TellsHit(s, p);
    forall q | q in s'.requests ensures TellsHit(s', q) {
      assert TellsHit(s, q) && OwnHits(s, p, q);
    }
    forall q, r | q in s'.requests && r in s'.requests ensures OwnHits(s', q, r) {
      assert OwnHits(s, q, r);
    }
  }

  lemma OtherStepKeepsNotices(s: State, a: Action)
    requires NoticeInv(s) && !a.Finish?
    ensures NoticeInv(Apply(s, a))
  {
    var s' := Apply(s, a);
    assert s'.notices == s.notices && s'.history.answers == s.history.answers;
    KeepsRequestsTellHits(s, a);
    forall i | i in s'.history.answers ensures i < |s'.history.hits| && BreachIsNoticed(s', i) {
      assert BreachIsNoticed(s, i);
    }
  }

  lemma KeepsRequestsTellHits(s: State, a: Action)
    requires NoticeInv(s) && !a.Finish?
    ensures RequestsTellHits(Apply(s, a))
  {
    var s' := Apply(s, a);
    forall p | p in s'.requests ensures TellsHit(s', p) {
      HitFrame(s, a, p);
      HitsGrow(s, a);
      if p in s.requests { assert TellsHit(s, p); }
    }
    forall p, q | p in s'.requests && q in s'.requests ensures OwnHits(s', p, q) {
      HitFrame(s, a, p);
      HitFrame(s, a, q);
      if p in s.requests { assert TellsHit(s, p); }
      if q in s.requests { assert TellsHit(s, q); }
      if p in s.requests && q in s.requests { assert OwnHits(s, p, q); }
    }
  }

  lemma HitsGrow(s: State, a: Action)
    requires !a.Finish?
    ensures s.history.hits <= Apply(s, a).history.hits && Apply(s, a).history.answers == s.history.answers
  {
  }

  /** A request's hit is either its old one or the one this step recorded. */
  lemma HitFrame(s: State, a: Action, p: Pid)
    requires p in Apply(s, a).requests && !a.Finish?
    ensures var r := Apply(s, a).requests[p];
      Counting(r) ==>
        if p in s.requests && Counting(s.requests[p]) then
          r.hit == s.requests[p].hit && r.org == s.requests[p].org
          && r.limit == s.requests[p].limit && r.count == s.requests[p].count && r.now == s.requests[p].now
        else
          && a == Incr(p) && r.hit == |s.history.hits| && |Apply(s, a).history.hits| == r.hit + 1
          && var h := Last(Apply(s, a).history.hits);
             h.org == r.org && h.limit == r.limit && h.count == r.count && h.now == r.now
  {
  }

  lemma {:induction false} NoticesHold(s: State, actions: seq<Action>)
    requires NoticeInv(s)
    ensures NoticeInv(Exec(s, actions))
    decreases |actions|
  {
    if actions != [] {
      var a := actions[0];
      if !a.Finish? {
        OtherStepKeepsNotices(s, a);
      } else if a.p in s.requests && s.requests[a.p].Counted? {
        FinishKeepsNotices(s, a.p);
      }
      NoticesHold(Apply(s, a), actions[1..]);
    }
  }

  // ----- Exactly which events fire -------------------------------------------

  ghost predicate Fired(s: State, i: nat) {
    exists j :: 0 <= j < |s.notices| && s.notices[j].hit == i
  }

  lemma InitNotices()
    ensures NoticeInv(INIT)
  {
  }

  /**
   * The events of any run, whatever the limits and however late the hits: one for
   * each answered hit that was told its limit + 1, and no other.
   */
  lemma EventsAreBreaches(actions: seq<Action>)
    ensures var s := Exec(INIT, actions);
      && (forall i :: 0 <= i < |s.history.hits| ==>
           (Fired(s, i) <==> i in s.history.answers && s.history.hits[i].count == s.history.hits[i].limit + 1))
      && (forall j, k :: 0 <= j < k < |s.notices| ==> s.notices[j].hit != s.notices[k].hit)
      && (forall j :: 0 <= j < |s.notices| ==>
           && s.notices[j].hit < |s.history.hits|
           && s.notices[j].org == s.history.hits[s.notices[j].hit].org
           && s.notices[j].limit == s.history.hits[s.notices[j].hit].limit)
  {
    InitNotices();
    NoticesHold(INIT, actions);
    var s := Exec(INIT, actions);
    forall i | 0 <= i < |s.history.hits|
      ensures Fired(s, i) <==> i in s.history.answers && s.history.hits[i].count == s.history.hits[i].limit + 1
    {
      FiredIffBreach(s, i);
    }
  }

  lemma FiredIffBreach(s: State, i: nat)
    requires NoticeInv(s) && i < |s.history.hits|
    ensures Fired(s, i) <==> i in s.history.answers && s.history.hits[i].count == s.history.hits[i].limit + 1
  {
    if i in s.history.answers { assert BreachIsNoticed(s, i); }
  }

  /** The j-th event of the run is about a hit of this window, on time or late. */
  ghost predicate EventOf(s: State, j: int, org: OrgId, w: nat) {
    && 0 <= j < |s.notices| && s.notices[j].hit < |s.history.hits|
    && s.history.hits[s.notices[j].hit].org == org && s.history.hits[s.notices[j].hit].window == w
  }

  /** The i-th hit of the run is of this window, was told its limit + 1 and has been answered. */
  ghost predicate AnsweredBreach(s: State, i: int, org: OrgId, w: nat) {
    && 0 <= i < |s.history.hits| && s.history.hits[i].org == org && s.history.hits[i].window == w
    && s.history.hits[i].count == s.history.hits[i].limit + 1 && i in s.history.answers
  }

  ghost predicate FiredOnce(s: State, org: OrgId, w: nat) {
    exists j :: EventOf(s, j, org, w) && forall k :: EventOf(s, k, org, w) ==> k == j
  }

  ghost predicate BreachedOnce(s: State, org: OrgId, w: nat) {
    exists i :: AnsweredBreach(s, i, org, w) && forall k :: AnsweredBreach(s, k, org, w) ==> k == i
  }

  /**
   * "Exactly ONCE per window", late hits included and with no assumption on the
   * run: it holds if and only if the event's guard was met for exactly one of the
   * window's answered hits.
   */
  lemma OncePerWindowIff(actions: seq<Action>, org: OrgId, w: nat)
    ensures FiredOnce(Exec(INIT, actions), org, w) <==> BreachedOnce(Exec(INIT, actions), org, w)
  {
    var s := Exec(INIT, actions);
    InitNotices();
    NoticesHold(INIT, actions);
    forall j | EventOf(s, j, org, w) ensures AnsweredBreach(s, s.notices[j].hit, org, w) {
      FiredIffBreach(s, s.notices[j].hit);
    }
    if FiredOnce(s, org, w) {
      var j :| EventOf(s, j, org, w) && forall k :: EventOf(s, k, org, w) ==> k == j;
      forall i | AnsweredBreach(s, i, org, w) ensures i == s.notices[j].hit { BreachHasEvent(s, i, org, w); }
    }
    if BreachedOnce(s, org, w) {
      var i :| AnsweredBreach(s, i, org, w) && forall k :: AnsweredBreach(s, k, org, w) ==> k == i;
      BreachHasEvent(s, i, org, w);
      var j :| EventOf(s, j, org, w) && s.notices[j].hit == i;
      forall k | EventOf(s, k, org, w) ensures k == j { assert AnsweredBreach(s, s.notices[k].hit, org, w); }
    }
  }

  lemma BreachHasEvent(s: State, i: nat, org: OrgId, w: nat)
    requires NoticeInv(s) && AnsweredBreach(s, i, org, w)
    ensures exists j :: EventOf(s, j, org, w) && s.notices[j].hit == i
  {
    FiredIffBreach(s, i);
    var j :| 0 <= j < |s.notices| && s.notices[j].hit == i;
    assert EventOf(s, j, org, w);
  }

  /** The j-th event of the run is about an on-time hit of this window. */
  ghost predicate NoticeFor(s: State, j: int, org: OrgId, w: nat) {
    && 0 <= j < |s.notices| && s.notices[j].hit < |s.history.hits|
    && OnTime(s.history.ends, s.history.hits[s.notices[j].hit], org, w)
  }

  /** The (k+1)-th on-time hit of the window is measured against the limit k: the guard of the event. */
  ghost predicate BreachAt(landed: seq<Hit>, k: int) {
    0 <= k < |landed| && landed[k].limit == k
  }

  ghost function WindowHits(s: State, org: OrgId, w: nat): seq<Hit> {
    Landed(s.history.ends, s.history.hits, org, w)
  }

  /** If the window's on-time hit with this count was measured against this limit, it has been answered. */
  ghost predicate AnsweredAt(s: State, org: OrgId, w: nat, L: nat) {
    forall i | 0 <= i < |s.history.hits| && OnTime(s.history.ends, s.history.hits[i], org, w) ::
      s.history.hits[i].count == L + 1 && s.history.hits[i].limit == L ==> i in s.history.answers
  }

  lemma RunInvs(actions: seq<Action>)
    ensures CountInv(Exec(INIT, actions)) && NoticeInv(Exec(INIT, actions))
  {
    InitCounts();
    InitNotices();
    CountsHold(INIT, actions);
    NoticesHold(INIT, actions);
  }

  /** An event about an on-time hit shows a breach at its limit. */
  lemma EventShowsBreach(s: State, j: int, org: OrgId, w: nat)
    requires CountInv(s) && NoticeInv(s) && NoticeFor(s, j, org, w)
    ensures BreachAt(WindowHits(s, org, w), s.notices[j].limit)
  {
    OnTimeCounts(s, org, w);
    PlaceInWindow(s.history.ends, s.history.hits, s.notices[j].hit, org, w);
  }

  /** An answered breach has fired. */
  lemma BreachFires(s: State, org: OrgId, w: nat, L: nat) returns (j: int)
    requires CountInv(s) && NoticeInv(s) && BreachAt(WindowHits(s, org, w), L) && AnsweredAt(s, org, w, L)
    ensures NoticeFor(s, j, org, w) && s.notices[j].limit == L
  {
    var hits, landed := s.history.hits, WindowHits(s, org, w);
    OnTimeCounts(s, org, w);
    LandedAreOnTime(s.history.ends, hits, org, w);
    assert landed[L] in hits;
    var i :| 0 <= i < |hits| && hits[i] == landed[L];
    assert BreachIsNoticed(s, i);
    j :| 0 <= j < |s.notices| && s.notices[j].hit == i;
  }

  /** On-time hits of one window are told different counts. */
  lemma DifferentCounts(s: State, org: OrgId, w: nat, i: nat, k: nat)
    requires CountInv(s) && i < k < |s.history.hits|
    requires OnTime(s.history.ends, s.history.hits[i], org, w) && OnTime(s.history.ends, s.history.hits[k], org, w)
    ensures s.history.hits[i].count < s.history.hits[k].count
  {
    var ends, hits := s.history.ends, s.history.hits;
    OnTimeCounts(s, org, w);
    PlaceInWindow(ends, hits, i, org, w);
    PlaceInWindow(ends, hits, k, org, w);
    LandedGrows(ends, hits[..k], i + 1, org, w);
    assert hits[..k][..i + 1] == hits[..i] + [hits[i]];
    LandedAppend(ends, hits[..i], hits[i], org, w);
  }

  lemma SameLimitSameEvent(s: State, org: OrgId, w: nat, j: int, k: int)
    requires CountInv(s) && NoticeInv(s)
    requires NoticeFor(s, j, org, w) && NoticeFor(s, k, org, w) && s.notices[j].limit == s.notices[k].limit
    ensures j == k
  {
    if j != k {
      var a, b := s.notices[j].hit, s.notices[k].hit;
      if a < b { DifferentCounts(s, org, w, a, b); } else { DifferentCounts(s, org, w, b, a); }
    }
  }

  /** Whatever the limits do, a window's on-time hits fire at most one event per limit value. */
  lemma AtMostOncePerLimit(actions: seq<Action>, org: OrgId, w: nat, j: int, k: int)
    requires var s := Exec(INIT, actions);
      NoticeFor(s, j, org, w) && NoticeFor(s, k, org, w) && s.notices[j].limit == s.notices[k].limit
    ensures j == k
  {
    RunInvs(actions);
    SameLimitSameEvent(Exec(INIT, actions), org, w, j, k);
  }

  /**
   * In every run a window's on-time hits have fired an event with limit L exactly
   * if more than L of them arrived and the (L+1)-th was measured against L, once
   * that one hit is answered.
   */
  lemma EventForLimitIff(actions: seq<Action>, org: OrgId, w: nat, L: nat)
    requires AnsweredAt(Exec(INIT, actions), org, w, L)
    ensures var s := Exec(INIT, actions);
      var landed := WindowHits(s, org, w);
      (exists j :: NoticeFor(s, j, org, w) && s.notices[j].limit == L) <==> L < |landed| && landed[L].limit == L
  {
    RunInvs(actions);
    var s := Exec(INIT, actions);
    if exists j :: NoticeFor(s, j, org, w) && s.notices[j].limit == L {
      var j :| NoticeFor(s, j, org, w) && s.notices[j].limit == L;
      EventShowsBreach(s, j, org, w);
    }
    if BreachAt(WindowHits(s, org, w), L) {
      var j := BreachFires(s, org, w, L);
    }
  }

  ghost predicate OneEvent(s: State, org: OrgId, w: nat) {
    exists j :: NoticeFor(s, j, org, w) && forall k :: NoticeFor(s, k, org, w) ==> k == j
  }

  ghost predicate OneBreach(landed: seq<Hit>) {
    exists k :: BreachAt(landed, k) && forall m :: BreachAt(landed, m) ==> m == k
  }

  /**
   * "Exactly once per window": a window's on-time hits fire exactly one event if
   * and only if exactly one of them, counting from 0, is measured against its own
   * place; the breaching hits must have been answered, and no other.
   */
  lemma ExactlyOnceIff(actions: seq<Action>, org: OrgId, w: nat)
    requires forall L: nat :: AnsweredAt(Exec(INIT, actions), org, w, L)
    ensures OneEvent(Exec(INIT, actions), org, w) <==> OneBreach(WindowHits(Exec(INIT, actions), org, w))
  {
    RunInvs(actions);
    var s := Exec(INIT, actions);
    if OneEvent(s, org, w) {
      OneEventOneBreach(s, org, w);
    }
    if OneBreach(WindowHits(s, org, w)) {
      OneBreachOneEvent(s, org, w);
    }
  }

  lemma OneEventOneBreach(s: State, org: OrgId, w: nat)
    requires CountInv(s) && NoticeInv(s) && OneEvent(s, org, w) && forall L: nat :: AnsweredAt(s, org, w, L)
    ensures OneBreach(WindowHits(s, org, w))
  {
    var landed := WindowHits(s, org, w);
    var j :| NoticeFor(s, j, org, w) && forall k :: NoticeFor(s, k, org, w) ==> k == j;
    EventShowsBreach(s, j, org, w);
    forall m | BreachAt(landed, m) ensures m == s.notices[j].limit {
      var i := BreachFires(s, org, w, m);
    }
  }

  lemma OneBreachOneEvent(s: State, org: OrgId, w: nat)
    requires CountInv(s) && NoticeInv(s) && OneBreach(WindowHits(s, org, w))
    requires forall L: nat :: AnsweredAt(s, org, w, L)
    ensures OneEvent(s, org, w)
  {
    var landed := WindowHits(s, org, w);
    var k :| BreachAt(landed, k) && forall m :: BreachAt(landed, m) ==> m == k;
    assert AnsweredAt(s, org, w, k);
    var j := BreachFires(s, org, w, k);
    forall i | NoticeFor(s, i, org, w) ensures i == j {
      EventShowsBreach(s, i, org, w);
      SameLimitSameEvent(s, org, w, i, j);
    }
  }

  /**
   * With a constant limit L, once the (L+1)-th on-time hit is answered if there is
   * one, a window's on-time hits have fired exactly one event if more than L of
   * them arrived, and none otherwise.
   */
  lemma FiresIffExceeded(actions: seq<Action>, org: OrgId, w: nat, L: nat)
    requires AnsweredAt(Exec(INIT, actions), org, w, L)
    requires forall h :: h in WindowHits(Exec(INIT, actions), org, w) ==> h.limit == L
    ensures var s := Exec(INIT, actions);
      if |WindowHits(s, org, w)| > L then OneEvent(s, org, w) else forall j :: !NoticeFor(s, j, org, w)
  {
    RunInvs(actions);
    var s := Exec(INIT, actions);
    var landed := WindowHits(s, org, w);
    forall j | NoticeFor(s, j, org, w) ensures s.notices[j].limit == L && |landed| > L {
      EventShowsBreach(s, j, org, w);
      assert landed[s.notices[j].limit] in landed;
    }
    if |landed| > L {
      assert landed[L] in landed;
      var j := BreachFires(s, org, w, L);
      forall k | NoticeFor(s, k, org, w) ensures k == j {
        SameLimitSameEvent(s, org, w, k, j);
      }
    }
  }

  // ----- Runs with changing limits -------------------------------------------

  /** Allow `before`, serve two requests, allow `after`, serve a third: all in one window. */
  function ThreeRequests(before: nat, after: nat): seq<Action> {
    [SaveLimit(0, before)] + (ConsumeSteps(0, 0) + (ConsumeSteps(1, 0) +
      ([SaveLimit(0, after)] + ([DropCache(0)] + ConsumeSteps(2, 0)))))
  }

  lemma ThreeRequestsRun(before: nat, after: nat)
    ensures var s := Exec(INIT, ThreeRequests(before, after));
      && s.history.hits == [Hit(0, 0, 0, 0, before, 1), Hit(0, 0, 0, 0, before, 2), Hit(0, 0, 0, 0, after, 3)]
      && s.requests == map[0 := Done(0, ResultOf(before, 1, 0)), 1 := Done(0, ResultOf(before, 2, 0)),
                           2 := Done(0, ResultOf(after, 3, 0))]
      && s.notices == (if before == 0 then [Notice(0, 0, 0)] else if before == 1 then [Notice(0, 1, 1)] else [])
                      + (if after == 2 then [Notice(0, 2, 2)] else [])
  {
    var t3 := [SaveLimit(0, after)] + ([DropCache(0)] + ConsumeSteps(2, 0));
    var t1 := ConsumeSteps(0, 0) + (ConsumeSteps(1, 0) + t3);
    ExecCons(INIT, SaveLimit(0, before), t1);
    var s1 := Apply(INIT, SaveLimit(0, before));
    var s3 := TwoRequestsRun(s1, 0, before, t3);
    ThirdRequestRun(s3, after);
  }

  /** A third request under a new limit. */
  lemma ThirdRequestRun(s: State, after: nat)
    requires s.clock == 0 && CountNow(s, 0) == 2 && 2 !in s.requests && |s.history.hits| == 2
    ensures var s' := Exec(s, [SaveLimit(0, after)] + ([DropCache(0)] + ConsumeSteps(2, 0)));
      && s'.history.hits == s.history.hits + [Hit(0, 0, 0, 0, after, 3)]
      && s'.requests == s.requests[2 := Done(0, ResultOf(after, 3, 0))]
      && s'.notices == s.notices + (if after == 2 then [Notice(0, 2, 2)] else [])
  {
    var s2 := NewLimit(s, after, ConsumeSteps(2, 0));
    ConsumeAlone(s2, 2, 0, after);
  }

  /** A save and its DEL change what a lone call finds, and nothing it counts. */
  lemma NewLimit(s: State, limit: nat, rest: seq<Action>) returns (s': State)
    ensures Exec(s, [SaveLimit(0, limit)] + ([DropCache(0)] + rest)) == Exec(s', rest)
    ensures LimitFound(s', 0) == Some(limit) && CountNow(s', 0) == CountNow(s, 0) && s'.clock == s.clock
    ensures s'.requests == s.requests && s'.notices == s.notices && s'.history.hits == s.history.hits
  {
    ExecCons(s, SaveLimit(0, limit), [DropCache(0)] + rest);
    ExecCons(Apply(s, SaveLimit(0, limit)), DropCache(0), rest);
    s' := Apply(Apply(s, SaveLimit(0, limit)), DropCache(0));
  }

  /** All three land on time. */
  lemma ThreeOnTime(before: nat, after: nat)
    ensures |WindowHits(Exec(INIT, ThreeRequests(before, after)), 0, 0)| == 3
  {
    ThreeRequestsRun(before, after);
    RunInvs(ThreeRequests(before, after));
    var r := Exec(INIT, ThreeRequests(before, after)).history;
    ThreeLanded(r.ends, before, after, r.hits);
  }

  lemma TwoRequestsRun(s: State, org: OrgId, limit: nat, rest: seq<Action>) returns (s': State)
    requires s.clock == 0 && s.requests == map[] && s.history.hits == [] && s.notices == []
    requires LimitFound(s, org) == Some(limit) && CountNow(s, org) == 0
    ensures Exec(s, ConsumeSteps(0, org) + (ConsumeSteps(1, org) + rest)) == Exec(s', rest)
    ensures s'.clock == 0 && CountNow(s', org) == 2
    ensures s'.requests == map[0 := Done(org, ResultOf(limit, 1, 0)), 1 := Done(org, ResultOf(limit, 2, 0))]
    ensures s'.history.hits == [Hit(org, 0, 0, 0, limit, 1), Hit(org, 0, 0, 0, limit, 2)]
    ensures s'.notices == if limit == 0 then [Notice(org, 0, 0)] else if limit == 1 then [Notice(org, 1, 1)] else []
  {
    var s1 := ServeAlone(s, 0, org, limit, ConsumeSteps(1, org) + rest);
    s' := ServeAlone(s1, 1, org, limit, rest);
  }

  lemma ThreeLanded(ends: Ends, before: nat, after: nat, hits: seq<Hit>)
    requires EndsLate(ends)
    requires hits == [Hit(0, 0, 0, 0, before, 1), Hit(0, 0, 0, 0, before, 2), Hit(0, 0, 0, 0, after, 3)]
    ensures |Landed(ends, hits, 0, 0)| == 3
  {
    assert (0, 0) in ends ==> ends[(0, 0)] >= WindowEnd(0);
    assert hits == [] + [hits[0]] + [hits[1]] + [hits[2]];
    LandedAppend(ends, [], hits[0], 0, 0);
    LandedAppend(ends, [] + [hits[0]], hits[1], 0, 0);
    LandedAppend(ends, [] + [hits[0]] + [hits[1]], hits[2], 0, 0);
  }

  /** Lowering the limit past the count: of three on-time requests the last is rejected, and no event fires. */
  lemma ZeroEventsPossible()
    ensures var s := Exec(INIT, ThreeRequests(2, 1));
      && s.notices == [] && |WindowHits(s, 0, 0)| == 3
      && 2 in s.requests && s.requests[2] == Done(0, ResultOf(1, 3, 0)) && !ResultOf(1, 3, 0).allowed
  {
    ThreeRequestsRun(2, 1);
    ThreeOnTime(2, 1);
  }

  /** Raising it after a breach: the same window's on-time requests fire twice, against "exactly ONCE". */
  lemma TwoEventsPossible()
    ensures var s := Exec(INIT, ThreeRequests(1, 2));
      s.notices == [Notice(0, 1, 1), Notice(0, 2, 2)] && |WindowHits(s, 0, 0)| == 3
  {
    ThreeRequestsRun(1, 2);
    ThreeOnTime(1, 2);
  }

  // ----- Late hits -----------------------------------------------------------

  /** With request 0 held: request 1 is held too, 2 and 3 are served, two minutes pass, 0 and 1 go on. */
  function HoldAnother(): seq<Action> {
    [CacheGet(1, 0)] + ([Stamp(1)] + (ConsumeSteps(2, 0) + (ConsumeSteps(3, 0) + LateTwo())))
  }

  function LateTwo(): seq<Action> {
    [Tick(2 * WINDOW_MS)] + ([Incr(0)] + ([Incr(1)] + ([Finish(1)] + [])))
  }

  /**
   * Even under a constant limit, late hits can fire again: the limit is always 1,
   * all four requests belong to window 0, and two events fire for it.
   */
  lemma LateHitFiresAgain()
    ensures var s := Exec(INIT, HoldFirst(1, HoldAnother()));
      && s.notices == [Notice(0, 1, 1), Notice(0, 1, 3)]
      && s.history.hits == [Hit(0, 0, 0, 0, 1, 1), Hit(0, 0, 0, 0, 1, 2),
                            Hit(0, 0, 0, 2 * WINDOW_MS, 1, 1), Hit(0, 0, 0, 2 * WINDOW_MS, 1, 2)]
  {
    var s := HoldFirstRuns(1, HoldAnother());
    var rest := ConsumeSteps(2, 0) + (ConsumeSteps(3, 0) + LateTwo());
    ExecCons(s, CacheGet(1, 0), [Stamp(1)] + rest);
    var s1 := Apply(s, CacheGet(1, 0));
    ExecCons(s1, Stamp(1), rest);
    TwoHeld(s);
    BothServed(Apply(s1, Stamp(1)));
  }

  ghost predicate BothHeld(s: State) {
    && s.clock == 0 && s.requests == map[0 := Stamped(0, 1, 0), 1 := Stamped(0, 1, 0)] && s.counters == map[]
    && s.history.hits == [] && s.notices == [] && LimitFound(s, 0) == Some(1)
  }

  lemma TwoHeld(s: State)
    requires Held(s, 1)
    ensures BothHeld(Apply(Apply(s, CacheGet(1, 0)), Stamp(1)))
  {
    assert Apply(s, CacheGet(1, 0)).requests == map[0 := Stamped(0, 1, 0), 1 := Limited(0, 1)];
  }

  /** One of two requests of window 0 is served. */
  ghost predicate OneServed(s: State) {
    && s.clock == 0 && 0 in s.requests && 1 in s.requests && 3 !in s.requests && CountNow(s, 0) == 1
    && s.requests[0] == s.requests[1] == Stamped(0, 1, 0) && LimitFound(s, 0) == Some(1)
    && s.notices == [] && s.history.hits == [Hit(0, 0, 0, 0, 1, 1)]
    && (0, 0) in s.counters && s.counters[(0, 0)].expiresAt == Some(WINDOW_MS)
  }

  lemma FirstServed(s: State, rest: seq<Action>) returns (s': State)
    requires BothHeld(s)
    ensures Exec(s, ConsumeSteps(2, 0) + rest) == Exec(s', rest) && OneServed(s')
  {
    s' := ServeAlone(s, 2, 0, 1, rest);
  }

  lemma BothServed(s: State)
    requires BothHeld(s)
    ensures var s' := Exec(s, ConsumeSteps(2, 0) + (ConsumeSteps(3, 0) + LateTwo()));
      && s'.notices == [Notice(0, 1, 1), Notice(0, 1, 3)]
      && s'.history.hits == [Hit(0, 0, 0, 0, 1, 1), Hit(0, 0, 0, 0, 1, 2),
                             Hit(0, 0, 0, 2 * WINDOW_MS, 1, 1), Hit(0, 0, 0, 2 * WINDOW_MS, 1, 2)]
  {
    var s1 := FirstServed(s, ConsumeSteps(3, 0) + LateTwo());
    SecondServed(s1);
  }

  lemma SecondServed(s: State)
    requires OneServed(s)
    ensures var s' := Exec(s, ConsumeSteps(3, 0) + LateTwo());
      && s'.notices == [Notice(0, 1, 1), Notice(0, 1, 3)]
      && s'.history.hits == [Hit(0, 0, 0, 0, 1, 1), Hit(0, 0, 0, 0, 1, 2),
                             Hit(0, 0, 0, 2 * WINDOW_MS, 1, 1), Hit(0, 0, 0, 2 * WINDOW_MS, 1, 2)]
  {
    var s1 := ServeAlone(s, 3, 0, 1, LateTwo());
    LateTwoRun(s1);
  }

  /** Both held requests find the counter expired and start it again. */
  lemma LateTwoRun(s: State)
    requires s.clock == 0 && 0 in s.requests && 1 in s.requests && |s.history.hits| == 2
    requires s.requests[0] == s.requests[1] == Stamped(0, 1, 0)
    requires (0, 0) in s.counters && s.counters[(0, 0)].expiresAt == Some(WINDOW_MS)
    ensures Exec(s, LateTwo()).notices == s.notices + [Notice(0, 1, 3)]
    ensures Exec(s, LateTwo()).history.hits ==
      s.history.hits + [Hit(0, 0, 0, 2 * WINDOW_MS, 1, 1), Hit(0, 0, 0, 2 * WINDOW_MS, 1, 2)]
  {
    var t2 := [Incr(1)] + ([Finish(1)] + []);
    var s1 := Apply(s, Tick(2 * WINDOW_MS));
    var s2 := Apply(s1, Incr(0));
    var s3 := Apply(s2, Incr(1));
    ExecCons(s, Tick(2 * WINDOW_MS), [Incr(0)] + t2);
    ExecCons(s1, Incr(0), t2);
    ExecCons(s2, Incr(1), [Finish(1)] + []);
    ExecCons(s3, Finish(1), []);
    assert s2.counters[(0, 0)] == Counter(1, None);
    assert s3.requests[1] == Counted(0, 1, 0, 2, 3);
  }
}
