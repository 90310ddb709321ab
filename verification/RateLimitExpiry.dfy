/** Who still owes a counter its EXPIRE, and what a crash before it leaves behind. */
module RateLimitExpiry {
  import opened Basics
  import opened RateLimitModel

  function KeyOf(r: Request): (OrgId, nat)
    requires r.FirstHit?
  {
    (r.org, WindowOf(r.now))
  }

  ghost predicate Unexpiring(s: State, key: (OrgId, nat)) {
    key in s.counters && s.counters[key].expiresAt == None && s.counters[key].value >= 1
  }

  ghost predicate Owes(s: State, p: Pid, key: (OrgId, nat)) {
    p in s.requests && s.requests[p].FirstHit? && KeyOf(s.requests[p]) == key
  }

  /** A counter for which an EXPIRE is owed has no expiry, and only one request owes it. */
  ghost predicate ExpireInv(s: State) {
    && (forall key :: key in s.counters ==> s.counters[key].value >= 1)
    && (forall p, key :: Owes(s, p, key) ==> Unexpiring(s, key))
    && (forall p, q, key :: Owes(s, p, key) && Owes(s, q, key) ==> p == q)
  }

  lemma {:induction false} ExpireHolds(s: State, actions: seq<Action>)
    requires ExpireInv(s)
    ensures ExpireInv(Exec(s, actions))
    decreases |actions|
  {
    if actions != [] {
      StepKeepsExpire(s, actions[0]);
      ExpireHolds(Apply(s, actions[0]), actions[1..]);
    }
  }

  /** Who owes an EXPIRE after a step: who owed it before, or the first hit of a fresh counter. */
  lemma OwesFrame(s: State, a: Action, p: Pid, key: (OrgId, nat))
    requires Owes(Apply(s, a), p, key) && (key in s.counters ==> s.counters[key].value >= 1)
    ensures Owes(s, p, key) || (a == Incr(p) && !CounterLive(s, key))
    ensures Owes(s, p, key) ==> a != Expire(p)
    ensures !Owes(s, p, key) ==> key in Apply(s, a).counters && Apply(s, a).counters[key] == Counter(1, None)
  {
  }

  /** Only the owed EXPIRE ends an unexpiring counter. */
  lemma UnexpiringFrame(s: State, a: Action, key: (OrgId, nat))
    requires Unexpiring(s, key)
    ensures Unexpiring(Apply(s, a), key) || (a.Expire? && Owes(s, a.p, key))
  {
  }

  lemma CountersStayPositive(s: State, a: Action)
    requires forall key :: key in s.counters ==> s.counters[key].value >= 1
    ensures forall key :: key in Apply(s, a).counters ==> Apply(s, a).counters[key].value >= 1
  {
  }

  lemma StepKeepsExpire(s: State, a: Action)
    requires ExpireInv(s)
    ensures ExpireInv(Apply(s, a))
  {
    var s' := Apply(s, a);
    CountersStayPositive(s, a);
    forall p, key | Owes(s', p, key) ensures Unexpiring(s', key) {
      OwesFrame(s, a, p, key);
      if Owes(s, p, key) {
        UnexpiringFrame(s, a, key);
      }
    }
    forall p, q, key | Owes(s', p, key) && Owes(s', q, key) ensures p == q {
      OwesFrame(s, a, p, key);
      OwesFrame(s, a, q, key);
    }
  }

  /** Nobody is left to set an expiry on this counter. */
  ghost predicate Orphaned(s: State, key: (OrgId, nat)) {
    Unexpiring(s, key) && forall p :: !Owes(s, p, key)
  }

  lemma {:induction false} OrphanStays(s: State, key: (OrgId, nat), actions: seq<Action>)
    requires Orphaned(s, key)
    ensures Orphaned(Exec(s, actions), key)
    decreases |actions|
  {
    if actions != [] {
      var s' := Apply(s, actions[0]);
      UnexpiringFrame(s, actions[0], key);
      forall p ensures !Owes(s', p, key) {
        if Owes(s', p, key) { OwesFrame(s, actions[0], p, key); }
      }
      OrphanStays(s', key, actions[1..]);
    }
  }

  /** The step is the crash of the request that owes this counter its EXPIRE. */
  ghost predicate CrashesOwner(s: State, a: Action, key: (OrgId, nat)) {
    a.Crash? && Owes(s, a.p, key)
  }

  /** An owed EXPIRE stays owed until its request sends it or crashes. */
  lemma OwedStays(s: State, a: Action, p: Pid, key: (OrgId, nat))
    requires Owes(s, p, key)
    ensures Owes(Apply(s, a), p, key) || a == Expire(p) || a == Crash(p)
    ensures a == Expire(p) && Unexpiring(s, key) ==> !Unexpiring(Apply(s, a), key)
    ensures a == Crash(p) ==> !Owes(Apply(s, a), p, key)
  {
  }

  /** A counter without an expiry is an old one, or fresh from a first hit that owes it one. */
  lemma UnexpiringComesFrom(s: State, a: Action, key: (OrgId, nat))
    requires Unexpiring(Apply(s, a), key) && !Unexpiring(s, key)
    requires key in s.counters ==> s.counters[key].value >= 1
    ensures a.Incr? && Owes(Apply(s, a), a.p, key)
  {
  }

  /** A counter is orphaned in a step exactly by the crash of the request that owes it its EXPIRE. */
  lemma StepOrphansIff(s: State, a: Action, key: (OrgId, nat))
    requires ExpireInv(s) && !Orphaned(s, key)
    ensures Orphaned(Apply(s, a), key) <==> CrashesOwner(s, a, key)
  {
    var s' := Apply(s, a);
    if Unexpiring(s, key) {
      var p :| Owes(s, p, key);
      OwedStays(s, a, p, key);
      UnexpiringFrame(s, a, key);
      forall q | Owes(s', q, key) ensures q == p { OwesFrame(s, a, q, key); }
    } else if Unexpiring(s', key) {
      UnexpiringComesFrom(s, a, key);
    }
  }

  /** Some step of the run crashes the request that then owes this counter its EXPIRE. */
  ghost predicate OwnerCrashes(s: State, actions: seq<Action>, key: (OrgId, nat))
    decreases |actions|
  {
    actions != [] && (CrashesOwner(s, actions[0], key) || OwnerCrashes(Apply(s, actions[0]), actions[1..], key))
  }

  lemma {:induction false} OrphanedIffCrashed(s: State, actions: seq<Action>, key: (OrgId, nat))
    requires ExpireInv(s) && !Orphaned(s, key)
    ensures Orphaned(Exec(s, actions), key) <==> OwnerCrashes(s, actions, key)
    decreases |actions|
  {
    if actions != [] {
      var s1 := Apply(s, actions[0]);
      StepOrphansIff(s, actions[0], key);
      StepKeepsExpire(s, actions[0]);
      if Orphaned(s1, key) {
        OrphanStays(s1, key, actions[1..]);
      } else {
        OrphanedIffCrashed(s1, actions[1..], key);
      }
    }
  }

  /** The counter exists without an expiry, and no continuation gives it one. */
  ghost predicate NeverExpires(s: State, key: (OrgId, nat)) {
    forall after :: Unexpiring(Exec(s, after), key)
  }

  lemma NeverExpiresIfOrphaned(s: State, key: (OrgId, nat))
    requires ExpireInv(s)
    ensures NeverExpires(s, key) <==> Orphaned(s, key)
  {
    if Orphaned(s, key) {
      forall after ensures Unexpiring(Exec(s, after), key) { OrphanStays(s, key, after); }
    } else if Unexpiring(s, key) {
      var p :| Owes(s, p, key);
      OwedStays(s, Expire(p), p, key);
      ExecCons(s, Expire(p), []);
      assert !Unexpiring(Exec(s, [Expire(p)] + []), key);
    } else {
      assert !Unexpiring(Exec(s, []), key);
    }
  }

  /**
   * A counter never gets an expiry, in any continuation, if and only if some step
   * so far crashed the request that owed it its EXPIRE; the comment in the source
   * has such a key orphaned "for one window".
   */
  lemma CrashOrphansForever(actions: seq<Action>, key: (OrgId, nat))
    ensures NeverExpires(Exec(INIT, actions), key) <==> OwnerCrashes(INIT, actions, key)
  {
    ExpireHolds(INIT, actions);
    NeverExpiresIfOrphaned(Exec(INIT, actions), key);
    OrphanedIffCrashed(INIT, actions, key);
  }

  /** Such a crash is possible: one request gets as far as its INCR. */
  lemma CrashPossible(limit: nat)
    ensures Owes(Exec(INIT, [SaveLimit(0, limit)] + ([CacheGet(0, 0)] + ([DbRead(0)] + ([CacheSet(0)] +
                     ([Stamp(0)] + ([Incr(0)] + [])))))), 0, (0, 0))
  {
    var t4 := [Incr(0)] + [];
    var t3 := [Stamp(0)] + t4;
    var t2 := [CacheSet(0)] + t3;
    var t1 := [DbRead(0)] + t2;
    var s1 := Apply(INIT, SaveLimit(0, limit));
    var s2 := Apply(s1, CacheGet(0, 0));
    var s3 := Apply(s2, DbRead(0));
    var s4 := Apply(s3, CacheSet(0));
    var s5 := Apply(s4, Stamp(0));
    ExecCons(INIT, SaveLimit(0, limit), [CacheGet(0, 0)] + t1);
    ExecCons(s1, CacheGet(0, 0), t1);
    ExecCons(s2, DbRead(0), t2);
    ExecCons(s3, CacheSet(0), t3);
    assert s4.requests == map[0 := Limited(0, limit)];
    ExecCons(s4, Stamp(0), t4);
    ExecCons(s5, Incr(0), []);
  }
}
