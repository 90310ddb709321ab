/**
 * How far a cached limit can lag behind the database, and exactly when an
 * owner's update "applies immediately".
 */
module RateLimitCache {
  import opened Basics
  import opened RateLimitModel
  import opened RateLimitCounts

  // ----- Bounded staleness ---------------------------------------------------

  /** The i-th version was the stored limit at millisecond m. */
  ghost predicate CurrentAt(vs: seq<Version>, i: int, m: nat) {
    0 <= i < |vs| && vs[i].since <= m && (i + 1 < |vs| ==> m <= vs[i + 1].since)
  }

  ghost predicate HeldAt(vs: seq<Version>, limit: nat, m: nat) {
    exists i :: CurrentAt(vs, i, m) && vs[i].limit == limit
  }

  ghost predicate EverHeld(vs: seq<Version>, limit: nat) {
    exists i :: 0 <= i < |vs| && vs[i].limit == limit
  }

  ghost predicate StoredLimit(s: State, org: OrgId) {
    var vs := Versions(s.history, org);
    && (org in s.limits <==> vs != [])
    && (org in s.limits ==> s.limits[org] == Last(vs).limit && Last(vs).since <= s.clock)
  }

  ghost predicate CacheTold(s: State, org: OrgId) {
    org in s.cache ==>
      var c := s.cache[org];
      && HeldAt(Versions(s.history, org), c.limit, c.readAt)
      && c.readAt <= c.setAt <= s.clock && c.setAt - c.readAt <= s.history.slowest
      && c.expiresAt == c.setAt + WINDOW_MS
  }

  ghost predicate RequestTold(s: State, p: Pid) {
    p in s.requests ==>
      match s.requests[p]
      case Loaded(org, limit, readAt) => HeldAt(Versions(s.history, org), limit, readAt) && readAt <= s.clock
      case Limited(org, limit) => EverHeld(Versions(s.history, org), limit)
      case Stamped(org, limit, _) => EverHeld(Versions(s.history, org), limit)
      case _ => true
  }

  ghost predicate GrantTold(s: State, g: Grant) {
    && HeldAt(Versions(s.history, g.org), g.limit, g.readAt)
    && g.readAt <= g.at <= s.clock && g.at <= g.readAt + WINDOW_MS + s.history.slowest
  }

  ghost predicate HitTold(s: State, h: Hit) {
    EverHeld(Versions(s.history, h.org), h.limit)
  }

  ghost predicate CacheInv(s: State) {
    && (forall org :: StoredLimit(s, org))
    && (forall org :: CacheTold(s, org))
    && (forall p :: RequestTold(s, p))
    && (forall g :: g in s.history.grants ==> GrantTold(s, g))
    && (forall h :: h in s.history.hits ==> HitTold(s, h))
  }

  /** A later save takes nothing away from what was current up to now. */
  lemma SaveKeepsHeld(vs: seq<Version>, limit: nat, m: nat, next: Version)
    requires HeldAt(vs, limit, m) && m <= next.since
    ensures HeldAt(vs + [next], limit, m)
  {
    var i :| CurrentAt(vs, i, m) && vs[i].limit == limit;
    assert CurrentAt(vs + [next], i, m);
  }

  lemma SaveKeepsEver(vs: seq<Version>, limit: nat, next: Version)
    requires EverHeld(vs, limit)
    ensures EverHeld(vs + [next], limit)
  {
    var i :| 0 <= i < |vs| && vs[i].limit == limit;
    assert (vs + [next])[i].limit == limit;
  }

  lemma HeldIsEver(vs: seq<Version>, limit: nat, m: nat)
    requires HeldAt(vs, limit, m)
    ensures EverHeld(vs, limit)
  {
  }

  lemma SaveKeepsCache(s: State, org: OrgId, limit: nat)
    requires CacheInv(s)
    ensures CacheInv(Apply(s, SaveLimit(org, limit)))
  {
    var s' := Apply(s, SaveLimit(org, limit));
    var next := Version(limit, s.clock);
    var vs := Versions(s.history, org);
    forall o ensures StoredLimit(s', o) { assert StoredLimit(s, o); }
    forall o ensures CacheTold(s', o) {
      assert CacheTold(s, o);
      if o == org && o in s.cache { SaveKeepsHeld(vs, s.cache[o].limit, s.cache[o].readAt, next); }
    }
    forall p ensures RequestTold(s', p) {
      assert RequestTold(s, p);
      if p in s.requests {
        match s.requests[p]
        case Loaded(o, v, m) => if o == org { SaveKeepsHeld(vs, v, m, next); }
        case Limited(o, v) => if o == org { SaveKeepsEver(vs, v, next); }
        case Stamped(o, v, _) => if o == org { SaveKeepsEver(vs, v, next); }
        case _ =>
      }
    }
    forall g | g in s'.history.grants ensures GrantTold(s', g) {
      assert GrantTold(s, g);
      if g.org == org { SaveKeepsHeld(vs, g.limit, g.readAt, next); }
    }
    forall h | h in s'.history.hits ensures HitTold(s', h) {
      assert HitTold(s, h);
      if h.org == org { SaveKeepsEver(vs, h.limit, next); }
    }
  }

  lemma CacheGetKeepsCache(s: State, p: Pid, org: OrgId)
    requires CacheInv(s)
    ensures CacheInv(Apply(s, CacheGet(p, org)))
  {
    var s' := Apply(s, CacheGet(p, org));
    assert CacheTold(s, org);
    if CacheLive(s, org) {
      HeldIsEver(Versions(s.history, org), s.cache[org].limit, s.cache[org].readAt);
    }
    forall o ensures StoredLimit(s', o) && CacheTold(s', o) { assert StoredLimit(s, o) && CacheTold(s, o); }
    forall q ensures RequestTold(s', q) { assert RequestTold(s, q); }
    forall g | g in s'.history.grants ensures GrantTold(s', g) {
      if g in s.history.grants { assert GrantTold(s, g); }
    }
    forall h | h in s'.history.hits ensures HitTold(s', h) { assert HitTold(s, h); }
  }

  lemma DbReadKeepsCache(s: State, p: Pid)
    requires CacheInv(s)
    ensures CacheInv(Apply(s, DbRead(p)))
  {
    var s' := Apply(s, DbRead(p));
    forall o ensures StoredLimit(s', o) && CacheTold(s', o) { assert StoredLimit(s, o) && CacheTold(s, o); }
    if p in s.requests && s.requests[p].Missed? && s.requests[p].org in s.limits {
      var org := s.requests[p].org;
      assert StoredLimit(s, org);
      assert CurrentAt(Versions(s.history, org), |Versions(s.history, org)| - 1, s.clock);
    }
    forall q ensures RequestTold(s', q) { assert RequestTold(s, q); }
    forall g | g in s'.history.grants ensures GrantTold(s', g) { assert GrantTold(s, g); }
    forall h | h in s'.history.hits ensures HitTold(s', h) { assert HitTold(s, h); }
  }

  lemma CacheSetKeepsCache(s: State, p: Pid)
    requires CacheInv(s)
    ensures CacheInv(Apply(s, CacheSet(p)))
  {
    var s' := Apply(s, CacheSet(p));
    assert RequestTold(s, p);
    assert s'.history.slowest >= s.history.slowest;
    if p in s.requests && s.requests[p].Loaded? {
      HeldIsEver(Versions(s.history, s.requests[p].org), s.requests[p].limit, s.requests[p].readAt);
    }
    forall o ensures StoredLimit(s', o) && CacheTold(s', o) { assert StoredLimit(s, o) && CacheTold(s, o); }
    forall q ensures RequestTold(s', q) { assert RequestTold(s, q); }
    forall g | g in s'.history.grants ensures GrantTold(s', g) {
      if g in s.history.grants { assert GrantTold(s, g); }
    }
    forall h | h in s'.history.hits ensures HitTold(s', h) { assert HitTold(s, h); }
  }

  lemma CounterStepFrame(s: State, a: Action)
    requires a.Stamp? || a.Incr? || a.Expire? || a.Finish?
    ensures var s' := Apply(s, a);
      && s'.history.versions == s.history.versions && s'.history.slowest == s.history.slowest
      && s'.history.grants == s.history.grants && s'.limits == s.limits && s'.cache == s.cache && s'.clock == s.clock
  {
  }

  lemma CounterStepKeepsCache(s: State, a: Action)
    requires CacheInv(s) && (a.Stamp? || a.Incr? || a.Expire? || a.Finish?)
    ensures CacheInv(Apply(s, a))
  {
    var s' := Apply(s, a);
    CounterStepFrame(s, a);
    assert RequestTold(s, a.p);
    forall org ensures StoredLimit(s', org) && CacheTold(s', org) {
      assert StoredLimit(s, org) && CacheTold(s, org);
    }
    forall p ensures RequestTold(s', p) { assert RequestTold(s, p); }
    forall g | g in s'.history.grants ensures GrantTold(s', g) { assert GrantTold(s, g); }
    CounterStepHitsTold(s, a);
  }

  lemma CounterStepHitsTold(s: State, a: Action)
    requires CacheInv(s) && (a.Stamp? || a.Incr? || a.Expire? || a.Finish?)
    ensures forall h :: h in Apply(s, a).history.hits ==> HitTold(Apply(s, a), h)
  {
    var s' := Apply(s, a);
    assert s'.history.versions == s.history.versions;
    assert RequestTold(s, a.p);
    forall h | h in s'.history.hits ensures HitTold(s', h) {
      if h in s.history.hits { assert HitTold(s, h); }
    }
  }

  lemma QuietStepKeepsCache(s: State, a: Action)
    requires CacheInv(s) && (a.Tick? || a.DropCache? || a.Crash?)
    ensures CacheInv(Apply(s, a))
  {
    var s' := Apply(s, a);
    assert s'.history == s.history && s'.limits == s.limits && s'.clock >= s.clock;
    forall org ensures StoredLimit(s', org) && CacheTold(s', org) {
      assert StoredLimit(s, org) && CacheTold(s, org);
    }
    forall p ensures RequestTold(s', p) { assert RequestTold(s, p); }
    forall g | g in s'.history.grants ensures GrantTold(s', g) { assert GrantTold(s, g); }
    forall h | h in s'.history.hits ensures HitTold(s', h) { assert HitTold(s, h); }
  }

  lemma {:induction false} CacheHolds(s: State, actions: seq<Action>)
    requires CacheInv(s)
    ensures CacheInv(Exec(s, actions))
    decreases |actions|
  {
    if actions != [] {
      var a := actions[0];
      match a {
        case SaveLimit(org, limit) => SaveKeepsCache(s, org, limit);
        case CacheGet(p, org) => CacheGetKeepsCache(s, p, org);
        case DbRead(p) => DbReadKeepsCache(s, p);
        case CacheSet(p) => CacheSetKeepsCache(s, p);
        case Tick(_) => QuietStepKeepsCache(s, a);
        case DropCache(_) => QuietStepKeepsCache(s, a);
        case Crash(_) => QuietStepKeepsCache(s, a);
        case _ => CounterStepKeepsCache(s, a);
      }
      CacheHolds(Apply(s, a), actions[1..]);
    }
  }

  /**
   * Every limit handed out at time t was the stored limit at some moment no
   * earlier than t - 60s - D, where D is the run's longest DB-read-to-SET delay.
   */
  lemma BoundedStaleness(actions: seq<Action>, g: Grant)
    requires g in Exec(INIT, actions).history.grants
    ensures var h := Exec(INIT, actions).history;
      exists m: nat :: m <= g.at <= m + 60_000 + h.slowest && HeldAt(Versions(h, g.org), g.limit, m)
  {
    CacheHolds(INIT, actions);
    assert GrantTold(Exec(INIT, actions), g);
    assert g.readAt <= g.at <= g.readAt + WINDOW_MS + Exec(INIT, actions).history.slowest;
  }

  /** A stored limit is served to readers for exactly one minute, unless it is dropped or stored again. */
  lemma CacheLivesAMinute(s: State, p: Pid, ms: nat, q: Pid)
    requires p in s.requests && s.requests[p].Loaded? && q !in s.requests
    ensures var org, limit := s.requests[p].org, s.requests[p].limit;
      var s' := Apply(Apply(Apply(s, CacheSet(p)), Tick(ms)), CacheGet(q, org));
      q in s'.requests && s'.requests[q] == if ms < 60_000 then Limited(org, limit) else Missed(org)
  {
    var s1 := Apply(Apply(s, CacheSet(p)), Tick(ms));
    assert q !in s1.requests;
  }

  /** Hits only ever use limits the database has held. */
  lemma HitsUseStoredLimits(actions: seq<Action>, h: Hit)
    requires h in Exec(INIT, actions).history.hits
    ensures EverHeld(Versions(Exec(INIT, actions).history, h.org), h.limit)
  {
    CacheHolds(INIT, actions);
    assert HitTold(Exec(INIT, actions), h);
  }

  /**
   * The service's promise, from the database's side: if the organization's limit
   * has never been above L, a window admits at most min(n, L) of its n on-time
   * requests and k minutes at most (k+1)L; if it has only ever been L, a window
   * admits exactly min(n, L).
   */
  lemma StoredLimitBoundsAdmissions(actions: seq<Action>, org: OrgId, L: nat, w: nat, start: nat, k: nat)
    requires var vs := Versions(Exec(INIT, actions).history, org);
      forall i :: 0 <= i < |vs| ==> vs[i].limit <= L
    ensures var r := Exec(INIT, actions).history;
      var landed := Landed(r.ends, r.hits, org, w);
      && Admitted(landed) <= Min(|landed|, L)
      && AdmittedBetween(r.ends, r.hits, org, start, start + k * 60_000) <= (k + 1) * L
      && ((forall i :: 0 <= i < |Versions(r, org)| ==> Versions(r, org)[i].limit == L)
          ==> Admitted(landed) == Min(|landed|, L))
  {
    var r := Exec(INIT, actions).history;
    var vs := Versions(r, org);
    forall h | h in r.hits && h.org == org
      ensures h.limit <= L && ((forall i :: 0 <= i < |vs| ==> vs[i].limit == L) ==> h.limit == L)
    {
      HitsUseStoredLimits(actions, h);
    }
    LandedAreOnTime(r.ends, r.hits, org, w);
    var landed := Landed(r.ends, r.hits, org, w);
    forall h | h in landed ensures h in r.hits && h.org == org {
      var j :| 0 <= j < |landed| && landed[j] == h;
    }
    WindowAdmissions(actions, org, w, L);
    SlidingBound(actions, org, L, start, k);
  }

  // ----- "Changes apply immediately" -----------------------------------------

  /** Nothing cached or about to be cached differs from the stored limit. */
  ghost predicate Fresh(s: State, org: OrgId, limit: nat) {
    && org in s.limits && s.limits[org] == limit
    && (CacheLive(s, org) ==> s.cache[org].limit == limit)
    && NoStaleReader(s, org, limit)
  }

  /** No request sits between its DB read and its SET with another limit. */
  ghost predicate NoStaleReader(s: State, org: OrgId, limit: nat) {
    forall p :: p in s.requests && s.requests[p].Loaded? && s.requests[p].org == org ==> s.requests[p].limit == limit
  }

  ghost predicate NoSave(actions: seq<Action>, org: OrgId) {
    forall i :: 0 <= i < |actions| && actions[i].SaveLimit? ==> actions[i].org != org
  }

  /** Every limit handed to a request of `org` between the two states is `limit`. */
  ghost predicate OnlyGrants(s: State, s': State, org: OrgId, limit: nat) {
    && |s.history.grants| <= |s'.history.grants|
    && forall i :: |s.history.grants| <= i < |s'.history.grants| && s'.history.grants[i].org == org ==>
      s'.history.grants[i].limit == limit
  }

  lemma StepStaysFresh(s: State, a: Action, org: OrgId, limit: nat)
    requires Fresh(s, org, limit) && !(a.SaveLimit? && a.org == org)
    ensures Fresh(Apply(s, a), org, limit) && OnlyGrants(s, Apply(s, a), org, limit)
    ensures s.history.grants <= Apply(s, a).history.grants
  {
  }

  lemma {:induction false} RunStaysFresh(s: State, actions: seq<Action>, org: OrgId, limit: nat)
    requires Fresh(s, org, limit) && NoSave(actions, org)
    ensures Fresh(Exec(s, actions), org, limit) && OnlyGrants(s, Exec(s, actions), org, limit)
    ensures s.history.grants <= Exec(s, actions).history.grants
    decreases |actions|
  {
    if actions != [] {
      var s1 := Apply(s, actions[0]);
      StepStaysFresh(s, actions[0], org, limit);
      assert NoSave(actions[1..], org);
      RunStaysFresh(s1, actions[1..], org, limit);
    }
  }

  /**
   * From the moment an update's DEL lands, whatever happened since its save, every
   * read in every continuation until the next save gives the stored limit, exactly
   * if no request was holding another limit it had read but not yet cached.
   */
  lemma UpdateImmediateIff(s: State, org: OrgId)
    requires org in s.limits
    ensures var s' := Apply(s, DropCache(org));
      (forall actions :: NoSave(actions, org) ==> OnlyGrants(s', Exec(s', actions), org, s.limits[org]))
      <==> NoStaleReader(s, org, s.limits[org])
  {
    var s', limit := Apply(s, DropCache(org)), s.limits[org];
    assert s'.requests == s.requests;
    if NoStaleReader(s, org, limit) {
      assert Fresh(s', org, limit);
      forall actions | NoSave(actions, org) ensures OnlyGrants(s', Exec(s', actions), org, limit) {
        RunStaysFresh(s', actions, org, limit);
      }
    } else {
      var p :| p in s.requests && s.requests[p].Loaded? && s.requests[p].org == org && s.requests[p].limit != limit;
      var actions := [CacheSet(p)] + [];
      ExecCons(s', CacheSet(p), []);
      var s2 := Exec(s', actions);
      assert s2.history.grants == s'.history.grants + [Last(s2.history.grants)];
      assert Last(s2.history.grants).limit != limit && Last(s2.history.grants).org == org;
      assert NoSave(actions, org) && !OnlyGrants(s', s2, org, limit);
    }
  }

  /** With no reader in flight, whatever is cached is what the database holds. */
  ghost predicate Coherent(s: State) {
    && (forall org :: CacheLive(s, org) ==> org in s.limits && s.cache[org].limit == s.limits[org])
    && (forall p :: p in s.requests ==> !s.requests[p].Loaded?)
  }

  /** If calls and updates each run alone, a cached limit always equals the stored one. */
  lemma AtomicCallsStayCoherent(s: State, p: Pid, org: OrgId, limit: nat)
    requires Coherent(s)
    ensures Coherent(Apply(Apply(s, SaveLimit(org, limit)), DropCache(org)))
    ensures p !in s.requests ==> Coherent(Exec(s, ConsumeSteps(p, org)))
  {
    if p !in s.requests {
      ExecConsume(s, p, org);
      StepStaysCoherent(s, CacheGet(p, org));
      var s1 := Apply(s, CacheGet(p, org));
      ReadThenSetStaysCoherent(s1, p);
      var s3 := Apply(Apply(s1, DbRead(p)), CacheSet(p));
      StepStaysCoherent(s3, Stamp(p));
      var s4 := Apply(s3, Stamp(p));
      StepStaysCoherent(s4, Incr(p));
      var s5 := Apply(s4, Incr(p));
      StepStaysCoherent(s5, Expire(p));
      StepStaysCoherent(Apply(s5, Expire(p)), Finish(p));
    }
  }

  /** Whole calls and updates, and time passing between them. */
  datatype WholeCall = Consumed(p: Pid, org: OrgId) | Updated(org: OrgId, limit: nat) | Passed(ms: nat)

  function Serve(s: State, c: WholeCall): State {
    match c
    case Consumed(p, org) => if p in s.requests then s else Exec(s, ConsumeSteps(p, org))
    case Updated(org, limit) => Apply(Apply(s, SaveLimit(org, limit)), DropCache(org))
    case Passed(ms) => Apply(s, Tick(ms))
  }

  function ServeAll(s: State, calls: seq<WholeCall>): State
    decreases |calls|
  {
    if calls == [] then s else ServeAll(Serve(s, calls[0]), calls[1..])
  }

  /** So does every run of whole calls: what is cached is what is stored. */
  lemma {:induction false} AtomicRunsStayCoherent(s: State, calls: seq<WholeCall>)
    requires Coherent(s)
    ensures Coherent(ServeAll(s, calls))
    decreases |calls|
  {
    if calls != [] {
      match calls[0] {
        case Consumed(p, org) => AtomicCallsStayCoherent(s, p, org, 0);
        case Updated(org, limit) => AtomicCallsStayCoherent(s, 0, org, limit);
        case Passed(ms) => StepStaysCoherent(s, Tick(ms));
      }
      AtomicRunsStayCoherent(Serve(s, calls[0]), calls[1..]);
    }
  }

  lemma StepStaysCoherent(s: State, a: Action)
    requires Coherent(s) && !a.SaveLimit? && !a.DbRead?
    ensures Coherent(Apply(s, a))
  {
  }

  lemma ReadThenSetStaysCoherent(s: State, p: Pid)
    requires Coherent(s)
    ensures Coherent(Apply(Apply(s, DbRead(p)), CacheSet(p)))
  {
  }

  /** The lag is real: a reader caught between read and SET re-caches the old limit after the DEL. */
  lemma OldLimitComesBack(old_: nat, new_: nat)
    requires old_ != new_
    ensures var s := Exec(INIT, [SaveLimit(0, old_)] + ([CacheGet(1, 0)] + ([DbRead(1)] +
                            ([SaveLimit(0, new_)] + ([DropCache(0)] + ([CacheSet(1)] + []))))));
      0 in s.limits && s.limits[0] == new_ && CacheLive(s, 0) && s.cache[0].limit == old_
  {
    var t5 := [CacheSet(1)] + [];
    var t4 := [DropCache(0)] + t5;
    var t3 := [SaveLimit(0, new_)] + t4;
    var t2 := [DbRead(1)] + t3;
    var t1 := [CacheGet(1, 0)] + t2;
    ExecCons(INIT, SaveLimit(0, old_), t1);
    var s1 := Apply(INIT, SaveLimit(0, old_));
    ExecCons(s1, CacheGet(1, 0), t2);
    var s2 := Apply(s1, CacheGet(1, 0));
    ExecCons(s2, DbRead(1), t3);
    var s3 := Apply(s2, DbRead(1));
    assert s3.requests == map[1 := Loaded(0, old_, 0)];
    ExecCons(s3, SaveLimit(0, new_), t4);
    var s4 := Apply(s3, SaveLimit(0, new_));
    ExecCons(s4, DropCache(0), t5);
    ExecCons(Apply(s4, DropCache(0)), CacheSet(1), []);
  }
}
