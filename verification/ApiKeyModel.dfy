/**
 * API keys as a step system. A call that reads a row and later writes it is two
 * steps with a snapshot in between, so calls on one key can overlap. `save`
 * writes every column of the snapshot; `recordUsage` updates two columns.
 */
module ApiKeyModel {
  import opened Basics

  type OrgId = nat
  type AppId = nat
  type KeyId = nat
  type Pid = nat
  type Secret = nat

  const DAY_MS: nat := 86_400_000

  /** The stored hash; as a constructor it is injective. */
  datatype Digest = Sha256(of: Secret)

  datatype Key = Key(
    org: OrgId, app: AppId, name: string, digest: Digest, expiresAt: Option<nat>, revokedAt: Option<nat>,
    lastUsedAt: Option<nat>, usageCount: nat)

  datatype KeyStatus = Active | Revoked | Expired

  /** A call between its read and its write; `seen` is how many recordings were complete at the read. */
  datatype Call =
    | Using(key: KeyId, row: Key, seen: nat)
    | Revoking(key: KeyId, row: Key, seen: nat)
    | Rotating(key: KeyId, row: Key, seen: nat)

  /**
   * Totals the service does not keep: completed calls, those of them that found
   * the key already revoked, and live keys that went with their application.
   */
  datatype Tally = Tally(
    created: nat, revoked: nat, rotated: nat, wasted: nat, dropped: nat, recorded: map<KeyId, nat>)

  datatype State = State(
    clock: nat, apps: map<AppId, OrgId>, keys: map<KeyId, Key>, calls: map<Pid, Call>, nextId: nat, tally: Tally)

  datatype Action =
    | Tick(ms: nat)
    | AddApp(org: OrgId)
    | RemoveApp(org: OrgId, app: AppId)
    | Create(org: OrgId, app: AppId, name: string, expiresInDays: Option<nat>)
    | Lookup(p: Pid, secret: Secret)
    | RecordUsage(p: Pid)
    | FindToRevoke(p: Pid, org: OrgId, app: AppId, key: KeyId)
    | SaveRevoked(p: Pid)
    | FindToRotate(p: Pid, org: OrgId, app: AppId, key: KeyId)
    | SaveRotated(p: Pid)

  const INIT := State(0, map[], map[], map[], 0, Tally(0, 0, 0, 0, 0, map[]))

  function StatusOf(k: Key, now: nat): KeyStatus {
    if k.revokedAt.Some? then Revoked
    else if k.expiresAt.Some? && k.expiresAt.value < now then Expired
    else Active
  }

  ghost predicate HasDigest(keys: map<KeyId, Key>, id: KeyId, d: Digest) {
    id in keys && keys[id].digest == d
  }

  ghost function FindByDigest(keys: map<KeyId, Key>, d: Digest): Option<KeyId> {
    if exists id :: HasDigest(keys, id, d) then
      var id :| HasDigest(keys, id, d); Some(id)
    else None
  }

  /** `findValidByPlaintext`: the row for this key, unless revoked or expired. */
  ghost function FindValid(s: State, secret: Secret): Option<KeyId> {
    var found := FindByDigest(s.keys, Sha256(secret));
    if found.None? then None
    else
      var k := s.keys[found.value];
      if k.revokedAt.Some? then None
      else if k.expiresAt.Some? && k.expiresAt.value < s.clock then None
      else found
  }

  /** `findKeyOrThrow`. */
  function FindKey(s: State, org: OrgId, app: AppId, key: KeyId): Option<Key> {
    if key in s.keys && s.keys[key].app == app && s.keys[key].org == org then Some(s.keys[key]) else None
  }

  function Recorded(s: State, key: KeyId): nat {
    if key in s.tally.recorded then s.tally.recorded[key] else 0
  }

  /** 1 if a revoking save now would hit a key that is revoked already. */
  function Waste(s: State, key: KeyId): nat {
    if key in s.keys && s.keys[key].revokedAt.Some? then 1 else 0
  }

  function Live(keys: map<KeyId, Key>): set<KeyId> {
    set id | id in keys && keys[id].revokedAt.None?
  }

  function KeysOfApp(keys: map<KeyId, Key>, app: AppId): set<KeyId> {
    set id | id in keys && keys[id].app == app
  }

  // ----- The steps -----------------------------------------------------------

  /** `applications.remove`: the foreign key cascades to the application's keys. */
  function DoRemoveApp(s: State, app: AppId): State {
    s.(apps := s.apps - {app},
       keys := s.keys - KeysOfApp(s.keys, app),
       tally := s.tally.(dropped := s.tally.dropped + |Live(s.keys) * KeysOfApp(s.keys, app)|))
  }

  function NewKey(s: State, org: OrgId, app: AppId, name: string, expiresAt: Option<nat>): Key {
    Key(org, app, name, Sha256(s.nextId), expiresAt, None, None, 0)
  }

  function Expiry(now: nat, days: Option<nat>): Option<nat> {
    if days.Some? && days.value != 0 then Some(now + days.value * DAY_MS) else None
  }

  function DoCreate(s: State, org: OrgId, app: AppId, name: string, days: Option<nat>): State {
    s.(keys := s.keys[s.nextId := NewKey(s, org, app, name, Expiry(s.clock, days))],
       nextId := s.nextId + 1,
       tally := s.tally.(created := s.tally.created + 1))
  }

  function Open(s: State, p: Pid, c: Call): State {
    s.(calls := s.calls[p := c])
  }

  function Close(s: State, p: Pid): State {
    s.(calls := s.calls - {p})
  }

  function DoRecordUsage(s: State, p: Pid, c: Call): State {
    var s1 := Close(s, p);
    if c.key in s.keys then
      s1.(keys := s.keys[c.key := s.keys[c.key].(lastUsedAt := Some(s.clock), usageCount := c.row.usageCount + 1)],
          tally := s.tally.(recorded := s.tally.recorded[c.key := Recorded(s, c.key) + 1]))
    else s1
  }

  /** Saving a key that went with its application violates the foreign key and changes nothing. */
  function DoSaveRevoked(s: State, p: Pid, c: Call): State {
    if c.key !in s.keys then Close(s, p) else Close(s, p).(
      keys := s.keys[c.key := c.row.(revokedAt := Some(s.clock))],
      tally := s.tally.(revoked := s.tally.revoked + 1, wasted := s.tally.wasted + Waste(s, c.key)))
  }

  function DoSaveRotated(s: State, p: Pid, c: Call): State {
    if c.key !in s.keys then Close(s, p) else Close(s, p).(
      keys := s.keys[c.key := c.row.(revokedAt := Some(s.clock))]
                    [s.nextId := NewKey(s, c.row.org, c.row.app, c.row.name, c.row.expiresAt)],
      nextId := s.nextId + 1,
      tally := s.tally.(rotated := s.tally.rotated + 1, wasted := s.tally.wasted + Waste(s, c.key)))
  }

  predicate At(s: State, p: Pid) {
    p in s.calls
  }

  ghost function Apply(s: State, a: Action): State {
    match a
    case Tick(ms) => s.(clock := s.clock + ms)
    case AddApp(org) => s.(apps := s.apps[s.nextId := org], nextId := s.nextId + 1)
    case RemoveApp(org, app) => if app in s.apps && s.apps[app] == org then DoRemoveApp(s, app) else s
    case Create(org, app, name, days) =>
      if app in s.apps && s.apps[app] == org then DoCreate(s, org, app, name, days) else s
    case Lookup(p, secret) =>
      var found := FindValid(s, secret);
      if At(s, p) || found.None? then s
      else Open(s, p, Using(found.value, s.keys[found.value], Recorded(s, found.value)))
    case RecordUsage(p) => if At(s, p) && s.calls[p].Using? then DoRecordUsage(s, p, s.calls[p]) else s
    case FindToRevoke(p, org, app, key) =>
      var k := FindKey(s, org, app, key);
      if At(s, p) || k.None? || k.value.revokedAt.Some? then s
      else Open(s, p, Revoking(key, k.value, Recorded(s, key)))
    case SaveRevoked(p) => if At(s, p) && s.calls[p].Revoking? then DoSaveRevoked(s, p, s.calls[p]) else s
    case FindToRotate(p, org, app, key) =>
      var k := FindKey(s, org, app, key);
      if At(s, p) || k.None? || k.value.revokedAt.Some? then s
      else Open(s, p, Rotating(key, k.value, Recorded(s, key)))
    case SaveRotated(p) => if At(s, p) && s.calls[p].Rotating? then DoSaveRotated(s, p, s.calls[p]) else s
  }

  ghost function Exec(s: State, actions: seq<Action>): State
    decreases |actions|
  {
    if actions == [] then s else Exec(Apply(s, actions[0]), actions[1..])
  }

  lemma ExecCons(s: State, a: Action, rest: seq<Action>)
    ensures Exec(s, [a] + rest) == Exec(Apply(s, a), rest)
  {
    assert ([a] + rest)[1..] == rest;
  }

  lemma {:induction false} ExecAppend(s: State, xs: seq<Action>, ys: seq<Action>)
    ensures Exec(s, xs + ys) == Exec(Exec(s, xs), ys)
    decreases |xs|
  {
    if xs == [] {
      assert xs + ys == ys;
    } else {
      assert (xs + ys)[1..] == xs[1..] + ys;
      ExecAppend(Apply(s, xs[0]), xs[1..], ys);
    }
  }

  // ----- The invariant -------------------------------------------------------

  /** The columns no service call changes. */
  ghost predicate SameIdentity(a: Key, b: Key) {
    a.org == b.org && a.app == b.app && a.name == b.name && a.digest == b.digest && a.expiresAt == b.expiresAt
  }

  ghost predicate KeyInv(s: State, id: KeyId) {
    && (id in s.keys ==>
         && s.keys[id].digest == Sha256(id) && s.keys[id].usageCount <= Recorded(s, id)
         && s.keys[id].app in s.apps && s.apps[s.keys[id].app] == s.keys[id].org)
    && (id in s.apps ==> id < s.nextId)
    && (id >= s.nextId ==> id !in s.keys && Recorded(s, id) == 0)
  }

  ghost predicate CallInv(s: State, p: Pid) {
    p in s.calls ==>
      var c := s.calls[p];
      && c.key < s.nextId && c.row.revokedAt.None? && c.row.usageCount <= c.seen <= Recorded(s, c.key)
      && (c.key in s.keys ==> SameIdentity(c.row, s.keys[c.key]))
  }

  ghost predicate CountInv(s: State) {
    |Live(s.keys)| == s.tally.created - s.tally.revoked + s.tally.wasted - s.tally.dropped
  }

  ghost predicate Inv(s: State) {
    && (forall id :: KeyInv(s, id))
    && (forall p :: CallInv(s, p))
    && CountInv(s)
  }

  lemma DigestTellsKey(s: State, id: KeyId)
    requires Inv(s) && id in s.keys
    ensures FindByDigest(s.keys, Sha256(id)) == Some(id)
  {
    assert KeyInv(s, id);
    assert HasDigest(s.keys, id, Sha256(id));
    forall x | HasDigest(s.keys, x, Sha256(id)) ensures x == id { assert KeyInv(s, x); }
  }

  lemma LookupKeepsInv(s: State, a: Action)
    requires Inv(s) && (a.Lookup? || a.FindToRevoke? || a.FindToRotate?)
    ensures Inv(Apply(s, a))
  {
    var s' := Apply(s, a);
    assert s'.keys == s.keys && s'.tally == s.tally && s'.nextId == s.nextId;
    forall id ensures KeyInv(s', id) { assert KeyInv(s, id); }
    if a.Lookup? && FindValid(s, a.secret).Some? { assert KeyInv(s, FindValid(s, a.secret).value); }
    if !a.Lookup? { assert KeyInv(s, a.key); }
    forall p ensures CallInv(s', p) { assert CallInv(s, p); }
  }

  lemma RecordKeepsInv(s: State, p: Pid)
    requires Inv(s) && p in s.calls && s.calls[p].Using?
    ensures Inv(Apply(s, RecordUsage(p)))
  {
    var s' := Apply(s, RecordUsage(p));
    assert CallInv(s, p);
    forall id ensures KeyInv(s', id) { assert KeyInv(s, id); }
    forall q ensures CallInv(s', q) { assert CallInv(s, q); }
    assert Live(s'.keys) == Live(s.keys);
  }

  /** Both saves write back a row seen unrevoked: every other row, and what open calls saw, stands. */
  lemma SaveKeepsKeys(s: State, p: Pid, a: Action)
    requires Inv(s) && p in s.calls
    requires (a == SaveRevoked(p) && s.calls[p].Revoking?) || (a == SaveRotated(p) && s.calls[p].Rotating?)
    ensures forall x :: KeyInv(Apply(s, a), x)
  {
    assert CallInv(s, p);
    assert KeyInv(s, s.nextId) && KeyInv(s, s.calls[p].key);
    forall x ensures KeyInv(Apply(s, a), x) { assert KeyInv(s, x); }
  }

  lemma SaveKeepsCalls(s: State, p: Pid, a: Action)
    requires Inv(s) && p in s.calls
    requires (a == SaveRevoked(p) && s.calls[p].Revoking?) || (a == SaveRotated(p) && s.calls[p].Rotating?)
    ensures forall q :: CallInv(Apply(s, a), q)
  {
    assert CallInv(s, p);
    assert KeyInv(s, s.nextId);
    forall q ensures CallInv(Apply(s, a), q) { assert CallInv(s, q); }
  }

  lemma RotatedLive(s: State, p: Pid, c: Call)
    requires c.key in s.keys && s.nextId !in s.keys
    ensures Live(DoSaveRotated(s, p, c).keys) == Live(s.keys) - {c.key} + {s.nextId}
    ensures |Live(DoSaveRotated(s, p, c).keys)| == |Live(s.keys)| + if c.key in Live(s.keys) then 0 else 1
  {
    assert Live(DoSaveRotated(s, p, c).keys) == Live(s.keys) - {c.key} + {s.nextId};
  }

  lemma RevokeKeepsInv(s: State, p: Pid)
    requires Inv(s) && p in s.calls && s.calls[p].Revoking?
    ensures Inv(Apply(s, SaveRevoked(p)))
  {
    SaveKeepsKeys(s, p, SaveRevoked(p));
    SaveKeepsCalls(s, p, SaveRevoked(p));
    if s.calls[p].key in s.keys {
      assert Live(Apply(s, SaveRevoked(p)).keys) == Live(s.keys) - {s.calls[p].key};
    }
  }

  lemma RotateKeepsInv(s: State, p: Pid)
    requires Inv(s) && p in s.calls && s.calls[p].Rotating?
    ensures Inv(Apply(s, SaveRotated(p)))
  {
    SaveKeepsKeys(s, p, SaveRotated(p));
    SaveKeepsCalls(s, p, SaveRotated(p));
    assert KeyInv(s, s.nextId);
    if s.calls[p].key in s.keys {
      RotatedLive(s, p, s.calls[p]);
    }
  }

  lemma RemoveAppKeepsInv(s: State, app: AppId)
    requires Inv(s)
    ensures Inv(DoRemoveApp(s, app))
  {
    var s' := DoRemoveApp(s, app);
    forall x ensures KeyInv(s', x) { assert KeyInv(s, x); }
    forall q ensures CallInv(s', q) { assert CallInv(s, q); }
    var gone := Live(s.keys) * KeysOfApp(s.keys, app);
    assert Live(s'.keys) == Live(s.keys) - gone;
  }

  lemma CreateKeepsInv(s: State, a: Action)
    requires Inv(s) && (a.Create? || a.Tick? || a.AddApp?)
    ensures Inv(Apply(s, a))
  {
    var s' := Apply(s, a);
    assert KeyInv(s, s.nextId);
    forall x ensures KeyInv(s', x) { assert KeyInv(s, x); }
    forall q ensures CallInv(s', q) { assert CallInv(s, q); }
    if s'.keys != s.keys {
      assert Live(s'.keys) == Live(s.keys) + {s.nextId};
    }
  }

  lemma StepKeepsInv(s: State, a: Action)
    requires Inv(s)
    ensures Inv(Apply(s, a))
  {
    match a {
      case Tick(_) => CreateKeepsInv(s, a);
      case AddApp(_) => CreateKeepsInv(s, a);
      case RemoveApp(org, app) => if app in s.apps && s.apps[app] == org { RemoveAppKeepsInv(s, app); }
      case Create(_, _, _, _) => CreateKeepsInv(s, a);
      case RecordUsage(p) => if p in s.calls && s.calls[p].Using? { RecordKeepsInv(s, p); }
      case SaveRevoked(p) => if p in s.calls && s.calls[p].Revoking? { RevokeKeepsInv(s, p); }
      case SaveRotated(p) => if p in s.calls && s.calls[p].Rotating? { RotateKeepsInv(s, p); }
      case _ => LookupKeepsInv(s, a);
    }
  }

  lemma {:induction false} InvHolds(s: State, actions: seq<Action>)
    requires Inv(s)
    ensures Inv(Exec(s, actions))
    decreases |actions|
  {
    if actions != [] {
      StepKeepsInv(s, actions[0]);
      InvHolds(Apply(s, actions[0]), actions[1..]);
    }
  }

  lemma InitInv()
    ensures Inv(INIT)
  {
    assert Live(INIT.keys) == {};
  }

  // ----- The usage counter ---------------------------------------------------

  /** Under every interleaving the counter never runs ahead of the recordings. */
  lemma UsageNeverExceeds(actions: seq<Action>, id: KeyId)
    requires id in Exec(INIT, actions).keys
    ensures Exec(INIT, actions).keys[id].usageCount <= Recorded(Exec(INIT, actions), id)
  {
    InitInv();
    InvHolds(INIT, actions);
    assert KeyInv(Exec(INIT, actions), id);
  }

  /**
   * The step writes this key's row: a recording, or the save of a revoke or a
   * rotate, which puts the usage count of its snapshot back.
   */
  predicate Lands(s: State, a: Action, id: KeyId) {
    && (a.RecordUsage? || a.SaveRevoked? || a.SaveRotated?) && a.p in s.calls
    && s.calls[a.p].key == id && id in s.keys
    && match s.calls[a.p]
       case Using(_, _, _) => a.RecordUsage?
       case Revoking(_, _, _) => a.SaveRevoked?
       case Rotating(_, _, _) => a.SaveRotated?
  }

  /** The call saw an exact counter, and no recording of the key completed since. */
  predicate Unspoilt(s: State, c: Call) {
    c.row.usageCount == c.seen == Recorded(s, c.key)
  }

  ghost predicate CounterExact(s: State, id: KeyId) {
    id in s.keys ==> s.keys[id].usageCount == Recorded(s, id)
  }

  /** Whatever the counter was, a write leaves it exact if and only if its call is unspoilt. */
  lemma WriteExactIff(s: State, a: Action, id: KeyId)
    requires Inv(s) && Lands(s, a, id)
    ensures id in Apply(s, a).keys && (CounterExact(Apply(s, a), id) <==> Unspoilt(s, s.calls[a.p]))
  {
    assert CallInv(s, a.p) && KeyInv(s, s.nextId);
  }

  /** Nothing else changes a counter or the number of recordings. */
  lemma OnlyWritesCount(s: State, a: Action, id: KeyId)
    requires Inv(s) && !Lands(s, a, id) && id in Apply(s, a).keys
    ensures CounterExact(Apply(s, a), id) <==> CounterExact(s, id)
  {
    assert KeyInv(s, s.nextId) && KeyInv(s, id);
  }

  /** Whether the last write of the run to land was unspoilt; `exact` if none landed. */
  ghost function LastUnspoilt(s: State, actions: seq<Action>, id: KeyId, exact: bool): bool
    decreases |actions|
  {
    if actions == [] then exact
    else
      var a := actions[0];
      LastUnspoilt(Apply(s, a), actions[1..], id, if Lands(s, a, id) then Unspoilt(s, s.calls[a.p]) else exact)
  }

  lemma {:induction false} EndsExactIff(s: State, actions: seq<Action>, id: KeyId)
    requires Inv(s) && id in Exec(s, actions).keys
    ensures CounterExact(Exec(s, actions), id) <==> LastUnspoilt(s, actions, id, CounterExact(s, id))
    decreases |actions|
  {
    if actions != [] {
      var a, s1 := actions[0], Apply(s, actions[0]);
      StepKeepsInv(s, a);
      if Lands(s, a, id) {
        WriteExactIff(s, a, id);
      } else if id in s1.keys {
        OnlyWritesCount(s, a, id);
      } else if id in s.keys {
        assert KeyInv(s, id);
        StepKeepsKey(s, a, id);
        GoneStaysGone(s1, actions[1..], id);
      }
      EndsExactIff(s1, actions[1..], id);
    }
  }

  /**
   * After any run a key's counter equals its completed recordings if and only if
   * the last write to land on its row, recording, revoke or rotate, came from a call
   * that saw an exact counter with nothing recorded since.
   */
  lemma RecordingExactIff(actions: seq<Action>, id: KeyId)
    requires id in Exec(INIT, actions).keys
    ensures var s := Exec(INIT, actions);
      s.keys[id].usageCount == Recorded(s, id) <==> LastUnspoilt(INIT, actions, id, true)
  {
    InitInv();
    EndsExactIff(INIT, actions, id);
  }

  /** The step writes the key's row for a call that has missed a recording. */
  predicate Stale(s: State, a: Action, id: KeyId) {
    Lands(s, a, id) && s.calls[a.p].seen != Recorded(s, id)
  }

  ghost predicate Exact(s: State, id: KeyId) {
    && CounterExact(s, id)
    && (forall p :: p in s.calls && s.calls[p].key == id ==> s.calls[p].row.usageCount == s.calls[p].seen)
  }

  lemma StepExactIff(s: State, a: Action, id: KeyId)
    requires Inv(s) && Exact(s, id)
    ensures CounterExact(Apply(s, a), id) <==> !Stale(s, a, id)
    ensures !Stale(s, a, id) ==> Exact(Apply(s, a), id)
  {
    assert KeyInv(s, s.nextId) && KeyInv(s, id);
    if Lands(s, a, id) {
      WriteExactIff(s, a, id);
    } else if id in Apply(s, a).keys {
      OnlyWritesCount(s, a, id);
    }
  }

  /** The counter is exact now and after every step. */
  ghost predicate AlwaysExact(s: State, actions: seq<Action>, id: KeyId)
    decreases |actions|
  {
    CounterExact(s, id) && (actions != [] ==> AlwaysExact(Apply(s, actions[0]), actions[1..], id))
  }

  /** Every write on the key comes from a call that has seen every recording so far: none overlap. */
  ghost predicate NoOverlap(s: State, actions: seq<Action>, id: KeyId)
    decreases |actions|
  {
    actions != [] ==> !Stale(s, actions[0], id) && NoOverlap(Apply(s, actions[0]), actions[1..], id)
  }

  lemma {:induction false} ExactAllAlong(s: State, actions: seq<Action>, id: KeyId)
    requires Inv(s) && Exact(s, id)
    ensures AlwaysExact(s, actions, id) <==> NoOverlap(s, actions, id)
    decreases |actions|
  {
    if actions != [] {
      StepExactIff(s, actions[0], id);
      StepKeepsInv(s, actions[0]);
      if !Stale(s, actions[0], id) {
        ExactAllAlong(Apply(s, actions[0]), actions[1..], id);
      }
    }
  }

  /** A key's counter is exact at every point of a run if and only if no two writes on it overlap. */
  lemma NoOverlapIsExact(actions: seq<Action>, id: KeyId)
    ensures AlwaysExact(INIT, actions, id) <==> NoOverlap(INIT, actions, id)
  {
    InitInv();
    ExactAllAlong(INIT, actions, id);
  }

  /** The lost update: two uses that overlap are counted once. */
  lemma OverlapLosesOne(s: State, id: KeyId, p: Pid, q: Pid)
    requires Inv(s) && FindValid(s, id) == Some(id) && Exact(s, id)
    requires p != q && p !in s.calls && q !in s.calls
    ensures var s' := Apply(Apply(Apply(Apply(s, Lookup(p, id)), Lookup(q, id)), RecordUsage(p)), RecordUsage(q));
      id in s'.keys && Recorded(s', id) == Recorded(s, id) + 2 && s'.keys[id].usageCount == Recorded(s, id) + 1
  {
    assert KeyInv(s, id);
    var c := Using(id, s.keys[id], Recorded(s, id));
    var s2 := Apply(Apply(s, Lookup(p, id)), Lookup(q, id));
    assert s2.calls == s.calls[p := c][q := c];
    var s3 := Apply(s2, RecordUsage(p));
    assert s3.calls[q] == s2.calls[q];
  }

  /** A revoke that overlaps a use takes the use back: one recording, and the count is the old one. */
  lemma RevokeLosesOne(s: State, id: KeyId, p: Pid, q: Pid)
    requires Inv(s) && FindValid(s, id) == Some(id) && p != q && p !in s.calls && q !in s.calls
    ensures var k := s.keys[id];
      var s2 := Apply(Apply(s, FindToRevoke(p, k.org, k.app, id)), Lookup(q, id));
      var s' := Apply(Apply(s2, RecordUsage(q)), SaveRevoked(p));
      id in s'.keys && Recorded(s', id) == Recorded(s, id) + 1 && s'.keys[id].usageCount == s.keys[id].usageCount
  {
    var k := s.keys[id];
    var s1 := Apply(s, FindToRevoke(p, k.org, k.app, id));
    assert s1 == Open(s, p, Revoking(id, k, Recorded(s, id)));
    var s2 := Apply(s1, Lookup(q, id));
    assert s2 == Open(s1, q, Using(id, k, Recorded(s, id)));
    var s3 := Apply(s2, RecordUsage(q));
    assert s3.calls[p] == s1.calls[p];
  }

  // ----- Validity ------------------------------------------------------------

  /** Revoked once it has a revocation time, else expired from the first millisecond after its expiry. */
  lemma StatusMeans(k: Key, now: nat)
    ensures StatusOf(k, now) == Revoked <==> k.revokedAt != None
    ensures StatusOf(k, now) == Active <==> k.revokedAt == None && (k.expiresAt == None || now <= k.expiresAt.value)
  {
  }

  /** A presented key authenticates exactly if its row is there, unrevoked and not past its expiry. */
  lemma LookupIffActive(actions: seq<Action>, secret: Secret)
    ensures var s := Exec(INIT, actions);
      FindValid(s, secret).Some? <==>
        && secret in s.keys && s.keys[secret].revokedAt == None
        && (s.keys[secret].expiresAt == None || s.clock <= s.keys[secret].expiresAt.value)
    ensures var s := Exec(INIT, actions);
      FindValid(s, secret).Some? ==> FindValid(s, secret) == Some(secret)
  {
    InitInv();
    InvHolds(INIT, actions);
    ValidIffActive(Exec(INIT, actions), secret);
  }

  lemma ValidIffActive(s: State, secret: Secret)
    requires Inv(s)
    ensures FindValid(s, secret) ==
      if secret in s.keys && StatusOf(s.keys[secret], s.clock) == Active then Some(secret) else None
  {
    if secret in s.keys {
      DigestTellsKey(s, secret);
    } else {
      forall x ensures !HasDigest(s.keys, x, Sha256(secret)) { assert KeyInv(s, x); }
    }
  }

  /** One step never un-revokes a key or moves its expiry, and removes it only with its application. */
  lemma StepKeepsKey(s: State, a: Action, id: KeyId)
    requires Inv(s) && id in s.keys
    ensures var s' := Apply(s, a);
      && s'.clock >= s.clock && id < s.nextId <= s'.nextId
      && (id in s'.keys ==>
           && SameIdentity(s'.keys[id], s.keys[id])
           && (s.keys[id].revokedAt.Some? ==> s'.keys[id].revokedAt.Some?))
      && (id !in s'.keys ==> Removes(a, s.keys[id].app))
  {
    assert KeyInv(s, id) && KeyInv(s, s.nextId);
    if (a.RecordUsage? || a.SaveRevoked? || a.SaveRotated?) && a.p in s.calls {
      assert CallInv(s, a.p);
    }
  }

  predicate Removes(a: Action, app: AppId) {
    a.RemoveApp? && a.app == app
  }

  lemma {:induction false} GoneStaysGone(s: State, actions: seq<Action>, id: KeyId)
    requires id !in s.keys && id < s.nextId
    ensures id !in Exec(s, actions).keys && Exec(s, actions).clock >= s.clock
    decreases |actions|
  {
    if actions != [] {
      var s' := Apply(s, actions[0]);
      assert id !in s'.keys && s.nextId <= s'.nextId;
      GoneStaysGone(s', actions[1..], id);
    }
  }

  /**
   * No interleaving un-revokes a key, moves its expiry or changes its owner, and
   * only the removal of its application removes it.
   */
  lemma {:induction false} RunKeepsKey(s: State, actions: seq<Action>, id: KeyId)
    requires Inv(s) && id in s.keys
    ensures var s' := Exec(s, actions);
      && s'.clock >= s.clock
      && (id in s'.keys ==>
           && SameIdentity(s'.keys[id], s.keys[id])
           && (s.keys[id].revokedAt.Some? ==> s'.keys[id].revokedAt.Some?))
      && (id !in s'.keys ==> exists i :: 0 <= i < |actions| && Removes(actions[i], s.keys[id].app))
    decreases |actions|
  {
    if actions != [] {
      var s1, rest := Apply(s, actions[0]), actions[1..];
      StepKeepsKey(s, actions[0], id);
      StepKeepsInv(s, actions[0]);
      if id !in s1.keys {
        GoneStaysGone(s1, rest, id);
      } else {
        RunKeepsKey(s1, rest, id);
        if id !in Exec(s1, rest).keys {
          var i :| 0 <= i < |rest| && Removes(rest[i], s1.keys[id].app);
          assert Removes(actions[i + 1], s.keys[id].app);
        }
      }
    }
  }

  /** Once an issued key fails to authenticate, it fails in every continuation. */
  lemma InvalidForever(before: seq<Action>, secret: Secret, after: seq<Action>)
    requires secret in Exec(INIT, before).keys && FindValid(Exec(INIT, before), secret).None?
    ensures FindValid(Exec(Exec(INIT, before), after), secret).None?
  {
    InitInv();
    InvHolds(INIT, before);
    var s := Exec(INIT, before);
    InvHolds(s, after);
    ValidIffActive(s, secret);
    RunKeepsKey(s, after, secret);
    ValidIffActive(Exec(s, after), secret);
  }

  // ----- To whom a key belongs -----------------------------------------------

  /** In every run a key's application is registered to the key's organization, which alone finds it. */
  lemma KeysBelong(actions: seq<Action>, id: KeyId, org: OrgId, app: AppId)
    requires id in Exec(INIT, actions).keys
    ensures var s := Exec(INIT, actions);
      && s.keys[id].app in s.apps && s.apps[s.keys[id].app] == s.keys[id].org
      && (FindKey(s, org, app, id).Some? <==> s.keys[id].app == app && s.apps[s.keys[id].app] == org)
  {
    InitInv();
    InvHolds(INIT, actions);
    assert KeyInv(Exec(INIT, actions), id);
  }

  /** The state after an organization creates a key for its application. */
  ghost function Issued(s: State, org: OrgId, app: AppId, name: string, days: Option<nat>): State {
    Apply(s, Create(org, app, name, days))
  }

  /**
   * A created key is its creator's: the organization finds it under the application it
   * named, no one finds it elsewhere, and it is new, unused and valid.
   */
  lemma CreatedKeyIsOwners(s: State, org: OrgId, app: AppId, name: string, days: Option<nat>)
    requires Inv(s) && app in s.apps && s.apps[app] == org
    ensures var s' := Issued(s, org, app, name, days);
      var id := s.nextId;
      && id !in s.keys && id in s'.keys && FindKey(s', org, app, id) == Some(s'.keys[id])
      && (forall o, a :: FindKey(s', o, a, id).Some? ==> o == org && a == app)
      && s'.keys[id].name == name && s'.keys[id].usageCount == 0 && s'.keys[id].lastUsedAt == None
      && FindValid(s', id) == Some(id)
      && forall x :: x in s.keys ==> x in s'.keys && s'.keys[x] == s.keys[x]
  {
    var s' := Issued(s, org, app, name, days);
    assert KeyInv(s, s.nextId);
    StepKeepsInv(s, Create(org, app, name, days));
    ValidIffActive(s', s.nextId);
  }

  /** It authenticates for exactly the days asked for, to the millisecond; with none, or zero, for ever. */
  lemma CreatedKeyLifetime(s: State, org: OrgId, app: AppId, name: string, days: Option<nat>, ms: nat)
    requires Inv(s) && app in s.apps && s.apps[app] == org
    ensures var s' := Apply(Issued(s, org, app, name, days), Tick(ms));
      FindValid(s', s.nextId).Some? <==> days == None || days == Some(0) || ms <= days.value * 24 * 60 * 60 * 1000
  {
    CreatedKeyIsOwners(s, org, app, name, days);
    var s1 := Issued(s, org, app, name, days);
    StepKeepsInv(s, Create(org, app, name, days));
    StepKeepsInv(s1, Tick(ms));
    ValidIffActive(Apply(s1, Tick(ms)), s.nextId);
  }

  /** The owner's revoke, with nothing in between, ends a live key's validity at that moment. */
  lemma OwnersRevokeEnds(s: State, p: Pid, id: KeyId)
    requires Inv(s) && p !in s.calls && id in Live(s.keys)
    ensures var k := s.keys[id];
      var s' := Apply(Apply(s, FindToRevoke(p, k.org, k.app, id)), SaveRevoked(p));
      && FindValid(s', id) == None && id in s'.keys && s'.keys[id] == k.(revokedAt := Some(s.clock))
      && forall x :: x != id ==> Get(s'.keys, x) == Get(s.keys, x)
  {
    var k := s.keys[id];
    var s1 := Apply(s, FindToRevoke(p, k.org, k.app, id));
    assert s1 == Open(s, p, Revoking(id, k, Recorded(s, id)));
    StepKeepsInv(s, FindToRevoke(p, k.org, k.app, id));
    StepKeepsInv(s1, SaveRevoked(p));
    ValidIffActive(Apply(s1, SaveRevoked(p)), id);
  }

  /** A rotation's replacement has its predecessor's organization, application, name and expiry. */
  lemma ReplacementIsOwners(s: State, p: Pid, id: KeyId)
    requires Inv(s) && p !in s.calls && id in Live(s.keys)
    ensures var k := s.keys[id];
      var s' := Apply(Apply(s, FindToRotate(p, k.org, k.app, id)), SaveRotated(p));
      && s.nextId !in s.keys && s.nextId in s'.keys && id in s'.keys
      && FindKey(s', k.org, k.app, s.nextId) == Some(s'.keys[s.nextId])
      && s'.keys[s.nextId].name == k.name && s'.keys[s.nextId].expiresAt == k.expiresAt
      && s'.keys[s.nextId].revokedAt == None && s'.keys[s.nextId].usageCount == 0
      && s'.keys[id] == k.(revokedAt := Some(s.clock))
  {
    var k := s.keys[id];
    var s1 := Apply(s, FindToRotate(p, k.org, k.app, id));
    assert KeyInv(s, id) && KeyInv(s, s.nextId);
    assert s1 == Open(s, p, Rotating(id, k, Recorded(s, id)));
  }

  /** Removing the application removes every key found under it, and no other. */
  lemma RemovalTakesKeys(s: State, org: OrgId, app: AppId, id: KeyId)
    requires Inv(s) && app in s.apps && s.apps[app] == org && id in s.keys
    ensures id in Apply(s, RemoveApp(org, app)).keys <==> FindKey(s, org, app, id) == None
  {
    assert KeyInv(s, id);
  }

  /** A recording stamps the moment and touches no other column but the count. */
  lemma RecordingStamps(s: State, p: Pid)
    requires Inv(s) && p in s.calls && s.calls[p].Using? && s.calls[p].key in s.keys
    ensures var id := s.calls[p].key;
      var s' := Apply(s, RecordUsage(p));
      && id in s'.keys && s'.keys[id].lastUsedAt == Some(s.clock)
      && s'.keys[id].revokedAt == s.keys[id].revokedAt && SameIdentity(s'.keys[id], s.keys[id])
      && forall x :: x != id ==> Get(s'.keys, x) == Get(s.keys, x)
  {
  }

  // ----- Whose requests revoke -----------------------------------------------

  /** A revoke or rotate request for this key under its own organization and application. */
  predicate OwnersRequest(a: Action, k: Key, id: KeyId) {
    (a.FindToRevoke? || a.FindToRotate?) && a.key == id && a.org == k.org && a.app == k.app
  }

  /** No revoke or rotate of this key is between its read and its save. */
  ghost predicate NoSavePending(s: State, id: KeyId) {
    forall p :: p in s.calls && s.calls[p].key == id ==> s.calls[p].Using?
  }

  lemma StepStaysLive(s: State, a: Action, id: KeyId)
    requires Inv(s) && id in Live(s.keys) && NoSavePending(s, id) && !OwnersRequest(a, s.keys[id], id)
    ensures id in Apply(s, a).keys ==> id in Live(Apply(s, a).keys)
    ensures NoSavePending(Apply(s, a), id)
  {
    assert KeyInv(s, s.nextId);
  }

  /**
   * Tenant scoping: however other organizations' requests name the key, in every
   * run only a request under its own organization and application revokes it.
   */
  lemma {:induction false} OnlyOwnerRevokes(s: State, actions: seq<Action>, id: KeyId)
    requires Inv(s) && id in Live(s.keys) && NoSavePending(s, id)
    requires forall i :: 0 <= i < |actions| ==> !OwnersRequest(actions[i], s.keys[id], id)
    ensures id in Exec(s, actions).keys ==> id in Live(Exec(s, actions).keys)
    decreases |actions|
  {
    if actions != [] {
      var s1 := Apply(s, actions[0]);
      StepStaysLive(s, actions[0], id);
      StepKeepsKey(s, actions[0], id);
      StepKeepsInv(s, actions[0]);
      if id in s1.keys {
        OnlyOwnerRevokes(s1, actions[1..], id);
      } else {
        GoneStaysGone(s1, actions[1..], id);
      }
    }
  }

  // ----- How many keys are live ----------------------------------------------

  /**
   * Under every interleaving: unrevoked keys = creates - revokes, plus one for
   * every revoke or rotate whose save found the key revoked already, less the
   * live keys that went with their application.
   */
  lemma LiveKeysAccounted(actions: seq<Action>)
    ensures var s := Exec(INIT, actions);
      |Live(s.keys)| == s.tally.created - s.tally.revoked + s.tally.wasted - s.tally.dropped
  {
    InitInv();
    InvHolds(INIT, actions);
  }

  /** Whole calls, one after the other. */
  datatype Request =
    | NewApp(org: OrgId)
    | DeleteApp(org: OrgId, app: AppId)
    | Issue(org: OrgId, app: AppId, name: string, days: Option<nat>)
    | Revoke(org: OrgId, app: AppId, key: KeyId)
    | Rotate(org: OrgId, app: AppId, key: KeyId)
    | Use(secret: Secret)
    | Wait(ms: nat)

  function StepsOf(r: Request, p: Pid): (Action, Action) {
    match r
    case NewApp(org) => (AddApp(org), Tick(0))
    case DeleteApp(org, app) => (RemoveApp(org, app), Tick(0))
    case Issue(org, app, name, days) => (Create(org, app, name, days), Tick(0))
    case Revoke(org, app, key) => (FindToRevoke(p, org, app, key), SaveRevoked(p))
    case Rotate(org, app, key) => (FindToRotate(p, org, app, key), SaveRotated(p))
    case Use(secret) => (Lookup(p, secret), RecordUsage(p))
    case Wait(ms) => (Tick(ms), Tick(0))
  }

  ghost function Serve(s: State, r: Request): State {
    Apply(Apply(s, StepsOf(r, 0).0), StepsOf(r, 0).1)
  }

  ghost function ServeAll(s: State, requests: seq<Request>): State
    decreases |requests|
  {
    if requests == [] then s else ServeAll(Serve(s, requests[0]), requests[1..])
  }

  lemma ServeWastesNothing(s: State, r: Request)
    requires Inv(s) && s.calls == map[]
    ensures var s' := Serve(s, r);
      && Inv(s') && s'.calls == map[] && s'.tally.wasted == s.tally.wasted
      && (r.Rotate? ==> |Live(s'.keys)| == |Live(s.keys)|)
  {
    var a, b := StepsOf(r, 0).0, StepsOf(r, 0).1;
    var s1 := Apply(s, a);
    StepKeepsInv(s, a);
    StepKeepsInv(s1, b);
    FirstStepOpens(s, r);
  }

  /** The first step of a call opens at most that call, on a key that is not revoked. */
  lemma FirstStepOpens(s: State, r: Request)
    requires Inv(s) && s.calls == map[]
    ensures var s1 := Apply(s, StepsOf(r, 0).0);
      && s1.tally.wasted == s.tally.wasted && (!r.Issue? && !r.DeleteApp? ==> s1.keys == s.keys && s1.tally == s.tally)
      && (s1.calls == map[] || (s1.calls.Keys == {0} && s1.calls[0].key in s1.keys
          && s1.keys[s1.calls[0].key].revokedAt.None?
          && match r
             case Revoke(_, _, _) => s1.calls[0].Revoking?
             case Rotate(_, _, _) => s1.calls[0].Rotating?
             case Use(_) => s1.calls[0].Using?
             case _ => false))
  {
  }

  /** In sequential runs: unrevoked keys = creates - revokes - those gone with their application. */
  lemma {:induction false} SequentialKeyCount(s: State, requests: seq<Request>)
    requires Inv(s) && s.calls == map[] && s.tally.wasted == 0
    ensures var s' := ServeAll(s, requests);
      |Live(s'.keys)| == s'.tally.created - s'.tally.revoked - s'.tally.dropped
    decreases |requests|
  {
    if requests != [] {
      ServeWastesNothing(s, requests[0]);
      SequentialKeyCount(Serve(s, requests[0]), requests[1..]);
    }
  }

  /** A rotation adds a live key if the key it rotates was revoked already. */
  lemma RotateRevoked(s: State, q: Pid)
    requires q in s.calls && s.calls[q].Rotating? && s.calls[q].key in s.keys
    requires s.nextId !in s.keys && s.calls[q].key !in Live(s.keys)
    ensures |Live(Apply(s, SaveRotated(q)).keys)| == |Live(s.keys)| + 1
  {
    RotatedLive(s, q, s.calls[q]);
  }

  lemma RotateLiveKey(s: State, p: Pid, q: Pid)
    requires p != q && p in s.calls && q in s.calls && s.calls[p].Rotating? && s.calls[q].Rotating?
    requires s.calls[p].key == s.calls[q].key && s.nextId !in s.keys && s.nextId + 1 !in s.keys
    requires s.calls[p].key in Live(s.keys)
    ensures var s' := Apply(s, SaveRotated(p));
      && |Live(s'.keys)| == |Live(s.keys)|
      && q in s'.calls && s'.calls[q] == s.calls[q] && s.calls[q].key in s'.keys
      && s'.nextId !in s'.keys && s.calls[q].key !in Live(s'.keys)
  {
    RotatedLive(s, p, s.calls[p]);
    assert s.calls[p].key != s.nextId;
  }

  /** The gap: two overlapping rotations of one key leave one live key too many. */
  lemma OverlappingRotationsAddOne(s: State, id: KeyId, p: Pid, q: Pid)
    requires Inv(s) && id in s.keys && s.keys[id].revokedAt.None?
    requires p != q && p !in s.calls && q !in s.calls
    ensures var k := s.keys[id];
      var s2 := Apply(Apply(s, FindToRotate(p, k.org, k.app, id)), FindToRotate(q, k.org, k.app, id));
      |Live(Apply(Apply(s2, SaveRotated(p)), SaveRotated(q)).keys)| == |Live(s.keys)| + 1
  {
    var k := s.keys[id];
    var c := Rotating(id, k, Recorded(s, id));
    var s1 := Apply(s, FindToRotate(p, k.org, k.app, id));
    assert s1 == Open(s, p, c);
    var s2 := Apply(s1, FindToRotate(q, k.org, k.app, id));
    assert s2 == Open(s1, q, c);
    assert KeyInv(s, id) && KeyInv(s, s.nextId) && KeyInv(s, s.nextId + 1);
    RotateLiveKey(s2, p, q);
    RotateRevoked(Apply(s2, SaveRotated(p)), q);
  }

  // ----- Runs that show the gaps ---------------------------------------------

  /** An application and one key for it, and then `rest` happens. */
  function IssueOne(rest: seq<Action>): seq<Action> {
    [AddApp(0)] + ([Create(0, 0, "", None)] + rest)
  }

  const ISSUED := State(
    0, map[0 := 0], map[1 := Key(0, 0, "", Sha256(1), None, None, None, 0)], map[], 2, Tally(1, 0, 0, 0, 0, map[]))

  lemma IssueOneRuns(rest: seq<Action>)
    ensures Exec(INIT, IssueOne(rest)) == Exec(ISSUED, rest)
  {
    ExecCons(INIT, AddApp(0), [Create(0, 0, "", None)] + rest);
    var s1 := Apply(INIT, AddApp(0));
    ExecCons(s1, Create(0, 0, "", None), rest);
    assert Apply(s1, Create(0, 0, "", None)) == ISSUED;
  }

  lemma IssuedIsLive()
    ensures Inv(ISSUED) && FindValid(ISSUED, 1) == Some(1) && Exact(ISSUED, 1) && Live(ISSUED.keys) == {1}
  {
    assert Live(ISSUED.keys) == {1};
    ValidIffActive(ISSUED, 1);
  }

  lemma ExecFour(s: State, a: Action, b: Action, c: Action, d: Action)
    ensures Exec(s, [a] + ([b] + ([c] + ([d] + [])))) == Apply(Apply(Apply(Apply(s, a), b), c), d)
  {
    ExecCons(s, a, [b] + ([c] + ([d] + [])));
    ExecCons(Apply(s, a), b, [c] + ([d] + []));
    ExecCons(Apply(Apply(s, a), b), c, [d] + []);
    ExecCons(Apply(Apply(Apply(s, a), b), c), d, []);
  }

  lemma OverlapPossible()
    ensures var s := Exec(INIT, IssueOne(
        [Lookup(0, 1)] + ([Lookup(1, 1)] + ([RecordUsage(0)] + ([RecordUsage(1)] + [])))));
      1 in s.keys && s.keys[1].usageCount == 1 && Recorded(s, 1) == 2
  {
    IssueOneRuns([Lookup(0, 1)] + ([Lookup(1, 1)] + ([RecordUsage(0)] + ([RecordUsage(1)] + []))));
    IssuedIsLive();
    ExecFour(ISSUED, Lookup(0, 1), Lookup(1, 1), RecordUsage(0), RecordUsage(1));
    OverlapLosesOne(ISSUED, 1, 0, 1);
  }

  lemma RevokeLossPossible()
    ensures var s := Exec(INIT, IssueOne(
        [FindToRevoke(0, 0, 0, 1)] + ([Lookup(1, 1)] + ([RecordUsage(1)] + ([SaveRevoked(0)] + [])))));
      1 in s.keys && s.keys[1].usageCount == 0 && Recorded(s, 1) == 1
  {
    IssueOneRuns(
      [FindToRevoke(0, 0, 0, 1)] + ([Lookup(1, 1)] + ([RecordUsage(1)] + ([SaveRevoked(0)] + []))));
    IssuedIsLive();
    ExecFour(ISSUED, FindToRevoke(0, 0, 0, 1), Lookup(1, 1), RecordUsage(1), SaveRevoked(0));
    RevokeLosesOne(ISSUED, 1, 0, 1);
  }

  /** One key created, nothing revoked, and two keys live. */
  lemma OverlappingRotationsPossible()
    ensures var s := Exec(INIT, IssueOne(
        [FindToRotate(0, 0, 0, 1)] + ([FindToRotate(1, 0, 0, 1)] + ([SaveRotated(0)] + ([SaveRotated(1)] + [])))));
      |Live(s.keys)| == 2
  {
    IssueOneRuns(
      [FindToRotate(0, 0, 0, 1)] + ([FindToRotate(1, 0, 0, 1)] + ([SaveRotated(0)] + ([SaveRotated(1)] + []))));
    IssuedIsLive();
    ExecFour(ISSUED, FindToRotate(0, 0, 0, 1), FindToRotate(1, 0, 0, 1), SaveRotated(0), SaveRotated(1));
    OverlappingRotationsAddOne(ISSUED, 1, 0, 1);
  }
}
