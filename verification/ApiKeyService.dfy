/** ApiKeysService: each read and each write of a call is a method; whole calls run them in turn. */
module ApiKeyService {
  import opened Basics
  import opened ApiKeyModel

  class ApiKeys {
    var clock: nat
    var apps: map<AppId, OrgId>
    var keys: map<KeyId, Key>
    var calls: map<Pid, Call>
    var nextId: nat
    var tally: Tally            // the model's own record; it decides nothing

    function Now(): State
      reads this
    {
      State(clock, apps, keys, calls, nextId, tally)
    }

    constructor ()
      ensures Now() == INIT && Inv(Now())
    {
      clock, apps, keys, calls, nextId := 0, map[], map[], map[], 0;
      tally := Tally(0, 0, 0, 0, 0, map[]);
      new;
      InitInv();
    }

    /** Removing an application takes its keys along. */
    method RemoveApplication(org: OrgId, app: AppId) returns (done: Outcome<()>)
      modifies this
      ensures Now() == Apply(old(Now()), RemoveApp(org, app))
      ensures done == if app in old(apps) && old(apps)[app] == org then Ok(()) else NotFound
      ensures done.Ok? ==> app !in apps && forall id :: id in keys <==> id in old(keys) && old(keys)[id].app != app
    {
      if app !in apps || apps[app] != org {
        return NotFound;
      }
      var gone := KeysOfApp(keys, app);
      tally := tally.(dropped := tally.dropped + |Live(keys) * gone|);
      apps := apps - {app};
      keys := keys - gone;
      done := Ok(());
    }

    /** Issue a key for an application of this organization. */
    method Create(org: OrgId, app: AppId, name: string, expiresInDays: Option<nat>) returns (key: Outcome<KeyId>)
      modifies this
      ensures Now() == Apply(old(Now()), ApiKeyModel.Create(org, app, name, expiresInDays))
      ensures key == if app in apps && apps[app] == org then Ok(old(nextId)) else NotFound
      ensures key.Ok? ==>
        && key.value in keys && keys[key.value].org == org && keys[key.value].app == app && keys[key.value].name == name
        && FindKey(Now(), org, app, key.value) == Some(keys[key.value])
      ensures key.Ok? && old(Inv(Now())) ==>
        FindValid(Now(), key.value) == Some(key.value) && |Live(keys)| == |Live(old(keys))| + 1
    {
      ghost var s := Now();
      if app !in apps || apps[app] != org {
        return NotFound;
      }
      var expiresAt := None;
      if expiresInDays.Some? && expiresInDays.value != 0 {
        expiresAt := Some(clock + expiresInDays.value * DAY_MS);
      }
      keys := keys[nextId := Key(org, app, name, Sha256(nextId), expiresAt, None, None, 0)];
      tally := tally.(created := tally.created + 1);
      key := Ok(nextId);
      nextId := nextId + 1;
      if Inv(s) {
        var made := ApiKeyModel.Create(org, app, name, expiresInDays);
        StepKeepsInv(s, made);
        ValidIffActive(Now(), key.value);
      }
    }

    /** Hash, find the row, reject if revoked or expired; a valid row becomes the caller's snapshot. */
    method FindValidByPlaintext(p: Pid, secret: Secret) returns (valid: bool)
      requires Inv(Now()) && p !in calls
      modifies this`calls
      ensures Now() == Apply(old(Now()), Lookup(p, secret))
      ensures valid <==> secret in keys && StatusOf(keys[secret], clock) == Active
      ensures valid <==> p in calls
    {
      ValidIffActive(Now(), secret);
      if id :| id in keys && keys[id].digest == Sha256(secret) {
        assert KeyInv(Now(), id);
        DigestTellsKey(Now(), id);
        var key := keys[id];
        if key.revokedAt.Some? {
          return false;
        }
        if key.expiresAt.Some? && key.expiresAt.value < clock {
          return false;
        }
        calls := calls[p := Using(id, key, Recorded(Now(), id))];
        valid := true;
      } else {
        valid := false;
      }
    }

    /** Store snapshot + 1 and the time, and touch no other column. */
    method RecordUsage(p: Pid)
      requires p in calls && calls[p].Using?
      modifies this
      ensures Now() == Apply(old(Now()), ApiKeyModel.RecordUsage(p))
      ensures var call := old(calls)[p];
        keys == if call.key !in old(keys) then old(keys)
                else old(keys)[call.key := old(keys)[call.key].(
                       lastUsedAt := Some(clock), usageCount := call.row.usageCount + 1)]
    {
      var call := calls[p];
      calls := calls - {p};
      if call.key in keys {
        tally := tally.(recorded := tally.recorded[call.key := Recorded(Now(), call.key) + 1]);
        var row := keys[call.key];
        row := row.(lastUsedAt := Some(clock));
        row := row.(usageCount := call.row.usageCount + 1);
        keys := keys[call.key := row];
      }
    }

    method FindKeyOrThrow(org: OrgId, app: AppId, key: KeyId) returns (row: Outcome<Key>)
      ensures row == match FindKey(Now(), org, app, key) case None => NotFound case Some(k) => Ok(k)
    {
      if key in keys && keys[key].app == app && keys[key].org == org {
        row := Ok(keys[key]);
      } else {
        row := NotFound;
      }
    }

    /** Write back the whole snapshot with `revokedAt` set. */
    method SaveRevoked(p: Pid)
      requires p in calls && calls[p].Revoking?
      modifies this
      ensures Now() == Apply(old(Now()), ApiKeyModel.SaveRevoked(p))
    {
      var call := calls[p];
      calls := calls - {p};
      if call.key !in keys {
        return;                             // gone with its application: the save fails
      }
      tally := tally.(revoked := tally.revoked + 1, wasted := tally.wasted + Waste(Now(), call.key));
      var row := call.row.(revokedAt := Some(clock));
      keys := keys[call.key := row];
    }

    /** One transaction: the old row revoked, a replacement with its name and expiry inserted. */
    method SaveRotated(p: Pid) returns (replacement: Option<KeyId>)
      requires p in calls && calls[p].Rotating?
      modifies this
      ensures Now() == Apply(old(Now()), ApiKeyModel.SaveRotated(p))
      ensures replacement == if old(calls)[p].key in old(keys) then Some(old(nextId)) else None
    {
      var call := calls[p];
      calls := calls - {p};
      if call.key !in keys {
        return None;                        // gone with its application: the transaction fails
      }
      var fresh_ := Key(call.row.org, call.row.app, call.row.name, Sha256(nextId), call.row.expiresAt, None, None, 0);
      tally := tally.(rotated := tally.rotated + 1, wasted := tally.wasted + Waste(Now(), call.key));
      var row := call.row.(revokedAt := Some(clock));
      keys := keys[call.key := row];
      keys := keys[nextId := fresh_];
      replacement := Some(nextId);
      nextId := nextId + 1;
    }

    /** A whole revoke with nothing in between. */
    method Revoke(p: Pid, org: OrgId, app: AppId, key: KeyId) returns (done: Outcome<()>)
      requires p !in calls
      modifies this
      ensures Now() == Apply(Apply(old(Now()), FindToRevoke(p, org, app, key)), ApiKeyModel.SaveRevoked(p))
      ensures done == match FindKey(old(Now()), org, app, key)
                      case None => NotFound
                      case Some(k) => if k.revokedAt.Some? then BadRequest else Ok(())
      ensures done.Ok? ==> Live(keys) == Live(old(keys)) - {key} && key in Live(old(keys))
      ensures done.Ok? ==> key in keys && keys[key].revokedAt == Some(clock)
      ensures !done.Ok? ==> keys == old(keys)
    {
      var found := FindKeyOrThrow(org, app, key);
      if found.NotFound? {
        return NotFound;
      }
      var row := found.value;
      if row.revokedAt.Some? {
        return BadRequest;
      }
      calls := calls[p := Revoking(key, row, Recorded(Now(), key))];
      SaveRevoked(p);
      done := Ok(());
    }

    /** A whole rotation: the old key dies, its replacement has the same owner, name and expiry. */
    method Rotate(p: Pid, org: OrgId, app: AppId, key: KeyId) returns (done: Outcome<KeyId>)
      requires p !in calls
      modifies this
      ensures Now() == Apply(Apply(old(Now()), FindToRotate(p, org, app, key)), ApiKeyModel.SaveRotated(p))
      ensures done == match FindKey(old(Now()), org, app, key)
                      case None => NotFound
                      case Some(k) => if k.revokedAt.Some? then BadRequest else Ok(old(nextId))
      ensures done.Ok? && old(nextId) !in old(keys) ==>
        && key in keys && keys[key].revokedAt.Some?
        && done.value in keys && keys[done.value].expiresAt == old(keys)[key].expiresAt
        && keys[done.value].name == old(keys)[key].name && keys[done.value].revokedAt == None
        && keys[done.value].org == org && keys[done.value].app == app
        && |Live(keys)| == |Live(old(keys))|
      ensures !done.Ok? ==> keys == old(keys)
    {
      var found := FindKeyOrThrow(org, app, key);
      if found.NotFound? {
        return NotFound;
      }
      var row := found.value;
      if row.revokedAt.Some? {
        return BadRequest;
      }
      calls := calls[p := Rotating(key, row, Recorded(Now(), key))];
      ghost var s := Now();
      var replacement := SaveRotated(p);
      done := Ok(replacement.value);
      if replacement.value !in s.keys {
        RotatedLive(s, p, s.calls[p]);
        assert key in Live(s.keys) && replacement.value !in Live(s.keys);
      }
    }
  }
}
