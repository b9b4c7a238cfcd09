/** The API key half of the control store as it runs: maps and index updated in place, saved or put back together. */
module ApiKeyStore {
  import opened Common
  import opened KeyOrder
  import opened Versioned
  import opened ApiKeyState
  import opened ApiKeyRuns

  lemma EntriesExtend(keys: ApiKeys, ids: seq<string>, id: string)
    requires (forall x :: x in ids ==> x in keys) && id in keys
    ensures forall x :: x in ids + [id] ==> x in keys
    ensures Entries(keys, ids + [id]) == Entries(keys, ids)[keys[id].hash := id]
  {
    assert (ids + [id])[..|ids|] == ids;
  }

  lemma VisitOne(visited: seq<string>, id: string, left: seq<string>, all: seq<string>)
    requires visited + ([id] + left) == all
    ensures (visited + [id]) + left == all && id in all
  {
    assert all[|visited|] == id;
  }

  /** Collects hash and id of every key in key order. */
  method BuildIndex(keys: ApiKeys) returns (index: Index)
    ensures index == Rebuilt(keys)
  {
    index := map[];
    var rest := keys.Keys;
    ghost var visited: seq<string> := [];
    ghost var left, all := Listing(rest), Listing(rest);
    ListingOk(keys.Keys);
    while rest != {}
      invariant left == Listing(rest) && visited + left == all
      invariant (forall id :: id in visited ==> id in keys) && index == Entries(keys, visited)
    {
      var id := Next(rest);
      VisitOne(visited, id, Listing(rest - {id}), all);
      EntriesExtend(keys, visited, id);
      index := index[keys[id].hash := id];
      visited := visited + [id];
      rest := rest - {id};
      left := Listing(rest);
    }
    assert visited == all;
  }

  class Store {
    const stored: Document<Tables>
    var teams: Teams
    var keys: ApiKeys
    var index: Index
    var revision: nat
    var degraded: bool

    constructor (stored: Document<Tables>)
      requires stored.history != []
      ensures this.stored == stored
      ensures var t := stored.history[|stored.history| - 1];
              AsReplica() == Replica(Memory(t, Rebuilt(t.keys)), |stored.history| - 1)
    {
      this.stored := stored;
      teams := stored.history[|stored.history| - 1].teams;
      keys := stored.history[|stored.history| - 1].keys;
      revision, degraded := |stored.history| - 1, false;
      index := map[];
      new;
      index := BuildIndex(keys);
    }

    function AsTables(): Tables
      reads this
    {
      Tables(teams, keys)
    }

    function AsMemory(): Memory
      reads this
    {
      Memory(AsTables(), index)
    }

    function AsReplica(): Replica
      reads this
    {
      Replica(AsMemory(), revision)
    }

    /** Tables, index, revision and stored document are those that this ending, saved with this fate, leads to. */
    ghost predicate Settles(was: Replica, history: seq<Tables>, e: Ending, fate: Fate)
      reads this, stored
    {
      (stored.history, AsReplica()) == Settled(history, was, e, fate)
    }

    method SaveOrRestore(previous: Memory, fate: Fate) returns (ok: bool)
      modifies this, stored
      ensures Settles(Replica(previous, old(revision)), old(stored.history), Persist(old(AsTables())), fate)
      ensures ok <==> Save(old(stored.history), old(revision), old(AsTables()), fate).ok
    {
      index := BuildIndex(keys);
      ok := stored.CompareAndSwap(revision, AsTables(), fate);
      degraded := !ok;
      if ok {
        revision := revision + 1;
      } else {
        teams, keys, index := previous.tables.teams, previous.tables.keys, previous.index;
      }
    }

    method CheckSlug(input: TeamInput) returns (taken: bool)
      ensures taken == SlugTaken(teams, input)
    {
      var rest := teams.Keys;
      while rest != {}
        invariant rest <= teams.Keys
        invariant forall t :: t in teams && t !in rest ==> !(teams[t].slug == input.slug && input.id != Some(teams[t].id))
      {
        var t := Next(rest);
        if teams[t].slug == input.slug && input.id != Some(teams[t].id) {
          return true;
        }
        rest := rest - {t};
      }
      taken := false;
    }

    /** Writes the team's name into every key that refers to it. */
    method RenameInKeys(teamId: string, name: string)
      modifies `keys
      ensures keys == RenamedAll(old(keys), teamId, name)
    {
      var rest := keys.Keys;
      while rest != {}
        invariant rest <= keys.Keys && keys.Keys == old(keys).Keys
        invariant forall id :: id in keys ==> keys[id] == if id in rest then old(keys)[id] else Renamed(old(keys)[id], teamId, name)
      {
        var id := Next(rest);
        if keys[id].teamId == Some(teamId) {
          keys := keys[id := keys[id].(teamName := Some(name))];
        }
        rest := rest - {id};
      }
    }

    method PutTeam(input: TeamInput, newId: string, now: nat, fate: Fate) returns (ok: bool)
      modifies this, stored
      ensures var e := Saving(UpsertTeam(old(AsTables()), input, newId, now));
              && Settles(old(AsReplica()), old(stored.history), e, fate)
              && (ok <==> Committed(old(stored.history), old(AsReplica()), e, fate))
    {
      var taken := CheckSlug(input);
      if taken {
        return false;
      }
      var previous := AsMemory();
      var id := TeamId(input, newId);
      teams := teams[id := NewTeam(teams, input, id, now)];
      RenameInKeys(id, input.name);
      ok := SaveOrRestore(previous, fate);
    }

    method CountReferences(team: string) returns (count: nat)
      ensures count > 0 <==> Referenced(keys, team)
    {
      count := 0;
      var rest := keys.Keys;
      while rest != {}
        invariant rest <= keys.Keys
        invariant count > 0 <==> exists id :: id in keys && id !in rest && keys[id].teamId == Some(team)
      {
        var id := Next(rest);
        if keys[id].teamId == Some(team) {
          count := count + 1;
        }
        rest := rest - {id};
      }
    }

    method DropTeam(team: string, fate: Fate) returns (ok: bool)
      modifies this, stored
      ensures var e := Saving(DeleteTeam(old(AsTables()), team));
              && Settles(old(AsReplica()), old(stored.history), e, fate)
              && (ok <==> (!Referenced(old(keys), team) && team !in old(teams)) || Committed(old(stored.history), old(AsReplica()), e, fate))
    {
      var references := CountReferences(team);
      if references > 0 {
        return false;
      }
      if team !in teams {
        return true;
      }
      var previous := AsMemory();
      teams := teams - {team};
      ok := SaveOrRestore(previous, fate);
    }

    method AddKey(key: ApiKey, wanted: Option<string>, fate: Fate) returns (ok: bool)
      modifies this, stored
      ensures var e := Saving(CreateKey(old(AsTables()), key, wanted));
              && Settles(old(AsReplica()), old(stored.history), e, fate)
              && (ok <==> Committed(old(stored.history), old(AsReplica()), e, fate))
    {
      var team := ResolveTeam(teams, wanted);
      if team.Missing? {
        return false;
      }
      var previous := AsMemory();
      keys := keys[key.id := WithTeam(key, team)];
      ok := SaveOrRestore(previous, fate);
    }

    method Revoke(id: string, fate: Fate) returns (ok: bool)
      modifies this, stored
      ensures var e := Saving(RevokeKey(old(AsTables()), id));
              && Settles(old(AsReplica()), old(stored.history), e, fate)
              && (ok <==> Committed(old(stored.history), old(AsReplica()), e, fate))
    {
      if id !in keys {
        return false;
      }
      var previous := AsMemory();
      keys := keys[id := keys[id].(status := REVOKED)];
      ok := SaveOrRestore(previous, fate);
    }

    method Amend(id: string, c: Change, now: nat, fate: Fate) returns (ok: bool)
      modifies this, stored
      ensures var e := Saving(UpdateKey(old(AsTables()), id, c, now));
              && Settles(old(AsReplica()), old(stored.history), e, fate)
              && (ok <==> Committed(old(stored.history), old(AsReplica()), e, fate))
    {
      if id !in keys {
        return false;
      }
      var updated := Revise(keys[id], c, now);
      if updated.None? {
        return false;
      }
      var previous := AsMemory();
      keys := keys[updated.value.id := updated.value];
      ok := SaveOrRestore(previous, fate);
    }

    /** Applies the requested changes field by field. */
    method Revise(k: ApiKey, c: Change, now: nat) returns (revised: Option<ApiKey>)
      ensures revised == UpdatedKey(teams, k, c, now)
    {
      var updated := k;
      if c.name.Some? {
        updated := updated.(name := c.name.value);
      }
      if c.team.Some? {
        var team := ResolveTeam(teams, c.team);
        if team.Missing? {
          return None;
        }
        updated := WithTeam(updated, team);
      }
      if c.expires.Some? {
        updated := updated.(expiresAt := c.expires.value);
      }
      if c.status.Some? {
        updated := updated.(status := c.status.value);
      }
      if updated.status == ACTIVE && Expired(updated, now) {
        return None;
      }
      revised := Some(updated);
    }

    method DropKey(id: string, fate: Fate) returns (ok: bool)
      modifies this, stored
      ensures var e := Saving(DeleteKey(old(AsTables()), id));
              && Settles(old(AsReplica()), old(stored.history), e, fate)
              && (ok <==> Committed(old(stored.history), old(AsReplica()), e, fate))
    {
      if id !in keys {
        return false;
      }
      var previous := AsMemory();
      keys := keys - {id};
      ok := SaveOrRestore(previous, fate);
    }

    method DropUser(user: string, fate: Fate) returns (ok: bool)
      modifies this, stored
      ensures var e := Persist(RevokeUser(old(AsTables()), user));
              && Settles(old(AsReplica()), old(stored.history), e, fate)
              && (ok <==> Committed(old(stored.history), old(AsReplica()), e, fate))
    {
      var previous := AsMemory();
      RevokeKeysOf(user);
      ok := SaveOrRestore(previous, fate);
    }

    method RevokeKeysOf(user: string)
      modifies `keys
      ensures AsTables() == RevokeUser(old(AsTables()), user)
    {
      var rest := keys.Keys;
      while rest != {}
        invariant rest <= keys.Keys && keys.Keys == old(keys).Keys
        invariant forall id :: id in keys ==> keys[id] == if id in rest then old(keys)[id] else RevokedFor(old(keys)[id], user)
      {
        var id := Next(rest);
        if keys[id].userId == user {
          keys := keys[id := keys[id].(status := REVOKED)];
        }
        rest := rest - {id};
      }
    }

    /** Admits a token by the hash index; an expired key is revoked and saved on the way. */
    method SignIn(hash: string, now: nat, fate: Fate) returns (identity: Option<ApiKey>)
      modifies this, stored
      ensures Settles(old(AsReplica()), old(stored.history), Ends(old(AsMemory()), ApiKeyRuns.SignIn(hash, now)), fate)
      ensures identity.Some? <==> Authenticate(old(AsMemory()), hash, now).Admitted?
      ensures identity.Some? ==> old(keys)[Authenticate(old(AsMemory()), hash, now).id] == identity.value
    {
      if hash !in index || index[hash] !in keys {
        return None;
      }
      var id := index[hash];
      var key := keys[id];
      if key.status != ACTIVE {
        return None;
      }
      if key.expiresAt.Some? && key.expiresAt.value <= now {
        var saved := Revoke(id, fate);
        return None;
      }
      if key.teamId.Some? && (key.teamId.value !in teams || teams[key.teamId.value].status != ACTIVE) {
        return None;
      }
      keys := keys[id := key.(lastUsed := Some(now))];
      identity := Some(key);
    }
  }
}
