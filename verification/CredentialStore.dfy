/** The credential half of the control store as it runs: ordered maps updated in place, saved or put back. */
module CredentialStore {
  import opened Common
  import opened KeyOrder
  import opened Versioned
  import opened CredentialState
  import opened CredentialRuns

  lemma RemainingUnfolds(cs: Credentials, rest: set<string>, x: string)
    requires rest <= cs.Keys && IsLeast(rest, x) && Listing(rest) == [x] + Listing(rest - {x})
    ensures Remaining(cs, rest) == [cs[x]] + Remaining(cs, rest - {x})
  {
    ListingOk(rest);
  }

  /** The first enabled credential in key order other than the excluded one. */
  method FindEnabled(cs: Credentials, except: Option<string>) returns (found: Option<Credential>)
    ensures found == FirstEnabled(Values(cs), except)
  {
    var rest := cs.Keys;
    while rest != {}
      invariant rest <= cs.Keys
      invariant FirstEnabled(Remaining(cs, rest), except) == FirstEnabled(Values(cs), except)
    {
      var x := Next(rest);
      RemainingUnfolds(cs, rest, x);
      if Enabled(cs[x]) && except != Some(cs[x].id) {
        return Some(cs[x]);
      }
      rest := rest - {x};
    }
    found := None;
  }

  method CollectUsable(p: Pools, env: Environment, provider: string, now: nat) returns (available: seq<Credential>)
    ensures available == Available(p, env, provider, now)
  {
    available := [];
    var cs := CredentialsOf(p, provider);
    var rest := cs.Keys;
    ghost var left, all := Values(cs), Available(p, env, provider, now);
    while rest != {}
      invariant rest <= cs.Keys && left == Remaining(cs, rest)
      invariant available + UsableOf(p, env, provider, left, now) == all
    {
      var x := Next(rest);
      RemainingUnfolds(cs, rest, x);
      CollectStep(p, env, provider, now, available, cs[x], Remaining(cs, rest - {x}), all);
      if Usable(p, env, provider, cs[x], now) {
        available := available + [cs[x]];
      }
      rest := rest - {x};
      left := Remaining(cs, rest);
    }
  }

  lemma CollectStep(p: Pools, env: Environment, provider: string, now: nat,
                    available: seq<Credential>, c: Credential, left: seq<Credential>, all: seq<Credential>)
    requires available + UsableOf(p, env, provider, [c] + left, now) == all
    ensures (if Usable(p, env, provider, c, now) then available + [c] else available) + UsableOf(p, env, provider, left, now) == all
  {
    assert ([c] + left)[1..] == left;
  }

  lemma Unchanged(active: map<string, string>, provider: string)
    ensures provider in active ==> active[provider := active[provider]] == active
    ensures provider !in active ==> active - {provider} == active
  {
  }

  class Store {
    const stored: Document<Pools>
    const env: Environment
    var credentials: map<string, Credentials>
    var active: map<string, string>
    var modes: map<string, string>
    var cooldowns: map<string, map<string, Option<nat>>>
    var revision: nat
    var degraded: bool

    constructor (stored: Document<Pools>, env: Environment)
      requires stored.history != []
      ensures this.stored == stored && this.env == env
      ensures AsReplica() == Replica(stored.history[|stored.history| - 1], |stored.history| - 1)
    {
      this.stored := stored;
      this.env := env;
      var p := stored.history[|stored.history| - 1];
      credentials, active, modes, cooldowns := p.credentials, p.active, p.modes, p.cooldowns;
      revision, degraded := |stored.history| - 1, false;
    }

    function AsPools(): Pools
      reads this
    {
      Pools(credentials, active, modes, cooldowns)
    }

    function AsReplica(): Replica
      reads this
    {
      Replica(AsPools(), revision)
    }

    /** A save that went through keeps the new pools; one that failed puts the old ones back. */
    ghost predicate Saves(was: Replica, history: seq<Pools>, p: Pools, fate: Fate, ok: bool)
      reads this, stored
    {
      var saved := Save(history, was.revision, p, fate);
      && stored.history == saved.history && ok == saved.ok
      && AsReplica() == (if saved.ok then Replica(p, was.revision + 1) else was)
      && degraded == !saved.ok
    }

    method SaveOrRestore(previous: Pools, fate: Fate) returns (ok: bool)
      modifies this, stored
      ensures Saves(Replica(previous, old(revision)), old(stored.history), old(AsPools()), fate, ok)
    {
      ok := stored.CompareAndSwap(revision, AsPools(), fate);
      degraded := !ok;
      if ok {
        revision := revision + 1;
      } else {
        credentials, active, modes, cooldowns := previous.credentials, previous.active, previous.modes, previous.cooldowns;
      }
    }

    method UpsertCredential(provider: string, record: Credential, fate: Fate) returns (ok: bool)
      modifies this, stored
      ensures Saves(old(AsReplica()), old(stored.history), Upsert(old(AsPools()), provider, record), fate, ok)
    {
      var previous := AsPools();
      var was := ActiveId(previous, provider);
      var cs := CredentialsOf(previous, provider)[record.id := record];
      credentials := credentials[provider := cs];
      var next := was;
      if record.status == DISABLED && was == Some(record.id) {
        var found := FindEnabled(cs, Some(record.id));
        next := IdOf(found);
      } else if was.None? || was.value !in cs {
        var found := FindEnabled(cs, None);
        next := IdOf(found);
      }
      if next.Some? {
        active := active[provider := next.value];
      } else {
        active := active - {provider};
      }
      assert AsPools() == Upsert(previous, provider, record);
      ok := SaveOrRestore(previous, fate);
    }

    method SetPoolMode(provider: string, mode: string, fate: Fate) returns (ok: bool)
      modifies this, stored
      ensures Saves(old(AsReplica()), old(stored.history), SetMode(old(AsPools()), provider, mode), fate, ok)
    {
      var previous := AsPools();
      if mode == FAILOVER {
        modes := modes - {provider};
      } else {
        modes := modes[provider := mode];
      }
      ok := SaveOrRestore(previous, fate);
    }

    method SetActiveCredential(provider: string, id: string, fate: Fate) returns (ok: bool)
      modifies this, stored
      ensures match SetActive(old(AsPools()), provider, id)
              case None => !ok && AsReplica() == old(AsReplica()) && stored.history == old(stored.history)
              case Some(p) => Saves(old(AsReplica()), old(stored.history), p, fate, ok)
    {
      if provider !in credentials || id !in credentials[provider] {
        return false;
      }
      if credentials[provider][id].status == DISABLED {
        return false;
      }
      var previous := AsPools();
      active := active[provider := id];
      ok := SaveOrRestore(previous, fate);
    }

    method DropCredential(provider: string, id: string, fate: Fate) returns (ok: bool)
      modifies this, stored
      ensures match DeleteCredential(old(AsPools()), provider, id)
              case None => !ok && AsReplica() == old(AsReplica()) && stored.history == old(stored.history)
              case Some(p) => Saves(old(AsReplica()), old(stored.history), p, fate, ok)
    {
      if provider !in credentials || id !in credentials[provider] {
        return false;
      }
      var previous := AsPools();
      Remove(provider, id);
      ok := SaveOrRestore(previous, fate);
    }

    method Remove(provider: string, id: string)
      requires provider in credentials && id in credentials[provider]
      modifies `credentials, `active, `modes, `cooldowns
      ensures Some(AsPools()) == DeleteCredential(old(AsPools()), provider, id)
    {
      var cs := credentials[provider] - {id};
      ReplaceActive(provider, id, cs);
      Forget(provider, id);
      if cs == map[] {
        credentials := credentials - {provider};
        modes := modes - {provider};
      } else {
        credentials := credentials[provider := cs];
      }
    }

    /** If the removed credential was the active one, the first enabled of the others takes its place. */
    method ReplaceActive(provider: string, id: string, cs: Credentials)
      modifies `active
      ensures AsPools() == WithActive(old(AsPools()), provider, ActiveAfterDrop(cs, ActiveId(old(AsPools()), provider), id))
    {
      Unchanged(active, provider);
      if provider in active && active[provider] == id {
        var found := FindEnabled(cs, None);
        if found.Some? {
          active := active[provider := found.value.id];
        } else {
          active := active - {provider};
        }
      }
    }

    method Forget(provider: string, id: string)
      modifies `cooldowns
      ensures cooldowns == Forgotten(old(AsPools()), provider, id)
    {
      if provider in cooldowns {
        var kept := cooldowns[provider] - {id};
        if kept == map[] {
          cooldowns := cooldowns - {provider};
        } else {
          cooldowns := cooldowns[provider := kept];
        }
      }
    }

    method DropProvider(provider: string, fate: Fate) returns (ok: bool)
      modifies this, stored
      ensures Saves(old(AsReplica()), old(stored.history), DeleteProvider(old(AsPools()), provider), fate, ok)
    {
      var previous := AsPools();
      credentials := credentials - {provider};
      active := active - {provider};
      modes := modes - {provider};
      cooldowns := cooldowns - {provider};
      ok := SaveOrRestore(previous, fate);
    }

    method ManualChoice(provider: string) returns (c: Option<Credential>)
      ensures c == Fallback(AsPools(), provider)
    {
      var cs := CredentialsOf(AsPools(), provider);
      if provider in active && active[provider] in cs && Enabled(cs[active[provider]]) {
        return Some(cs[active[provider]]);
      }
      c := FindEnabled(cs, None);
    }

    /** Picks the credential for a request and makes it the active one; nothing is saved. */
    method SelectCredential(provider: string, now: nat) returns (selected: Option<Credential>)
      modifies `active
      ensures selected == Choice(old(AsPools()), env, provider, now)
      ensures AsPools() == Select(old(AsPools()), env, provider, now)
    {
      if provider !in credentials {
        return None;
      }
      var mode := Mode(AsPools(), provider);
      var id := ActiveId(AsPools(), provider);
      var available := CollectUsable(AsPools(), env, provider, now);
      if mode == MANUAL {
        selected := ManualChoice(provider);
      } else if mode == ROUND_ROBIN {
        selected := OrElse(RoundRobin(available, id), FirstOf(available));
      } else {
        selected := OrElse(if id.Some? then FindId(available, id.value) else None, FirstOf(available));
      }
      if selected.Some? && selected.value.status != DISABLED {
        active := active[provider := selected.value.id];
      }
    }

    method RotateCredential(provider: string, now: nat) returns (rotated: bool)
      modifies `active
      ensures AsPools() == Rotate(old(AsPools()), env, provider, now)
      ensures rotated <==> RotationTarget(old(AsPools()), env, provider, now).Some?
    {
      var available := CollectUsable(AsPools(), env, provider, now);
      if available == [] {
        return false;
      }
      var next := Some(available[0]);
      if provider in active {
        next := FirstOther(After(available, active[provider]) + available, active[provider]);
        if next.None? {
          return false;
        }
      }
      active := active[provider := next.value.id];
      rotated := true;
    }

    method NoteOutcome(provider: string, id: Option<string>, cooldown: Option<nat>, rotate: bool, now: nat)
      modifies `active, `cooldowns
      ensures AsPools() == Outcome(old(AsPools()), env, provider, id, cooldown, rotate, now)
    {
      if id.Some? {
        var known := if provider in cooldowns then cooldowns[provider] else map[];
        cooldowns := cooldowns[provider := known[id.value := cooldown]];
      }
      if rotate && Mode(AsPools(), provider) != MANUAL {
        var rotated := RotateCredential(provider, now);
      }
    }

    /** Notes the outcome of a request, rotates if the failure calls for it, and saves if asked to. */
    method RecordOutcome(provider: string, id: Option<string>, cooldown: Option<nat>, rotate: bool, now: nat, persist: bool, fate: Fate)
      returns (ok: bool)
      modifies this, stored
      ensures var p := Outcome(old(AsPools()), env, provider, id, cooldown, rotate, now);
              if persist then Saves(old(AsReplica()), old(stored.history), p, fate, ok)
              else ok && AsReplica() == old(AsReplica()).(pools := p) && stored.history == old(stored.history)
    {
      var previous := AsPools();
      NoteOutcome(provider, id, cooldown, rotate, now);
      ok := true;
      if persist {
        ok := SaveOrRestore(previous, fate);
      }
    }
  }
}
