/** Index agreement and team references over every run of several stores with failing and rolled-back writes. */
module ApiKeyRuns {
  import opened Common
  import opened Text
  import opened KeyOrder
  import opened Versioned
  import opened ApiKeyState

  // ---- what a rebuilt index answers ----

  /** The entry for a hash is the greatest id with that hash. */
  ghost predicate EntryOk(keys: ApiKeys, ids: seq<string>, index: Index, hash: string) {
    && (hash in index ==> index[hash] in ids && HasHash(keys, index[hash], hash))
    && (forall id :: id in ids && HasHash(keys, id, hash) ==>
          hash in index && (id == index[hash] || Below(id, index[hash])))
  }

  lemma {:induction false} EntriesOk(keys: ApiKeys, ids: seq<string>, hash: string)
    requires (forall id :: id in ids ==> id in keys) && Ascending(ids)
    ensures EntryOk(keys, ids, Entries(keys, ids), hash)
    decreases |ids|
  {
    if ids != [] {
      var n := |ids| - 1;
      var shorter := ids[..n];
      EntriesOk(keys, shorter, hash);
      assert ids == shorter + [ids[n]];
      assert forall id :: id in shorter ==> Below(id, ids[n]);
    }
  }

  lemma RebuiltOk(keys: ApiKeys, hash: string)
    ensures EntryOk(keys, Listing(keys.Keys), Rebuilt(keys), hash)
    ensures forall id :: id in Listing(keys.Keys) <==> id in keys
  {
    ListingOk(keys.Keys);
    EntriesOk(keys, Listing(keys.Keys), hash);
  }

  ghost predicate AtMostOne(keys: ApiKeys, hash: string) {
    forall i, j :: HasHash(keys, i, hash) && HasHash(keys, j, hash) ==> i == j
  }

  /** A lookup in the index finds what a scan of the keys finds, exactly when no two keys share the hash. */
  lemma LookupIsScanExactlyWhen(m: Memory, hash: string)
    requires m.index == Rebuilt(m.tables.keys)
    ensures ScanFinds(m.tables.keys, hash, Lookup(m, hash)) <==> AtMostOne(m.tables.keys, hash)
  {
    var keys := m.tables.keys;
    RebuiltOk(keys, hash);
    var found := Lookup(m, hash);
    if found.Some? {
      var id := found.value;
      forall other | HasHash(keys, other, hash) && other != id ensures !Below(id, other) {
        if Below(id, other) {
          BelowChains(id, other, id);
          BelowIsStrict(id);
        }
      }
    }
  }

  /** Two keys with one hash: the index answers with the later id, the scan with the earlier. */
  lemma SharedHashDisagrees(k: ApiKey)
    ensures var keys := map["a" := k.(id := "a"), "b" := k.(id := "b")];
            var m := Memory(Tables(map[], keys), Rebuilt(keys));
            Lookup(m, k.hash) == Some("b") && ScanFinds(keys, k.hash, Some("a"))
  {
    var keys := map["a" := k.(id := "a"), "b" := k.(id := "b")];
    RebuiltOk(keys, k.hash);
    assert HasHash(keys, "a", k.hash) && HasHash(keys, "b", k.hash);
    assert Below("a", "b") && !Below("b", "a");
  }

  // ---- operations keep the tables sound ----

  lemma RenameOk(t: Tables, id: string, name: string, teams': Teams)
    requires KeysOk(t) && id in teams' && teams'[id].name == name
    requires forall x :: x in t.teams && x != id ==> x in teams' && teams'[x].name == t.teams[x].name
    ensures KeysOk(Tables(teams', RenamedAll(t.keys, id, name)))
  {
  }

  lemma SlugsKept(teams: Teams, input: TeamInput, id: string, team: Team)
    requires TeamsOk(teams) && !SlugTaken(teams, input) && team.slug == input.slug && team.id == id && !IsBlank(id)
    requires input.id == Some(id) || (id !in teams && (input.id.Some? ==> IsBlank(input.id.value)))
    ensures TeamsOk(teams[id := team])
  {
    forall t | t in teams && t != id ensures teams[t].slug != input.slug {
      assert teams[t].id == t && !IsBlank(t);
    }
  }

  lemma UpsertTeamOk(t: Tables, input: TeamInput, newId: string, now: nat)
    requires TablesOk(t) && newId !in t.teams && !IsBlank(newId)
    ensures UpsertTeam(t, input, newId, now).Some? ==> TablesOk(UpsertTeam(t, input, newId, now).value)
  {
    if !SlugTaken(t.teams, input) {
      var id := TeamId(input, newId);
      var team := NewTeam(t.teams, input, id, now);
      SlugsKept(t.teams, input, id, team);
      RenameOk(t, id, input.name, t.teams[id := team]);
      assert forall k :: k in t.keys ==> RenamedAll(t.keys, id, input.name)[k].hash == t.keys[k].hash;
    }
  }

  lemma DeleteTeamOk(t: Tables, team: string)
    requires TablesOk(t)
    ensures DeleteTeam(t, team).Some? ==> TablesOk(DeleteTeam(t, team).value)
  {
    if !Referenced(t.keys, team) && team in t.teams {
      FewerTeams(t.teams, team);
      forall id | id in t.keys ensures t.keys[id].id == id && TeamOk(t.teams - {team}, t.keys[id]) {
        assert TeamOk(t.teams, t.keys[id]) && t.keys[id].teamId != Some(team);
      }
    }
  }

  lemma FewerTeams(teams: Teams, team: string)
    requires TeamsOk(teams)
    ensures TeamsOk(teams - {team})
  {
  }

  lemma PutKeyOk(t: Tables, k: ApiKey)
    requires TablesOk(t) && TeamOk(t.teams, k)
    requires forall id :: id in t.keys && id != k.id ==> t.keys[id].hash != k.hash
    ensures TablesOk(t.(keys := t.keys[k.id := k]))
  {
  }

  lemma ResolvedOk(teams: Teams, k: ApiKey, wanted: Option<string>)
    requires TeamsOk(teams) && !ResolveTeam(teams, wanted).Missing?
    ensures TeamOk(teams, WithTeam(k, ResolveTeam(teams, wanted)))
  {
  }

  lemma CreateKeyOk(t: Tables, key: ApiKey, wanted: Option<string>)
    requires TablesOk(t) && forall id :: id in t.keys ==> t.keys[id].hash != key.hash
    ensures CreateKey(t, key, wanted).Some? ==> TablesOk(CreateKey(t, key, wanted).value)
  {
    var r := ResolveTeam(t.teams, wanted);
    if !r.Missing? {
      ResolvedOk(t.teams, key, wanted);
      PutKeyOk(t, WithTeam(key, r));
    }
  }

  lemma UpdateKeyOk(t: Tables, id: string, c: Change, now: nat)
    requires TablesOk(t)
    ensures UpdateKey(t, id, c, now).Some? ==> TablesOk(UpdateKey(t, id, c, now).value)
  {
    if UpdateKey(t, id, c, now).Some? {
      var changed := Changed(t.keys[id], c);
      assert TeamOk(t.teams, t.keys[id]) && TeamOk(t.teams, changed);
      if c.team.Some? {
        ResolvedOk(t.teams, changed, c.team);
        PutKeyOk(t, WithTeam(changed, ResolveTeam(t.teams, c.team)));
      } else {
        PutKeyOk(t, changed);
      }
    }
  }

  lemma RevokeKeyOk(t: Tables, id: string)
    requires TablesOk(t) && id in t.keys
    ensures TablesOk(t.(keys := t.keys[id := t.keys[id].(status := REVOKED)]))
  {
    PutKeyOk(t, t.keys[id].(status := REVOKED));
  }

  lemma RevokeUserOk(t: Tables, user: string)
    requires TablesOk(t)
    ensures TablesOk(RevokeUser(t, user))
  {
    var t' := RevokeUser(t, user);
    assert forall id :: id in t'.keys ==>
      t'.keys[id].hash == t.keys[id].hash && t'.keys[id].id == t.keys[id].id
      && t'.keys[id].teamId == t.keys[id].teamId && t'.keys[id].teamName == t.keys[id].teamName;
  }

  // ---- runs ----

  datatype Op =
    | PutTeam(input: TeamInput, newId: string, now: nat)
    | DropTeam(team: string)
    | NewKey(key: ApiKey, wanted: Option<string>)
    | Revoke(id: string)
    | Amend(id: string, change: Change, now: nat)
    | DropKey(id: string)
    | DropUser(user: string)
    | SignIn(hash: string, now: nat)

  /** Generated ids and key hashes are fresh. */
  ghost predicate Possible(t: Tables, op: Op) {
    match op
    case PutTeam(_, newId, _) => newId !in t.teams && !IsBlank(newId)
    case NewKey(key, _) => key.id !in t.keys && forall id :: id in t.keys ==> t.keys[id].hash != key.hash
    case _ => true
  }

  datatype Ending = Refused | Kept(tables: Tables) | Persist(tables: Tables)

  function Saving(t: Option<Tables>): Ending { if t.Some? then Persist(t.value) else Refused }

  ghost function Ends(m: Memory, op: Op): Ending {
    match op
    case PutTeam(input, newId, now) => Saving(UpsertTeam(m.tables, input, newId, now))
    case DropTeam(team) => Saving(DeleteTeam(m.tables, team))
    case NewKey(key, wanted) => Saving(CreateKey(m.tables, key, wanted))
    case Revoke(id) => Saving(RevokeKey(m.tables, id))
    case Amend(id, change, now) => Saving(UpdateKey(m.tables, id, change, now))
    case DropKey(id) => Saving(DeleteKey(m.tables, id))
    case DropUser(user) => Persist(RevokeUser(m.tables, user))
    case SignIn(hash, now) =>
      match Authenticate(m, hash, now)
      case NoSuchKey => Refused
      case Denied => Refused
      case Expires(id) => Saving(RevokeKey(m.tables, id))
      case Admitted(id) => if id in m.tables.keys then Kept(Used(m.tables, id, now)) else Refused
  }

  datatype Replica = Replica(memory: Memory, revision: nat)

  /** A save rebuilds the index first; if it fails, tables and index are both put back. */
  ghost function Settled(history: seq<Tables>, r: Replica, e: Ending, fate: Fate): (seq<Tables>, Replica) {
    match e
    case Refused => (history, r)
    case Kept(t) => (history, r.(memory := r.memory.(tables := t)))
    case Persist(t) =>
      var saved := Save(history, r.revision, t, fate);
      (saved.history, if saved.ok then Replica(Memory(t, Rebuilt(t.keys)), r.revision + 1) else r)
  }

  /** The operation asked for a save and it was answered. */
  predicate Committed(history: seq<Tables>, r: Replica, e: Ending, fate: Fate) {
    e.Persist? && Save(history, r.revision, e.tables, fate).ok
  }

  datatype World = World(history: seq<Tables>, replicas: map<string, Replica>)

  datatype Action = Load(name: string) | Stop(name: string) | Serve(name: string, op: Op, fate: Fate)

  const EMPTY: Tables := Tables(map[], map[])
  const INITIAL: World := World([EMPTY], map[])

  ghost predicate Enabled(w: World, a: Action) {
    match a
    case Load(name) => name !in w.replicas
    case Stop(name) => name in w.replicas
    case Serve(name, op, _) => name in w.replicas && Possible(w.replicas[name].memory.tables, op)
  }

  ghost function Apply(w: World, a: Action): World
    requires w.history != [] && Enabled(w, a)
  {
    match a
    case Load(name) =>
      var t := w.history[|w.history| - 1];
      w.(replicas := w.replicas[name := Replica(Memory(t, Rebuilt(t.keys)), |w.history| - 1)])
    case Stop(name) => w.(replicas := w.replicas - {name})
    case Serve(name, op, fate) =>
      var r := w.replicas[name];
      var s := Settled(w.history, r, Ends(r.memory, op), fate);
      World(s.0, w.replicas[name := s.1])
  }

  ghost predicate Runs(w: World, steps: seq<Action>)
    decreases |steps|
  {
    w.history != [] && (steps == [] || (Enabled(w, steps[0]) && Runs(Apply(w, steps[0]), steps[1..])))
  }

  ghost function Exec(w: World, steps: seq<Action>): World
    requires Runs(w, steps)
    decreases |steps|
  {
    if steps == [] then w else Exec(Apply(w, steps[0]), steps[1..])
  }

  ghost predicate WorldOk(w: World) {
    && w.history != []
    && (forall i :: 0 <= i < |w.history| ==> TablesOk(w.history[i]))
    && (forall name :: name in w.replicas ==> MemoryOk(w.replicas[name].memory))
  }

  /** Noting a use changes no hash, so the index stays the rebuilt one. */
  lemma {:induction false} SameEntries(keys: ApiKeys, keys': ApiKeys, ids: seq<string>)
    requires keys'.Keys == keys.Keys && forall id :: id in keys ==> keys'[id].hash == keys[id].hash
    requires forall id :: id in ids ==> id in keys
    ensures Entries(keys', ids) == Entries(keys, ids)
    decreases |ids|
  {
    if ids != [] {
      SameEntries(keys, keys', ids[..|ids| - 1]);
    }
  }

  lemma UsedOk(m: Memory, id: string, now: nat)
    requires MemoryOk(m) && id in m.tables.keys
    ensures MemoryOk(m.(tables := Used(m.tables, id, now)))
  {
    var t := Used(m.tables, id, now);
    PutKeyOk(m.tables, m.tables.keys[id].(lastUsed := Some(now)));
    assert t.keys.Keys == m.tables.keys.Keys;
    ListingOk(t.keys.Keys);
    SameEntries(m.tables.keys, t.keys, Listing(t.keys.Keys));
  }

  ghost predicate EndingOk(m: Memory, e: Ending) {
    match e
    case Refused => true
    case Kept(t) => MemoryOk(m.(tables := t))
    case Persist(t) => TablesOk(t)
  }

  lemma SignInOk(m: Memory, hash: string, now: nat)
    requires MemoryOk(m)
    ensures EndingOk(m, Ends(m, SignIn(hash, now)))
  {
    var e := Ends(m, SignIn(hash, now));
    if e.Persist? {
      RevokeKeyOk(m.tables, Lookup(m, hash).value);
    } else if e.Kept? {
      UsedOk(m, Lookup(m, hash).value, now);
    }
  }

  lemma RevokeOk(m: Memory, id: string)
    requires MemoryOk(m)
    ensures EndingOk(m, Ends(m, Revoke(id)))
  {
    if id in m.tables.keys {
      RevokeKeyOk(m.tables, id);
    }
  }

  lemma DropKeyOk(t: Tables, id: string)
    requires TablesOk(t)
    ensures TablesOk(t.(keys := t.keys - {id}))
  {
  }

  lemma EndsOk(m: Memory, op: Op)
    requires MemoryOk(m) && Possible(m.tables, op)
    ensures EndingOk(m, Ends(m, op))
  {
    match op
    case PutTeam(input, newId, now) => UpsertTeamOk(m.tables, input, newId, now);
    case DropTeam(team) => DeleteTeamOk(m.tables, team);
    case NewKey(key, wanted) => CreateKeyOk(m.tables, key, wanted);
    case Revoke(id) => RevokeOk(m, id);
    case Amend(id, change, now) => UpdateKeyOk(m.tables, id, change, now);
    case DropKey(id) => DropKeyOk(m.tables, id);
    case DropUser(user) => RevokeUserOk(m.tables, user);
    case SignIn(hash, now) => SignInOk(m, hash, now);
  }

  lemma SettledOk(history: seq<Tables>, r: Replica, e: Ending, fate: Fate)
    requires MemoryOk(r.memory) && EndingOk(r.memory, e) && history != []
    requires forall i :: 0 <= i < |history| ==> TablesOk(history[i])
    ensures var s := Settled(history, r, e, fate);
            s.0 != [] && (forall i :: 0 <= i < |s.0| ==> TablesOk(s.0[i])) && MemoryOk(s.1.memory)
  {
  }

  lemma StepOk(w: World, a: Action)
    requires WorldOk(w) && Enabled(w, a)
    ensures WorldOk(Apply(w, a))
  {
    if a.Serve? {
      var r := w.replicas[a.name];
      EndsOk(r.memory, a.op);
      SettledOk(w.history, r, Ends(r.memory, a.op), a.fate);
    }
  }

  lemma {:induction false} RunOk(w: World, steps: seq<Action>)
    requires WorldOk(w) && Runs(w, steps)
    ensures WorldOk(Exec(w, steps))
    decreases |steps|
  {
    if steps != [] {
      StepOk(w, steps[0]);
      RunOk(Apply(w, steps[0]), steps[1..]);
    }
  }

  lemma InitialOk()
    ensures WorldOk(INITIAL)
  {
  }

  /**
   Index agreement: in every run from the empty document, with committed, failed and ambiguous writes, a hash lookup on
   any instance finds exactly the key that a scan of its keys finds.
   */
  lemma LookupAlwaysIsScan(steps: seq<Action>, name: string, hash: string)
    requires Runs(INITIAL, steps) && name in Exec(INITIAL, steps).replicas
    ensures var m := Exec(INITIAL, steps).replicas[name].memory; ScanFinds(m.tables.keys, hash, Lookup(m, hash))
  {
    InitialOk();
    RunOk(INITIAL, steps);
    LookupIsScanExactlyWhen(Exec(INITIAL, steps).replicas[name].memory, hash);
  }

  /** In every instance and every committed revision each key's team exists, its cached team name is current, and slugs are unique. */
  lemma TeamReferencesHold(steps: seq<Action>)
    requires Runs(INITIAL, steps)
    ensures var w := Exec(INITIAL, steps);
            && (forall name :: name in w.replicas ==>
                  KeysOk(w.replicas[name].memory.tables) && TeamsOk(w.replicas[name].memory.tables.teams))
            && (forall i :: 0 <= i < |w.history| ==> KeysOk(w.history[i]) && TeamsOk(w.history[i].teams))
  {
    InitialOk();
    RunOk(INITIAL, steps);
  }

  ghost predicate MayEnter(t: Tables, id: string, hash: string, now: nat)
    requires KeysOk(t)
  {
    && HasHash(t.keys, id, hash)
    && t.keys[id].status == ACTIVE
    && !Expired(t.keys[id], now)
    && (t.keys[id].teamId.Some? ==> t.teams[t.keys[id].teamId.value].status == ACTIVE)
  }

  lemma AuthenticateIs(m: Memory, hash: string, id: string, now: nat)
    requires KeysOk(m.tables) && HashesUnique(m.tables.keys)
    requires EntryOk(m.tables.keys, Listing(m.tables.keys.Keys), m.index, hash)
    requires forall x :: x in Listing(m.tables.keys.Keys) <==> x in m.tables.keys
    ensures Authenticate(m, hash, now) == Admitted(id) <==> MayEnter(m.tables, id, hash, now)
    ensures Authenticate(m, hash, now) == NoSuchKey <==> forall other :: !HasHash(m.tables.keys, other, hash)
  {
    if hash in m.index {
      assert HasHash(m.tables.keys, m.index[hash], hash);
      assert TeamOk(m.tables.teams, m.tables.keys[m.index[hash]]);
    }
  }

  /** In every run, a token is let in as a key exactly when that key has its hash, is active, unexpired and its team is active. */
  lemma AdmittedExactlyWhen(steps: seq<Action>, name: string, hash: string, id: string, now: nat)
    requires Runs(INITIAL, steps) && name in Exec(INITIAL, steps).replicas
    ensures var m := Exec(INITIAL, steps).replicas[name].memory;
            && KeysOk(m.tables)
            && (Authenticate(m, hash, now) == Admitted(id) <==> MayEnter(m.tables, id, hash, now))
            && (Authenticate(m, hash, now) == NoSuchKey <==> forall other :: !HasHash(m.tables.keys, other, hash))
  {
    InitialOk();
    RunOk(INITIAL, steps);
    var m := Exec(INITIAL, steps).replicas[name].memory;
    RebuiltOk(m.tables.keys, hash);
    AuthenticateIs(m, hash, id, now);
  }
}
