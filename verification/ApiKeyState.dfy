/** API keys, the teams they name, and the index from key hashes to key ids. */
module ApiKeyState {
  import opened Common
  import opened Text
  import opened KeyOrder

  const ACTIVE := "active"
  const REVOKED := "revoked"

  datatype Team = Team(id: string, name: string, slug: string, status: string, createdAt: nat, updatedAt: nat)

  datatype ApiKey = ApiKey(
    id: string,
    userId: string,
    name: string,
    hash: string,
    teamId: Option<string>,
    teamName: Option<string>,
    status: string,
    expiresAt: Option<nat>,
    lastUsed: Option<nat>)

  type Teams = map<string, Team>

  type ApiKeys = map<string, ApiKey>

  /** What is stored; the index exists in memory only. */
  datatype Tables = Tables(teams: Teams, keys: ApiKeys)

  type Index = map<string, string>

  datatype Memory = Memory(tables: Tables, index: Index)

  // ---- the index ----

  /** Entries are made in key order, so a later id replaces an earlier one with the same hash. */
  ghost function Entries(keys: ApiKeys, ids: seq<string>): Index
    requires forall id :: id in ids ==> id in keys
  {
    if ids == [] then map[]
    else Entries(keys, ids[..|ids| - 1])[keys[ids[|ids| - 1]].hash := ids[|ids| - 1]]
  }

  ghost function Rebuilt(keys: ApiKeys): Index {
    ListingOk(keys.Keys);
    Entries(keys, Listing(keys.Keys))
  }

  ghost predicate HasHash(keys: ApiKeys, id: string, hash: string) { id in keys && keys[id].hash == hash }

  function Lookup(m: Memory, hash: string): Option<string> {
    if hash in m.index && m.index[hash] in m.tables.keys then Some(m.index[hash]) else None
  }

  /** The first key with that hash on a scan in key order. */
  ghost predicate ScanFinds(keys: ApiKeys, hash: string, found: Option<string>) {
    match found
    case None => forall id :: !HasHash(keys, id, hash)
    case Some(id) => HasHash(keys, id, hash) && forall other :: HasHash(keys, other, hash) && other != id ==> Below(id, other)
  }

  // ---- operations: refused, or the new tables to save ----

  datatype TeamInput = TeamInput(id: Option<string>, name: string, slug: string, status: string)

  ghost predicate SlugTaken(teams: Teams, input: TeamInput) {
    exists t :: t in teams && teams[t].slug == input.slug && input.id != Some(teams[t].id)
  }

  function TeamId(input: TeamInput, newId: string): string {
    if input.id.Some? && !IsBlank(input.id.value) then input.id.value else newId
  }

  function Renamed(k: ApiKey, teamId: string, name: string): ApiKey {
    if k.teamId == Some(teamId) then k.(teamName := Some(name)) else k
  }

  function RenamedAll(keys: ApiKeys, teamId: string, name: string): ApiKeys {
    map id | id in keys :: Renamed(keys[id], teamId, name)
  }

  function NewTeam(teams: Teams, input: TeamInput, id: string, now: nat): Team {
    Team(id, input.name, input.slug, input.status, if id in teams then teams[id].createdAt else now, now)
  }

  ghost function UpsertTeam(t: Tables, input: TeamInput, newId: string, now: nat): Option<Tables> {
    if SlugTaken(t.teams, input) then None
    else
      var id := TeamId(input, newId);
      Some(Tables(t.teams[id := NewTeam(t.teams, input, id, now)], RenamedAll(t.keys, id, input.name)))
  }

  ghost predicate Referenced(keys: ApiKeys, team: string) { exists id :: id in keys && keys[id].teamId == Some(team) }

  ghost function DeleteTeam(t: Tables, team: string): Option<Tables> {
    if Referenced(t.keys, team) || team !in t.teams then None else Some(t.(teams := t.teams - {team}))
  }

  datatype TeamRef = NoTeam | Missing | Found(id: string, name: string)

  function ResolveTeam(teams: Teams, wanted: Option<string>): TeamRef {
    if wanted.None? || Trim(wanted.value) == "" then NoTeam
    else if Trim(wanted.value) !in teams then Missing
    else Found(teams[Trim(wanted.value)].id, teams[Trim(wanted.value)].name)
  }

  function WithTeam(k: ApiKey, r: TeamRef): ApiKey {
    match r
    case Found(id, name) => k.(teamId := Some(id), teamName := Some(name))
    case _ => k.(teamId := None, teamName := None)
  }

  /** The new key arrives without a team; the one asked for is looked up under the lock. */
  function CreateKey(t: Tables, key: ApiKey, wanted: Option<string>): Option<Tables> {
    var r := ResolveTeam(t.teams, wanted);
    if r.Missing? then None else Some(t.(keys := t.keys[key.id := WithTeam(key, r)]))
  }

  function RevokeKey(t: Tables, id: string): Option<Tables> {
    if id !in t.keys then None else Some(t.(keys := t.keys[id := t.keys[id].(status := REVOKED)]))
  }

  datatype Change = Change(name: Option<string>, team: Option<string>, expires: Option<Option<nat>>, status: Option<string>)

  function Changed(k: ApiKey, c: Change): ApiKey {
    k.(name := Or(c.name, k.name), expiresAt := Or(c.expires, k.expiresAt), status := Or(c.status, k.status))
  }

  predicate Expired(k: ApiKey, now: nat) { k.expiresAt.Some? && k.expiresAt.value <= now }

  /** The record with the changes asked for, unless its team is missing or it would be active but expired. */
  function UpdatedKey(teams: Teams, k: ApiKey, c: Change, now: nat): Option<ApiKey> {
    var r := ResolveTeam(teams, c.team);
    var updated := if c.team.Some? then WithTeam(Changed(k, c), r) else Changed(k, c);
    if (c.team.Some? && r.Missing?) || (updated.status == ACTIVE && Expired(updated, now)) then None else Some(updated)
  }

  /** The record is filed under its own id again. */
  function UpdateKey(t: Tables, id: string, c: Change, now: nat): Option<Tables> {
    if id !in t.keys then None
    else
      match UpdatedKey(t.teams, t.keys[id], c, now)
      case None => None
      case Some(updated) => Some(t.(keys := t.keys[updated.id := updated]))
  }

  function DeleteKey(t: Tables, id: string): Option<Tables> {
    if id !in t.keys then None else Some(t.(keys := t.keys - {id}))
  }

  function RevokedFor(k: ApiKey, user: string): ApiKey { if k.userId == user then k.(status := REVOKED) else k }

  function RevokeUser(t: Tables, user: string): Tables {
    t.(keys := map id | id in t.keys :: RevokedFor(t.keys[id], user))
  }

  // ---- authentication ----

  datatype Outcome = NoSuchKey | Denied | Expires(id: string) | Admitted(id: string)

  function Authenticate(m: Memory, hash: string, now: nat): Outcome {
    var id := Lookup(m, hash);
    if id.None? then NoSuchKey
    else
      var k := m.tables.keys[id.value];
      if k.status != ACTIVE then Denied
      else if Expired(k, now) then Expires(id.value)
      else if k.teamId.Some? && (k.teamId.value !in m.tables.teams || m.tables.teams[k.teamId.value].status != ACTIVE) then Denied
      else Admitted(id.value)
  }

  function Used(t: Tables, id: string, now: nat): Tables
    requires id in t.keys
  {
    t.(keys := t.keys[id := t.keys[id].(lastUsed := Some(now))])
  }

  // ---- what the tables satisfy ----

  ghost predicate TeamsOk(teams: Teams) {
    && (forall t :: t in teams ==> teams[t].id == t && !IsBlank(t))
    && (forall t, u | t in teams && u in teams :: teams[t].slug == teams[u].slug ==> t == u)
  }

  /** A key without a team caches no name; a key with one names an existing team and its current name. */
  ghost predicate TeamOk(teams: Teams, k: ApiKey) {
    if k.teamId.None? then k.teamName.None?
    else k.teamId.value in teams && k.teamName == Some(teams[k.teamId.value].name)
  }

  ghost predicate KeysOk(t: Tables) {
    forall id :: id in t.keys ==> t.keys[id].id == id && TeamOk(t.teams, t.keys[id])
  }

  ghost predicate HashesUnique(keys: ApiKeys) {
    forall i, j | i in keys && j in keys :: keys[i].hash == keys[j].hash ==> i == j
  }

  ghost predicate TablesOk(t: Tables) { TeamsOk(t.teams) && KeysOk(t) && HashesUnique(t.keys) }

  ghost predicate MemoryOk(m: Memory) { TablesOk(m.tables) && m.index == Rebuilt(m.tables.keys) }
}
