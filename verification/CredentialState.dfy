/** Provider credential pools: which credential of a provider is active, and how it is replaced. */
module CredentialState {
  import opened Common
  import opened KeyOrder

  const DISABLED := "disabled"
  const MANUAL := "manual"
  const ROUND_ROBIN := "round_robin"
  const FAILOVER := "failover"

  datatype Credential = Credential(id: string, name: string, keyEnv: string, status: string)

  type Credentials = map<string, Credential>

  /** Per provider: its credentials by id, the active one, the mode unless it is the default, and cooldowns by credential id. */
  datatype Pools = Pools(
    credentials: map<string, Credentials>,
    active: map<string, string>,
    modes: map<string, string>,
    cooldowns: map<string, map<string, Option<nat>>>)

  /** Whether the environment holds a non-blank key under a name. */
  type Environment = string -> bool

  predicate Enabled(c: Credential) { c.status != DISABLED }

  function Mode(p: Pools, provider: string): string {
    if provider in p.modes then p.modes[provider] else FAILOVER
  }

  function ActiveId(p: Pools, provider: string): Option<string> {
    if provider in p.active then Some(p.active[provider]) else None
  }

  function CredentialsOf(p: Pools, provider: string): Credentials {
    if provider in p.credentials then p.credentials[provider] else map[]
  }

  function Cooldown(p: Pools, provider: string, id: string): Option<nat> {
    if provider in p.cooldowns && id in p.cooldowns[provider] then p.cooldowns[provider][id] else None
  }

  predicate Usable(p: Pools, env: Environment, provider: string, c: Credential, now: nat) {
    Enabled(c) && env(c.keyEnv) && var until := Cooldown(p, provider, c.id); until.None? || until.value <= now
  }

  // ---- iteration in key order ----

  ghost function InOrder(cs: Credentials, keys: seq<string>): (r: seq<Credential>)
    requires forall k :: k in keys ==> k in cs
    ensures |r| == |keys| && forall i :: 0 <= i < |keys| ==> r[i] == cs[keys[i]]
  {
    if keys == [] then [] else [cs[keys[0]]] + InOrder(cs, keys[1..])
  }

  /** The credentials still to be visited by an iteration. */
  ghost function Remaining(cs: Credentials, keys: set<string>): seq<Credential>
    requires keys <= cs.Keys
  {
    ListingOk(keys);
    InOrder(cs, Listing(keys))
  }

  ghost function Values(cs: Credentials): seq<Credential> { Remaining(cs, cs.Keys) }

  ghost function UsableOf(p: Pools, env: Environment, provider: string, cs: seq<Credential>, now: nat): seq<Credential> {
    if cs == [] then []
    else (if Usable(p, env, provider, cs[0], now) then [cs[0]] else []) + UsableOf(p, env, provider, cs[1..], now)
  }

  ghost function Available(p: Pools, env: Environment, provider: string, now: nat): seq<Credential> {
    UsableOf(p, env, provider, Values(CredentialsOf(p, provider)), now)
  }

  function FirstEnabled(cs: seq<Credential>, except: Option<string>): Option<Credential> {
    if cs == [] then None
    else if Enabled(cs[0]) && except != Some(cs[0].id) then Some(cs[0])
    else FirstEnabled(cs[1..], except)
  }

  function FindId(cs: seq<Credential>, id: string): Option<Credential> {
    if cs == [] then None else if cs[0].id == id then Some(cs[0]) else FindId(cs[1..], id)
  }

  // ---- the next credential ----

  /** What follows the first credential with that id. */
  function After(cs: seq<Credential>, id: string): seq<Credential> {
    if cs == [] then [] else if cs[0].id == id then cs[1..] else After(cs[1..], id)
  }

  function FirstOther(cs: seq<Credential>, id: string): Option<Credential> {
    if cs == [] then None else if cs[0].id != id then Some(cs[0]) else FirstOther(cs[1..], id)
  }

  function FirstOf(cs: seq<Credential>): Option<Credential> { if cs == [] then None else Some(cs[0]) }

  function OrElse(a: Option<Credential>, b: Option<Credential>): Option<Credential> { if a.Some? then a else b }

  function RoundRobin(cs: seq<Credential>, current: Option<string>): Option<Credential> {
    if cs == [] then None
    else if current.None? then Some(cs[0])
    else OrElse(FirstOther(After(cs, current.value) + cs, current.value), FirstOf(cs))
  }

  // ---- operations ----

  ghost function Fallback(p: Pools, provider: string): Option<Credential> {
    var cs, id := CredentialsOf(p, provider), ActiveId(p, provider);
    if id.Some? && id.value in cs && Enabled(cs[id.value]) then Some(cs[id.value]) else FirstEnabled(Values(cs), None)
  }

  ghost function Choice(p: Pools, env: Environment, provider: string, now: nat): Option<Credential> {
    var available, id := Available(p, env, provider, now), ActiveId(p, provider);
    if provider !in p.credentials then None
    else if Mode(p, provider) == MANUAL then Fallback(p, provider)
    else if Mode(p, provider) == ROUND_ROBIN then OrElse(RoundRobin(available, id), FirstOf(available))
    else OrElse(if id.Some? then FindId(available, id.value) else None, FirstOf(available))
  }

  function WithActive(p: Pools, provider: string, id: Option<string>): Pools {
    p.(active := if id.Some? then p.active[provider := id.value] else p.active - {provider})
  }

  ghost function Select(p: Pools, env: Environment, provider: string, now: nat): Pools {
    var c := Choice(p, env, provider, now);
    if c.Some? && Enabled(c.value) then WithActive(p, provider, Some(c.value.id)) else p
  }

  ghost function RotationTarget(p: Pools, env: Environment, provider: string, now: nat): Option<Credential> {
    var available, id := Available(p, env, provider, now), ActiveId(p, provider);
    if available == [] then None
    else if id.None? then Some(available[0])
    else FirstOther(After(available, id.value) + available, id.value)
  }

  ghost function Rotate(p: Pools, env: Environment, provider: string, now: nat): Pools {
    var c := RotationTarget(p, env, provider, now);
    if c.Some? then WithActive(p, provider, Some(c.value.id)) else p
  }

  /** The outcome of a request: the credential's new cooldown, and a rotation if the failure calls for one. */
  ghost function Outcome(p: Pools, env: Environment, provider: string, id: Option<string>, cooldown: Option<nat>, rotate: bool, now: nat): Pools {
    var noted :=
      if id.None? then p
      else
        var known := if provider in p.cooldowns then p.cooldowns[provider] else map[];
        p.(cooldowns := p.cooldowns[provider := known[id.value := cooldown]]);
    if rotate && Mode(p, provider) != MANUAL then Rotate(noted, env, provider, now) else noted
  }

  function IdOf(c: Option<Credential>): Option<string> { if c.Some? then Some(c.value.id) else None }

  /** The active id after `record` was put among the credentials. */
  ghost function ActiveAfterPut(cs: Credentials, active: Option<string>, record: Credential): Option<string> {
    if record.status == DISABLED && active == Some(record.id) then IdOf(FirstEnabled(Values(cs), Some(record.id)))
    else if active.None? || active.value !in cs then IdOf(FirstEnabled(Values(cs), None))
    else active
  }

  ghost function Upsert(p: Pools, provider: string, record: Credential): Pools {
    var cs := CredentialsOf(p, provider)[record.id := record];
    WithActive(p.(credentials := p.credentials[provider := cs]), provider, ActiveAfterPut(cs, ActiveId(p, provider), record))
  }

  function SetMode(p: Pools, provider: string, mode: string): Pools {
    p.(modes := if mode == FAILOVER then p.modes - {provider} else p.modes[provider := mode])
  }

  /** Refused for a missing or disabled credential. */
  function SetActive(p: Pools, provider: string, id: string): Option<Pools> {
    var cs := CredentialsOf(p, provider);
    if id !in cs || !Enabled(cs[id]) then None else Some(WithActive(p, provider, Some(id)))
  }

  function Forgotten(p: Pools, provider: string, id: string): map<string, map<string, Option<nat>>> {
    if provider !in p.cooldowns then p.cooldowns
    else if p.cooldowns[provider] - {id} == map[] then p.cooldowns - {provider}
    else p.cooldowns[provider := p.cooldowns[provider] - {id}]
  }

  ghost function DeleteCredential(p: Pools, provider: string, id: string): Option<Pools> {
    if id !in CredentialsOf(p, provider) then None
    else
      var cs := CredentialsOf(p, provider) - {id};
      var kept := p.(credentials := if cs == map[] then p.credentials - {provider} else p.credentials[provider := cs],
                     modes := if cs == map[] then p.modes - {provider} else p.modes,
                     cooldowns := Forgotten(p, provider, id));
      Some(WithActive(kept, provider, ActiveAfterDrop(cs, ActiveId(p, provider), id)))
  }

  ghost function ActiveAfterDrop(cs: Credentials, active: Option<string>, id: string): Option<string> {
    if active == Some(id) then IdOf(FirstEnabled(Values(cs), None)) else active
  }

  function DeleteProvider(p: Pools, provider: string): Pools {
    Pools(p.credentials - {provider}, p.active - {provider}, p.modes - {provider}, p.cooldowns - {provider})
  }
}
