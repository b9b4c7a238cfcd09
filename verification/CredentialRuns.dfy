/** Pool consistency over every run of several stores with failing and rolled-back writes, and round-robin fairness. */
module CredentialRuns {
  import opened Common
  import opened KeyOrder
  import opened Versioned
  import opened CredentialState

  // ---- what a pool must satisfy ----

  ghost predicate Keyed(cs: Credentials) { forall id :: id in cs ==> cs[id].id == id }

  ghost predicate SomeEnabled(cs: Credentials) { exists id :: id in cs && Enabled(cs[id]) }

  /** There is an active credential exactly if one is enabled, and it exists and is enabled. */
  ghost predicate PoolOk(cs: Credentials, active: Option<string>) {
    && Keyed(cs)
    && (active.Some? <==> SomeEnabled(cs))
    && (active.Some? ==> active.value in cs && Enabled(cs[active.value]))
  }

  ghost predicate PoolsOk(p: Pools) {
    forall provider :: PoolOk(CredentialsOf(p, provider), ActiveId(p, provider))
  }

  // ---- searching lists ----

  lemma ValuesHas(cs: Credentials, c: Credential)
    ensures c in Values(cs) <==> exists id :: id in cs && cs[id] == c
  {
    var keys := Listing(cs.Keys);
    ListingOk(cs.Keys);
    if c in Values(cs) {
      var i :| 0 <= i < |keys| && Values(cs)[i] == c;
      assert keys[i] in cs && cs[keys[i]] == c;
    }
    if id :| id in cs && cs[id] == c {
      assert id in keys;
      var i :| 0 <= i < |keys| && keys[i] == id;
      assert Values(cs)[i] == c;
    }
  }

  lemma {:induction false} FirstEnabledFinds(cs: seq<Credential>, except: Option<string>)
    ensures match FirstEnabled(cs, except)
            case None => forall c :: c in cs ==> !Enabled(c) || except == Some(c.id)
            case Some(c) => c in cs && Enabled(c) && except != Some(c.id)
    decreases |cs|
  {
    if cs != [] {
      FirstEnabledFinds(cs[1..], except);
    }
  }

  lemma {:induction false} UsableAre(p: Pools, env: Environment, provider: string, cs: seq<Credential>, now: nat)
    ensures forall c :: c in UsableOf(p, env, provider, cs, now) <==> c in cs && Usable(p, env, provider, c, now)
    decreases |cs|
  {
    if cs != [] {
      UsableAre(p, env, provider, cs[1..], now);
      assert cs == [cs[0]] + cs[1..];
    }
  }

  lemma {:induction false} FirstOtherIn(cs: seq<Credential>, id: string)
    ensures FirstOther(cs, id).Some? ==> FirstOther(cs, id).value in cs
    decreases |cs|
  {
    if cs != [] {
      FirstOtherIn(cs[1..], id);
    }
  }

  lemma {:induction false} AfterIn(cs: seq<Credential>, id: string)
    ensures forall c :: c in After(cs, id) ==> c in cs
    decreases |cs|
  {
    if cs != [] {
      AfterIn(cs[1..], id);
    }
  }

  lemma {:induction false} FindIdIn(cs: seq<Credential>, id: string)
    ensures FindId(cs, id).Some? ==> FindId(cs, id).value in cs
    decreases |cs|
  {
    if cs != [] {
      FindIdIn(cs[1..], id);
    }
  }

  /** An available credential is stored, enabled and filed under its own id. */
  lemma AvailableAre(p: Pools, env: Environment, provider: string, now: nat, c: Credential)
    requires PoolsOk(p) && c in Available(p, env, provider, now)
    ensures c.id in CredentialsOf(p, provider) && CredentialsOf(p, provider)[c.id] == c && Enabled(c)
  {
    var cs := CredentialsOf(p, provider);
    assert PoolOk(cs, ActiveId(p, provider));
    UsableAre(p, env, provider, Values(cs), now);
    ValuesHas(cs, c);
  }

  /** The search for a replacement finds one exactly if there is one. */
  lemma ReplacementOk(cs: Credentials, except: Option<string>)
    requires Keyed(cs) && (except.Some? && except.value in cs ==> !Enabled(cs[except.value]))
    ensures PoolOk(cs, IdOf(FirstEnabled(Values(cs), except)))
  {
    FirstEnabledFinds(Values(cs), except);
    var found := FirstEnabled(Values(cs), except);
    if found.Some? {
      ValuesHas(cs, found.value);
    } else {
      forall id | id in cs ensures !Enabled(cs[id]) {
        ValuesHas(cs, cs[id]);
      }
    }
  }

  // ---- operations ----

  /** The operation touches one provider and leaves it with a sound pool. */
  ghost predicate OneChanged(p: Pools, p': Pools, provider: string) {
    && PoolOk(CredentialsOf(p', provider), ActiveId(p', provider))
    && forall q :: q != provider ==> CredentialsOf(p', q) == CredentialsOf(p, q) && ActiveId(p', q) == ActiveId(p, q)
  }

  lemma OneChangedOk(p: Pools, p': Pools, provider: string)
    requires PoolsOk(p) && OneChanged(p, p', provider)
    ensures PoolsOk(p')
  {
    forall q ensures PoolOk(CredentialsOf(p', q), ActiveId(p', q)) {
      assert PoolOk(CredentialsOf(p, q), ActiveId(p, q));
    }
  }

  /** Making a stored enabled credential the active one keeps every pool sound. */
  lemma ActivateOk(p: Pools, provider: string, id: string)
    requires PoolsOk(p) && id in CredentialsOf(p, provider) && Enabled(CredentialsOf(p, provider)[id])
    ensures PoolsOk(WithActive(p, provider, Some(id)))
  {
    assert PoolOk(CredentialsOf(p, provider), ActiveId(p, provider));
    OneChangedOk(p, WithActive(p, provider, Some(id)), provider);
  }

  lemma PutOk(was: Credentials, active: Option<string>, record: Credential)
    requires PoolOk(was, active)
    ensures var cs := was[record.id := record]; PoolOk(cs, ActiveAfterPut(cs, active, record))
  {
    var cs := was[record.id := record];
    if record.status == DISABLED && active == Some(record.id) {
      ReplacementOk(cs, Some(record.id));
    } else if active.None? || active.value !in cs {
      ReplacementOk(cs, None);
    } else {
      assert active.value in cs && Enabled(cs[active.value]);
    }
  }

  lemma DropOk(was: Credentials, active: Option<string>, id: string)
    requires PoolOk(was, active)
    ensures PoolOk(was - {id}, ActiveAfterDrop(was - {id}, active, id))
  {
    var cs := was - {id};
    if active == Some(id) {
      ReplacementOk(cs, None);
    } else if active.Some? {
      assert active.value in cs && Enabled(cs[active.value]);
    } else {
      assert forall k :: k in cs ==> !Enabled(was[k]);
    }
  }

  /** The provider now has these credentials and this active id, and no other provider is touched. */
  ghost predicate Became(p: Pools, p': Pools, provider: string, cs: Credentials, active: Option<string>) {
    && CredentialsOf(p', provider) == cs && ActiveId(p', provider) == active
    && forall q :: q != provider ==> CredentialsOf(p', q) == CredentialsOf(p, q) && ActiveId(p', q) == ActiveId(p, q)
  }

  lemma PutShape(p: Pools, provider: string, cs: Credentials, active: Option<string>)
    ensures Became(p, WithActive(p.(credentials := p.credentials[provider := cs]), provider, active), provider, cs, active)
  {
  }

  lemma DeleteShape(p: Pools, provider: string, id: string)
    requires id in CredentialsOf(p, provider)
    ensures var cs := CredentialsOf(p, provider) - {id};
            Became(p, DeleteCredential(p, provider, id).value, provider, cs, ActiveAfterDrop(cs, ActiveId(p, provider), id))
  {
  }

  lemma UpsertOk(p: Pools, provider: string, record: Credential)
    requires PoolsOk(p)
    ensures PoolsOk(Upsert(p, provider, record))
  {
    var cs := CredentialsOf(p, provider)[record.id := record];
    PutOk(CredentialsOf(p, provider), ActiveId(p, provider), record);
    PutShape(p, provider, cs, ActiveAfterPut(cs, ActiveId(p, provider), record));
    OneChangedOk(p, Upsert(p, provider, record), provider);
  }

  lemma DeleteOk(p: Pools, provider: string, id: string)
    requires PoolsOk(p) && DeleteCredential(p, provider, id).Some?
    ensures PoolsOk(DeleteCredential(p, provider, id).value)
  {
    DropOk(CredentialsOf(p, provider), ActiveId(p, provider), id);
    DeleteShape(p, provider, id);
    OneChangedOk(p, DeleteCredential(p, provider, id).value, provider);
  }

  lemma DeleteProviderOk(p: Pools, provider: string)
    requires PoolsOk(p)
    ensures PoolsOk(DeleteProvider(p, provider))
  {
    OneChangedOk(p, DeleteProvider(p, provider), provider);
  }

  /** A chosen credential is stored and, if enabled, may become active. */
  lemma ChoiceOk(p: Pools, env: Environment, provider: string, now: nat)
    requires PoolsOk(p) && Choice(p, env, provider, now).Some?
    ensures var c := Choice(p, env, provider, now).value;
            c.id in CredentialsOf(p, provider) && CredentialsOf(p, provider)[c.id] == c && Enabled(c)
  {
    var c := Choice(p, env, provider, now).value;
    var available, id, cs := Available(p, env, provider, now), ActiveId(p, provider), CredentialsOf(p, provider);
    assert PoolOk(cs, id);
    if Mode(p, provider) == MANUAL {
      FirstEnabledFinds(Values(cs), None);
      ValuesHas(cs, c);
    } else {
      if id.Some? {
        AfterIn(available, id.value);
        FirstOtherIn(After(available, id.value) + available, id.value);
        FindIdIn(available, id.value);
      }
      AvailableAre(p, env, provider, now, c);
    }
  }

  lemma SelectOk(p: Pools, env: Environment, provider: string, now: nat)
    requires PoolsOk(p)
    ensures PoolsOk(Select(p, env, provider, now))
  {
    if Choice(p, env, provider, now).Some? {
      ChoiceOk(p, env, provider, now);
      ActivateOk(p, provider, Choice(p, env, provider, now).value.id);
    }
  }

  lemma RotateOk(p: Pools, env: Environment, provider: string, now: nat)
    requires PoolsOk(p)
    ensures PoolsOk(Rotate(p, env, provider, now))
  {
    var c := RotationTarget(p, env, provider, now);
    if c.Some? {
      var available, id := Available(p, env, provider, now), ActiveId(p, provider);
      if id.Some? {
        AfterIn(available, id.value);
        FirstOtherIn(After(available, id.value) + available, id.value);
      }
      AvailableAre(p, env, provider, now, c.value);
      ActivateOk(p, provider, c.value.id);
    }
  }

  lemma OutcomeOk(p: Pools, env: Environment, provider: string, id: Option<string>, cooldown: Option<nat>, rotate: bool, now: nat)
    requires PoolsOk(p)
    ensures PoolsOk(Outcome(p, env, provider, id, cooldown, rotate, now))
  {
    var noted := Outcome(p, env, provider, id, cooldown, false, now);
    assert noted.credentials == p.credentials && noted.active == p.active;
    forall q ensures PoolOk(CredentialsOf(noted, q), ActiveId(noted, q)) {
      assert PoolOk(CredentialsOf(p, q), ActiveId(p, q));
    }
    RotateOk(noted, env, provider, now);
  }

  // ---- runs ----

  datatype Op =
    | Put(provider: string, record: Credential)
    | ChangeMode(provider: string, mode: string)
    | Activate(provider: string, id: string)
    | Drop(provider: string, id: string)
    | DropProvider(provider: string)
    | Choose(provider: string, env: Environment, now: nat)
    | Report(provider: string, env: Environment, used: Option<string>, cooldown: Option<nat>, rotate: bool, now: nat, persist: bool)

  /** An operation is refused, changes memory only, or changes memory and saves. */
  datatype Ending = Refused | Kept(pools: Pools) | Persist(pools: Pools)

  ghost function Ends(p: Pools, op: Op): Ending {
    match op
    case Put(provider, record) => Persist(Upsert(p, provider, record))
    case ChangeMode(provider, mode) => Persist(SetMode(p, provider, mode))
    case Activate(provider, id) => (match SetActive(p, provider, id) case None => Refused case Some(q) => Persist(q))
    case Drop(provider, id) => (match DeleteCredential(p, provider, id) case None => Refused case Some(q) => Persist(q))
    case DropProvider(provider) => Persist(DeleteProvider(p, provider))
    case Choose(provider, env, now) => Kept(Select(p, env, provider, now))
    case Report(provider, env, id, cooldown, rotate, now, persist) =>
      var q := Outcome(p, env, provider, id, cooldown, rotate, now);
      if persist then Persist(q) else Kept(q)
  }

  datatype Replica = Replica(pools: Pools, revision: nat)

  datatype World = World(history: seq<Pools>, replicas: map<string, Replica>)

  datatype Action = Load(name: string) | Stop(name: string) | Serve(name: string, op: Op, fate: Fate)

  const EMPTY: Pools := Pools(map[], map[], map[], map[])
  const INITIAL: World := World([EMPTY], map[])

  ghost predicate Allowed(w: World, a: Action) {
    match a case Load(name) => name !in w.replicas case Stop(name) => name in w.replicas case Serve(name, _, _) => name in w.replicas
  }

  /** A failed save puts back everything as it was before the operation. */
  ghost function Apply(w: World, a: Action): World
    requires w.history != [] && Allowed(w, a)
  {
    match a
    case Load(name) =>
      w.(replicas := w.replicas[name := Replica(w.history[|w.history| - 1], |w.history| - 1)])
    case Stop(name) => w.(replicas := w.replicas - {name})
    case Serve(name, op, fate) =>
      var r := w.replicas[name];
      match Ends(r.pools, op)
      case Refused => w
      case Kept(p) => w.(replicas := w.replicas[name := r.(pools := p)])
      case Persist(p) =>
        var saved := Save(w.history, r.revision, p, fate);
        World(saved.history, if saved.ok then w.replicas[name := Replica(p, r.revision + 1)] else w.replicas)
  }

  ghost predicate Runs(w: World, steps: seq<Action>)
    decreases |steps|
  {
    w.history != [] && (steps == [] || (Allowed(w, steps[0]) && Runs(Apply(w, steps[0]), steps[1..])))
  }

  ghost function Exec(w: World, steps: seq<Action>): World
    requires Runs(w, steps)
    decreases |steps|
  {
    if steps == [] then w else Exec(Apply(w, steps[0]), steps[1..])
  }

  ghost predicate WorldOk(w: World) {
    && w.history != []
    && (forall i :: 0 <= i < |w.history| ==> PoolsOk(w.history[i]))
    && (forall name :: name in w.replicas ==> PoolsOk(w.replicas[name].pools))
  }

  lemma EndsOk(p: Pools, op: Op)
    requires PoolsOk(p)
    ensures !Ends(p, op).Refused? ==> PoolsOk(Ends(p, op).pools)
  {
    match op
    case Put(provider, record) => UpsertOk(p, provider, record);
    case ChangeMode(provider, mode) =>
      forall q ensures PoolOk(CredentialsOf(SetMode(p, provider, mode), q), ActiveId(SetMode(p, provider, mode), q)) {
        assert PoolOk(CredentialsOf(p, q), ActiveId(p, q));
      }
    case Activate(provider, id) =>
      if SetActive(p, provider, id).Some? {
        ActivateOk(p, provider, id);
      }
    case Drop(provider, id) =>
      if DeleteCredential(p, provider, id).Some? {
        DeleteOk(p, provider, id);
      }
    case DropProvider(provider) => DeleteProviderOk(p, provider);
    case Choose(provider, env, now) => SelectOk(p, env, provider, now);
    case Report(provider, env, id, cooldown, rotate, now, _) => OutcomeOk(p, env, provider, id, cooldown, rotate, now);
  }

  lemma StepOk(w: World, a: Action)
    requires WorldOk(w) && Allowed(w, a)
    ensures WorldOk(Apply(w, a))
  {
    if a.Serve? {
      EndsOk(w.replicas[a.name].pools, a.op);
    }
  }

  lemma {:induction false} RunOk(w: World, steps: seq<Action>)
    requires WorldOk(w) && Runs(w, steps)
    ensures WorldOk(Exec(w, steps))
    decreases |steps|
  {
    if steps != [] {
      StepOk(w, steps[0]);
      RunOk(Apply(w, steps[0]), steps[1..]);
    }
  }

  /**
   Pool consistency: in every run from the empty document, on every instance and in every committed revision, a provider
   has an active credential exactly if it has an enabled one, and the active one exists and is enabled.
   */
  lemma PoolsStayConsistent(steps: seq<Action>, provider: string)
    requires Runs(INITIAL, steps)
    ensures var w := Exec(INITIAL, steps);
            && (forall name :: name in w.replicas ==>
                  PoolOk(CredentialsOf(w.replicas[name].pools, provider), ActiveId(w.replicas[name].pools, provider)))
            && (forall i :: 0 <= i < |w.history| ==>
                  PoolOk(CredentialsOf(w.history[i], provider), ActiveId(w.history[i], provider)))
  {
    RunOk(INITIAL, steps);
  }
}
