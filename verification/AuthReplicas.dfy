/**
 Several auth stores over one compare-and-swap document whose default has no users.
 Second regions run with any remembered data, so every interleaving of the two-phase operations is included.
 */
module AuthReplicas {
  import opened Common
  import opened Text
  import opened Versioned
  import opened AuthState
  import opened AuthSoundness

  datatype Replica = Replica(inner: Inner, revision: nat, degraded: bool, ready: bool)

  datatype World = World(history: seq<Users>, replicas: map<string, Replica>)

  datatype Region =
    | Prune(now: nat)
    | LoginStart(username: string, now: nat)
    | LoginEnd(username: string, candidate: Option<Candidate>, verified: bool, now: nat, token: string, expires: nat, victim: string)
    | FederatedStart(claims: Claims, now: nat, token: string, expires: nat)
    | FederatedEnd(identity: Identity, name: string, email: string, id: string, hash: string, now: nat, token: string, expires: nat)
    | Create(user: User)
    | Update(id: string, current: string, change: Change, now: nat)
    | Delete(id: string, current: string)
    | SignOut(token: string)

  /** New ids are fresh, new users start without federated identities, and a full table drops its oldest record. */
  ghost predicate Possible(inner: Inner, region: Region) {
    match region
    case LoginEnd(u, _, _, _, _, _, victim) => Evicts(inner.attempts, u) ==> Oldest(inner.attempts, victim)
    case FederatedEnd(_, _, _, id, _, _, _, _) => id !in inner.users
    case Create(user) => user.id !in inner.users && user.identities == []
    case _ => true
  }

  ghost function Run(inner: Inner, region: Region): Ending {
    match region
    case Prune(now) => Done(Pruned(inner, now))
    case LoginStart(_, now) => Done(Pruned(inner, now).(attempts := PrunedAttempts(inner.attempts, now)))
    case LoginEnd(u, c, v, now, token, expires, victim) => LoginFinish(inner, u, c, v, now, token, expires, victim)
    case FederatedStart(c, now, token, expires) =>
      (match FederatedFirst(inner, c, now, token, expires)
       case Ends(e) => e
       case Provision(i, _, _) => Done(i))
    case FederatedEnd(x, name, email, id, hash, now, token, expires) =>
      FederatedSecond(inner, x, name, email, id, hash, now, token, expires)
    case Create(user) => CreateUser(inner, user)
    case Update(id, current, change, now) => UpdateUser(inner, id, current, change, now)
    case Delete(id, current) => DeleteUser(inner, id, current)
    case SignOut(token) => Done(Logout(inner, token))
  }

  predicate NewAdmin(u: User) { ActiveAdmin(u) && u.identities == [] }

  predicate Apart(primary: User, backup: User) {
    && !SameIgnoringCase(primary.username, backup.username)
    && !SameIgnoringCase(primary.email, backup.email)
  }

  predicate Owners(primary: User, backup: Option<User>) {
    && NewAdmin(primary)
    && (backup.Some? ==> NewAdmin(backup.value) && backup.value.id != primary.id && Apart(primary, backup.value))
  }

  function FirstUsers(primary: User, backup: Option<User>): Users {
    var users: Users := map[primary.id := primary];
    if backup.Some? then users[backup.value.id := backup.value] else users
  }

  datatype Action =
    | Load(name: string)
    | Bootstrap(name: string, primary: User, backup: Option<User>, fate: Fate)
    | Serve(name: string, region: Region, fate: Fate)
    | Stop(name: string)

  const EMPTY: Inner := Inner(map[], map[], map[])

  ghost predicate Enabled(w: World, a: Action) {
    match a
    case Load(name) => name !in w.replicas
    case Bootstrap(name, primary, backup, _) =>
      name in w.replicas && !w.replicas[name].ready && Owners(primary, backup)
    case Serve(name, region, _) =>
      name in w.replicas && w.replicas[name].ready && Possible(w.replicas[name].inner, region)
    case Stop(name) => name in w.replicas
  }

  function Written(history: seq<Users>, r: Replica, e: Ending, fate: Fate): Saved<Users> {
    if e.Persist? then Save(history, r.revision, e.next.users, fate) else Saved(history, true)
  }

  /** The region asked for a save and it was answered. */
  predicate Committed(history: seq<Users>, r: Replica, e: Ending, fate: Fate) {
    e.Persist? && Save(history, r.revision, e.next.users, fate).ok
  }

  /** A save that went through advances the revision; one that failed restores the fallback and degrades. */
  function SettledReplica(r: Replica, e: Ending, ok: bool): Replica {
    match e
    case Done(inner) => r.(inner := inner)
    case Persist(fallback, next) =>
      if ok then Replica(next, r.revision + 1, false, true) else Replica(fallback, r.revision, true, true)
  }

  function Settled(w: World, name: string, e: Ending, fate: Fate): World
    requires name in w.replicas
  {
    var saved := Written(w.history, w.replicas[name], e, fate);
    World(saved.history, w.replicas[name := SettledReplica(w.replicas[name], e, saved.ok)])
  }

  /** A failed bootstrap discards the instance. */
  ghost function Apply(w: World, a: Action): World
    requires w.history != [] && Enabled(w, a)
  {
    match a
    case Load(name) =>
      var users := w.history[|w.history| - 1];
      w.(replicas := w.replicas[name := Replica(EMPTY.(users := users), |w.history| - 1, false, users != map[])])
    case Bootstrap(name, primary, backup, fate) =>
      var r := w.replicas[name];
      var users := FirstUsers(primary, backup);
      var saved := Save(w.history, r.revision, users, fate);
      World(saved.history,
            if saved.ok then w.replicas[name := Replica(r.inner.(users := users), r.revision + 1, false, true)]
            else w.replicas - {name})
    case Serve(name, region, fate) => Settled(w, name, Run(w.replicas[name].inner, region), fate)
    case Stop(name) => w.(replicas := w.replicas - {name})
  }

  ghost predicate Runs(w: World, steps: seq<Action>)
    decreases |steps|
  {
    w.history != [] && (steps == [] || (Enabled(w, steps[0]) && Runs(Apply(w, steps[0]), steps[1..])))
  }

  ghost function Exec(w: World, steps: seq<Action>): World
    requires Runs(w, steps)
    decreases |steps|
  {
    if steps == [] then w else Exec(Apply(w, steps[0]), steps[1..])
  }

  const INITIAL: World := World([map[]], map[])

  // ---- what holds in every reachable world ----

  /** One committed revision was computed by a region, or by the bootstrap, from the revision just before it. */
  ghost predicate Computed(before: Users, inner: Inner, region: Region, after: Users) {
    && inner.users == before
    && InnerOk(inner)
    && Possible(inner, region)
    && Run(inner, region).Persist?
    && Run(inner, region).next.users == after
  }

  ghost predicate Derived(before: Users, after: Users) {
    || (exists inner, region :: Computed(before, inner, region, after))
    || (before == map[] && exists primary, backup :: Owners(primary, backup) && after == FirstUsers(primary, backup))
  }

  ghost predicate RevisionOk(history: seq<Users>, i: nat)
    requires i < |history|
  {
    if i == 0 then history[0] == map[]
    else AccountsOk(history[i]) && HasAdmin(history[i]) && Derived(history[i - 1], history[i])
  }

  ghost predicate HistoryOk(history: seq<Users>) {
    history != [] && forall i :: 0 <= i < |history| ==> RevisionOk(history, i)
  }

  ghost predicate ReplicaOk(history: seq<Users>, r: Replica) {
    && r.revision < |history|
    && r.inner.users == history[r.revision]
    && (r.ready <==> r.revision > 0)
    && (if r.ready then InnerOk(r.inner) else r.inner == EMPTY)
  }

  ghost predicate WorldOk(w: World) {
    HistoryOk(w.history) && forall name :: name in w.replicas ==> ReplicaOk(w.history, w.replicas[name])
  }

  /** Every region keeps the account invariants, whatever was remembered from an earlier region. */
  lemma RegionOk(inner: Inner, region: Region)
    requires InnerOk(inner) && Possible(inner, region)
    ensures EndingOk(inner, Run(inner, region))
  {
    match region
    case Prune(now) => PrunedOk(inner, now);
    case LoginStart(_, now) =>
      PrunedOk(inner, now);
      FewerAttempts(inner.attempts, PrunedAttempts(inner.attempts, now));
    case LoginEnd(u, c, v, now, token, expires, victim) => LoginOk(inner, u, c, v, now, token, expires, victim);
    case FederatedStart(c, now, token, expires) => FederatedFirstOk(inner, c, now, token, expires);
    case FederatedEnd(x, name, email, id, hash, now, token, expires) =>
      FederatedSecondOk(inner, x, name, email, id, hash, now, token, expires);
    case Create(user) => CreateOk(inner, user);
    case Update(id, current, change, now) => UpdateOk(inner, id, current, change, now);
    case Delete(id, current) => DeleteOk(inner, id, current);
    case SignOut(token) =>
  }

  lemma FirstUsersOk(primary: User, backup: Option<User>)
    requires Owners(primary, backup)
    ensures AccountsOk(FirstUsers(primary, backup)) && HasAdmin(FirstUsers(primary, backup))
  {
    assert primary.id in ActiveAdmins(FirstUsers(primary, backup));
  }

  lemma HistoryGrows(history: seq<Users>, users: Users)
    requires HistoryOk(history) && AccountsOk(users) && HasAdmin(users) && Derived(history[|history| - 1], users)
    ensures HistoryOk(history + [users])
  {
    var h := history + [users];
    forall i | 0 <= i < |h| ensures RevisionOk(h, i) {
      if i < |history| {
        assert RevisionOk(history, i);
      }
    }
  }

  lemma SettledReplicaOk(history: seq<Users>, history': seq<Users>, r: Replica, e: Ending, ok: bool)
    requires ReplicaOk(history, r) && r.ready && EndingOk(r.inner, e) && history <= history'
    requires (e.Persist? && ok) ==> (r.revision + 1 < |history'| && history'[r.revision + 1] == e.next.users)
    ensures ReplicaOk(history', SettledReplica(r, e, ok))
  {
  }

  /** If the commit went in, every other replica still agrees with the longer history. */
  lemma WorldGrows(w: World, name: string, history': seq<Users>, r': Replica)
    requires WorldOk(w) && HistoryOk(history') && w.history <= history' && ReplicaOk(history', r')
    ensures WorldOk(World(history', w.replicas[name := r']))
  {
    forall n | n in w.replicas ensures ReplicaOk(history', w.replicas[n]) {
      assert ReplicaOk(w.history, w.replicas[n]);
    }
  }

  lemma WrittenOk(w: World, r: Replica, e: Ending, fate: Fate)
    requires HistoryOk(w.history) && r.revision < |w.history| && r.inner.users == w.history[r.revision]
    requires e.Persist? ==> AccountsOk(e.next.users) && HasAdmin(e.next.users) && Derived(r.inner.users, e.next.users)
    ensures var saved := Written(w.history, r, e, fate);
            && HistoryOk(saved.history)
            && w.history <= saved.history
            && ((e.Persist? && saved.ok) ==> (r.revision + 1 < |saved.history| && saved.history[r.revision + 1] == e.next.users))
  {
    if e.Persist? && fate != LostBefore && r.revision + 1 == |w.history| {
      HistoryGrows(w.history, e.next.users);
    }
  }

  lemma SettledOk(w: World, name: string, e: Ending, fate: Fate)
    requires WorldOk(w) && name in w.replicas && w.replicas[name].ready && EndingOk(w.replicas[name].inner, e)
    requires e.Persist? ==> Derived(w.replicas[name].inner.users, e.next.users)
    ensures WorldOk(Settled(w, name, e, fate))
  {
    var r := w.replicas[name];
    var saved := Written(w.history, r, e, fate);
    WrittenOk(w, r, e, fate);
    SettledReplicaOk(w.history, saved.history, r, e, saved.ok);
    WorldGrows(w, name, saved.history, SettledReplica(r, e, saved.ok));
  }

  lemma ServeOk(w: World, name: string, region: Region, fate: Fate)
    requires WorldOk(w) && Enabled(w, Serve(name, region, fate))
    ensures WorldOk(Apply(w, Serve(name, region, fate)))
  {
    var r := w.replicas[name];
    var e := Run(r.inner, region);
    RegionOk(r.inner, region);
    assert e.Persist? ==> Computed(r.inner.users, r.inner, region, e.next.users);
    SettledOk(w, name, e, fate);
  }

  lemma FirstInnerOk(users: Users)
    requires AccountsOk(users) && HasAdmin(users)
    ensures InnerOk(EMPTY.(users := users))
  {
  }

  lemma BootstrapOk(w: World, name: string, primary: User, backup: Option<User>, fate: Fate)
    requires WorldOk(w) && Enabled(w, Bootstrap(name, primary, backup, fate))
    ensures WorldOk(Apply(w, Bootstrap(name, primary, backup, fate)))
  {
    var r := w.replicas[name];
    var users := FirstUsers(primary, backup);
    FirstUsersOk(primary, backup);
    FirstInnerOk(users);
    var saved := Save(w.history, r.revision, users, fate);
    if saved.history != w.history {
      HistoryGrows(w.history, users);
      WorldGrows(w, name, saved.history, Replica(EMPTY.(users := users), r.revision + 1, false, true));
    }
  }

  lemma LastRevision(history: seq<Users>)
    requires HistoryOk(history)
    ensures |history| == 1 ==> history[0] == map[]
    ensures |history| > 1 ==> AccountsOk(history[|history| - 1]) && HasAdmin(history[|history| - 1])
  {
    assert RevisionOk(history, |history| - 1);
  }

  lemma LoadedReplicaOk(history: seq<Users>)
    requires history != [] && (|history| == 1 ==> history[0] == map[])
    requires |history| > 1 ==> AccountsOk(history[|history| - 1]) && HasAdmin(history[|history| - 1])
    ensures var users := history[|history| - 1];
            ReplicaOk(history, Replica(EMPTY.(users := users), |history| - 1, false, users != map[]))
  {
    if |history| > 1 {
      FirstInnerOk(history[|history| - 1]);
      assert ActiveAdmins(history[|history| - 1]) != {};
    }
  }

  lemma LoadOk(w: World, name: string)
    requires WorldOk(w) && name !in w.replicas
    ensures WorldOk(Apply(w, Load(name)))
  {
    var users := w.history[|w.history| - 1];
    LastRevision(w.history);
    LoadedReplicaOk(w.history);
    WorldGrows(w, name, w.history, Replica(EMPTY.(users := users), |w.history| - 1, false, users != map[]));
  }

  lemma StepOk(w: World, a: Action)
    requires WorldOk(w) && Enabled(w, a)
    ensures WorldOk(Apply(w, a))
  {
    match a
    case Load(name) => LoadOk(w, name);
    case Bootstrap(name, primary, backup, fate) => BootstrapOk(w, name, primary, backup, fate);
    case Serve(name, region, fate) => ServeOk(w, name, region, fate);
    case Stop(_) =>
  }

  lemma {:induction false} RunOk(w: World, steps: seq<Action>)
    requires WorldOk(w) && Runs(w, steps)
    ensures WorldOk(Exec(w, steps))
    decreases |steps|
  {
    if steps != [] {
      StepOk(w, steps[0]);
      RunOk(Apply(w, steps[0]), steps[1..]);
    }
  }

  /**
   No lost updates: in every run from the empty document, with saves failing and failing ambiguously, each instance's
   users are the document at its own revision, and every committed revision was computed from its predecessor.
   */
  lemma NoLostUpdates(steps: seq<Action>)
    requires Runs(INITIAL, steps)
    ensures var w := Exec(INITIAL, steps);
            && (forall name :: name in w.replicas ==>
                  w.replicas[name].revision < |w.history| && w.replicas[name].inner.users == w.history[w.replicas[name].revision])
            && (forall i :: 0 < i < |w.history| ==> Derived(w.history[i - 1], w.history[i]))
  {
    RunOk(INITIAL, steps);
    var w := Exec(INITIAL, steps);
    forall i | 0 < i < |w.history| ensures Derived(w.history[i - 1], w.history[i]) {
      assert RevisionOk(w.history, i);
    }
  }

  /** The account invariants hold of every committed document and of every serving instance, in every run. */
  lemma AccountsThroughout(steps: seq<Action>)
    requires Runs(INITIAL, steps)
    ensures var w := Exec(INITIAL, steps);
            && (forall i :: 0 < i < |w.history| ==> AccountsOk(w.history[i]) && HasAdmin(w.history[i]))
            && (forall name :: name in w.replicas && w.replicas[name].ready ==>
                  AccountsOk(w.replicas[name].inner.users) && HasAdmin(w.replicas[name].inner.users) && SessionsOk(w.replicas[name].inner))
  {
    RunOk(INITIAL, steps);
    var w := Exec(INITIAL, steps);
    forall i | 0 < i < |w.history| ensures AccountsOk(w.history[i]) && HasAdmin(w.history[i]) {
      assert RevisionOk(w.history, i);
    }
  }

  // ---- stale instances ----

  ghost predicate Behind(w: World, name: string) {
    name in w.replicas && w.replicas[name].ready && w.replicas[name].revision + 1 < |w.history|
  }

  /**
   An instance that fell behind, for example by a save whose answer was lost, stays behind until it is restarted:
   it commits nothing, and its users and revision never change again.
   */
  lemma {:induction false} BehindForGood(w: World, steps: seq<Action>, name: string)
    requires WorldOk(w) && Runs(w, steps) && Behind(w, name) && Stop(name) !in steps
    ensures Behind(Exec(w, steps), name)
    ensures Exec(w, steps).replicas[name].inner.users == w.replicas[name].inner.users
    ensures Exec(w, steps).replicas[name].revision == w.replicas[name].revision
    decreases |steps|
  {
    if steps != [] {
      var a := steps[0];
      StepOk(w, a);
      assert a != Stop(name);
      if a.Serve? && a.name == name {
        RegionOk(w.replicas[name].inner, a.region);
      }
      BehindForGood(Apply(w, a), steps[1..], name);
    }
  }
}
