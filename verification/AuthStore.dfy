/** The auth store as it runs: maps updated in place under the lock, saved through a shared versioned document. */
module AuthStore {
  import opened Common
  import opened Text
  import opened Versioned
  import opened AuthState
  import opened AuthReplicas

  datatype Match = Nobody | One(id: string) | Several

  class Store {
    const document: Document<Users>
    var users: Users
    var sessions: map<string, Session>
    var attempts: map<string, Attempt>
    var revision: nat
    var degraded: bool
    var ready: bool

    constructor (document: Document<Users>)
      requires document.history != []
      ensures this.document == document
      ensures AsReplica() == Apply(World(document.history, map[]), Load("")).replicas[""]
    {
      this.document := document;
      users := document.history[|document.history| - 1];
      sessions, attempts := map[], map[];
      revision, degraded := |document.history| - 1, false;
      ready := document.history[|document.history| - 1] != map[];
    }

    function AsInner(): Inner
      reads this
    {
      Inner(users, sessions, attempts)
    }

    function AsReplica(): Replica
      reads this
    {
      Replica(AsInner(), revision, degraded, ready)
    }

    method Restore(inner: Inner)
      modifies `users, `sessions, `attempts
      ensures AsInner() == inner
    {
      users, sessions, attempts := inner.users, inner.sessions, inner.attempts;
    }

    method Save(fate: Fate) returns (ok: bool)
      modifies `revision, `degraded, document
      ensures Saved(document.history, ok) == Versioned.Save(old(document.history), old(revision), users, fate)
      ensures revision == (if ok then old(revision) + 1 else old(revision)) && degraded == !ok
    {
      ok := document.CompareAndSwap(revision, users, fate);
      if ok {
        revision := revision + 1;
      }
      degraded := !ok;
    }

    /** Ends a region that changed the users: what was saved stays, otherwise `previous` comes back. */
    method SaveOrRestore(previous: Inner, fate: Fate) returns (ok: bool)
      requires ready
      modifies this, document
      ensures var e := Persist(previous, old(AsInner()));
              && Saved(document.history, ok) == Written(old(document.history), old(AsReplica()), e, fate)
              && AsReplica() == SettledReplica(old(AsReplica()), e, ok)
    {
      ok := Save(fate);
      if !ok {
        Restore(previous);
      }
    }

    /**
     Gives a store without users its first administrators. The new accounts arrive built, each with an id of its own; an
     enterprise installation needs a backup, and the two must differ in name and address. A failure discards the instance.
     */
    method Bootstrap(primary: User, backup: Option<User>, enterprise: bool, fate: Fate) returns (ok: bool)
      requires document.history != [] && ready == (users != map[])
      requires NewAdmin(primary) && (backup.Some? ==> NewAdmin(backup.value) && backup.value.id != primary.id)
      modifies this, document
      ensures old(users) != map[] ==>
                ok && document.history == old(document.history) && AsReplica() == old(AsReplica())
      ensures old(users) == map[] && (if backup.None? then enterprise else !Apart(primary, backup.value)) ==>
                !ok && document.history == old(document.history)
      ensures old(users) == map[] && (if backup.None? then !enterprise else Apart(primary, backup.value)) ==>
                var w := World(old(document.history), map["" := old(AsReplica())]);
                var w' := Apply(w, Action.Bootstrap("", primary, backup, fate));
                document.history == w'.history && w'.replicas == if ok then map["" := AsReplica()] else map[]
    {
      if users != map[] {
        return true;
      }
      users := users[primary.id := primary];
      if enterprise && backup.None? {
        return false;
      }
      if backup.Some? {
        var taken := Taken(backup.value.username, backup.value.email);
        assert primary.id in users && taken == !Apart(users[primary.id], backup.value);
        if taken {
          return false;
        }
        users := users[backup.value.id := backup.value];
      }
      ok := Save(fate);
      ready := ok;
    }

    method PruneSessions(now: nat)
      modifies `sessions
      ensures AsInner() == Pruned(old(AsInner()), now)
    {
      sessions := map s | s in sessions && sessions[s].expiresAt > now :: sessions[s];
    }

    /** The user whose session this is, if the session is live and the user active. */
    method RequireSession(token: string, now: nat) returns (user: Option<User>)
      modifies `sessions
      ensures AsInner() == Pruned(old(AsInner()), now)
      ensures user.Some? <==>
              token in sessions && sessions[token].userId in users && Active(users[sessions[token].userId])
      ensures user.Some? ==> user.value == users[sessions[token].userId]
    {
      PruneSessions(now);
      if token !in sessions {
        return None;
      }
      var session := sessions[token];
      if session.userId !in users {
        return None;
      }
      if !Active(users[session.userId]) {
        return None;
      }
      user := Some(users[session.userId]);
    }

    method OldestAttempt() returns (victim: string)
      requires attempts != map[]
      ensures Oldest(attempts, victim)
    {
      var rest := attempts.Keys;
      victim :| victim in rest;
      rest := rest - {victim};
      while rest != {}
        invariant rest <= attempts.Keys && victim in attempts
        invariant forall k :: k in attempts && k !in rest ==> attempts[victim].last <= attempts[k].last
      {
        var k :| k in rest;
        if attempts[k].last < attempts[victim].last {
          victim := k;
        }
        rest := rest - {k};
      }
    }

    method RecordFailedLogin(username: string, now: nat) returns (ghost victim: string)
      modifies `attempts
      ensures Evicts(old(attempts), username) ==> Oldest(old(attempts), victim)
      ensures attempts == FailedLogin(old(attempts), username, now, victim)
    {
      victim := "";
      if username !in attempts && |attempts| >= MAX_ATTEMPT_RECORDS {
        var oldest := OldestAttempt();
        attempts := attempts - {oldest};
        victim := oldest;
      }
      var was := if username in attempts then attempts[username] else Attempt(0, 0, 0);
      attempts := attempts[username := Failed(was, now)];
    }

    method FindByUsername(username: string) returns (found: Option<Candidate>)
      ensures match found
              case None => forall id :: !HasUsername(users, id, username)
              case Some(c) => HasUsername(users, c.id, username) && users[c.id] == c.user
    {
      var rest := users.Keys;
      while rest != {}
        invariant rest <= users.Keys
        invariant forall id :: id in users && id !in rest ==> !HasUsername(users, id, username)
      {
        var id :| id in rest;
        if SameIgnoringCase(users[id].username, username) {
          return Some(Candidate(id, users[id]));
        }
        rest := rest - {id};
      }
      found := None;
    }

    method StartLogin(username: string, now: nat) returns (locked: bool, candidate: Option<Candidate>)
      modifies `sessions, `attempts
      ensures LoginStarts(old(AsInner()), username, now, AsInner(), locked, candidate)
    {
      PruneSessions(now);
      attempts := map k | k in attempts && (attempts[k].lockedUntil > now || SatAdd(attempts[k].last, RETENTION_MS) > now)
        :: attempts[k];
      if username in attempts && attempts[username].lockedUntil > now {
        return true, None;
      }
      locked := false;
      candidate := FindByUsername(username);
    }

    method Fail(username: string, now: nat) returns (ghost victim: string)
      modifies `sessions, `attempts
      ensures Evicts(old(attempts), username) ==> Oldest(old(attempts), victim)
      ensures AsInner() == Pruned(old(AsInner()), now).(attempts := FailedLogin(old(attempts), username, now, victim))
    {
      PruneSessions(now);
      victim := RecordFailedLogin(username, now);
    }

    method FinishLogin(username: string, candidate: Option<Candidate>, verified: bool, now: nat, token: string, expires: nat, fate: Fate)
      returns (issued: bool, ghost victim: string)
      requires ready
      modifies this, document
      ensures var e := LoginFinish(old(AsInner()), username, candidate, verified, now, token, expires, victim);
              && (Evicts(old(attempts), username) ==> Oldest(old(attempts), victim))
              && Settles(old(AsReplica()), old(document.history), e, fate)
              && (issued <==> Committed(old(document.history), old(AsReplica()), e, fate))
    {
      issued := false;
      if candidate.None? {
        victim := Fail(username, now);
        return;
      }
      var c := candidate.value;
      var current := StillCurrent(AsInner(), username, c);
      if !verified || !current {
        victim := Fail(username, now);
        return;
      }
      victim := Unused(attempts, username);
      issued := Succeed(username, c.id, now, token, expires, fate);
    }

    /** The candidate checked out: unless the name is locked, its record is cleared and the user signed in. */
    method Succeed(username: string, userId: string, now: nat, token: string, expires: nat, fate: Fate) returns (issued: bool)
      requires ready && userId in users
      modifies this, document
      ensures var pruned := Pruned(old(AsInner()), now);
              var cleared := pruned.(attempts := pruned.attempts - {username});
              var e := if Locked(pruned, username, now) then Done(pruned)
                       else Persist(cleared, SignedIn(cleared, userId, now, token, expires));
              && Settles(old(AsReplica()), old(document.history), e, fate)
              && (issued <==> Committed(old(document.history), old(AsReplica()), e, fate))
    {
      PruneSessions(now);
      if username in attempts && attempts[username].lockedUntil > now {
        return false;
      }
      attempts := attempts - {username};
      issued := SignIn(userId, now, token, expires, fate);
    }

    method SignIn(userId: string, now: nat, token: string, expires: nat, fate: Fate) returns (ok: bool)
      requires ready && userId in users
      modifies this, document
      ensures var e := Persist(old(AsInner()), SignedIn(old(AsInner()), userId, now, token, expires));
              && Settles(old(AsReplica()), old(document.history), e, fate)
              && (ok <==> Committed(old(document.history), old(AsReplica()), e, fate))
    {
      var previous := AsInner();
      users := users[userId := users[userId].(lastLogin := Some(now), updatedAt := now)];
      sessions := sessions[token := Session(userId, expires)];
      ok := SaveOrRestore(previous, fate);
    }

    /** The replica and the document are those that this ending, saved with this fate, leads to. */
    ghost predicate Settles(was: Replica, history: seq<Users>, e: Ending, fate: Fate)
      reads this, document
    {
      var saved := Written(history, was, e, fate);
      document.history == saved.history && AsReplica() == SettledReplica(was, e, saved.ok)
    }

    method BoundUserId(identity: Identity) returns (m: Match)
      ensures match m
              case Nobody => BoundUsers(users, identity) == {}
              case One(id) => BoundUsers(users, identity) == {id}
              case Several => |BoundUsers(users, identity)| > 1
    {
      var rest := users.Keys;
      var first: Option<string> := None;
      while rest != {}
        invariant rest <= users.Keys
        invariant first.Some? ==> first.value in users && first.value !in rest && Bound(users[first.value], identity)
        invariant forall id :: id in users && id !in rest && Bound(users[id], identity) ==> first == Some(id)
      {
        var id :| id in rest;
        if identity in users[id].identities {
          if first.Some? {
            AtLeastTwo(BoundUsers(users, identity), first.value, id);
            return Several;
          }
          first := Some(id);
        }
        rest := rest - {id};
      }
      m := if first.Some? then One(first.value) else Nobody;
    }

    method EmailMatches(email: string) returns (m: Match)
      ensures match m
              case Nobody => EmailUsers(users, email) == {}
              case One(id) => EmailUsers(users, email) == {id}
              case Several => |EmailUsers(users, email)| > 1
    {
      var rest := users.Keys;
      var matches: seq<string> := [];
      while rest != {}
        invariant rest <= users.Keys
        invariant forall id :: id in matches <==> id in users && id !in rest && SameIgnoringCase(users[id].email, email)
        invariant forall i, j :: 0 <= i < j < |matches| ==> matches[i] != matches[j]
      {
        var id :| id in rest;
        if SameIgnoringCase(users[id].email, email) {
          matches := matches + [id];
        }
        rest := rest - {id};
      }
      if |matches| > 1 {
        AtLeastTwo(EmailUsers(users, email), matches[0], matches[1]);
        return Several;
      }
      assert forall id :: id in EmailUsers(users, email) <==> id in matches;
      m := if matches == [] then Nobody else One(matches[0]);
    }

    method Taken(username: string, email: string) returns (taken: bool)
      ensures taken == NameOrEmailTaken(users, username, email)
    {
      var rest := users.Keys;
      while rest != {}
        invariant rest <= users.Keys
        invariant forall id :: id in users && id !in rest ==>
          !SameIgnoringCase(users[id].username, username) && !SameIgnoringCase(users[id].email, email)
      {
        var id :| id in rest;
        if SameIgnoringCase(users[id].username, username) || SameIgnoringCase(users[id].email, email) {
          return true;
        }
        rest := rest - {id};
      }
      taken := false;
    }

    /** Signs the user in; an absent or inactive user is refused before anything is saved. */
    method FinishFederatedLogin(previous: Inner, userId: string, now: nat, token: string, expires: nat, fate: Fate) returns (ok: bool)
      requires ready
      modifies this, document
      ensures var e := FinishFederated(previous, old(AsInner()), userId, now, token, expires);
              && Settles(old(AsReplica()), old(document.history), e, fate)
              && (ok <==> Committed(old(document.history), old(AsReplica()), e, fate))
    {
      if userId !in users {
        return false;
      }
      if !Active(users[userId]) {
        return false;
      }
      users := users[userId := users[userId].(lastLogin := Some(now), updatedAt := now)];
      sessions := sessions[token := Session(userId, expires)];
      ok := SaveOrRestore(previous, fate);
    }

    /** First region of a federated login; `provision` asks for the second one. */
    method StartFederated(c: Claims, now: nat, token: string, expires: nat, fate: Fate) returns (ok: bool, provision: bool)
      requires ready
      modifies this, document
      ensures match FederatedFirst(old(AsInner()), c, now, token, expires)
              case Ends(e) =>
                && !provision && Settles(old(AsReplica()), old(document.history), e, fate)
                && (ok <==> Committed(old(document.history), old(AsReplica()), e, fate))
              case Provision(inner, username, email) =>
                && provision && !ok && c.username == Some(username) && c.email == Some(email)
                && Settles(old(AsReplica()), old(document.history), Done(inner), fate)
    {
      ok, provision := false, false;
      PruneSessions(now);
      var bound := BoundUserId(c.identity);
      if bound.Several? {
        return;
      }
      if bound.One? {
        ok := FinishFederatedLogin(AsInner(), bound.id, now, token, expires, fate);
        return;
      }
      if !c.verified || c.email.None? {
        return;
      }
      ok, provision := StartUnbound(c, now, token, expires, fate);
    }

    method StartUnbound(c: Claims, now: nat, token: string, expires: nat, fate: Fate) returns (ok: bool, provision: bool)
      requires ready && c.email.Some?
      modifies this, document
      ensures match UnboundLogin(old(AsInner()), c, now, token, expires)
              case Ends(e) =>
                && !provision && Settles(old(AsReplica()), old(document.history), e, fate)
                && (ok <==> Committed(old(document.history), old(AsReplica()), e, fate))
              case Provision(inner, username, email) =>
                && provision && !ok && c.username == Some(username) && c.email == Some(email)
                && Settles(old(AsReplica()), old(document.history), Done(inner), fate)
    {
      ok, provision := false, false;
      var matches := EmailMatches(c.email.value);
      if matches.Several? {
        return;
      }
      if matches.One? {
        var u := users[matches.id];
        if u.role == "admin" || !Active(u) || u.identities != [] {
          return;
        }
        var previous := AsInner();
        users := users[matches.id := u.(identities := u.identities + [c.identity])];
        ok := FinishFederatedLogin(previous, matches.id, now, token, expires, fate);
        return;
      }
      if !c.provision || c.username.None? {
        return;
      }
      var taken := Taken(c.username.value, c.email.value);
      provision := !taken;
    }

    method FinishProvisioning(identity: Identity, username: string, email: string, id: string, hash: string,
                              now: nat, token: string, expires: nat, fate: Fate) returns (ok: bool)
      requires ready
      modifies this, document
      ensures var e := FederatedSecond(old(AsInner()), identity, username, email, id, hash, now, token, expires);
              && Settles(old(AsReplica()), old(document.history), e, fate)
              && (ok <==> Committed(old(document.history), old(AsReplica()), e, fate))
    {
      PruneSessions(now);
      var bound := BoundUserId(identity);
      if bound.Several? {
        return false;
      }
      if bound.One? {
        ok := FinishFederatedLogin(AsInner(), bound.id, now, token, expires, fate);
        return;
      }
      var taken := Taken(username, email);
      if taken {
        return false;
      }
      var previous := AsInner();
      users := users[id := NewUser(id, username, email, hash, now, identity)];
      ok := FinishFederatedLogin(previous, id, now, token, expires, fate);
    }

    method Create(user: User, fate: Fate) returns (ok: bool)
      requires ready
      modifies this, document
      ensures var e := CreateUser(old(AsInner()), user);
              && Settles(old(AsReplica()), old(document.history), e, fate)
              && (ok <==> Committed(old(document.history), old(AsReplica()), e, fate))
    {
      var found := FindByUsername(user.username);
      if found.Some? {
        assert HasUsername(users, found.value.id, user.username);
        return false;
      }
      var previous := AsInner();
      users := users[user.id := user];
      ok := SaveOrRestore(previous, fate);
    }

    method CountActiveAdmins() returns (count: nat)
      ensures count == |ActiveAdmins(users)|
    {
      var rest := users.Keys;
      count := 0;
      ghost var seen: set<string> := {};
      while rest != {}
        invariant rest <= users.Keys && count == |seen|
        invariant forall id :: id in seen <==> id in users && id !in rest && ActiveAdmin(users[id])
      {
        var id :| id in rest;
        if ActiveAdmin(users[id]) {
          count := count + 1;
          seen := seen + {id};
        }
        rest := rest - {id};
      }
      assert seen == ActiveAdmins(users);
    }

    /** The active administrators there would be with the user of that id replaced. */
    method CountAdminsAfter(id: string, next: User) returns (count: nat)
      requires id in users
      ensures count == |ActiveAdmins(users[id := next])|
    {
      var rest := users.Keys;
      count := 0;
      ghost var seen: set<string> := {};
      while rest != {}
        invariant rest <= users.Keys && count == |seen|
        invariant forall k :: k in seen <==> k in users && k !in rest && ActiveAdmin(if k == id then next else users[k])
      {
        var k :| k in rest;
        if ActiveAdmin(if k == id then next else users[k]) {
          count := count + 1;
          seen := seen + {k};
        }
        rest := rest - {k};
      }
      assert seen == ActiveAdmins(users[id := next]);
    }

    method Update(id: string, current: string, c: Change, now: nat, fate: Fate) returns (ok: bool)
      requires ready
      modifies this, document
      ensures var e := UpdateUser(old(AsInner()), id, current, c, now);
              && Settles(old(AsReplica()), old(document.history), e, fate)
              && (ok <==> Committed(old(document.history), old(AsReplica()), e, fate))
    {
      if id !in users {
        return false;
      }
      if id == current && ((c.role.Some? && c.role.value != "admin") || (c.status.Some? && c.status.value != "active")) {
        return false;
      }
      var admins := CountAdminsAfter(id, Changed(users[id], c, now));
      if admins == 0 {
        return false;
      }
      var previous := AsInner();
      Amend(id, c, now);
      ok := SaveOrRestore(previous, fate);
    }

    /** Changes the user and ends its sessions if need be. */
    method Amend(id: string, c: Change, now: nat)
      requires id in users
      modifies `users, `sessions
      ensures AsInner() == Amended(old(AsInner()), id, c, now)
    {
      var user := users[id];
      var role := Or(c.role, user.role);
      var status := Or(c.status, user.status);
      if c.email.Some? {
        user := user.(email := c.email.value);
      }
      user := user.(role := role, status := status);
      if c.hash.Some? {
        user := user.(passwordHash := c.hash.value);
      }
      users := users[id := user.(updatedAt := now)];
      if c.hash.Some? || status != "active" {
        sessions := WithoutSessionsOf(sessions, id);
      }
    }

    method Delete(id: string, current: string, fate: Fate) returns (ok: bool)
      requires ready
      modifies this, document
      ensures var e := DeleteUser(old(AsInner()), id, current);
              && Settles(old(AsReplica()), old(document.history), e, fate)
              && (ok <==> (id != current && id !in old(users)) || Committed(old(document.history), old(AsReplica()), e, fate))
    {
      if id == current {
        return false;
      }
      if id !in users {
        return true;
      }
      if users[id].role == "admin" {
        var admins := CountActiveAdmins();
        if admins <= 1 {
          return false;
        }
      }
      var previous := AsInner();
      users := users - {id};
      sessions := WithoutSessionsOf(sessions, id);
      ok := SaveOrRestore(previous, fate);
    }
  }

  lemma AtLeastTwo(s: set<string>, a: string, b: string)
    requires a in s && b in s && a != b
    ensures |s| > 1
  {
    assert |s| == |s - {a}| + 1;
    assert b in s - {a};
  }

  /** A record that would be dropped, were there a failure to note. */
  lemma Unused(attempts: map<string, Attempt>, username: string) returns (victim: string)
    ensures Evicts(attempts, username) ==> Oldest(attempts, victim)
  {
    if Evicts(attempts, username) {
      victim := SomeOldest(attempts, attempts.Keys);
    } else {
      victim := "";
    }
  }

  lemma {:induction false} SomeOldest(attempts: map<string, Attempt>, keys: set<string>) returns (victim: string)
    requires keys != {} && keys <= attempts.Keys
    ensures victim in keys && forall k :: k in keys ==> attempts[victim].last <= attempts[k].last
    decreases |keys|
  {
    var x :| x in keys;
    victim := x;
    if keys != {x} {
      var v := SomeOldest(attempts, keys - {x});
      victim := if attempts[x].last < attempts[v].last then x else v;
    }
  }
}
