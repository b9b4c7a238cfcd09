/** Every locked region of the auth store keeps the account invariants, also when it is the second half of a two-phase operation. */
module AuthSoundness {
  import opened Common
  import opened Text
  import opened AuthState

  lemma PrunedOk(inner: Inner, now: nat)
    requires InnerOk(inner)
    ensures InnerOk(Pruned(inner, now)) && Pruned(inner, now).users == inner.users
  {
  }

  /** Users are only removed, or changed in fields other than id, name and identities. */
  ghost predicate OnlyFields(users: Users, users': Users) {
    forall i :: i in users' ==> i in users && users'[i].id == users[i].id && users'[i].username == users[i].username
                                && users'[i].identities == users[i].identities
  }

  lemma FieldsKept(users: Users, users': Users)
    requires AccountsOk(users) && OnlyFields(users, users')
    ensures AccountsOk(users')
  {
    assert forall i, x :: i in users' ==> (Bound(users'[i], x) <==> Bound(users[i], x));
  }

  lemma SignedInOk(inner: Inner, userId: string, now: nat, token: string, expires: nat)
    requires InnerOk(inner) && userId in inner.users && Active(inner.users[userId])
    ensures InnerOk(SignedIn(inner, userId, now, token, expires))
  {
    var next := SignedIn(inner, userId, now, token, expires);
    FieldsKept(inner.users, next.users);
    assert ActiveAdmins(next.users) == ActiveAdmins(inner.users);
  }

  lemma FewerAttempts(attempts: map<string, Attempt>, fewer: map<string, Attempt>)
    requires AttemptsOk(attempts) && fewer.Keys <= attempts.Keys && forall k :: k in fewer ==> fewer[k] == attempts[k]
    ensures AttemptsOk(fewer)
  {
    SubsetSize(fewer.Keys, attempts.Keys);
    assert |fewer| == |fewer.Keys| && |attempts| == |attempts.Keys|;
  }

  lemma FailedLoginOk(attempts: map<string, Attempt>, username: string, now: nat, victim: string)
    requires AttemptsOk(attempts) && (Evicts(attempts, username) ==> Oldest(attempts, victim))
    ensures AttemptsOk(FailedLogin(attempts, username, now, victim))
  {
    var room := if Evicts(attempts, username) then attempts - {victim} else attempts;
    FewerAttempts(attempts, room);
    if Evicts(attempts, username) {
      assert room.Keys == attempts.Keys - {victim};
      assert |room.Keys| == |room| && |attempts.Keys| == |attempts|;
    }
  }

  lemma LoginOk(inner: Inner, username: string, candidate: Option<Candidate>, verified: bool,
                now: nat, token: string, expires: nat, victim: string)
    requires InnerOk(inner) && (Evicts(inner.attempts, username) ==> Oldest(inner.attempts, victim))
    ensures EndingOk(inner, LoginFinish(inner, username, candidate, verified, now, token, expires, victim))
  {
    PrunedOk(inner, now);
    var pruned := Pruned(inner, now);
    if candidate.Some? && verified && StillCurrent(pruned, username, candidate.value) && !Locked(pruned, username, now) {
      var cleared := pruned.(attempts := pruned.attempts - {username});
      FewerAttempts(pruned.attempts, cleared.attempts);
      SignedInOk(cleared, candidate.value.id, now, token, expires);
    } else {
      FailedLoginOk(inner.attempts, username, now, victim);
    }
  }

  lemma FinishOk(fallback: Inner, inner: Inner, userId: string, now: nat, token: string, expires: nat)
    requires InnerOk(fallback) && InnerOk(inner)
    requires inner.users != fallback.users ==> userId in inner.users && Active(inner.users[userId])
    ensures EndingOk(fallback, FinishFederated(fallback, inner, userId, now, token, expires))
  {
    if userId in inner.users && Active(inner.users[userId]) {
      SignedInOk(inner, userId, now, token, expires);
    }
  }

  lemma BindingAccounts(users: Users, userId: string, identity: Identity, users': Users)
    requires AccountsOk(users) && userId in users && BoundUsers(users, identity) == {}
    requires users' == users[userId := users[userId].(identities := users[userId].identities + [identity])]
    ensures AccountsOk(users')
  {
    forall id | id in users ensures !Bound(users[id], identity) {
      assert id !in BoundUsers(users, identity);
    }
    assert forall id, x :: id in users' ==>
      (Bound(users'[id], x) <==> Bound(users[id], x) || (id == userId && x == identity));
    assert identity !in users[userId].identities by { assert !Bound(users[userId], identity); }
    assert Distinct(users[userId].identities);
    assert Distinct(users'[userId].identities);
  }

  lemma BindingOk(inner: Inner, userId: string, identity: Identity)
    requires InnerOk(inner) && userId in inner.users && BoundUsers(inner.users, identity) == {}
    ensures InnerOk(WithIdentity(inner, userId, identity))
  {
    var next := WithIdentity(inner, userId, identity);
    BindingAccounts(inner.users, userId, identity, next.users);
    assert ActiveAdmins(next.users) == ActiveAdmins(inner.users);
  }

  /** Adding a user with a free name and unbound identities keeps the account invariants. */
  lemma AddedAccounts(users: Users, u: User)
    requires AccountsOk(users) && u.id !in users && !UsernameTaken(users, u.username)
    requires Distinct(u.identities) && forall x :: Bound(u, x) ==> BoundUsers(users, x) == {}
    ensures AccountsOk(users[u.id := u])
  {
    forall id | id in users ensures !SameIgnoringCase(users[id].username, u.username) {
      assert !HasUsername(users, id, u.username);
    }
    forall id, x | id in users && Bound(u, x) ensures !Bound(users[id], x) {
      assert id !in BoundUsers(users, x);
    }
  }

  lemma AddedOk(inner: Inner, u: User)
    requires InnerOk(inner) && u.id !in inner.users && !UsernameTaken(inner.users, u.username)
    requires Distinct(u.identities) && forall x :: Bound(u, x) ==> BoundUsers(inner.users, x) == {}
    ensures InnerOk(inner.(users := inner.users[u.id := u]))
  {
    AddedAccounts(inner.users, u);
    var a :| a in ActiveAdmins(inner.users);
    assert a in ActiveAdmins(inner.users[u.id := u]);
  }

  lemma FederatedFirstOk(inner: Inner, c: Claims, now: nat, token: string, expires: nat)
    requires InnerOk(inner)
    ensures match FederatedFirst(inner, c, now, token, expires)
            case Ends(e) => EndingOk(inner, e)
            case Provision(i, _, _) => i.users == inner.users && InnerOk(i)
  {
    PrunedOk(inner, now);
    var pruned := Pruned(inner, now);
    forall id | id in inner.users ensures EndingOk(pruned, FinishFederated(pruned, pruned, id, now, token, expires)) {
      FinishOk(pruned, pruned, id, now, token, expires);
    }
    if BoundUsers(inner.users, c.identity) == {} {
      forall id | id in inner.users && Active(inner.users[id])
        ensures EndingOk(pruned, FinishFederated(pruned, WithIdentity(pruned, id, c.identity), id, now, token, expires))
      {
        BindingOk(pruned, id, c.identity);
        FinishOk(pruned, WithIdentity(pruned, id, c.identity), id, now, token, expires);
      }
    }
  }

  lemma FederatedSecondOk(inner: Inner, identity: Identity, username: string, email: string,
                          id: string, hash: string, now: nat, token: string, expires: nat)
    requires InnerOk(inner) && id !in inner.users
    ensures EndingOk(inner, FederatedSecond(inner, identity, username, email, id, hash, now, token, expires))
  {
    PrunedOk(inner, now);
    var pruned := Pruned(inner, now);
    forall b | b in inner.users ensures EndingOk(pruned, FinishFederated(pruned, pruned, b, now, token, expires)) {
      FinishOk(pruned, pruned, b, now, token, expires);
    }
    if BoundUsers(inner.users, identity) == {} && !NameOrEmailTaken(inner.users, username, email) {
      var u := NewUser(id, username, email, hash, now, identity);
      assert forall x :: Bound(u, x) ==> x == identity;
      AddedOk(pruned, u);
      FinishOk(pruned, pruned.(users := pruned.users[id := u]), id, now, token, expires);
    }
  }

  lemma CreateOk(inner: Inner, u: User)
    requires InnerOk(inner) && u.id !in inner.users && u.identities == []
    ensures EndingOk(inner, CreateUser(inner, u))
  {
    if !UsernameTaken(inner.users, u.username) {
      AddedOk(inner, u);
    }
  }

  lemma UpdateOk(inner: Inner, id: string, current: string, c: Change, now: nat)
    requires InnerOk(inner)
    ensures EndingOk(inner, UpdateUser(inner, id, current, c, now))
  {
    if id in inner.users {
      FieldsKept(inner.users, inner.users[id := Changed(inner.users[id], c, now)]);
    }
  }

  lemma AnotherLeft(s: set<string>, x: string)
    requires s != {} && (x in s ==> |s| > 1)
    ensures s - {x} != {}
  {
    assert s <= {x} ==> s == {x} || s == {};
    assert s - {x} == {} ==> s <= {x};
  }

  lemma DeleteOk(inner: Inner, id: string, current: string)
    requires InnerOk(inner)
    ensures EndingOk(inner, DeleteUser(inner, id, current))
  {
    if id != current && id in inner.users && (inner.users[id].role == "admin" ==> |ActiveAdmins(inner.users)| > 1) {
      var users := inner.users - {id};
      assert ActiveAdmins(users) == ActiveAdmins(inner.users) - {id};
      AnotherLeft(ActiveAdmins(inner.users), id);
      FieldsKept(inner.users, users);
    }
  }
}
