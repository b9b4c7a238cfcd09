/** The check on a restored auth document, and what an accepted document means once it is loaded. */
module AuthBackup {
  import opened Text
  import opened AuthState
  import opened AuthSoundness

  const MAX_ISSUER: nat := 2048
  const MAX_SUBJECT: nat := 512

  /** Length in bytes and whether a string parses as a supported password hash are supplied from outside. */
  datatype Outside = Outside(bytes: string -> nat, hashOk: string -> bool, control: char -> bool)

  predicate NameChar(c: char) { 'a' <= c <= 'z' || 'A' <= c <= 'Z' || '0' <= c <= '9' || c in "_-." }

  predicate NameOk(o: Outside, s: string) {
    3 <= o.bytes(Trim(s)) <= 64 && forall i :: 0 <= i < |Trim(s)| ==> NameChar(Trim(s)[i])
  }

  predicate EmailOk(o: Outside, s: string) { o.bytes(Trim(s)) <= 254 && '@' in Trim(s) }

  predicate IdentifierOk(o: Outside, s: string, limit: nat) {
    Trim(s) != "" && o.bytes(Trim(s)) <= limit && forall i :: 0 <= i < |Trim(s)| ==> !o.control(Trim(s)[i])
  }

  predicate IdentityOk(o: Outside, x: Identity) {
    IdentifierOk(o, x.issuer, MAX_ISSUER) && IdentifierOk(o, x.subject, MAX_SUBJECT)
  }

  predicate UserOk(o: Outside, u: User) {
    && !IsBlank(u.id)
    && NameOk(o, u.username)
    && EmailOk(o, u.email)
    && u.role in ["admin", "user", "viewer"]
    && u.status in ["active", "disabled", "suspended"]
    && o.hashOk(u.passwordHash)
    && forall i :: 0 <= i < |u.identities| ==> IdentityOk(o, u.identities[i])
  }

  function Normalised(x: Identity): Identity { Identity(Trim(x.issuer), Trim(x.subject)) }

  /** All the identities of the users, in document order. */
  function AllIdentities(users: seq<User>): seq<Identity> {
    if users == [] then []
    else AllIdentities(users[..|users| - 1]) + Normalise(users[|users| - 1].identities)
  }

  function Normalise(xs: seq<Identity>): (r: seq<Identity>)
    ensures |r| == |xs| && forall i :: 0 <= i < |xs| ==> r[i] == Normalised(xs[i])
  {
    if xs == [] then [] else Normalise(xs[..|xs| - 1]) + [Normalised(xs[|xs| - 1])]
  }

  function NameKey(u: User): string { Lower(Trim(u.username)) }

  ghost predicate HasActiveAdmin(users: seq<User>) {
    exists i :: 0 <= i < |users| && ActiveAdmin(users[i])
  }

  /** No user id, no user name up to case and padding, and no identity up to padding occurs twice. */
  ghost predicate Unrepeated(users: seq<User>) {
    Distinct(Ids(users)) && Distinct(Names(users)) && Distinct(AllIdentities(users))
  }

  /** What the document check accepts, said without its sets and counters. */
  ghost predicate Acceptable(o: Outside, users: seq<User>) {
    AllOk(o, users) && Unrepeated(users) && (users != [] ==> HasActiveAdmin(users))
  }

  /** Loading a document keys its users by id, a later one replacing an earlier one. */
  function Loaded(users: seq<User>): Users {
    if users == [] then map[] else Loaded(users[..|users| - 1])[users[|users| - 1].id := users[|users| - 1]]
  }

  // ---- the check itself ----

  lemma DistinctParts<T>(a: seq<T>, b: seq<T>)
    requires Distinct(a + b)
    ensures Distinct(a) && Distinct(b) && forall x :: x in a ==> x !in b
  {
    var ab := a + b;
    forall i, j | 0 <= i < j < |b| ensures b[i] != b[j] {
      assert ab[|a| + i] == b[i] && ab[|a| + j] == b[j];
    }
    forall i, j | 0 <= i < j < |a| ensures a[i] != a[j] {
      assert ab[i] == a[i] && ab[j] == a[j];
    }
    forall i, j | 0 <= i < |a| && 0 <= j < |b| ensures a[i] != b[j] {
      assert ab[i] == a[i] && ab[|a| + j] == b[j];
    }
  }

  lemma DistinctJoined<T>(a: seq<T>, b: seq<T>)
    requires Distinct(a) && Distinct(b) && forall x :: x in a ==> x !in b
    ensures Distinct(a + b)
  {
    var ab := a + b;
    forall i, j | 0 <= i < j < |ab| ensures ab[i] != ab[j] {
      assert i < |a| ==> ab[i] in a;
      assert j >= |a| ==> ab[j] == b[j - |a|] && ab[j] in b;
    }
  }

  lemma DistinctSplit<T>(a: seq<T>, b: seq<T>)
    ensures Distinct(a + b) <==> Distinct(a) && Distinct(b) && forall x :: x in a ==> x !in b
  {
    if Distinct(a + b) {
      DistinctParts(a, b);
    } else if Distinct(a) && Distinct(b) && forall x :: x in a ==> x !in b {
      DistinctJoined(a, b);
    }
  }

  function Elements<T>(s: seq<T>): set<T> { set x | x in s }

  /** Nothing in the list repeats or was seen before. */
  ghost predicate AllNew<T>(s: seq<T>, seen: set<T>) {
    Distinct(s) && forall i :: 0 <= i < |s| ==> s[i] !in seen
  }

  lemma OneMore<T>(s: seq<T>, i: nat, seen: set<T>)
    requires i < |s|
    ensures AllNew(s[..i + 1], seen) <==> AllNew(s[..i], seen) && s[i] !in seen + Elements(s[..i])
    ensures Elements(s[..i + 1]) == Elements(s[..i]) + {s[i]}
  {
    var shorter, longer := s[..i], s[..i + 1];
    assert longer == shorter + [s[i]];
    DistinctSplit(shorter, [s[i]]);
    assert forall k :: 0 <= k < i ==> longer[k] == shorter[k];
  }

  lemma PrefixNew<T>(s: seq<T>, i: nat, seen: set<T>)
    requires i <= |s|
    ensures AllNew(s, seen) ==> AllNew(s[..i], seen)
  {
  }

  method CheckIdentities(o: Outside, xs: seq<Identity>, seen: set<Identity>) returns (ok: bool, now: set<Identity>)
    ensures ok <==> (forall i :: 0 <= i < |xs| ==> IdentityOk(o, xs[i])) && AllNew(Normalise(xs), seen)
    ensures ok ==> now == seen + Elements(Normalise(xs))
  {
    now := seen;
    ghost var ns := Normalise(xs);
    for i := 0 to |xs|
      invariant forall k :: 0 <= k < i ==> IdentityOk(o, xs[k])
      invariant AllNew(ns[..i], seen) && now == seen + Elements(ns[..i])
    {
      if !IdentifierOk(o, xs[i].issuer, MAX_ISSUER) || !IdentifierOk(o, xs[i].subject, MAX_SUBJECT) {
        assert !IdentityOk(o, xs[i]);
        return false, now;
      }
      var x := Identity(Trim(xs[i].issuer), Trim(xs[i].subject));
      assert x == ns[i];
      OneMore(ns, i, seen);
      if x in now {
        PrefixNew(ns, i + 1, seen);
        return false, now;
      }
      now := now + {x};
    }
    assert ns[..|xs|] == ns;
    ok := true;
  }

  function Ids(users: seq<User>): (r: seq<string>)
    ensures |r| == |users| && forall i :: 0 <= i < |users| ==> r[i] == users[i].id
  {
    seq(|users|, i requires 0 <= i < |users| => users[i].id)
  }

  function Names(users: seq<User>): (r: seq<string>)
    ensures |r| == |users| && forall i :: 0 <= i < |users| ==> r[i] == NameKey(users[i])
  {
    seq(|users|, i requires 0 <= i < |users| => NameKey(users[i]))
  }

  /** The next user is well formed and clashes with none of the users before it. */
  ghost predicate Joins(o: Outside, users: seq<User>, u: User) {
    && UserOk(o, u)
    && u.id !in Ids(users)
    && NameKey(u) !in Names(users)
    && AllNew(Normalise(u.identities), Elements(AllIdentities(users)))
  }

  ghost predicate AllOk(o: Outside, users: seq<User>) {
    forall i :: 0 <= i < |users| ==> UserOk(o, users[i])
  }

  ghost predicate Sound(o: Outside, users: seq<User>) {
    AllOk(o, users) && Unrepeated(users)
  }

  lemma AllOkExtends(o: Outside, users: seq<User>, u: User)
    ensures AllOk(o, users + [u]) <==> AllOk(o, users) && UserOk(o, u)
  {
    var longer := users + [u];
    assert longer[|users|] == u && forall k :: 0 <= k < |users| ==> longer[k] == users[k];
  }

  lemma IdentitiesExtend(users: seq<User>, u: User)
    ensures AllIdentities(users + [u]) == AllIdentities(users) + Normalise(u.identities)
  {
    assert (users + [u])[..|users|] == users;
  }

  lemma UnrepeatedExtends(users: seq<User>, u: User)
    ensures Unrepeated(users + [u]) <==>
            && Unrepeated(users)
            && u.id !in Ids(users)
            && NameKey(u) !in Names(users)
            && AllNew(Normalise(u.identities), Elements(AllIdentities(users)))
  {
    var longer := users + [u];
    assert longer[..|users|] == users;
    IdentitiesExtend(users, u);
    DistinctSplit(AllIdentities(users), Normalise(u.identities));
    DistinctIds(longer, |users|);
  }

  lemma SoundExtends(o: Outside, users: seq<User>, u: User)
    ensures Sound(o, users + [u]) <==> Sound(o, users) && Joins(o, users, u)
  {
    AllOkExtends(o, users, u);
    UnrepeatedExtends(users, u);
  }

  lemma DistinctIds(longer: seq<User>, i: nat)
    requires |longer| == i + 1
    ensures Distinct(Ids(longer)) <==> Distinct(Ids(longer[..i])) && longer[i].id !in Ids(longer[..i])
    ensures Distinct(Names(longer)) <==> Distinct(Names(longer[..i])) && NameKey(longer[i]) !in Names(longer[..i])
  {
    assert Ids(longer) == Ids(longer[..i]) + [longer[i].id];
    assert Names(longer) == Names(longer[..i]) + [NameKey(longer[i])];
    DistinctSplit(Ids(longer[..i]), [longer[i].id]);
    DistinctSplit(Names(longer[..i]), [NameKey(longer[i])]);
  }

  lemma {:induction false} SoundPrefix(o: Outside, users: seq<User>, i: nat)
    requires i <= |users|
    ensures Sound(o, users) ==> Sound(o, users[..i])
    decreases |users|
  {
    if i == |users| {
      assert users[..i] == users;
    } else {
      var n := |users| - 1;
      assert users[..n] + [users[n]] == users;
      SoundExtends(o, users[..n], users[n]);
      SoundPrefix(o, users[..n], i);
      assert users[..n][..i] == users[..i];
    }
  }

  /** Checks one user against what the earlier ones used up, and uses up its own. */
  method Admit(o: Outside, users: seq<User>, u: User, ids: set<string>, names: set<string>, identities: set<Identity>)
    returns (ok: bool, identities': set<Identity>)
    requires ids == Elements(Ids(users)) && names == Elements(Names(users)) && identities == Elements(AllIdentities(users))
    ensures ok <==> Joins(o, users, u)
    ensures ok ==> identities' == identities + Elements(Normalise(u.identities))
  {
    ok, identities' := false, identities;
    if IsBlank(u.id) || u.id in ids {
      return;
    }
    if !NameOk(o, u.username) || NameKey(u) in names {
      return;
    }
    if !EmailOk(o, u.email) || u.role !in ["admin", "user", "viewer"]
       || u.status !in ["active", "disabled", "suspended"] || !o.hashOk(u.passwordHash) {
      return;
    }
    ok, identities' := CheckIdentities(o, u.identities, identities);
  }

  /** What the loop over the document has collected from the users it has passed. */
  ghost predicate Collected(users: seq<User>, ids: set<string>, names: set<string>, identities: set<Identity>, admins: nat) {
    && ids == Elements(Ids(users))
    && names == Elements(Names(users))
    && identities == Elements(AllIdentities(users))
    && (admins > 0 <==> HasActiveAdmin(users))
  }

  lemma CollectedExtends(users: seq<User>, u: User, ids: set<string>, names: set<string>, identities: set<Identity>, admins: nat)
    requires Collected(users, ids, names, identities, admins)
    ensures Collected(users + [u], ids + {u.id}, names + {NameKey(u)}, identities + Elements(Normalise(u.identities)),
                      if ActiveAdmin(u) then admins + 1 else admins)
  {
    var longer := users + [u];
    assert Ids(longer) == Ids(users) + [u.id];
    assert Names(longer) == Names(users) + [NameKey(u)];
    IdentitiesExtend(users, u);
    MoreElements(Ids(users), [u.id]);
    MoreElements(Names(users), [NameKey(u)]);
    MoreElements(AllIdentities(users), Normalise(u.identities));
    MoreAdmins(users, u);
  }

  lemma MoreElements<T>(a: seq<T>, b: seq<T>)
    ensures Elements(a + b) == Elements(a) + Elements(b)
  {
  }

  lemma NextUser(o: Outside, users: seq<User>, i: nat)
    requires i < |users|
    ensures users[..i + 1] == users[..i] + [users[i]]
    ensures Sound(o, users[..i + 1]) <==> Sound(o, users[..i]) && Joins(o, users[..i], users[i])
    ensures Sound(o, users) ==> Sound(o, users[..i + 1])
  {
    assert users[..i + 1] == users[..i] + [users[i]];
    SoundExtends(o, users[..i], users[i]);
    SoundPrefix(o, users, i + 1);
  }

  lemma MoreAdmins(users: seq<User>, u: User)
    ensures HasActiveAdmin(users + [u]) <==> HasActiveAdmin(users) || ActiveAdmin(u)
  {
    var longer := users + [u];
    assert longer[|users|] == u && forall k :: 0 <= k < |users| ==> longer[k] == users[k];
    if HasActiveAdmin(users) {
      var k :| 0 <= k < |users| && ActiveAdmin(users[k]);
      assert ActiveAdmin(longer[k]);
    }
  }

  /** The document check accepts exactly the acceptable documents. */
  method Validate(o: Outside, users: seq<User>) returns (ok: bool)
    ensures ok <==> Acceptable(o, users)
  {
    var ids: set<string> := {};
    var names: set<string> := {};
    var identities: set<Identity> := {};
    var admins: nat := 0;
    for i := 0 to |users|
      invariant Sound(o, users[..i]) && Collected(users[..i], ids, names, identities, admins)
    {
      var u := users[i];
      var fine, identities' := Admit(o, users[..i], u, ids, names, identities);
      NextUser(o, users, i);
      if !fine {
        return false;
      }
      CollectedExtends(users[..i], u, ids, names, identities, admins);
      ids, names, identities := ids + {u.id}, names + {NameKey(u)}, identities';
      if ActiveAdmin(u) {
        admins := admins + 1;
      }
    }
    assert users[..|users|] == users;
    ok := users == [] || admins > 0;
  }

  // ---- what acceptance means ----

  lemma {:induction false} LoadedFrom(users: seq<User>, id: string)
    requires id in Loaded(users)
    ensures Loaded(users)[id] in users && Loaded(users)[id].id == id
    decreases |users|
  {
    var last := users[|users| - 1];
    if last.id != id {
      LoadedFrom(users[..|users| - 1], id);
    }
  }

  lemma {:induction false} IdentityListed(users: seq<User>, u: User, x: Identity)
    requires u in users && Bound(u, x)
    ensures Normalised(x) in AllIdentities(users)
    decreases |users|
  {
    var last := users[|users| - 1];
    if u == last {
      var i :| 0 <= i < |u.identities| && u.identities[i] == x;
      assert Normalise(u.identities)[i] == Normalised(x);
    } else {
      var i :| 0 <= i < |users| && users[i] == u;
      assert users[..|users| - 1][i] == u;
      IdentityListed(users[..|users| - 1], u, x);
    }
  }

  lemma SameNameSameKey(a: User, b: User)
    requires SameIgnoringCase(a.username, b.username)
    ensures NameKey(a) == NameKey(b)
  {
    LowerTrim(a.username);
    LowerTrim(b.username);
  }

  /** The next user of an unrepeated document clashes with none of those already loaded. */
  lemma NameFree(users: seq<User>, u: User)
    requires u.id !in Ids(users) && NameKey(u) !in Names(users)
    ensures u.id !in Loaded(users) && !UsernameTaken(Loaded(users), u.username)
  {
    forall id | id in Loaded(users) ensures id != u.id && !HasUsername(Loaded(users), id, u.username) {
      LoadedFrom(users, id);
      var k :| 0 <= k < |users| && users[k] == Loaded(users)[id];
      assert Ids(users)[k] == id && Names(users)[k] == NameKey(users[k]);
      if SameIgnoringCase(users[k].username, u.username) {
        SameNameSameKey(users[k], u);
      }
    }
  }

  lemma IdentitiesFree(users: seq<User>, u: User)
    requires AllNew(Normalise(u.identities), Elements(AllIdentities(users)))
    ensures forall x :: Bound(u, x) ==> BoundUsers(Loaded(users), x) == {}
  {
    forall x | Bound(u, x) ensures BoundUsers(Loaded(users), x) == {} {
      OwnIdentity(u, x);
      forall id | id in Loaded(users) ensures !Bound(Loaded(users)[id], x) {
        LoadedFrom(users, id);
        if Bound(Loaded(users)[id], x) {
          IdentityListed(users, Loaded(users)[id], x);
        }
      }
    }
  }

  lemma {:induction false} LoadedOk(users: seq<User>)
    requires Unrepeated(users)
    ensures AccountsOk(Loaded(users))
    decreases |users|
  {
    if users != [] {
      var rest, u := users[..|users| - 1], users[|users| - 1];
      assert rest + [u] == users;
      UnrepeatedExtends(rest, u);
      LoadedOk(rest);
      NameFree(rest, u);
      IdentitiesFree(rest, u);
      OwnDistinct(u);
      AddedAccounts(Loaded(rest), u);
    }
  }

  lemma {:induction false} AllLoaded(users: seq<User>, i: nat)
    requires Distinct(Ids(users)) && i < |users|
    ensures users[i].id in Loaded(users) && Loaded(users)[users[i].id] == users[i]
    decreases |users|
  {
    var n := |users| - 1;
    if i < n {
      DistinctIds(users, n);
      AllLoaded(users[..n], i);
      assert Ids(users)[i] != Ids(users)[n];
    }
  }

  lemma OwnIdentity(u: User, x: Identity)
    requires Bound(u, x)
    ensures Normalised(x) in Normalise(u.identities)
  {
    var i :| 0 <= i < |u.identities| && u.identities[i] == x;
    assert Normalise(u.identities)[i] == Normalised(x);
  }

  lemma OwnDistinct(u: User)
    requires Distinct(Normalise(u.identities))
    ensures Distinct(u.identities)
  {
    forall i, j | 0 <= i < j < |u.identities| ensures u.identities[i] != u.identities[j] {
      assert Normalise(u.identities)[i] != Normalise(u.identities)[j];
    }
  }

  /** An accepted document with users establishes the account invariants that every later region keeps. */
  lemma AcceptedDocumentIsSound(o: Outside, users: seq<User>)
    requires Acceptable(o, users) && users != []
    ensures AccountsOk(Loaded(users)) && HasAdmin(Loaded(users))
  {
    LoadedOk(users);
    var i :| 0 <= i < |users| && ActiveAdmin(users[i]);
    AllLoaded(users, i);
    assert users[i].id in ActiveAdmins(Loaded(users));
  }
}
