/**
 Administrator accounts: what each locked region of the auth store does to the users, sessions and login
 attempts of one instance. A region either ends on its own or asks for the users to be persisted.
 */
module AuthState {
  import opened Common
  import opened Text

  const MAX_FAILED: nat := 5
  const LOCKOUT_MS: nat := 15 * 60 * 1000
  const RETENTION_MS: nat := 24 * 60 * 60 * 1000
  const MAX_ATTEMPT_RECORDS: nat := 10000

  datatype Identity = Identity(issuer: string, subject: string)

  datatype User = User(
    id: string,
    username: string,
    email: string,
    role: string,
    status: string,
    passwordHash: string,
    updatedAt: nat,
    lastLogin: Option<nat>,
    identities: seq<Identity>)

  datatype Session = Session(userId: string, expiresAt: nat)

  datatype Attempt = Attempt(failed: nat, lockedUntil: nat, last: nat)

  type Users = map<string, User>

  datatype Inner = Inner(users: Users, sessions: map<string, Session>, attempts: map<string, Attempt>)

  /** How a region ends: with the state as it then is, or by saving `next` and falling back if that fails. */
  datatype Ending = Done(inner: Inner) | Persist(fallback: Inner, next: Inner)

  function SatAdd(a: nat, b: nat): nat { if a + b > U64_MAX then U64_MAX else a + b }

  predicate Active(u: User) { u.status == "active" }

  predicate ActiveAdmin(u: User) { u.role == "admin" && Active(u) }

  function Pruned(inner: Inner, now: nat): Inner {
    inner.(sessions := map s | s in inner.sessions && inner.sessions[s].expiresAt > now :: inner.sessions[s])
  }

  function WithoutSessionsOf(sessions: map<string, Session>, userId: string): map<string, Session> {
    map s | s in sessions && sessions[s].userId != userId :: sessions[s]
  }

  // ---- login attempts ----

  predicate Locked(inner: Inner, username: string, now: nat) {
    username in inner.attempts && inner.attempts[username].lockedUntil > now
  }

  function PrunedAttempts(attempts: map<string, Attempt>, now: nat): map<string, Attempt> {
    map k | k in attempts && (attempts[k].lockedUntil > now || SatAdd(attempts[k].last, RETENTION_MS) > now) :: attempts[k]
  }

  function Failed(a: Attempt, now: nat): Attempt {
    if a.failed + 1 >= MAX_FAILED then Attempt(0, SatAdd(now, LOCKOUT_MS), now) else Attempt(a.failed + 1, a.lockedUntil, now)
  }

  predicate Evicts(attempts: map<string, Attempt>, username: string) {
    username !in attempts && |attempts| >= MAX_ATTEMPT_RECORDS
  }

  /** The record to drop when the table is full: one with the oldest attempt. */
  ghost predicate Oldest(attempts: map<string, Attempt>, victim: string) {
    victim in attempts && forall k :: k in attempts ==> attempts[victim].last <= attempts[k].last
  }

  function FailedLogin(attempts: map<string, Attempt>, username: string, now: nat, victim: string): map<string, Attempt> {
    var room := if Evicts(attempts, username) then attempts - {victim} else attempts;
    var was := if username in room then room[username] else Attempt(0, 0, 0);
    room[username := Failed(was, now)]
  }

  // ---- password login ----

  ghost predicate HasUsername(users: Users, id: string, username: string) {
    id in users && SameIgnoringCase(users[id].username, username)
  }

  datatype Candidate = Candidate(id: string, user: User)

  /** First region: prune, refuse a locked name, otherwise remember some user of that name. */
  ghost predicate LoginStarts(
    inner: Inner, username: string, now: nat, inner': Inner, locked: bool, candidate: Option<Candidate>) {
    && inner' == Pruned(inner, now).(attempts := PrunedAttempts(inner.attempts, now))
    && locked == Locked(inner', username, now)
    && match candidate
       case None => locked || forall id :: !HasUsername(inner.users, id, username)
       case Some(c) => !locked && HasUsername(inner.users, c.id, username) && inner.users[c.id] == c.user
  }

  predicate StillCurrent(inner: Inner, username: string, c: Candidate) {
    && c.id in inner.users
    && Active(inner.users[c.id])
    && SameIgnoringCase(inner.users[c.id].username, username)
    && inner.users[c.id].passwordHash == c.user.passwordHash
  }

  function SignedIn(inner: Inner, userId: string, now: nat, token: string, expires: nat): Inner
    requires userId in inner.users
  {
    inner.(users := inner.users[userId := inner.users[userId].(lastLogin := Some(now), updatedAt := now)],
           sessions := inner.sessions[token := Session(userId, expires)])
  }

  /** Second region, after the password was verified without the lock: everything is checked again. */
  function LoginFinish(inner: Inner, username: string, candidate: Option<Candidate>, verified: bool,
                       now: nat, token: string, expires: nat, victim: string): Ending {
    var pruned := Pruned(inner, now);
    if candidate.None? || !verified || !StillCurrent(pruned, username, candidate.value)
    then Done(pruned.(attempts := FailedLogin(pruned.attempts, username, now, victim)))
    else if Locked(pruned, username, now) then Done(pruned)
    else
      var cleared := pruned.(attempts := pruned.attempts - {username});
      Persist(cleared, SignedIn(cleared, candidate.value.id, now, token, expires))
  }

  // ---- federated login ----

  datatype Claims = Claims(identity: Identity, username: Option<string>, email: Option<string>, verified: bool, provision: bool)

  ghost predicate Bound(u: User, identity: Identity) { identity in u.identities }

  ghost function BoundUsers(users: Users, identity: Identity): set<string> {
    set id | id in users && Bound(users[id], identity)
  }

  ghost function EmailUsers(users: Users, email: string): set<string> {
    set id | id in users && SameIgnoringCase(users[id].email, email)
  }

  ghost predicate NameOrEmailTaken(users: Users, username: string, email: string) {
    exists id :: id in users && (SameIgnoringCase(users[id].username, username) || SameIgnoringCase(users[id].email, email))
  }

  /** Issues the session. An absent or inactive user is refused with the state left as it is. */
  function FinishFederated(fallback: Inner, inner: Inner, userId: string, now: nat, token: string, expires: nat): Ending {
    if userId !in inner.users || !Active(inner.users[userId]) then Done(inner)
    else Persist(fallback, SignedIn(inner, userId, now, token, expires))
  }

  function WithIdentity(inner: Inner, userId: string, identity: Identity): Inner
    requires userId in inner.users
  {
    inner.(users := inner.users[userId := inner.users[userId].(identities := inner.users[userId].identities + [identity])])
  }

  datatype FederatedStart = Ends(ending: Ending) | Provision(inner: Inner, username: string, email: string)

  /** Claims arrive normalised: an email or username that does not validate is absent. */
  ghost function FederatedFirst(inner: Inner, c: Claims, now: nat, token: string, expires: nat): FederatedStart {
    var pruned := Pruned(inner, now);
    var bound := BoundUsers(inner.users, c.identity);
    if |bound| > 1 then Ends(Done(pruned))
    else if bound != {} then
      var id :| id in bound;
      Ends(FinishFederated(pruned, pruned, id, now, token, expires))
    else if !c.verified || c.email.None? then Ends(Done(pruned))
    else UnboundLogin(pruned, c, now, token, expires)
  }

  /** No user is bound to the identity: bind the one user with the verified email, or ask to create one. */
  ghost function UnboundLogin(inner: Inner, c: Claims, now: nat, token: string, expires: nat): FederatedStart
    requires c.email.Some?
  {
    var matches := EmailUsers(inner.users, c.email.value);
    if |matches| > 1 then Ends(Done(inner))
    else if matches != {} then
      var id :| id in matches;
      var u := inner.users[id];
      if u.role == "admin" || !Active(u) || u.identities != [] then Ends(Done(inner))
      else Ends(FinishFederated(inner, WithIdentity(inner, id, c.identity), id, now, token, expires))
    else if !c.provision || c.username.None? || NameOrEmailTaken(inner.users, c.username.value, c.email.value)
    then Ends(Done(inner))
    else Provision(inner, c.username.value, c.email.value)
  }

  function NewUser(id: string, username: string, email: string, hash: string, now: nat, identity: Identity): User {
    User(id, username, email, "user", "active", hash, now, None, [identity])
  }

  /** Second region of a first federated login: all checks are repeated before the user is created. */
  ghost function FederatedSecond(inner: Inner, identity: Identity, username: string, email: string,
                                 id: string, hash: string, now: nat, token: string, expires: nat): Ending {
    var pruned := Pruned(inner, now);
    var bound := BoundUsers(inner.users, identity);
    if |bound| > 1 then Done(pruned)
    else if bound != {} then
      var b :| b in bound;
      FinishFederated(pruned, pruned, b, now, token, expires)
    else if NameOrEmailTaken(inner.users, username, email) then Done(pruned)
    else
      var created := pruned.(users := pruned.users[id := NewUser(id, username, email, hash, now, identity)]);
      FinishFederated(pruned, created, id, now, token, expires)
  }

  // ---- account administration ----

  ghost predicate UsernameTaken(users: Users, username: string) {
    exists id :: HasUsername(users, id, username)
  }

  ghost function CreateUser(inner: Inner, u: User): Ending {
    if UsernameTaken(inner.users, u.username) then Done(inner)
    else Persist(inner, inner.(users := inner.users[u.id := u]))
  }

  datatype Change = Change(email: Option<string>, role: Option<string>, status: Option<string>, hash: Option<string>)

  function Changed(u: User, c: Change, now: nat): User {
    u.(email := Or(c.email, u.email), role := Or(c.role, u.role), status := Or(c.status, u.status),
       passwordHash := Or(c.hash, u.passwordHash), updatedAt := now)
  }

  ghost function ActiveAdmins(users: Users): set<string> {
    set id | id in users && ActiveAdmin(users[id])
  }

  ghost function UpdateUser(inner: Inner, id: string, current: string, c: Change, now: nat): Ending {
    if id !in inner.users then Done(inner)
    else if id == current && ((c.role.Some? && c.role.value != "admin") || (c.status.Some? && c.status.value != "active"))
    then Done(inner)
    else
      if ActiveAdmins(inner.users[id := Changed(inner.users[id], c, now)]) == {} then Done(inner)
      else Persist(inner, Amended(inner, id, c, now))
  }

  /** A new password or an inactive status ends the user's sessions. */
  function Amended(inner: Inner, id: string, c: Change, now: nat): Inner
    requires id in inner.users
  {
    var changed := Changed(inner.users[id], c, now);
    var ends := c.hash.Some? || !Active(changed);
    inner.(users := inner.users[id := changed],
           sessions := if ends then WithoutSessionsOf(inner.sessions, id) else inner.sessions)
  }

  ghost function DeleteUser(inner: Inner, id: string, current: string): Ending {
    if id == current || id !in inner.users then Done(inner)
    else if inner.users[id].role == "admin" && |ActiveAdmins(inner.users)| <= 1 then Done(inner)
    else Persist(inner, inner.(users := inner.users - {id}, sessions := WithoutSessionsOf(inner.sessions, id)))
  }

  function Logout(inner: Inner, token: string): Inner { inner.(sessions := inner.sessions - {token}) }

  // ---- what every region keeps ----

  ghost predicate KeyedById(users: Users) { forall id :: id in users ==> users[id].id == id }

  ghost predicate UsernamesUnique(users: Users) {
    forall i, j | i in users && j in users :: SameIgnoringCase(users[i].username, users[j].username) ==> i == j
  }

  /** Each federated identity occurs once in all the users' lists together. */
  ghost predicate IdentitiesUnique(users: Users) {
    && (forall i, j, x | i in users && j in users :: Bound(users[i], x) && Bound(users[j], x) ==> i == j)
    && (forall i | i in users :: Distinct(users[i].identities))
  }

  ghost predicate Distinct<T>(s: seq<T>) {
    forall i, j :: 0 <= i < j < |s| ==> s[i] != s[j]
  }

  ghost predicate AccountsOk(users: Users) {
    KeyedById(users) && UsernamesUnique(users) && IdentitiesUnique(users)
  }

  ghost predicate HasAdmin(users: Users) { ActiveAdmins(users) != {} }

  /** Every stored session belongs to an existing active user. */
  ghost predicate SessionsOk(inner: Inner) {
    forall s :: s in inner.sessions ==>
      inner.sessions[s].userId in inner.users && Active(inner.users[inner.sessions[s].userId])
  }

  /** The table of failed logins is bounded and no record reaches the limit without being locked and reset. */
  ghost predicate AttemptsOk(attempts: map<string, Attempt>) {
    |attempts| <= MAX_ATTEMPT_RECORDS && forall k :: k in attempts ==> attempts[k].failed < MAX_FAILED
  }

  ghost predicate InnerOk(inner: Inner) {
    AccountsOk(inner.users) && SessionsOk(inner) && HasAdmin(inner.users) && AttemptsOk(inner.attempts)
  }

  /** A region is sound if it changes no user without persisting, and every state it can leave is sound. */
  ghost predicate EndingOk(inner: Inner, e: Ending) {
    match e
    case Done(i) => i.users == inner.users && InnerOk(i)
    case Persist(fallback, next) => fallback.users == inner.users && InnerOk(fallback) && InnerOk(next)
  }
}
