/** Password login across its two locked regions, with arbitrary other regions in between. */
module AuthLogin {
  import opened Common
  import opened Text
  import opened AuthState
  import opened AuthReplicas

  /** What the unlocked password check concludes about the remembered candidate. */
  predicate Verified(candidate: Option<Candidate>, password: string, verify: (string, string) -> bool) {
    candidate.Some? && Active(candidate.value.user) && verify(password, candidate.value.user.passwordHash)
  }

  /** The user of that name can log in with that password in this state. */
  ghost predicate Accepts(users: Users, id: string, username: string, password: string, verify: (string, string) -> bool) {
    HasUsername(users, id, username) && Active(users[id]) && verify(password, users[id].passwordHash)
  }

  /**
   Whatever happened between the two regions, a login that goes through is for a user who, at the moment of the commit,
   exists, is active, still has that name and whose current password hash verifies; and the name is not locked out.
   */
  lemma LoginChecksTheCurrentPassword(
    first: Inner, first': Inner, second: Inner, username: string, password: string, verify: (string, string) -> bool,
    locked: bool, candidate: Option<Candidate>, now: nat, token: string, expires: nat, victim: string)
    requires LoginStarts(first, username, now, first', locked, candidate)
    ensures var e := LoginFinish(second, username, candidate, Verified(candidate, password, verify), now, token, expires, victim);
            e.Persist? ==>
              && token in e.next.sessions
              && Accepts(second.users, e.next.sessions[token].userId, username, password, verify)
              && !Locked(second, username, now)
  {
    var e := LoginFinish(second, username, candidate, Verified(candidate, password, verify), now, token, expires, victim);
    if e.Persist? {
      assert second.users[candidate.value.id].passwordHash == candidate.value.user.passwordHash;
    }
  }

  /** Without a race, login goes through exactly when the name is not locked out and its user accepts the password. */
  lemma LoginGoesThroughExactlyWhen(
    inner: Inner, inner': Inner, username: string, password: string, verify: (string, string) -> bool,
    locked: bool, candidate: Option<Candidate>, now: nat, token: string, expires: nat, victim: string)
    requires UsernamesUnique(inner.users)
    requires LoginStarts(inner, username, now, inner', locked, candidate)
    ensures (!locked && LoginFinish(inner', username, candidate, Verified(candidate, password, verify), now, token, expires, victim).Persist?) <==>
            (!Locked(inner, username, now) && exists id :: Accepts(inner.users, id, username, password, verify))
  {
    assert Locked(inner', username, now) == Locked(inner, username, now);
    if !locked && candidate.Some? {
      var c := candidate.value;
      forall id | HasUsername(inner.users, id, username) ensures id == c.id {
        assert SameIgnoringCase(inner.users[id].username, inner.users[c.id].username);
      }
      if Verified(candidate, password, verify) {
        assert Accepts(inner.users, c.id, username, password, verify);
      }
    }
  }

  // ---- lockout ----

  /** What one region may do to the table of failed logins. */
  datatype TableStep = Leave | Expire(now: nat) | Note(name: string, now: nat, victim: string) | Clear(name: string)

  function After(attempts: map<string, Attempt>, step: TableStep): map<string, Attempt> {
    match step
    case Leave => attempts
    case Expire(now) => PrunedAttempts(attempts, now)
    case Note(name, now, victim) => FailedLogin(attempts, name, now, victim)
    case Clear(name) => attempts - {name}
  }

  function StepOf(inner: Inner, region: Region): TableStep {
    match region
    case LoginStart(_, now) => Expire(now)
    case LoginEnd(name, candidate, verified, now, _, _, victim) =>
      if candidate.None? || !verified || !StillCurrent(Pruned(inner, now), name, candidate.value) then Note(name, now, victim)
      else if Locked(inner, name, now) then Leave
      else Clear(name)
    case _ => Leave
  }

  /** Every region changes the table by its step, whether or not its save goes through. */
  lemma RegionsStepTheTable(inner: Inner, region: Region)
    ensures match Run(inner, region)
            case Done(i) => i.attempts == After(inner.attempts, StepOf(inner, region))
            case Persist(fallback, next) =>
              fallback.attempts == After(inner.attempts, StepOf(inner, region)) && next.attempts == After(inner.attempts, StepOf(inner, region))
  {
  }

  function AfterAll(attempts: map<string, Attempt>, steps: seq<TableStep>): map<string, Attempt>
    decreases |steps|
  {
    if steps == [] then attempts else AfterAll(After(attempts, steps[0]), steps[1..])
  }

  /** No step in between drops the name's record: it does not expire, is not evicted from a full table and not cleared by a login. */
  ghost predicate NeverDropped(attempts: map<string, Attempt>, steps: seq<TableStep>, name: string)
    decreases |steps|
  {
    steps == [] ||
    ((name in attempts ==> name in After(attempts, steps[0])) && NeverDropped(After(attempts, steps[0]), steps[1..], name))
  }

  function RecordOf(attempts: map<string, Attempt>, name: string): Attempt {
    if name in attempts then attempts[name] else Attempt(0, 0, 0)
  }

  /** The times of the name's own failures. */
  function OwnTimes(steps: seq<TableStep>, name: string): seq<nat>
    decreases |steps|
  {
    if steps == [] then []
    else (if steps[0].Note? && steps[0].name == name then [steps[0].now] else []) + OwnTimes(steps[1..], name)
  }

  function Failures(a: Attempt, times: seq<nat>): Attempt
    decreases |times|
  {
    if times == [] then a else Failures(Failed(a, times[0]), times[1..])
  }

  /** A record that is not dropped counts the name's own failures and nothing else. */
  lemma {:induction false} RecordCountsOwnFailures(attempts: map<string, Attempt>, steps: seq<TableStep>, name: string)
    requires NeverDropped(attempts, steps, name)
    ensures RecordOf(AfterAll(attempts, steps), name) == Failures(RecordOf(attempts, name), OwnTimes(steps, name))
    decreases |steps|
  {
    if steps != [] {
      var next := After(attempts, steps[0]);
      RecordCountsOwnFailures(next, steps[1..], name);
      if steps[0].Note? && steps[0].name == name {
        var own := OwnTimes(steps, name);
        assert own[0] == steps[0].now && own[1..] == OwnTimes(steps[1..], name);
        assert RecordOf(next, name) == Failed(RecordOf(attempts, name), steps[0].now);
      } else {
        assert OwnTimes(steps, name) == OwnTimes(steps[1..], name);
        assert RecordOf(next, name) == RecordOf(attempts, name);
      }
    }
  }

  lemma {:induction false} LimitReached(a: Attempt, times: seq<nat>)
    requires a.failed < MAX_FAILED && |times| == MAX_FAILED - a.failed
    ensures Failures(a, times) == Attempt(0, SatAdd(times[|times| - 1], LOCKOUT_MS), times[|times| - 1])
    decreases |times|
  {
    if |times| > 1 {
      LimitReached(Failed(a, times[0]), times[1..]);
    } else {
      assert times[1..] == [];
    }
  }

  /**
   On the real table, with other names failing, expiring and being evicted in between: the failure that completes five
   of a name locks it for fifteen minutes from that failure, if the name's record was not dropped on the way.
   */
  lemma FiveFailuresLock(attempts: map<string, Attempt>, steps: seq<TableStep>, name: string)
    requires NeverDropped(attempts, steps, name) && RecordOf(attempts, name).failed < MAX_FAILED
    requires |OwnTimes(steps, name)| == MAX_FAILED - RecordOf(attempts, name).failed
    ensures var times := OwnTimes(steps, name);
            RecordOf(AfterAll(attempts, steps), name) == Attempt(0, SatAdd(times[|times| - 1], LOCKOUT_MS), times[|times| - 1])
  {
    RecordCountsOwnFailures(attempts, steps, name);
    LimitReached(RecordOf(attempts, name), OwnTimes(steps, name));
  }

  /** No step drops the name's record while it counts failures. */
  ghost predicate NeverLoses(attempts: map<string, Attempt>, steps: seq<TableStep>, name: string)
    decreases |steps|
  {
    steps == [] ||
    (&& (RecordOf(attempts, name).failed > 0 ==> name in After(attempts, steps[0]))
     && NeverLoses(After(attempts, steps[0]), steps[1..], name))
  }

  lemma StepOnRecord(attempts: map<string, Attempt>, step: TableStep, name: string)
    ensures var was, now := RecordOf(attempts, name), RecordOf(After(attempts, step), name);
            if step.Note? && step.name == name then now == Failed(was, step.now) && name in After(attempts, step)
            else now == if name in After(attempts, step) then was else Attempt(0, 0, 0)
  {
  }

  /** Short of the limit, a record counts at most the name's own failures, and all of them exactly if none was lost. */
  lemma {:induction false} CountsAllUnlessLost(attempts: map<string, Attempt>, steps: seq<TableStep>, name: string)
    requires RecordOf(attempts, name).failed + |OwnTimes(steps, name)| < MAX_FAILED
    ensures var count, all := RecordOf(AfterAll(attempts, steps), name).failed, RecordOf(attempts, name).failed + |OwnTimes(steps, name)|;
            count <= all && (count == all <==> NeverLoses(attempts, steps, name))
    decreases |steps|
  {
    if steps != [] {
      StepOnRecord(attempts, steps[0], name);
      CountsAllUnlessLost(After(attempts, steps[0]), steps[1..], name);
    }
  }

  /** The fifth failure of a name locks it for fifteen minutes exactly when no step before dropped its record with failures in it. */
  lemma FifthFailureLocksExactlyWhen(attempts: map<string, Attempt>, steps: seq<TableStep>, name: string, now: nat, victim: string)
    requires RecordOf(attempts, name).failed + |OwnTimes(steps, name)| == MAX_FAILED - 1
    ensures RecordOf(After(AfterAll(attempts, steps), Note(name, now, victim)), name) == Attempt(0, SatAdd(now, LOCKOUT_MS), now) <==>
            NeverLoses(attempts, steps, name)
  {
    CountsAllUnlessLost(attempts, steps, name);
    StepOnRecord(AfterAll(attempts, steps), Note(name, now, victim), name);
  }

  // ---- a full table forgets ----

  /** Whatever a full table drops is a record with the oldest attempt. */
  ghost predicate Real(attempts: map<string, Attempt>, steps: seq<TableStep>)
    decreases |steps|
  {
    steps == [] ||
    (&& (steps[0].Note? && Evicts(attempts, steps[0].name) ==> Oldest(attempts, steps[0].victim))
     && Real(After(attempts, steps[0]), steps[1..]))
  }

  lemma {:induction false} TimesAppended(steps: seq<TableStep>, next: TableStep, name: string)
    ensures |OwnTimes(steps + [next], name)| == |OwnTimes(steps, name)| + if next.Note? && next.name == name then 1 else 0
    decreases |steps|
  {
    if steps == [] {
      assert steps + [next] == [next] && [next][1..] == [];
    } else {
      TimesAppended(steps[1..], next, name);
      assert (steps + [next])[0] == steps[0] && (steps + [next])[1..] == steps[1..] + [next];
    }
  }

  lemma {:induction false} StepsAppended(attempts: map<string, Attempt>, steps: seq<TableStep>, next: TableStep)
    requires Real(attempts, steps)
    requires var now := AfterAll(attempts, steps); next.Note? && Evicts(now, next.name) ==> Oldest(now, next.victim)
    ensures Real(attempts, steps + [next])
    ensures AfterAll(attempts, steps + [next]) == After(AfterAll(attempts, steps), next)
    decreases |steps|
  {
    if steps == [] {
      assert steps + [next] == [next] && [next][1..] == [];
    } else {
      StepsAppended(After(attempts, steps[0]), steps[1..], next);
      assert (steps + [next])[0] == steps[0] && (steps + [next])[1..] == steps[1..] + [next];
    }
  }

  lemma OneStepMore(attempts: map<string, Attempt>, steps: seq<TableStep>, next: TableStep, name: string)
    requires Real(attempts, steps)
    requires var now := AfterAll(attempts, steps); next.Note? && Evicts(now, next.name) ==> Oldest(now, next.victim)
    ensures Real(attempts, steps + [next])
    ensures AfterAll(attempts, steps + [next]) == After(AfterAll(attempts, steps), next)
    ensures |OwnTimes(steps + [next], name)| == |OwnTimes(steps, name)| + if next.Note? && next.name == name then 1 else 0
  {
    TimesAppended(steps, next, name);
    StepsAppended(attempts, steps, next);
  }

  /** Names that are all different, and different from the given one. */
  function Other(name: string, i: nat): (other: string)
    ensures |other| == |name| + 1 + i
  {
    seq(|name| + 1 + i, _ => 'x')
  }

  /** The name has one failure less than locks it, all at time 0, and `n` other names have failed at time 1. */
  ghost predicate Crowded(attempts: map<string, Attempt>, name: string, n: nat) {
    && |attempts| == n + 1 && name in attempts && attempts[name] == Attempt(MAX_FAILED - 1, 0, 0)
    && forall k :: k in attempts && k != name ==> |name| < |k| <= |name| + n && attempts[k].last == 1
  }

  lemma OneMoreInTheCrowd(attempts: map<string, Attempt>, name: string, n: nat)
    requires Crowded(attempts, name, n) && n + 1 < MAX_ATTEMPT_RECORDS
    ensures Crowded(After(attempts, Note(Other(name, n), 1, "")), name, n + 1)
  {
    assert Other(name, n) !in attempts;
  }

  lemma {:induction false} AlmostLocked(name: string, n: nat) returns (steps: seq<TableStep>)
    requires n <= MAX_FAILED - 1
    ensures Real(map[], steps) && |OwnTimes(steps, name)| == n
    ensures AfterAll(map[], steps) == if n == 0 then map[] else map[name := Attempt(n, 0, 0)]
  {
    if n == 0 {
      steps := [];
    } else {
      steps := AlmostLocked(name, n - 1);
      OneStepMore(map[], steps, Note(name, 0, ""), name);
      steps := steps + [Note(name, 0, "")];
    }
  }

  lemma {:induction false} Crowd(name: string, n: nat) returns (steps: seq<TableStep>)
    requires n < MAX_ATTEMPT_RECORDS
    ensures Real(map[], steps) && |OwnTimes(steps, name)| == MAX_FAILED - 1 && Crowded(AfterAll(map[], steps), name, n)
  {
    if n == 0 {
      steps := AlmostLocked(name, MAX_FAILED - 1);
    } else {
      steps := Crowd(name, n - 1);
      OneMoreInTheCrowd(AfterAll(map[], steps), name, n - 1);
      OneStepMore(map[], steps, Note(Other(name, n - 1), 1, ""), name);
      steps := steps + [Note(Other(name, n - 1), 1, "")];
    }
  }

  /**
   From the empty table, for every name: after four failures of the name so many others fail that the full table drops
   its record, and the fifth failure counts as the first and locks nothing.
   */
  lemma FiveFailuresForgotten(name: string) returns (steps: seq<TableStep>)
    ensures Real(map[], steps) && |OwnTimes(steps, name)| == MAX_FAILED
    ensures RecordOf(AfterAll(map[], steps), name) == Attempt(1, 0, 1)
    ensures !NeverDropped(map[], steps, name)
  {
    var n := MAX_ATTEMPT_RECORDS - 1;
    steps := Crowd(name, n);
    var full := AfterAll(map[], steps);
    var other := Note(Other(name, n), 1, name);
    assert Oldest(full, name) && Other(name, n) !in full;
    OneStepMore(map[], steps, other, name);
    steps := steps + [other];
    var after := After(full, other);
    StillFull(full, name, n);
    assert Oldest(after, Other(name, n));
    var own := Note(name, 1, Other(name, n));
    OneStepMore(map[], steps, own, name);
    steps := steps + [own];
    if NeverDropped(map[], steps, name) {
      FiveFailuresLock(map[], steps, name);
      assert false;
    }
  }

  lemma StillFull(full: map<string, Attempt>, name: string, n: nat)
    requires Crowded(full, name, n) && n == MAX_ATTEMPT_RECORDS - 1
    ensures var after := After(full, Note(Other(name, n), 1, name));
            name !in after && Other(name, n) in after && forall k :: k in after ==> after[k].last == 1
  {
  }

  // ---- federated login ----

  /** The only account an identity may be bound to without an administrator: ordinary, active, and bound to nothing yet. */
  predicate MayBind(u: User) { u.role != "admin" && Active(u) && u.identities == [] }

  /** The account a federated login is for, before anything is changed. */
  ghost predicate Owner(users: Users, c: Claims, id: string) {
    || (BoundUsers(users, c.identity) == {id} && id in users && Active(users[id]))
    || (BoundUsers(users, c.identity) == {} && c.verified && c.email.Some? && EmailUsers(users, c.email.value) == {id}
        && id in users && MayBind(users[id]))
  }

  lemma OnlyMember(s: set<string>, id: string)
    requires id in s && |s| <= 1
    ensures s == {id}
  {
    assert |s - {id}| == |s| - 1;
    assert s - {id} == {};
  }

  /** A federated login that signs somebody in does so for the owner, who then holds the identity; no other user is touched. */
  lemma FederatedSignsInTheOwner(inner: Inner, c: Claims, now: nat, token: string, expires: nat)
    ensures var r := FederatedFirst(inner, c, now, token, expires);
            r.Ends? && r.ending.Persist? ==>
              && token in r.ending.next.sessions
              && var id := r.ending.next.sessions[token].userId;
                 && Owner(inner.users, c, id)
                 && id in r.ending.next.users && Bound(r.ending.next.users[id], c.identity)
                 && forall other :: other in inner.users && other != id ==>
                      other in r.ending.next.users && r.ending.next.users[other] == inner.users[other]
  {
    var r := FederatedFirst(inner, c, now, token, expires);
    if r.Ends? && r.ending.Persist? {
      var id := r.ending.next.sessions[token].userId;
      var bound := BoundUsers(inner.users, c.identity);
      if bound != {} {
        assert id in bound;
        OnlyMember(bound, id);
      } else {
        OnlyMember(EmailUsers(inner.users, c.email.value), id);
      }
    }
  }

  /** And it signs somebody in whenever there is such an owner. */
  lemma OwnerIsSignedIn(inner: Inner, c: Claims, id: string, now: nat, token: string, expires: nat)
    requires Owner(inner.users, c, id)
    ensures var r := FederatedFirst(inner, c, now, token, expires);
            r.Ends? && r.ending.Persist? && token in r.ending.next.sessions && r.ending.next.sessions[token].userId == id
  {
    var bound := BoundUsers(inner.users, c.identity);
    assert bound == {id} ==> forall x :: x in bound ==> x == id;
    if bound == {} {
      assert forall x :: x in EmailUsers(inner.users, c.email.value) ==> x == id;
    }
  }

  /** Changing a password, or deactivating or deleting an account, leaves none of its sessions. */
  lemma SessionsEnd(inner: Inner, id: string, current: string, c: Change, now: nat, s: string)
    ensures var e := UpdateUser(inner, id, current, c, now);
            e.Persist? && (c.hash.Some? || !Active(e.next.users[id])) && s in e.next.sessions ==> e.next.sessions[s].userId != id
    ensures var e := DeleteUser(inner, id, current);
            e.Persist? && s in e.next.sessions ==> e.next.sessions[s].userId != id
  {
  }
}
