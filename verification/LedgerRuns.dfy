/** Whole runs of the ledger, overflowing or not: the life of attempts, idempotency keys and leases. */
module LedgerRuns {
  import opened Common
  import opened LedgerState

  datatype Op =
    | OpenRequest(h: RequestHandle, keyHash: Option<string>, fingerprint: string)
    | OpenAttempt(h: RequestHandle, attempt: string, cost: Microunits)
    | EndAttempt(a: AttemptHandle, outcome: Outcome)
    | EndRequest(h: RequestHandle, outcome: Outcome)
    | Renew(h: RequestHandle)
    | Sweep(order: seq<string>)
    | SetLimit(t: Tenant, limit: Option<Microunits>)
    | Adjust(t: Tenant, delta: int)
    | View(t: Tenant)

  datatype Timed = Timed(now: int, op: Op)

  ghost function Apply(ttl: nat, l: Ledger, now: int, op: Op): Ledger {
    match op
    case OpenRequest(h, keyHash, fingerprint) => BeginRequest(l, h, keyHash, fingerprint, now + ttl).0
    case OpenAttempt(h, attempt, cost) => BeginAttempt(l, h, attempt, cost, now + ttl).0
    case EndAttempt(a, outcome) => FinalizeAttempt(l, a, outcome).0
    case EndRequest(h, outcome) => FinalizeRequest(l, h, outcome).0
    case Renew(h) => RenewLease(l, h, now + ttl)
    case Sweep(order) => Reconcile(l, now, order).0
    case SetLimit(t, limit) => UpdateBudget(l, t, limit)
    case Adjust(t, delta) => AdjustBudget(l, t, delta).0
    case View(t) => WithAccount(l, t)
  }

  /** Generated request ids are fresh, and a sweep walks the expired attempts in some order. */
  ghost predicate Allowed(l: Ledger, now: int, op: Op) {
    && (op.OpenRequest? ==> op.h.id !in l.requests)
    && (op.Sweep? ==> Lists(op.order, ExpiredAttempts(l, now)))
  }

  /** The tenant and the request of the concrete runs. */
  const TENANT: Tenant := Tenant("o", "p", "e")
  const REQUEST: RequestHandle := RequestHandle("r", TENANT, "i")

  // ---- the life of an attempt ----

  ghost function Mentions(events: seq<Event>, attempt: string, kind: EventKind): nat {
    if events == [] then 0
    else
      var e := events[|events| - 1];
      Mentions(events[..|events| - 1], attempt, kind) + if e.attempt == Some(attempt) && e.kind == kind then 1 else 0
  }

  lemma MentionsAppended(events: seq<Event>, e: Event)
    ensures forall id, kind :: Mentions(events + [e], id, kind)
                               == Mentions(events, id, kind) + if e.attempt == Some(id) && e.kind == kind then 1 else 0
  {
    assert (events + [e])[..|events|] == events;
  }

  /** Attempts and reservations go together: an attempt is open exactly while its reservation is. */
  ghost predicate Paired(l: Ledger) {
    && l.attempts.Keys == l.reservations.Keys
    && (forall id :: id in l.attempts ==>
          var a, r := l.attempts[id], l.reservations[id];
          a.tenant == r.tenant && a.requestId == r.requestId && (a.terminal <==> !r.state.Open?))
  }

  /** Every reservation's tenant has an account. */
  ghost predicate Homed(l: Ledger) {
    forall id :: id in l.reservations ==> l.reservations[id].tenant in l.accounts
  }

  /** An attempt has one creation event, and at most one event of its end, none while it is open. */
  ghost predicate AtMostOnce(l: Ledger) {
    forall id ::
      && Mentions(l.events, id, Created) == (if id in l.reservations then 1 else 0)
      && Mentions(l.events, id, SettledEvent) + Mentions(l.events, id, ReleasedEvent)
         <= (if id in l.reservations && !l.reservations[id].state.Open? then 1 else 0)
  }

  ghost predicate Lifecycle(l: Ledger) {
    Paired(l) && Homed(l) && AtMostOnce(l)
  }

  /** The events a change of one attempt may leave: its creation, or its end, or nothing if the end failed half-way. */
  ghost predicate Tells(l: Ledger, id: string, r: Reservation, events: seq<Event>) {
    if id !in l.reservations then
      r.state.Open? && exists e :: events == l.events + [e] && e.attempt == Some(id) && e.kind == Created
    else
      && l.reservations[id].state.Open? && !r.state.Open?
      && (events == l.events ||
          exists e :: events == l.events + [e] && e.attempt == Some(id) && (e.kind == SettledEvent || e.kind == ReleasedEvent))
  }

  lemma ToldAtMostOnce(l: Ledger, l': Ledger, id: string, r: Reservation)
    requires AtMostOnce(l) && l'.reservations == l.reservations[id := r] && Tells(l, id, r, l'.events)
    ensures AtMostOnce(l')
  {
    if l'.events != l.events {
      var e :| l'.events == l.events + [e] && e.attempt == Some(id);
      MentionsAppended(l.events, e);
    }
  }

  lemma LifecycleAfterPut(l: Ledger, l': Ledger, id: string, a: Record, r: Reservation)
    requires Lifecycle(l)
    requires l'.attempts == l.attempts[id := a] && l'.reservations == l.reservations[id := r]
    requires a.tenant == r.tenant && a.requestId == r.requestId && (a.terminal <==> !r.state.Open?)
    requires l.accounts.Keys <= l'.accounts.Keys && r.tenant in l'.accounts
    requires Tells(l, id, r, l'.events)
    ensures Lifecycle(l')
  {
    ToldAtMostOnce(l, l', id, r);
  }

  /** Attempts keep their tenant, request and standing, and nothing about reservations or events changes. */
  ghost predicate SameLives(l: Ledger, l': Ledger) {
    && l'.reservations == l.reservations && l.accounts.Keys <= l'.accounts.Keys
    && l'.attempts.Keys == l.attempts.Keys
    && (forall id :: id in l.attempts ==>
          var a, a' := l.attempts[id], l'.attempts[id];
          a'.tenant == a.tenant && a'.requestId == a.requestId && a'.terminal == a.terminal)
  }

  lemma SameLivesKept(l: Ledger, l': Ledger)
    requires Lifecycle(l) && SameLives(l, l')
    requires l'.events == l.events || exists e :: l'.events == l.events + [e] && e.attempt == None
    ensures Lifecycle(l')
  {
    if l'.events != l.events {
      var e :| l'.events == l.events + [e] && e.attempt == None;
      MentionsAppended(l.events, e);
    }
  }

  lemma OpenAttemptLives(l: Ledger, h: RequestHandle, attempt: string, cost: Microunits, expires: int)
    requires Lifecycle(l)
    ensures Lifecycle(BeginAttempt(l, h, attempt, cost, expires).0)
  {
    var (l', reply) := BeginAttempt(l, h, attempt, cost, expires);
    if reply.Ok? {
      assert l'.events == l.events + [Event(h.tenant, Some(attempt), Created, cost, 0)];
      LifecycleAfterPut(l, l', attempt, l'.attempts[attempt], l'.reservations[attempt]);
    } else {
      SameLivesKept(l, l');
    }
  }

  lemma FinalizeShape(l: Ledger, h: AttemptHandle, outcome: Outcome)
    ensures var l' := FinalizeAttempt(l, h, outcome).0;
            && l'.requests == l.requests && l'.accounts.Keys == l.accounts.Keys
            && l'.attempts == if OpenInScope(l, h) then l.attempts[h.id := Finalized(l.attempts[h.id], outcome)] else l.attempts
  {
  }

  lemma EndAttemptLives(l: Ledger, h: AttemptHandle, outcome: Outcome)
    requires Lifecycle(l)
    ensures Lifecycle(FinalizeAttempt(l, h, outcome).0)
  {
    if OpenInScope(l, h) {
      assert h.id in l.attempts.Keys && h.id in l.reservations;
      var l' := FinalizeAttempt(l, h, outcome).0;
      var r := l.reservations[h.id];
      assert l'.events == l.events || l'.events == l.events + [Event(h.tenant, Some(h.id), SettledEvent, 0 - r.reserved, outcome.cost)];
      LifecycleAfterPut(l, l', h.id, l'.attempts[h.id], l'.reservations[h.id]);
    }
  }

  function Marked(l: Ledger, id: string): Ledger {
    if id in l.attempts then l.(attempts := l.attempts[id := Unreconciled(l.attempts[id])]) else l
  }

  lemma ReapOneLives(l: Ledger, id: string)
    requires Lifecycle(l) && id in l.attempts && !l.attempts[id].terminal
    ensures var l' := Release(Marked(l, id), id).0;
            && Lifecycle(l') && l'.requests == l.requests && l'.attempts == Marked(l, id).attempts
  {
    assert id in l.attempts.Keys && id in l.reservations;
    var l' := Release(Marked(l, id), id).0;
    var r := l.reservations[id];
    assert l'.events == l.events || l'.events == l.events + [Event(r.tenant, Some(id), ReleasedEvent, 0 - r.reserved, 0)];
    LifecycleAfterPut(l, l', id, l'.attempts[id], l'.reservations[id]);
  }

  ghost function Reaped(attempts: map<string, Record>, ids: seq<string>): map<string, Record> {
    map id | id in attempts :: if id in ids then Unreconciled(attempts[id]) else attempts[id]
  }

  ghost predicate Reapable(l: Ledger, order: seq<string>) {
    && (forall i, j :: 0 <= i < j < |order| ==> order[i] != order[j])
    && (forall id :: id in order ==> id in l.attempts && !l.attempts[id].terminal)
  }

  lemma ReapableRest(l: Ledger, l1: Ledger, order: seq<string>)
    requires order != [] && Reapable(l, order)
    requires l1.attempts == l.attempts[order[0] := Unreconciled(l.attempts[order[0]])]
    ensures Reapable(l1, order[1..])
    ensures Reaped(l1.attempts, order[1..]) == Reaped(l.attempts, order)
  {
    assert order == [order[0]] + order[1..];
    assert order[0] !in order[1..];
  }

  /** However far a reaping pass gets before a budget error, it keeps the life of attempts; without one it reaps exactly the list. */
  lemma {:induction false} ReapLives(l: Ledger, order: seq<string>)
    requires Lifecycle(l) && Reapable(l, order)
    ensures var (l', reply) := ReapAttempts(l, order);
            && Lifecycle(l') && l'.requests == l.requests
            && (reply == Ok ==> l'.attempts == Reaped(l.attempts, order))
    decreases |order|
  {
    if order == [] {
      assert Reaped(l.attempts, []) == l.attempts;
    } else {
      var id := order[0];
      assert id in l.attempts && !l.attempts[id].terminal;
      ReapOneLives(l, id);
      var (l1, reply) := Release(Marked(l, id), id);
      ReapableRest(l, l1, order);
      if reply.Ok? {
        ReapLives(l1, order[1..]);
      }
    }
  }

  lemma SweepLives(l: Ledger, now: int, order: seq<string>)
    requires Lifecycle(l) && Lists(order, ExpiredAttempts(l, now))
    ensures var (l', reply) := Reconcile(l, now, order);
            && Lifecycle(l')
            && (reply == Ok ==> l'.attempts == Reaped(l.attempts, order) && l'.requests == ReapRequests(l, now).requests)
  {
    assert Reapable(l, order);
    ReapLives(l, order);
    var (l1, reply) := ReapAttempts(l, order);
    if reply.Ok? {
      SameLivesKept(l1, ReapRequests(l1, now));
    }
  }

  ghost predicate MovesNoMoney(op: Op) {
    op.OpenRequest? || op.EndRequest? || op.Renew? || op.SetLimit? || op.View?
  }

  lemma OnlyLimitsAndLeases(ttl: nat, l: Ledger, now: int, op: Op)
    requires MovesNoMoney(op)
    ensures var l' := Apply(ttl, l, now, op); SameLives(l, l') && l'.events == l.events
    ensures var l' := Apply(ttl, l, now, op);
            forall t :: AccountOf(l', t).reserved == AccountOf(l, t).reserved && AccountOf(l', t).settled == AccountOf(l, t).settled
  {
  }

  lemma AdjustLives(l: Ledger, t: Tenant, delta: int)
    requires Lifecycle(l)
    ensures Lifecycle(AdjustBudget(l, t, delta).0)
  {
    var l' := AdjustBudget(l, t, delta).0;
    assert l'.events == l.events || l'.events == l.events + [Event(t, None, Adjustment, 0, delta)];
    SameLivesKept(l, l');
  }

  /** Every operation, with or without an error, keeps the life of attempts. */
  lemma LifecycleKept(ttl: nat, l: Ledger, now: int, op: Op)
    requires Lifecycle(l) && Allowed(l, now, op)
    ensures Lifecycle(Apply(ttl, l, now, op))
  {
    if MovesNoMoney(op) {
      OnlyLimitsAndLeases(ttl, l, now, op);
      SameLivesKept(l, Apply(ttl, l, now, op));
    } else {
      MoneyLives(ttl, l, now, op);
    }
  }

  lemma MoneyLives(ttl: nat, l: Ledger, now: int, op: Op)
    requires Lifecycle(l) && Allowed(l, now, op) && !MovesNoMoney(op)
    ensures Lifecycle(Apply(ttl, l, now, op))
  {
    match op
    case OpenAttempt(h, attempt, cost) => OpenAttemptLives(l, h, attempt, cost, now + ttl);
    case EndAttempt(a, outcome) => EndAttemptLives(l, a, outcome);
    case Sweep(order) => SweepLives(l, now, order);
    case Adjust(t, delta) => AdjustLives(l, t, delta);
  }

  // ---- leases and idempotency keys ----

  /** At most one request per tenant and idempotency key. */
  ghost predicate KeysUnique(l: Ledger) {
    forall i, j | i in l.requests && j in l.requests ::
      SameKey(l.requests[j], l.requests[i].record.tenant, l.requests[i].keyHash) ==> i == j
  }

  ghost predicate ChildOf(a: Record, requests: map<string, Request>) {
    && a.requestId in requests
    && InScope(requests[a.requestId].record, a.tenant, a.owner)
    && (!a.terminal && !requests[a.requestId].record.terminal ==> requests[a.requestId].record.expires <= a.expires)
  }

  /** No lease reaches past the clock plus the lifetime, and no open attempt expires before its open request. */
  ghost predicate LeasesOk(ttl: nat, l: Ledger, clock: int) {
    && (forall id :: id in l.requests ==> l.requests[id].record.expires <= clock + ttl)
    && (forall id :: id in l.attempts ==> ChildOf(l.attempts[id], l.requests))
  }

  ghost predicate NoneReopened(r: Record, r': Record) {
    && r'.tenant == r.tenant && r'.requestId == r.requestId && r'.owner == r.owner && r'.expires == r.expires
    && (r.terminal ==> r'.terminal)
  }

  /** Records may end but keep their lease: nothing is reopened, moved or extended. */
  ghost predicate OnlyEnds(l: Ledger, l': Ledger) {
    && l'.requests.Keys == l.requests.Keys && l'.attempts.Keys == l.attempts.Keys
    && (forall id :: id in l.requests ==>
          NoneReopened(l.requests[id].record, l'.requests[id].record) && l'.requests[id].keyHash == l.requests[id].keyHash)
    && (forall id :: id in l.attempts ==> NoneReopened(l.attempts[id], l'.attempts[id]))
  }

  lemma EndsKeepLeases(ttl: nat, l: Ledger, l': Ledger, clock: int, now: int)
    requires LeasesOk(ttl, l, clock) && KeysUnique(l) && clock <= now && OnlyEnds(l, l')
    ensures LeasesOk(ttl, l', now) && KeysUnique(l')
  {
    forall id | id in l'.attempts ensures ChildOf(l'.attempts[id], l'.requests) {
      assert ChildOf(l.attempts[id], l.requests);
    }
  }

  lemma EndRequestOnlyEnds(ttl: nat, l: Ledger, now: int, op: Op)
    requires op.EndRequest?
    ensures OnlyEnds(l, Apply(ttl, l, now, op))
  {
  }

  lemma EndingOps(ttl: nat, l: Ledger, now: int, op: Op)
    requires op.EndAttempt? || op.EndRequest? || op.SetLimit? || op.Adjust? || op.View?
    ensures OnlyEnds(l, Apply(ttl, l, now, op))
  {
    match op
    case EndAttempt(a, outcome) => FinalizeShape(l, a, outcome);
    case EndRequest(_, _) => EndRequestOnlyEnds(ttl, l, now, op);
    case SetLimit(t, limit) =>
    case Adjust(t, delta) =>
    case View(t) =>
  }

  lemma ReleaseKeepsRecords(l: Ledger, id: string)
    ensures Release(l, id).0.requests == l.requests && Release(l, id).0.attempts == l.attempts
  {
  }

  /** Attempts may have ended; requests are as they were. */
  ghost predicate AttemptsEnd(l: Ledger, l': Ledger) {
    && l'.requests == l.requests && l'.attempts.Keys == l.attempts.Keys
    && forall id :: id in l.attempts ==> NoneReopened(l.attempts[id], l'.attempts[id])
  }

  lemma AttemptsEndChains(l: Ledger, l1: Ledger, l2: Ledger)
    requires AttemptsEnd(l, l1) && AttemptsEnd(l1, l2)
    ensures AttemptsEnd(l, l2)
  {
    forall id | id in l.attempts ensures NoneReopened(l.attempts[id], l2.attempts[id]) {
      assert NoneReopened(l.attempts[id], l1.attempts[id]) && NoneReopened(l1.attempts[id], l2.attempts[id]);
    }
  }

  lemma {:induction false} ReapAttemptsEnd(l: Ledger, order: seq<string>)
    ensures AttemptsEnd(l, ReapAttempts(l, order).0)
    decreases |order|
  {
    if order != [] {
      var (l1, reply) := Release(Marked(l, order[0]), order[0]);
      ReleaseKeepsRecords(Marked(l, order[0]), order[0]);
      assert AttemptsEnd(l, l1);
      if reply.Ok? {
        ReapAttemptsEnd(l1, order[1..]);
        AttemptsEndChains(l, l1, ReapAttempts(l1, order[1..]).0);
      }
    }
  }

  lemma SweepOnlyEnds(l: Ledger, now: int, order: seq<string>)
    ensures OnlyEnds(l, Reconcile(l, now, order).0)
  {
    ReapAttemptsEnd(l, order);
  }

  lemma RenewKeepsLeases(ttl: nat, l: Ledger, clock: int, now: int, h: RequestHandle)
    requires LeasesOk(ttl, l, clock) && KeysUnique(l) && clock <= now
    ensures LeasesOk(ttl, RenewLease(l, h, now + ttl), now) && KeysUnique(RenewLease(l, h, now + ttl))
  {
    var l' := RenewLease(l, h, now + ttl);
    forall id | id in l'.attempts ensures ChildOf(l'.attempts[id], l'.requests) {
      assert ChildOf(l.attempts[id], l.requests);
    }
  }

  lemma RequestKeepsLeases(ttl: nat, l: Ledger, l': Ledger, clock: int, now: int, id: string, r: Request)
    requires LeasesOk(ttl, l, clock) && KeysUnique(l) && clock <= now && id !in l.requests
    requires l'.requests == l.requests[id := r] && l'.attempts == l.attempts
    requires r.record.expires <= now + ttl && !KeyUsed(l, r.record.tenant, r.keyHash)
    ensures LeasesOk(ttl, l', now) && KeysUnique(l')
  {
    forall a | a in l'.attempts ensures ChildOf(l'.attempts[a], l'.requests) {
      assert ChildOf(l.attempts[a], l.requests);
    }
    forall i, j | i in l'.requests && j in l'.requests
                  && SameKey(l'.requests[j], l'.requests[i].record.tenant, l'.requests[i].keyHash)
      ensures i == j
    {
      if i != j && j == id {
        assert SameKey(l.requests[i], r.record.tenant, r.keyHash);
      }
    }
  }

  lemma AttemptKeepsLeases(ttl: nat, l: Ledger, l': Ledger, clock: int, now: int, h: RequestHandle, attempt: string)
    requires LeasesOk(ttl, l, clock) && KeysUnique(l) && clock <= now
    requires h.id in l.requests && InScope(l.requests[h.id].record, h.tenant, h.owner)
    requires l'.requests == l.requests
    requires l'.attempts == l.attempts || l'.attempts == l.attempts[attempt := NewRecord(h.tenant, h.id, h.owner, now + ttl)]
    ensures LeasesOk(ttl, l', now) && KeysUnique(l')
  {
    forall a | a in l'.attempts ensures ChildOf(l'.attempts[a], l'.requests) {
      assert a in l.attempts ==> ChildOf(l.attempts[a], l.requests);
    }
  }

  lemma OpenRequestKeepsLeases(ttl: nat, l: Ledger, clock: int, now: int, op: Op)
    requires LeasesOk(ttl, l, clock) && KeysUnique(l) && clock <= now
    requires op.OpenRequest? && op.h.id !in l.requests
    ensures LeasesOk(ttl, Apply(ttl, l, now, op), now) && KeysUnique(Apply(ttl, l, now, op))
  {
    if KeyUsed(l, op.h.tenant, op.keyHash) {
      EndsKeepLeases(ttl, l, l, clock, now);
    } else {
      var r := Request(NewRecord(op.h.tenant, op.h.id, op.h.owner, now + ttl), op.keyHash, op.fingerprint);
      RequestKeepsLeases(ttl, l, l.(requests := l.requests[op.h.id := r]), clock, now, op.h.id, r);
    }
  }

  lemma OpenAttemptKeepsLeases(ttl: nat, l: Ledger, clock: int, now: int, h: RequestHandle, attempt: string, cost: Microunits)
    requires LeasesOk(ttl, l, clock) && KeysUnique(l) && clock <= now
    ensures var l' := BeginAttempt(l, h, attempt, cost, now + ttl).0; LeasesOk(ttl, l', now) && KeysUnique(l')
  {
    var (l', reply) := BeginAttempt(l, h, attempt, cost, now + ttl);
    if reply == Err(InvalidScope) {
      EndsKeepLeases(ttl, l, l', clock, now);
    } else {
      AttemptKeepsLeases(ttl, l, l', clock, now, h, attempt);
    }
  }

  lemma LeasesKept(ttl: nat, l: Ledger, clock: int, now: int, op: Op)
    requires LeasesOk(ttl, l, clock) && KeysUnique(l) && clock <= now && Allowed(l, now, op)
    ensures LeasesOk(ttl, Apply(ttl, l, now, op), now) && KeysUnique(Apply(ttl, l, now, op))
  {
    match op
    case OpenRequest(h, keyHash, fingerprint) => OpenRequestKeepsLeases(ttl, l, clock, now, op);
    case OpenAttempt(h, attempt, cost) => OpenAttemptKeepsLeases(ttl, l, clock, now, h, attempt, cost);
    case Renew(h) => RenewKeepsLeases(ttl, l, clock, now, h);
    case Sweep(order) =>
      SweepOnlyEnds(l, now, order);
      EndsKeepLeases(ttl, l, Apply(ttl, l, now, op), clock, now);
    case _ =>
      EndingOps(ttl, l, now, op);
      EndsKeepLeases(ttl, l, Apply(ttl, l, now, op), clock, now);
  }

  // ---- runs ----

  ghost predicate Runs(ttl: nat, l: Ledger, clock: int, run: seq<Timed>)
    decreases |run|
  {
    run == [] || (&& clock <= run[0].now && Allowed(l, run[0].now, run[0].op)
                  && Runs(ttl, Apply(ttl, l, run[0].now, run[0].op), run[0].now, run[1..]))
  }

  ghost function Exec(ttl: nat, l: Ledger, run: seq<Timed>): Ledger
    decreases |run|
  {
    if run == [] then l else Exec(ttl, Apply(ttl, l, run[0].now, run[0].op), run[1..])
  }

  ghost function ClockAfter(clock: int, run: seq<Timed>): int {
    if run == [] then clock else run[|run| - 1].now
  }

  /** Runs compose one operation at a time. */
  lemma {:induction false} OneMore(ttl: nat, l: Ledger, clock: int, run: seq<Timed>, next: Timed)
    requires Runs(ttl, l, clock, run) && ClockAfter(clock, run) <= next.now && Allowed(Exec(ttl, l, run), next.now, next.op)
    ensures Runs(ttl, l, clock, run + [next])
    ensures Exec(ttl, l, run + [next]) == Apply(ttl, Exec(ttl, l, run), next.now, next.op)
    decreases |run|
  {
    if run == [] {
      assert run + [next] == [next] && [next][1..] == [];
    } else {
      OneMore(ttl, Apply(ttl, l, run[0].now, run[0].op), run[0].now, run[1..], next);
      assert (run + [next])[1..] == run[1..] + [next] && (run + [next])[0] == run[0];
    }
  }

  ghost predicate Sound(ttl: nat, l: Ledger, clock: int) {
    Lifecycle(l) && KeysUnique(l) && LeasesOk(ttl, l, clock)
  }

  lemma {:induction false} SoundThroughout(ttl: nat, l: Ledger, clock: int, run: seq<Timed>)
    requires Sound(ttl, l, clock) && Runs(ttl, l, clock, run)
    ensures Sound(ttl, Exec(ttl, l, run), ClockAfter(clock, run))
    decreases |run|
  {
    if run != [] {
      var Timed(now, op) := run[0];
      LifecycleKept(ttl, l, now, op);
      LeasesKept(ttl, l, clock, now, op);
      SoundThroughout(ttl, Apply(ttl, l, now, op), now, run[1..]);
    }
  }

  /**
   In every run, whatever overflows: attempts and reservations have the same keys, an attempt is open exactly while its
   reservation is, it was created once in the log, and the log tells of its end at most once and only after it ended.
   */
  lemma ExactlyOnceSettlement(ttl: nat, clock: int, run: seq<Timed>, id: string)
    requires Runs(ttl, EMPTY_LEDGER, clock, run)
    ensures var l := Exec(ttl, EMPTY_LEDGER, run);
            && (id in l.attempts <==> id in l.reservations)
            && (id in l.attempts ==> (l.attempts[id].terminal <==> !l.reservations[id].state.Open?))
            && Mentions(l.events, id, Created) == (if id in l.attempts then 1 else 0)
            && Mentions(l.events, id, SettledEvent) + Mentions(l.events, id, ReleasedEvent)
               <= (if id in l.attempts && l.attempts[id].terminal then 1 else 0)
  {
    SoundThroughout(ttl, EMPTY_LEDGER, clock, run);
    var l := Exec(ttl, EMPTY_LEDGER, run);
    assert id in l.attempts.Keys <==> id in l.reservations.Keys;
  }

  /**
   In every run an idempotency key stands for one request of its tenant: using it again is refused, changes nothing,
   and the refusal tells whether that very request had the same body and whether it has ended.
   */
  lemma KeyStandsForOneRequest(ttl: nat, clock: int, run: seq<Timed>, id: string, h: RequestHandle, key: string, fingerprint: string, expires: int)
    requires Runs(ttl, EMPTY_LEDGER, clock, run)
    requires var l := Exec(ttl, EMPTY_LEDGER, run); id in l.requests && SameKey(l.requests[id], h.tenant, Some(key))
    ensures var l := Exec(ttl, EMPTY_LEDGER, run);
            BeginRequest(l, h, Some(key), fingerprint, expires)
            == (l, Err(IdempotencyConflict(l.requests[id].fingerprint == fingerprint, l.requests[id].record.terminal)))
  {
    SoundThroughout(ttl, EMPTY_LEDGER, clock, run);
    var l := Exec(ttl, EMPTY_LEDGER, run);
    assert KeyUsed(l, h.tenant, Some(key));
    forall other | other in l.requests && SameKey(l.requests[other], h.tenant, Some(key)) ensures other == id {
      assert SameKey(l.requests[other], l.requests[id].record.tenant, l.requests[id].keyHash);
    }
  }

  /** Once an attempt has ended, nothing that follows changes it or its reservation. */
  ghost predicate Ended(l: Ledger, id: string) {
    id in l.attempts && id in l.reservations && l.attempts[id].terminal && !l.reservations[id].state.Open?
  }

  lemma {:induction false} ReapLeavesEnded(l: Ledger, order: seq<string>, id: string)
    requires Ended(l, id) && id !in order
    ensures var l' := ReapAttempts(l, order).0;
            Ended(l', id) && l'.attempts[id] == l.attempts[id] && l'.reservations[id] == l.reservations[id]
    decreases |order|
  {
    if order != [] {
      assert order[0] != id;
      var (l1, reply) := Release(Marked(l, order[0]), order[0]);
      if reply.Ok? {
        ReapLeavesEnded(l1, order[1..], id);
      }
    }
  }

  lemma EndedStays(ttl: nat, l: Ledger, now: int, op: Op, id: string)
    requires Ended(l, id) && Allowed(l, now, op)
    ensures var l' := Apply(ttl, l, now, op);
            Ended(l', id) && l'.attempts[id] == l.attempts[id] && l'.reservations[id] == l.reservations[id]
  {
    if op.Sweep? {
      assert id !in ExpiredAttempts(l, now);
      ReapLeavesEnded(l, op.order, id);
    }
  }

  /** In any run at all, overflowing or not, an ended attempt and its reservation are final. */
  lemma {:induction false} EndedForGood(ttl: nat, l: Ledger, clock: int, run: seq<Timed>, id: string)
    requires Runs(ttl, l, clock, run) && Ended(l, id)
    ensures var l' := Exec(ttl, l, run);
            Ended(l', id) && l'.attempts[id] == l.attempts[id] && l'.reservations[id] == l.reservations[id]
    decreases |run|
  {
    if run != [] {
      var Timed(now, op) := run[0];
      EndedStays(ttl, l, now, op, id);
      EndedForGood(ttl, Apply(ttl, l, now, op), now, run[1..], id);
    }
  }
}
