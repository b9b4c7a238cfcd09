/** The mutable in-memory ledger; each method is one locked operation and realises the function it names. */
module LedgerMemory {
  import opened Common
  import opened LedgerState

  class MemoryLedger {
    var requests: map<string, Request>
    var attempts: map<string, Record>
    var accounts: map<Tenant, Account>
    var reservations: map<string, Reservation>
    var events: seq<Event>

    ghost function Model(): Ledger
      reads this
    {
      Ledger(requests, attempts, accounts, reservations, events)
    }

    constructor ()
      ensures Model() == EMPTY_LEDGER
    {
      requests, attempts, accounts, reservations, events := map[], map[], map[], map[], [];
    }

    /** A used key is answered from some request that carries it, and then nothing changes. */
    method OpenRequest(h: RequestHandle, keyHash: Option<string>, fingerprint: string, expires: int) returns (reply: Reply)
      modifies this
      ensures !KeyUsed(old(Model()), h.tenant, keyHash) ==>
                (Model(), reply) == BeginRequest(old(Model()), h, keyHash, fingerprint, expires)
      ensures KeyUsed(old(Model()), h.tenant, keyHash) ==>
                && Model() == old(Model())
                && exists id | id in requests && SameKey(requests[id], h.tenant, keyHash) ::
                     reply == Err(IdempotencyConflict(requests[id].fingerprint == fingerprint, requests[id].record.terminal))
    {
      if id :| id in requests && keyHash.Some? && requests[id].record.tenant == h.tenant && requests[id].keyHash == keyHash {
        assert SameKey(requests[id], h.tenant, keyHash);
        return Err(IdempotencyConflict(requests[id].fingerprint == fingerprint, requests[id].record.terminal));
      }
      requests := requests[h.id := Request(NewRecord(h.tenant, h.id, h.owner, expires), keyHash, fingerprint)];
      reply := Ok;
    }

    method EndRequest(h: RequestHandle, outcome: Outcome) returns (reply: Reply)
      modifies this
      ensures (Model(), reply) == FinalizeRequest(old(Model()), h, outcome)
    {
      if h.id !in requests || !InScope(requests[h.id].record, h.tenant, h.owner) {
        return Err(MissingRecord);
      }
      var request := requests[h.id];
      requests := requests[h.id := request.(record := Finalized(request.record, outcome))];
      reply := Ok;
    }

    method EnsureAccount(t: Tenant)
      modifies this
      ensures Model() == WithAccount(old(Model()), t)
      ensures t in accounts && accounts[t] == AccountOf(old(Model()), t)
    {
      if t !in accounts {
        accounts := accounts[t := NEW_ACCOUNT];
      }
      assert accounts == old(accounts)[t := AccountOf(old(Model()), t)];
    }

    method OpenAttempt(h: RequestHandle, attempt: string, cost: Microunits, expires: int) returns (reply: Reply)
      modifies this
      ensures (Model(), reply) == BeginAttempt(old(Model()), h, attempt, cost, expires)
    {
      if h.id !in requests || !InScope(requests[h.id].record, h.tenant, h.owner) || requests[h.id].record.terminal {
        return Err(InvalidScope);
      }
      if attempt in attempts || attempt in reservations {
        return Err(AttemptExists);
      }
      EnsureAccount(h.tenant);
      var a := accounts[h.tenant];
      if OverLimit(a, cost) {
        return Err(BudgetExceeded(QuotedAvailable(a), cost));
      }
      accounts := accounts[h.tenant := Bumped(a.(reserved := Saturate(a.reserved + cost)))];
      assert accounts == old(accounts)[h.tenant := accounts[h.tenant]];
      attempts := attempts[attempt := NewRecord(h.tenant, h.id, h.owner, expires)];
      reservations := reservations[attempt := Reservation(h.tenant, h.id, cost, 0, Open)];
      events := events + [Event(h.tenant, Some(attempt), Created, cost, 0)];
      reply := Ok;
    }

    method SettleBudget(attempt: string, tenant: Tenant, cost: Microunits) returns (reply: Reply)
      modifies this
      ensures (Model(), reply) == Settle(old(Model()), attempt, tenant, cost)
    {
      if attempt !in reservations {
        return Err(MissingReservation);
      }
      var r := reservations[attempt];
      if !r.state.Open? {
        return Ok;
      }
      reservations := reservations[attempt := r.(state := Settled, settled := cost)];
      if tenant !in accounts {
        return Err(MissingAccount);
      }
      if !Fits64(accounts[tenant].reserved - r.reserved) {
        return Err(ReservedUnderflow);
      }
      accounts := accounts[tenant := accounts[tenant].(reserved := accounts[tenant].reserved - r.reserved)];
      if !Fits64(accounts[tenant].settled + cost) {
        return Err(SettledOverflow);
      }
      accounts := accounts[tenant := Bumped(accounts[tenant].(settled := accounts[tenant].settled + cost))];
      assert accounts == old(accounts)[tenant := accounts[tenant]];
      events := events + [Event(tenant, Some(attempt), SettledEvent, 0 - r.reserved, cost)];
      reply := Ok;
    }

    method ReleaseBudget(attempt: string) returns (reply: Reply)
      modifies this
      ensures (Model(), reply) == Release(old(Model()), attempt)
    {
      if attempt !in reservations {
        return Err(MissingReservation);
      }
      var r := reservations[attempt];
      if !r.state.Open? {
        return Ok;
      }
      reservations := reservations[attempt := r.(state := Released)];
      if r.tenant !in accounts {
        return Err(MissingAccount);
      }
      if !Fits64(accounts[r.tenant].reserved - r.reserved) {
        return Err(ReservedUnderflow);
      }
      accounts := accounts[r.tenant := Bumped(accounts[r.tenant].(reserved := accounts[r.tenant].reserved - r.reserved))];
      events := events + [Event(r.tenant, Some(attempt), ReleasedEvent, 0 - r.reserved, 0)];
      reply := Ok;
    }

    method EndAttempt(h: AttemptHandle, outcome: Outcome) returns (reply: Reply)
      modifies this
      ensures (Model(), reply) == FinalizeAttempt(old(Model()), h, outcome)
    {
      if h.id !in attempts || !InScope(attempts[h.id], h.tenant, h.owner) {
        return Err(MissingRecord);
      }
      if attempts[h.id].terminal {
        return Ok;
      }
      attempts := attempts[h.id := Finalized(attempts[h.id], outcome)];
      reply := SettleBudget(h.id, h.tenant, outcome.cost);
    }

    method SetLimit(t: Tenant, limit: Option<Microunits>)
      modifies this
      ensures Model() == UpdateBudget(old(Model()), t, limit)
    {
      EnsureAccount(t);
      accounts := accounts[t := Bumped(accounts[t].(limit := limit))];
    }

    method Adjust(t: Tenant, delta: int) returns (reply: Reply)
      modifies this
      ensures (Model(), reply) == AdjustBudget(old(Model()), t, delta)
    {
      EnsureAccount(t);
      var settled := accounts[t].settled + delta;
      if !Fits64(settled) || settled < 0 {
        return Err(NegativeSettled);
      }
      accounts := accounts[t := Bumped(accounts[t].(settled := settled))];
      assert accounts == old(accounts)[t := accounts[t]];
      events := events + [Event(t, None, Adjustment, 0, delta)];
      reply := Ok;
    }

    method Renew(h: RequestHandle, expires: int)
      modifies this
      ensures Model() == RenewLease(old(Model()), h, expires)
    {
      if h.id in requests && Renews(requests[h.id].record, h) {
        requests := requests[h.id := requests[h.id].(record := requests[h.id].record.(expires := expires))];
      }
      ghost var target := RenewLease(old(Model()), h, expires).attempts;
      var todo := attempts.Keys;
      while todo != {}
        invariant todo <= attempts.Keys == old(attempts).Keys
        invariant requests == RenewLease(old(Model()), h, expires).requests
        invariant Model() == old(Model()).(requests := requests, attempts := attempts)
        invariant forall id :: id in attempts ==> attempts[id] == if id in todo then old(attempts)[id] else target[id]
        decreases todo
      {
        var id :| id in todo;
        if attempts[id].requestId == h.id && Renews(attempts[id], h) {
          attempts := attempts[id := attempts[id].(expires := expires)];
        }
        todo := todo - {id};
      }
      assert attempts == target;
    }

    /** Walks the expired attempts in whatever order the map yields; `order` is that order. */
    method Sweep(now: int) returns (ghost order: seq<string>, reply: Reply)
      modifies this
      ensures Lists(order, ExpiredAttempts(old(Model()), now))
      ensures (Model(), reply) == Reconcile(old(Model()), now, order)
    {
      var todo := set id | id in attempts && Expired(attempts[id], now);
      var ids := ListOf(todo);
      order := ids;
      var i := 0;
      assert ids[0..] == ids;
      while i < |ids|
        invariant 0 <= i <= |ids|
        invariant ReapAttempts(Model(), ids[i..]) == ReapAttempts(old(Model()), ids)
      {
        assert ids[i..][1..] == ids[i + 1..];
        if ids[i] in attempts {
          attempts := attempts[ids[i] := Unreconciled(attempts[ids[i]])];
        }
        reply := ReleaseBudget(ids[i]);
        if reply.Err? {
          return;
        }
        i := i + 1;
      }
      label reaped:
      ghost var target := ReapRequests(Model(), now).requests;
      var open := requests.Keys;
      while open != {}
        invariant open <= requests.Keys == old@reaped(requests).Keys
        invariant Model() == old@reaped(Model()).(requests := requests)
        invariant forall id :: id in requests ==> requests[id] == if id in open then old@reaped(requests)[id] else target[id]
        decreases open
      {
        var id :| id in open;
        if Expired(requests[id].record, now) {
          requests := requests[id := requests[id].(record := Unreconciled(requests[id].record))];
        }
        open := open - {id};
      }
      assert requests == target;
      reply := Ok;
    }
  }

  method ListOf(ids: set<string>) returns (order: seq<string>)
    ensures Lists(order, ids)
  {
    order := [];
    var todo := ids;
    while todo != {}
      invariant todo <= ids
      invariant Lists(order, ids - todo)
      decreases todo
    {
      var id :| id in todo;
      order := order + [id];
      todo := todo - {id};
    }
  }
}
