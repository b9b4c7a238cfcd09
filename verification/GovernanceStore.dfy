/** The governance store as it runs: one document behind a lock, saved through compare-and-swap or put back. */
module GovernanceStore {
  import opened Common
  import opened Versioned
  import opened Json
  import opened GovernancePolicy
  import opened GovernanceState
  import opened GovernanceRuns

  class Store {
    const stored: Document<Governance>
    const outside: Outside
    var policies: map<string, Policy>
    var requests: map<string, Request>
    var revision: nat
    var degraded: bool

    constructor (stored: Document<Governance>, outside: Outside)
      requires stored.history != []
      ensures this.stored == stored && this.outside == outside
      ensures AsReplica() == Replica(stored.history[|stored.history| - 1], |stored.history| - 1, false)
    {
      this.stored := stored;
      this.outside := outside;
      policies := stored.history[|stored.history| - 1].policies;
      requests := stored.history[|stored.history| - 1].requests;
      revision := |stored.history| - 1;
      degraded := false;
    }

    function AsDocument(): Governance
      reads this
    {
      Governance(policies, requests)
    }

    function AsReplica(): Replica
      reads this
    {
      Replica(AsDocument(), revision, degraded)
    }

    /** The replica and the stored document are those that this ending, saved with this fate, leads to. */
    ghost predicate Settles(was: Replica, history: seq<Governance>, e: Ending, fate: Fate)
      reads this, stored
    {
      var saved := Written(history, was, e, fate);
      stored.history == saved.history && AsReplica() == SettledReplica(was, e, saved.ok)
    }

    method SaveOrRestore(previous: Governance, fate: Fate) returns (ok: bool)
      modifies this, stored
      ensures Settles(old(AsReplica()).(document := previous), old(stored.history), Commit(old(AsDocument())), fate)
      ensures ok <==> Save(old(stored.history), old(revision), old(AsDocument()), fate).ok
    {
      ok := stored.CompareAndSwap(revision, AsDocument(), fate);
      if ok {
        revision := revision + 1;
      }
      degraded := !ok;
      if !ok {
        policies, requests := previous.policies, previous.requests;
      }
    }

    method CreateRequest(id: string, actor: string, input: Input, now: nat, fate: Fate) returns (ok: bool)
      modifies this, stored
      ensures var e := Create(outside, old(AsDocument()), id, actor, input, now);
              && Settles(old(AsReplica()), old(stored.history), e, fate)
              && (ok <==> Committed(old(stored.history), old(AsReplica()), e, fate))
    {
      if !ValidInput(outside, input) {
        return false;
      }
      var previous := AsDocument();
      requests := requests[id := NewRequest(outside, id, actor, input, now)];
      ok := SaveOrRestore(previous, fate);
    }

    method HasApproved(r: Request, actor: string) returns (found: bool)
      ensures found == ApprovedBy(r, actor)
    {
      for k := 0 to |r.approvals|
        invariant forall i :: 0 <= i < k ==> r.approvals[i].actor != actor
      {
        if r.approvals[k].actor == actor {
          return true;
        }
      }
      found := false;
    }

    method ApproveRequest(id: string, actor: string, now: nat, fate: Fate) returns (ok: bool)
      modifies this, stored
      ensures var e := Approve(old(AsDocument()), id, actor, now);
              && Settles(old(AsReplica()), old(stored.history), e, fate)
              && (ok <==> Committed(old(stored.history), old(AsReplica()), e, fate))
    {
      if id !in requests {
        return false;
      }
      var request := requests[id];
      if request.status == APPLIED {
        return false;
      }
      var same := HasApproved(request, actor);
      if same {
        return false;
      }
      var previous := AsDocument();
      request := request.(approvals := request.approvals + [Approval(actor, now)]);
      request := request.(status := APPROVED, updatedAt := now);
      requests := requests[id := request];
      ok := SaveOrRestore(previous, fate);
    }

    method ApprovedChange(id: string) returns (request: Option<Request>)
      ensures request == if Cleared(AsDocument(), id) then Some(requests[id]) else None
    {
      if id !in requests {
        return None;
      }
      if requests[id].status != APPROVED || |requests[id].approvals| < 2 {
        return None;
      }
      request := Some(requests[id]);
    }

    method VerifyApprovedChange(id: string, action: string, target: string, payload: Json) returns (ok: bool)
      ensures ok == Verifies(outside, AsDocument(), id, action, target, payload)
    {
      var request := ApprovedChange(id);
      if request.None? {
        return false;
      }
      var r := request.value;
      ok := r.action == action && r.target == target && r.payloadHash == outside.hash(payload);
    }

    method MarkChangeApplied(id: string, now: nat, fate: Fate) returns (ok: bool)
      modifies this, stored
      ensures var e := MarkApplied(old(AsDocument()), id, now);
              && Settles(old(AsReplica()), old(stored.history), e, fate)
              && (ok <==> Committed(old(stored.history), old(AsReplica()), e, fate))
    {
      var request := ApprovedChange(id);
      if request.None? {
        return false;
      }
      var previous := AsDocument();
      requests := requests[id := MarkedApplied(request.value, now)];
      ok := SaveOrRestore(previous, fate);
    }

    /** The part of applying a policy before the second lock. */
    method ReadApprovedPolicy(id: string) returns (policy: Option<Policy>)
      ensures policy == CheckPolicy(outside, AsDocument(), id)
    {
      var request := ApprovedChange(id);
      if request.None? {
        return None;
      }
      if request.value.action != POLICY_UPSERT {
        return None;
      }
      policy := outside.decode(request.value.payload);
      if policy.None? {
        return None;
      }
      var valid := ValidatePolicy(outside.bytes, policy.value);
      if !valid {
        return None;
      }
    }

    /** The part under the second lock; the early return keeps what was already written. */
    method WriteApprovedPolicy(id: string, p: Policy, actor: string, now: nat, fate: Fate) returns (ok: bool)
      modifies this, stored
      ensures var e := WritePolicy(old(AsDocument()), id, p, actor, now);
              && Settles(old(AsReplica()), old(stored.history), e, fate)
              && (ok <==> Committed(old(stored.history), old(AsReplica()), e, fate))
    {
      var policy := p.(updatedBy := actor, updatedAt := now);
      var previous := AsDocument();
      policies := policies[PolicyKey(policy.tenant) := policy];
      if id !in requests {
        return false;
      }
      requests := requests[id := MarkedApplied(requests[id], now)];
      ok := SaveOrRestore(previous, fate);
    }

    method PolicyFor(t: Tenant) returns (p: Policy)
      ensures p == EffectivePolicy(AsDocument(), t)
    {
      if PolicyKey(t) in policies {
        return policies[PolicyKey(t)];
      }
      p := FailClosed(t);
    }
  }
}
