/** High-risk changes need two administrators: what each locked region of the governance store does to its document. */
module GovernanceState {
  import opened Common
  import opened Text
  import opened Json
  import opened GovernancePolicy

  const PENDING := "pending_second_approval"
  const APPROVED := "approved"
  const APPLIED := "applied"
  const POLICY_UPSERT := "project_policy.upsert"

  const SUPPORTED: seq<string> := [
    "project_policy.upsert", "provider.allowlist_change", "routing.cloud_first", "budget.hard_limit", "identity.permission",
    "model.production_promotion", "data_egress.change", "database.major_migration", "secret.rotation"]

  datatype Approval = Approval(actor: string, at: nat)

  datatype Request = Request(
    id: string,
    action: string,
    target: string,
    payload: Json,
    payloadHash: string,
    reason: string,
    status: string,
    requestedBy: string,
    approvals: seq<Approval>,
    updatedAt: nat,
    appliedAt: Option<nat>)

  datatype Governance = Governance(policies: map<string, Policy>, requests: map<string, Request>)

  /** Supplied from outside: byte lengths, printing, the canonical payload hash, and reading a policy from a payload. */
  datatype Outside = Outside(bytes: string -> nat, size: Json -> nat, hash: Json -> string, decode: Json -> Option<Policy>)

  /** A region refuses with the document left as it then is, or asks for `next` to be saved. */
  datatype Ending = Refused(document: Governance) | Commit(next: Governance)

  datatype Input = Input(action: string, target: string, payload: Json, reason: string)

  predicate ValidInput(o: Outside, i: Input) {
    && i.action in SUPPORTED
    && !IsBlank(i.target) && o.bytes(i.target) <= 240
    && o.bytes(Trim(i.reason)) >= 8 && o.bytes(i.reason) <= 1000
    && o.size(i.payload) <= 64 * 1024
  }

  function NewRequest(o: Outside, id: string, actor: string, i: Input, now: nat): Request {
    Request(id, i.action, i.target, i.payload, o.hash(i.payload), Trim(i.reason), PENDING, actor, [Approval(actor, now)], now, None)
  }

  function Create(o: Outside, g: Governance, id: string, actor: string, i: Input, now: nat): Ending {
    if !ValidInput(o, i) then Refused(g)
    else Commit(g.(requests := g.requests[id := NewRequest(o, id, actor, i, now)]))
  }

  predicate ApprovedBy(r: Request, actor: string) {
    exists k :: 0 <= k < |r.approvals| && r.approvals[k].actor == actor
  }

  function Approve(g: Governance, id: string, actor: string, now: nat): Ending {
    if id !in g.requests then Refused(g)
    else if g.requests[id].status == APPLIED || ApprovedBy(g.requests[id], actor) then Refused(g)
    else
      var r := g.requests[id];
      Commit(g.(requests := g.requests[id := r.(approvals := r.approvals + [Approval(actor, now)], status := APPROVED, updatedAt := now)]))
  }

  predicate Cleared(g: Governance, id: string) {
    id in g.requests && g.requests[id].status == APPROVED && |g.requests[id].approvals| >= 2
  }

  /** The request may be acted on: approved, and for exactly this action, target and payload. */
  predicate Verifies(o: Outside, g: Governance, id: string, action: string, target: string, payload: Json) {
    && Cleared(g, id)
    && g.requests[id].action == action && g.requests[id].target == target && g.requests[id].payloadHash == o.hash(payload)
  }

  function MarkedApplied(r: Request, now: nat): Request { r.(status := APPLIED, appliedAt := Some(now), updatedAt := now) }

  function MarkApplied(g: Governance, id: string, now: nat): Ending {
    if !Cleared(g, id) then Refused(g)
    else Commit(g.(requests := g.requests[id := MarkedApplied(g.requests[id], now)]))
  }

  /** The policy carried by a payload, if it is one and is valid. */
  function PolicyOf(o: Outside, payload: Json): Option<Policy> {
    var p := o.decode(payload);
    if p.Some? && ValidPolicy(o.bytes, p.value) then p else None
  }

  /** First region of applying a policy, with the decoding after it: the policy to write, or a refusal. */
  function CheckPolicy(o: Outside, g: Governance, id: string): Option<Policy> {
    if !Cleared(g, id) || g.requests[id].action != POLICY_UPSERT then None else PolicyOf(o, g.requests[id].payload)
  }

  /** Second region: the policy is written before the request is looked up, and a missing request leaves it written. */
  function WritePolicy(g: Governance, id: string, p: Policy, actor: string, now: nat): Ending {
    var policy := p.(updatedBy := actor, updatedAt := now);
    var written := g.(policies := g.policies[PolicyKey(policy.tenant) := policy]);
    if id !in g.requests then Refused(written)
    else Commit(written.(requests := g.requests[id := MarkedApplied(g.requests[id], now)]))
  }

  function EffectivePolicy(g: Governance, t: Tenant): Policy {
    if PolicyKey(t) in g.policies then g.policies[PolicyKey(t)] else FailClosed(t)
  }

  // ---- what every committed document satisfies ----

  ghost predicate DistinctActors(approvals: seq<Approval>) {
    forall i, j :: 0 <= i < j < |approvals| ==> approvals[i].actor != approvals[j].actor
  }

  ghost predicate RequestOk(o: Outside, id: string, r: Request) {
    && r.id == id
    && r.payloadHash == o.hash(r.payload)
    && r.action in SUPPORTED
    && DistinctActors(r.approvals)
    && |r.approvals| >= 1 && r.approvals[0].actor == r.requestedBy
    && r.status in [PENDING, APPROVED, APPLIED]
    && (r.status == PENDING <==> |r.approvals| == 1)
  }

  /** The policy is what this applied request carried, apart from who wrote it and when. */
  ghost predicate Carried(o: Outside, r: Request, p: Policy) {
    && r.status == APPLIED
    && r.action == POLICY_UPSERT
    && PolicyOf(o, r.payload).Some?
    && PolicyOf(o, r.payload).value == p.(updatedBy := PolicyOf(o, r.payload).value.updatedBy, updatedAt := PolicyOf(o, r.payload).value.updatedAt)
  }

  ghost predicate PolicyOk(o: Outside, g: Governance, key: string)
    requires key in g.policies
  {
    key == PolicyKey(g.policies[key].tenant) && exists id :: id in g.requests && Carried(o, g.requests[id], g.policies[key])
  }

  ghost predicate GovernanceOk(o: Outside, g: Governance) {
    && (forall id :: id in g.requests ==> RequestOk(o, id, g.requests[id]))
    && (forall key :: key in g.policies ==> PolicyOk(o, g, key))
  }

  /** Once created a request keeps what was asked, keeps its approvals, and stays applied once applied. */
  ghost predicate Continues(r: Request, r': Request) {
    && r'.action == r.action && r'.target == r.target && r'.payload == r.payload && r'.payloadHash == r.payloadHash
    && r'.requestedBy == r.requestedBy
    && r.approvals <= r'.approvals
    && (r.status == APPLIED ==> r'.status == APPLIED && r'.approvals == r.approvals)
    && (r.status != PENDING ==> r'.status != PENDING)
  }

  ghost predicate Grows(g: Governance, g': Governance) {
    forall id :: id in g.requests ==> id in g'.requests && Continues(g.requests[id], g'.requests[id])
  }
}
