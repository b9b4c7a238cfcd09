/**
 Several governance stores over one versioned document. Applying a policy is two steps, the check and the write,
 with any other steps in between; what the check read is remembered as a pending write.
 */
module GovernanceRuns {
  import opened Common
  import opened RoutingPolicy
  import opened Versioned
  import opened Json
  import opened GovernancePolicy
  import opened GovernanceState

  datatype Replica = Replica(document: Governance, revision: nat, degraded: bool)

  datatype Pending = Pending(name: string, id: string, actor: string, policy: Policy)

  datatype World = World(history: seq<Governance>, replicas: map<string, Replica>, pending: map<nat, Pending>)

  const EMPTY: Governance := Governance(map[], map[])
  const INITIAL: World := World([EMPTY], map[], map[])

  datatype Action =
    | Load(name: string)
    | Stop(name: string)
    | Ask(name: string, id: string, actor: string, input: Input, now: nat, fate: Fate)
    | Second(name: string, id: string, actor: string, now: nat, fate: Fate)
    | Mark(name: string, id: string, now: nat, fate: Fate)
    | Check(thread: nat, name: string, id: string, actor: string)
    | Write(thread: nat, now: nat, fate: Fate)

  /** A request id is fresh; a check goes ahead only if it finds a policy to write. */
  ghost predicate Enabled(o: Outside, w: World, a: Action) {
    match a
    case Load(name) => name !in w.replicas
    case Stop(name) => name in w.replicas
    case Ask(name, id, _, _, _, _) => name in w.replicas && id !in w.replicas[name].document.requests
    case Second(name, _, _, _, _) => name in w.replicas
    case Mark(name, _, _, _) => name in w.replicas
    case Check(t, name, id, _) =>
      t !in w.pending && name in w.replicas && CheckPolicy(o, w.replicas[name].document, id).Some?
    case Write(t, _, _) => t in w.pending && w.pending[t].name in w.replicas
  }

  /** What a saving step asks of its replica. */
  function Ends(o: Outside, w: World, a: Action): Ending {
    match a
    case Ask(name, id, actor, input, now, _) =>
      if name in w.replicas then Create(o, w.replicas[name].document, id, actor, input, now) else Refused(EMPTY)
    case Second(name, id, actor, now, _) =>
      if name in w.replicas then Approve(w.replicas[name].document, id, actor, now) else Refused(EMPTY)
    case Mark(name, id, now, _) =>
      if name in w.replicas then MarkApplied(w.replicas[name].document, id, now) else Refused(EMPTY)
    case Write(t, now, _) =>
      if t in w.pending && w.pending[t].name in w.replicas
      then WritePolicy(w.replicas[w.pending[t].name].document, w.pending[t].id, w.pending[t].policy, w.pending[t].actor, now)
      else Refused(EMPTY)
    case _ => Refused(EMPTY)
  }

  function Written(history: seq<Governance>, r: Replica, e: Ending, fate: Fate): Saved<Governance> {
    if e.Commit? then Save(history, r.revision, e.next, fate) else Saved(history, true)
  }

  /** The region asked for a save and it was answered. */
  predicate Committed(history: seq<Governance>, r: Replica, e: Ending, fate: Fate) {
    e.Commit? && Save(history, r.revision, e.next, fate).ok
  }

  /** A failed save puts back the document the region started from. */
  function SettledReplica(r: Replica, e: Ending, ok: bool): Replica {
    match e
    case Refused(g) => r.(document := g)
    case Commit(next) => if ok then Replica(next, r.revision + 1, false) else r.(degraded := true)
  }

  function Settled(w: World, name: string, e: Ending, fate: Fate): World
    requires name in w.replicas
  {
    var saved := Written(w.history, w.replicas[name], e, fate);
    w.(history := saved.history, replicas := w.replicas[name := SettledReplica(w.replicas[name], e, saved.ok)])
  }

  function Without(pending: map<nat, Pending>, name: string): map<nat, Pending> {
    map t | t in pending && pending[t].name != name :: pending[t]
  }

  ghost function Apply(o: Outside, w: World, a: Action): World
    requires w.history != [] && Enabled(o, w, a)
  {
    match a
    case Load(name) =>
      w.(replicas := w.replicas[name := Replica(w.history[|w.history| - 1], |w.history| - 1, false)])
    case Stop(name) => w.(replicas := w.replicas - {name}, pending := Without(w.pending, name))
    case Ask(name, _, _, _, _, fate) => Settled(w, name, Ends(o, w, a), fate)
    case Second(name, _, _, _, fate) => Settled(w, name, Ends(o, w, a), fate)
    case Mark(name, _, _, fate) => Settled(w, name, Ends(o, w, a), fate)
    case Check(t, name, id, actor) =>
      w.(pending := w.pending[t := Pending(name, id, actor, CheckPolicy(o, w.replicas[name].document, id).value)])
    case Write(t, _, fate) => Settled(w.(pending := w.pending - {t}), w.pending[t].name, Ends(o, w, a), fate)
  }

  ghost predicate Runs(o: Outside, w: World, steps: seq<Action>)
    decreases |steps|
  {
    w.history != [] && (steps == [] || (Enabled(o, w, steps[0]) && Runs(o, Apply(o, w, steps[0]), steps[1..])))
  }

  ghost function Exec(o: Outside, w: World, steps: seq<Action>): World
    requires Runs(o, w, steps)
    decreases |steps|
  {
    if steps == [] then w else Exec(o, Apply(o, w, steps[0]), steps[1..])
  }

  // ---- the invariant ----

  ghost predicate RevisionOk(o: Outside, history: seq<Governance>, i: nat)
    requires i < |history|
  {
    GovernanceOk(o, history[i]) && (if i == 0 then history[0] == EMPTY else Grows(history[i - 1], history[i]))
  }

  ghost predicate HistoryOk(o: Outside, history: seq<Governance>) {
    history != [] && forall i :: 0 <= i < |history| ==> RevisionOk(o, history, i)
  }

  ghost predicate ReplicaOk(history: seq<Governance>, r: Replica) {
    r.revision < |history| && r.document == history[r.revision]
  }

  lemma DocumentOk(o: Outside, history: seq<Governance>, r: Replica)
    requires HistoryOk(o, history) && ReplicaOk(history, r)
    ensures GovernanceOk(o, r.document)
  {
    assert RevisionOk(o, history, r.revision);
  }

  /** The request of a pending write is still there, approved or applied, and carries the very policy to be written. */
  ghost predicate PendingOk(o: Outside, g: Governance, p: Pending) {
    && p.id in g.requests
    && g.requests[p.id].status != PENDING
    && g.requests[p.id].action == POLICY_UPSERT
    && PolicyOf(o, g.requests[p.id].payload) == Some(p.policy)
  }

  ghost predicate PendingsOk(o: Outside, w: World) {
    forall t :: t in w.pending ==>
      w.pending[t].name in w.replicas && PendingOk(o, w.replicas[w.pending[t].name].document, w.pending[t])
  }

  ghost predicate ReplicasOk(w: World) {
    forall name :: name in w.replicas ==> ReplicaOk(w.history, w.replicas[name])
  }

  ghost predicate WorldOk(o: Outside, w: World) {
    HistoryOk(o, w.history) && ReplicasOk(w) && PendingsOk(o, w)
  }

  /** Every region leaves the document alone or asks to save one that is sound and grew out of it. */
  ghost predicate EndingOk(o: Outside, g: Governance, e: Ending) {
    match e
    case Refused(left) => left == g
    case Commit(next) => GovernanceOk(o, next) && Grows(g, next)
  }

  lemma PoliciesKept(o: Outside, g: Governance, g': Governance)
    requires GovernanceOk(o, g) && Grows(g, g') && g'.policies == g.policies
    ensures forall key :: key in g'.policies ==> PolicyOk(o, g', key)
  {
    forall key | key in g'.policies ensures PolicyOk(o, g', key) {
      assert PolicyOk(o, g, key);
      var id :| id in g.requests && Carried(o, g.requests[id], g.policies[key]);
      assert Continues(g.requests[id], g'.requests[id]);
      assert Carried(o, g'.requests[id], g'.policies[key]);
    }
  }

  lemma CreateOk(o: Outside, g: Governance, id: string, actor: string, i: Input, now: nat)
    requires GovernanceOk(o, g) && id !in g.requests
    ensures EndingOk(o, g, Create(o, g, id, actor, i, now))
  {
    var e := Create(o, g, id, actor, i, now);
    if e.Commit? {
      PoliciesKept(o, g, e.next);
    }
  }

  lemma ApproveOk(o: Outside, g: Governance, id: string, actor: string, now: nat)
    requires GovernanceOk(o, g)
    ensures EndingOk(o, g, Approve(g, id, actor, now))
  {
    var e := Approve(g, id, actor, now);
    if e.Commit? {
      assert RequestOk(o, id, g.requests[id]);
      PoliciesKept(o, g, e.next);
    }
  }

  lemma MarkOk(o: Outside, g: Governance, id: string, now: nat)
    requires GovernanceOk(o, g)
    ensures EndingOk(o, g, MarkApplied(g, id, now))
  {
    var e := MarkApplied(g, id, now);
    if e.Commit? {
      assert RequestOk(o, id, g.requests[id]);
      PoliciesKept(o, g, e.next);
    }
  }

  /** The write finds its request, so the refusal that leaves a policy behind cannot happen. */
  lemma WriteOk(o: Outside, g: Governance, p: Pending, now: nat)
    requires GovernanceOk(o, g) && PendingOk(o, g, p)
    ensures WritePolicy(g, p.id, p.policy, p.actor, now).Commit?
    ensures EndingOk(o, g, WritePolicy(g, p.id, p.policy, p.actor, now))
  {
    var next := WritePolicy(g, p.id, p.policy, p.actor, now).next;
    var policy := p.policy.(updatedBy := p.actor, updatedAt := now);
    assert RequestOk(o, p.id, g.requests[p.id]);
    var marked := g.(requests := next.requests);
    PoliciesKept(o, g, marked);
    assert Carried(o, next.requests[p.id], policy);
    forall key | key in next.policies ensures PolicyOk(o, next, key) {
      if key != PolicyKey(policy.tenant) {
        assert PolicyOk(o, marked, key);
        var id :| id in marked.requests && Carried(o, marked.requests[id], marked.policies[key]);
        assert Carried(o, next.requests[id], next.policies[key]);
      }
    }
  }

  lemma HistoryGrows(o: Outside, history: seq<Governance>, g: Governance)
    requires HistoryOk(o, history) && GovernanceOk(o, g) && Grows(history[|history| - 1], g)
    ensures HistoryOk(o, history + [g])
  {
    var h := history + [g];
    forall i | 0 <= i < |h| ensures RevisionOk(o, h, i) {
      if i < |history| {
        assert RevisionOk(o, history, i);
      }
    }
  }

  lemma WrittenOk(o: Outside, history: seq<Governance>, r: Replica, e: Ending, fate: Fate)
    requires HistoryOk(o, history) && ReplicaOk(history, r) && EndingOk(o, r.document, e)
    ensures var saved := Written(history, r, e, fate);
            && HistoryOk(o, saved.history)
            && history <= saved.history
            && ReplicaOk(saved.history, SettledReplica(r, e, saved.ok))
  {
    if e.Commit? && fate != LostBefore && r.revision + 1 == |history| {
      HistoryGrows(o, history, e.next);
    }
  }

  lemma ReplicasGrow(w: World, history': seq<Governance>, name: string, r': Replica)
    requires ReplicasOk(w) && w.history <= history' && ReplicaOk(history', r')
    ensures ReplicasOk(w.(history := history', replicas := w.replicas[name := r']))
  {
    forall n | n in w.replicas ensures ReplicaOk(history', w.replicas[n]) {
      assert ReplicaOk(w.history, w.replicas[n]);
    }
  }

  lemma PendingsGrow(o: Outside, w: World, name: string, g': Governance, w': World)
    requires PendingsOk(o, w) && name in w.replicas && Grows(w.replicas[name].document, g')
    requires w'.pending == w.pending && w'.replicas.Keys == w.replicas.Keys && w'.replicas[name].document == g'
    requires forall n :: n in w.replicas && n != name ==> w'.replicas[n] == w.replicas[n]
    ensures PendingsOk(o, w')
  {
    forall t | t in w'.pending ensures w'.pending[t].name in w'.replicas && PendingOk(o, w'.replicas[w'.pending[t].name].document, w'.pending[t]) {
      var p := w.pending[t];
      if p.name == name {
        assert Continues(w.replicas[name].document.requests[p.id], g'.requests[p.id]);
      }
    }
  }

  lemma GrowsRefl(g: Governance)
    ensures Grows(g, g)
  {
  }

  lemma SettledOk(o: Outside, w: World, name: string, e: Ending, fate: Fate)
    requires WorldOk(o, w) && name in w.replicas && EndingOk(o, w.replicas[name].document, e)
    ensures WorldOk(o, Settled(w, name, e, fate))
  {
    var r := w.replicas[name];
    var saved := Written(w.history, r, e, fate);
    var r' := SettledReplica(r, e, saved.ok);
    WrittenOk(o, w.history, r, e, fate);
    ReplicasGrow(w, saved.history, name, r');
    GrowsRefl(r.document);
    PendingsGrow(o, w, name, r'.document, Settled(w, name, e, fate));
  }

  lemma EndsOk(o: Outside, w: World, a: Action, name: string)
    requires WorldOk(o, w) && Enabled(o, w, a)
    requires a.Ask? || a.Second? || a.Mark? || a.Write?
    requires name == if a.Write? then w.pending[a.thread].name else a.name
    ensures EndingOk(o, w.replicas[name].document, Ends(o, w, a))
  {
    var g := w.replicas[name].document;
    DocumentOk(o, w.history, w.replicas[name]);
    match a
    case Ask(_, id, actor, input, now, _) => CreateOk(o, g, id, actor, input, now);
    case Second(_, id, actor, now, _) => ApproveOk(o, g, id, actor, now);
    case Mark(_, id, now, _) => MarkOk(o, g, id, now);
    case Write(t, now, _) => WriteOk(o, g, w.pending[t], now);
  }

  lemma CheckOk(o: Outside, w: World, t: nat, name: string, id: string, actor: string)
    requires WorldOk(o, w) && Enabled(o, w, Check(t, name, id, actor))
    ensures WorldOk(o, Apply(o, w, Check(t, name, id, actor)))
  {
    DocumentOk(o, w.history, w.replicas[name]);
    var g := w.replicas[name].document;
    assert RequestOk(o, id, g.requests[id]);
  }

  lemma LoadOk(o: Outside, w: World, name: string)
    requires WorldOk(o, w) && name !in w.replicas
    ensures WorldOk(o, Apply(o, w, Load(name)))
  {
  }

  lemma SavingStepOk(o: Outside, w: World, a: Action, name: string, fate: Fate)
    requires WorldOk(o, w) && Enabled(o, w, a) && (a.Ask? || a.Second? || a.Mark?) && name == a.name
    ensures WorldOk(o, Settled(w, name, Ends(o, w, a), fate))
  {
    EndsOk(o, w, a, name);
    SettledOk(o, w, name, Ends(o, w, a), fate);
  }

  lemma WriteStepOk(o: Outside, w: World, t: nat, now: nat, fate: Fate)
    requires WorldOk(o, w) && Enabled(o, w, Write(t, now, fate))
    ensures WorldOk(o, Apply(o, w, Write(t, now, fate)))
  {
    EndsOk(o, w, Write(t, now, fate), w.pending[t].name);
    SettledOk(o, w.(pending := w.pending - {t}), w.pending[t].name, Ends(o, w, Write(t, now, fate)), fate);
  }

  lemma StopPendings(o: Outside, w: World, name: string, w': World)
    requires PendingsOk(o, w) && w'.replicas == w.replicas - {name} && w'.pending == Without(w.pending, name)
    ensures PendingsOk(o, w')
  {
  }

  lemma StopOk(o: Outside, w: World, name: string)
    requires WorldOk(o, w) && Enabled(o, w, Stop(name))
    ensures WorldOk(o, Apply(o, w, Stop(name)))
  {
    StopPendings(o, w, name, Apply(o, w, Stop(name)));
  }

  lemma StepOk(o: Outside, w: World, a: Action)
    requires WorldOk(o, w) && Enabled(o, w, a)
    ensures WorldOk(o, Apply(o, w, a))
  {
    match a
    case Load(name) => LoadOk(o, w, name);
    case Stop(name) => StopOk(o, w, name);
    case Ask(name, _, _, _, _, fate) => SavingStepOk(o, w, a, name, fate);
    case Second(name, _, _, _, fate) => SavingStepOk(o, w, a, name, fate);
    case Mark(name, _, _, fate) => SavingStepOk(o, w, a, name, fate);
    case Check(t, name, id, actor) => CheckOk(o, w, t, name, id, actor);
    case Write(t, now, fate) => WriteStepOk(o, w, t, now, fate);
  }

  lemma {:induction false} RunOk(o: Outside, w: World, steps: seq<Action>)
    requires WorldOk(o, w) && Runs(o, w, steps)
    ensures WorldOk(o, Exec(o, w, steps))
    decreases |steps|
  {
    if steps != [] {
      StepOk(o, w, steps[0]);
      RunOk(o, Apply(o, w, steps[0]), steps[1..]);
    }
  }

  // ---- main results ----

  ghost predicate TwoAdministrators(o: Outside, r: Request) {
    |r.approvals| >= 2 && DistinctActors(r.approvals) && r.approvals[0].actor == r.requestedBy && r.payloadHash == o.hash(r.payload)
  }

  /** The policy was asked for by one administrator, approved by another, and written as it was asked for. */
  ghost predicate Provenance(o: Outside, g: Governance, key: string)
    requires key in g.policies
  {
    && key == PolicyKey(g.policies[key].tenant)
    && ValidPolicy(o.bytes, g.policies[key])
    && exists id :: id in g.requests && Carried(o, g.requests[id], g.policies[key]) && TwoAdministrators(o, g.requests[id])
  }

  lemma SoundHasProvenance(o: Outside, g: Governance, key: string)
    requires GovernanceOk(o, g) && key in g.policies
    ensures Provenance(o, g, key)
  {
    assert PolicyOk(o, g, key);
    var id :| id in g.requests && Carried(o, g.requests[id], g.policies[key]);
    assert RequestOk(o, id, g.requests[id]);
    var p, q := PolicyOf(o, g.requests[id].payload).value, g.policies[key];
    assert Lists(p) == Lists(q);
  }

  /**
   Dual approval: in every committed document of every run from the empty one, an applied request has two or more
   approvals by distinct administrators and its own payload's hash, and every policy in force has such a request behind it.
   */
  lemma DualApproval(o: Outside, steps: seq<Action>, i: nat)
    requires Runs(o, INITIAL, steps) && i < |Exec(o, INITIAL, steps).history|
    ensures var g := Exec(o, INITIAL, steps).history[i];
            && (forall id :: id in g.requests && g.requests[id].status == APPLIED ==> TwoAdministrators(o, g.requests[id]))
            && (forall key :: key in g.policies ==> Provenance(o, g, key))
  {
    RunOk(o, INITIAL, steps);
    var w := Exec(o, INITIAL, steps);
    assert RevisionOk(o, w.history, i);
    var g := w.history[i];
    forall id | id in g.requests && g.requests[id].status == APPLIED ensures TwoAdministrators(o, g.requests[id]) {
      assert RequestOk(o, id, g.requests[id]);
    }
    forall key | key in g.policies ensures Provenance(o, g, key) {
      SoundHasProvenance(o, g, key);
    }
  }

  lemma {:induction false} GrowsThrough(o: Outside, history: seq<Governance>, i: nat, j: nat)
    requires HistoryOk(o, history) && i <= j < |history|
    ensures Grows(history[i], history[j])
    decreases j
  {
    if i < j {
      GrowsThrough(o, history, i, j - 1);
      assert RevisionOk(o, history, j);
      forall id | id in history[i].requests
        ensures id in history[j].requests && Continues(history[i].requests[id], history[j].requests[id])
      {
        assert Continues(history[i].requests[id], history[j - 1].requests[id]);
        assert Continues(history[j - 1].requests[id], history[j].requests[id]);
      }
    }
  }

  /** What was asked and approved never changes afterwards, and an applied request stays applied, across all revisions. */
  lemma RequestsOnlyGrow(o: Outside, steps: seq<Action>, i: nat, j: nat)
    requires Runs(o, INITIAL, steps) && i <= j < |Exec(o, INITIAL, steps).history|
    ensures Grows(Exec(o, INITIAL, steps).history[i], Exec(o, INITIAL, steps).history[j])
  {
    RunOk(o, INITIAL, steps);
    GrowsThrough(o, Exec(o, INITIAL, steps).history, i, j);
  }

  /** In every reachable state, a pending write that runs finds its request. */
  lemma WriteNeverMisses(o: Outside, steps: seq<Action>, t: nat, now: nat, fate: Fate)
    requires Runs(o, INITIAL, steps) && Enabled(o, Exec(o, INITIAL, steps), Write(t, now, fate))
    ensures Ends(o, Exec(o, INITIAL, steps), Write(t, now, fate)).Commit?
  {
    RunOk(o, INITIAL, steps);
    var w := Exec(o, INITIAL, steps);
    var p := w.pending[t];
    DocumentOk(o, w.history, w.replicas[p.name]);
    WriteOk(o, w.replicas[p.name].document, p, now);
  }

  /**
   Whatever was asked, approved and applied, on whichever instance: a tenant is routed by its own policy or the
   fail-closed one, and unknown or sensitive data and cloud-disabled tenants never reach a cloud attempt.
   */
  lemma NoUnapprovedEgress(o: Outside, steps: seq<Action>, name: string, t: Tenant, requested: Option<HybridMode>,
                           c: DataClassification, attempts: seq<Attempt>)
    requires Runs(o, INITIAL, steps) && name in Exec(o, INITIAL, steps).replicas && ValidTenant(t)
    ensures var p := EffectivePolicy(Exec(o, INITIAL, steps).replicas[name].document, t);
            var mode := EffectiveMode(p, requested, c);
            && p.tenant == t
            && ((ForcesLocal(c) || !p.cloudEnabled) && mode.Some? ==> forall a :: a in Ordered(attempts, mode.value) ==> !IsCloud(a))
  {
    RunOk(o, INITIAL, steps);
    var w := Exec(o, INITIAL, steps);
    DocumentOk(o, w.history, w.replicas[name]);
    var g := w.replicas[name].document;
    var p := EffectivePolicy(g, t);
    if PolicyKey(t) in g.policies {
      SoundHasProvenance(o, g, PolicyKey(t));
      KeysDiffer(t, p.tenant);
    }
    EgressExactlyWhen(o.bytes, p, requested, c, attempts);
  }

  /** Verification passes exactly for a request that two administrators approved, with this action, target and payload hash. */
  lemma VerifiesExactlyWhen(o: Outside, steps: seq<Action>, name: string, id: string, action: string, target: string, payload: Json)
    requires Runs(o, INITIAL, steps) && name in Exec(o, INITIAL, steps).replicas
    ensures var g := Exec(o, INITIAL, steps).replicas[name].document;
            Verifies(o, g, id, action, target, payload) <==>
              && id in g.requests
              && g.requests[id].status == APPROVED
              && TwoAdministrators(o, g.requests[id])
              && (g.requests[id].action, g.requests[id].target, o.hash(g.requests[id].payload)) == (action, target, o.hash(payload))
  {
    RunOk(o, INITIAL, steps);
    var w := Exec(o, INITIAL, steps);
    DocumentOk(o, w.history, w.replicas[name]);
    var g := w.replicas[name].document;
    if id in g.requests {
      assert RequestOk(o, id, g.requests[id]);
    }
  }

  /** Unless this payload's hash collides with that of the stored one, what passes is exactly the payload two administrators approved. */
  lemma VerifiedIsWhatWasApproved(o: Outside, steps: seq<Action>, name: string, id: string, action: string, target: string, payload: Json)
    requires Runs(o, INITIAL, steps) && name in Exec(o, INITIAL, steps).replicas
    requires var g := Exec(o, INITIAL, steps).replicas[name].document;
             id in g.requests && o.hash(g.requests[id].payload) == o.hash(payload) ==> g.requests[id].payload == payload
    ensures var g := Exec(o, INITIAL, steps).replicas[name].document;
            Verifies(o, g, id, action, target, payload) <==>
              && id in g.requests
              && g.requests[id].status == APPROVED
              && TwoAdministrators(o, g.requests[id])
              && (g.requests[id].action, g.requests[id].target, g.requests[id].payload) == (action, target, payload)
  {
    VerifiesExactlyWhen(o, steps, name, id, action, target, payload);
  }
}
