/**
 No queued request sleeps while the permit is free: the wakeup invariant, the states in which
 nothing can move, a bound on how long anything can keep moving, and what cancellation breaks.
 */
module SchedulerWakeup {
  import opened Common
  import opened RoutingPolicy
  import opened SchedulerState
  import opened SchedulerProtocol
  import opened SchedulerSafety
  import opened Sums

  /** Positions from which a queued thread will look at the queue and the permit again by itself, or leave. */
  predicate Awake(pc: Pc) {
    match pc
    case NotifyRead(after) => after.ToLoop?
    case NotifySend(_, after) => after.ToLoop?
    case CheckFront(_) | TryPermit(_) | Remove(_, _) => true
    case _ => false
  }

  ghost predicate WillNotify(w: World, t: nat, id: nat) {
    t in w.threads && (w.threads[t].pc.NotifyRead? || (w.threads[t].pc.NotifySend? && w.threads[t].pc.target == id))
  }

  ghost predicate AwakeAt(w: World, t: nat, id: nat) {
    QueuedAt(w, t, id) && Awake(w.threads[t].pc)
  }

  ghost predicate CancelledAt(w: World, t: nat, id: nat) {
    t in w.threads && w.threads[t].pc == Cancelled(id)
  }

  /** The request is awake, has a stored wakeup, or a notifier is on its way to it. */
  ghost predicate Covered(w: World, id: nat) {
    || (exists t :: AwakeAt(w, t, id))
    || id in w.tokens
    || (exists t :: WillNotify(w, t, id))
  }

  /** If the permit is free and somebody is queued, the overall head is covered or its caller has gone away. */
  ghost predicate NoLostWakeup(w: World) {
    w.free && Head(w.shared).Some? ==>
      var id := Head(w.shared).value;
      Covered(w, id) || exists t :: CancelledAt(w, t, id)
  }

  /** In a safe state a queued request passes the front check iff it is the overall head and its user may start. */
  lemma FrontIsHead(cfg: Config, w: World, t: nat, id: nat)
    requires QueuesOk(w) && QueuedAt(w, t, id)
    ensures var call := w.threads[t].call;
            var front := IsFront(w.shared, cfg, id, call.cls, call.user);
            front <==> Head(w.shared) == Some(id) && MayStart(w.shared, cfg, call.user)
  {
    assert id in Queue(w.shared, w.threads[t].call.cls);
    forall cls | id in Queue(w.shared, cls) ensures cls == w.threads[t].call.cls {
      var u :| QueuedAt(w, u, id) && w.threads[u].call.cls == cls;
    }
    assert w.shared.interactive != [] ==> w.shared.interactive[0] in Queue(w.shared, Interactive);
  }

  /** With the permit free nobody runs, so no per-user limit stands in the way. */
  lemma AnyoneMayStart(cfg: Config, w: World, user: string)
    requires PermitOk(w) && RunningOk(w) && w.free && cfg.executingPerUser >= 1
    ensures MayStart(w.shared, cfg, user)
  {
    if CountOf(w.shared.running, user) != 0 {
      var t :| LeasedAt(w, t) && w.threads[t].call.user == user;
      assert HoldsAt(w, t);
    }
  }

  lemma CoverMoves(w: World, w': World, t: nat, id: nat)
    requires Moves(w, w', t) && Covered(w, id)
    requires AwakeAt(w, t, id) ==> AwakeAt(w', t, id)
    requires WillNotify(w, t, id) ==> WillNotify(w', t, id) || id in w'.tokens || AwakeAt(w', t, id)
    requires id in w.tokens ==> id in w'.tokens || AwakeAt(w', t, id)
    ensures Covered(w', id)
  {
    if v :| AwakeAt(w, v, id) {
      assert AwakeAt(w', v, id);
    } else if id in w.tokens {
    } else {
      var v :| WillNotify(w, v, id);
      assert v != t ==> WillNotify(w', v, id);
    }
  }

  /** A thread that frees the permit, joins or leaves a queue is left with a notification to send. */
  lemma ChangersNotify(cfg: Config, w: World, a: Action)
    requires Enabled(w, a) && cfg.executingPerUser >= 1 && CallsOk(cfg, w)
    requires Joins(cfg, w, a) || Leaves(w, a) || (Apply(cfg, w, a).free && !w.free)
    ensures PcAt(Apply(cfg, w, a), a.t).NotifyRead? && a.t in Apply(cfg, w, a).threads
  {
  }

  lemma HeadStaysCovered(cfg: Config, w: World, a: Action, id: nat)
    requires Enabled(w, a) && cfg.executingPerUser >= 1 && Safe(cfg, w)
    requires w.free && Apply(cfg, w, a).free && !Joins(cfg, w, a) && !Leaves(w, a)
    requires Head(w.shared) == Some(id) && Covered(w, id)
    ensures Covered(Apply(cfg, w, a), id)
  {
    var w' := Apply(cfg, w, a);
    OneThreadMoves(cfg, w, a);
    OthersLeaveQueuesAlone(cfg, w, a);
    if a.Step? {
      AnyoneMayStart(cfg, w, w.threads[a.t].call.user);
      if PcAt(w, a.t).CheckFront? {
        FrontIsHead(cfg, w, a.t, PcAt(w, a.t).id);
      }
    }
    CoverMoves(w, w', a.t, id);
  }

  lemma WakeupKept(cfg: Config, w: World, a: Action)
    requires Enabled(w, a) && cfg.executingPerUser >= 1
    requires Safe(cfg, w) && NoLostWakeup(w) && w.shared.nextId < U64_MAX
    ensures NoLostWakeup(Apply(cfg, w, a))
  {
    var w' := Apply(cfg, w, a);
    if w'.free && Head(w'.shared).Some? {
      var id := Head(w'.shared).value;
      if Joins(cfg, w, a) || Leaves(w, a) || !w.free {
        ChangersNotify(cfg, w, a);
        assert WillNotify(w', a.t, id);
      } else {
        OthersLeaveQueuesAlone(cfg, w, a);
        if Covered(w, id) {
          HeadStaysCovered(cfg, w, a, id);
        } else {
          var t :| CancelledAt(w, t, id);
          OneThreadMoves(cfg, w, a);
          assert CancelledAt(w', t, id);
        }
      }
    }
  }

  lemma {:induction false} WakeupThroughout(cfg: Config, w: World, run: seq<Action>)
    requires Runs(cfg, w, run) && cfg.executingPerUser >= 1
    requires Safe(cfg, w) && NoLostWakeup(w)
    ensures NoLostWakeup(Exec(cfg, w, run)) && Safe(cfg, Exec(cfg, w, run))
    decreases |run|
  {
    if run != [] {
      SafeKept(cfg, w, run[0]);
      WakeupKept(cfg, w, run[0]);
      WakeupThroughout(cfg, Apply(cfg, w, run[0]), run[1..]);
    }
  }

  ghost predicate NobodyCancelled(w: World) {
    forall t, id :: !CancelledAt(w, t, id)
  }

  lemma {:induction false} OnlyCancelCancels(cfg: Config, w: World, run: seq<Action>)
    requires Runs(cfg, w, run) && NobodyCancelled(w) && forall i :: 0 <= i < |run| ==> !run[i].Cancel?
    ensures NobodyCancelled(Exec(cfg, w, run))
    decreases |run|
  {
    if run != [] {
      OneThreadMoves(cfg, w, run[0]);
      OthersDoNotCancel(cfg, w, run[0]);
      OnlyCancelCancels(cfg, Apply(cfg, w, run[0]), run[1..]);
    }
  }

  lemma OthersDoNotCancel(cfg: Config, w: World, a: Action)
    requires Enabled(w, a) && NobodyCancelled(w) && !a.Cancel?
    ensures NobodyCancelled(Apply(cfg, w, a))
  {
    var w' := Apply(cfg, w, a);
    OneThreadMoves(cfg, w, a);
    assert !PcAt(w', a.t).Cancelled?;
    forall t, id ensures !CancelledAt(w', t, id) {
      if t != a.t {
        assert !CancelledAt(w, t, id);
      }
    }
  }

  /**
   No lost wakeup: in every interleaving without cancellation, while the permit is free and somebody is queued, the
   overall head is awake, has a stored wakeup, or is about to be sent one.
   */
  lemma NoWakeupIsLost(cfg: Config, run: seq<Action>)
    requires Runs(cfg, INITIAL, run) && cfg.executingPerUser >= 1
    requires forall i :: 0 <= i < |run| ==> !run[i].Cancel?
    ensures var w := Exec(cfg, INITIAL, run); w.free && Head(w.shared).Some? ==> Covered(w, Head(w.shared).value)
  {
    SafeInitially(cfg);
    WakeupThroughout(cfg, INITIAL, run);
    OnlyCancelCancels(cfg, INITIAL, run);
  }

  // ---- states in which nothing moves ----

  /** No thread can take a step until a lease ends, a wait times out or a new call arrives. */
  ghost predicate Quiet(w: World) {
    forall t :: t in w.threads ==> !CanStep(w, w.threads[t].pc)
  }

  /**
   In every interleaving, cancellations included: when nothing can move, either a lease is
   outstanding, or the permit is free and the queues are empty unless the head's caller was cancelled.
   */
  lemma NothingSleepsOnAFreePermit(cfg: Config, run: seq<Action>)
    requires Runs(cfg, INITIAL, run) && cfg.executingPerUser >= 1
    requires Quiet(Exec(cfg, INITIAL, run))
    ensures var w := Exec(cfg, INITIAL, run);
            && (!w.free <==> exists t :: LeasedAt(w, t))
            && (w.free ==> (Head(w.shared).Some? <==> exists t, id: nat :: CancelledAt(w, t, id) && Head(w.shared) == Some(id)))
  {
    SafeInitially(cfg);
    WakeupThroughout(cfg, INITIAL, run);
    var w := Exec(cfg, INITIAL, run);
    if !w.free {
      var t :| HoldsAt(w, t);
      assert LeasedAt(w, t);
    }
    if t :| LeasedAt(w, t) {
      assert HoldsAt(w, t);
    }
    if w.free && Head(w.shared).Some? {
      HeadGone(cfg, w);
    }
  }

  lemma HeadGone(cfg: Config, w: World)
    requires Safe(cfg, w) && NoLostWakeup(w) && Quiet(w) && w.free && Head(w.shared).Some?
    ensures exists t :: CancelledAt(w, t, Head(w.shared).value)
  {
    var id := Head(w.shared).value;
    var cls := if w.shared.interactive != [] then Interactive else Batch;
    assert id in Queue(w.shared, cls);
    var t :| QueuedAt(w, t, id) && w.threads[t].call.cls == cls;
    assert !exists v :: AwakeAt(w, v, id);
    assert !exists v :: WillNotify(w, v, id);
    assert !CanStep(w, w.threads[t].pc);
    if w.threads[t].pc.Waiting? {
      assert id !in w.tokens;
      assert !Covered(w, id);
    } else {
      assert CancelledAt(w, t, id);
    }
  }

  // ---- a bound on how long anything can move ----

  /** Steps left to a position, counting the wakeup it may still store and the recheck that causes. */
  function Weight(pc: Pc): nat {
    match pc
    case FastTry => 22
    case FastHolding => 21
    case FastRefused => 20
    case Estimate => 19
    case Enqueue => 18
    case NotifyRead(after) => 6 + AfterWeight(after)
    case NotifySend(_, after) => 5 + AfterWeight(after)
    case CheckFront(_) => 11
    case TryPermit(_) => 10
    case Pause(_) => 9
    case Remove(_, _) => 8
    case Waiting(_) => 8
    case Cancelled(_) => 8
    case CountRunning => 1
    case DropPermit => 7
    case Leased => 0
    case Ended(_) => 0
  }

  function AfterWeight(after: After): nat {
    match after
    case ToLoop(_) => 11
    case ToCount => 1
    case ToEnd(_) => 0
  }

  ghost function Weights(w: World): map<nat, int> {
    map t | t in w.threads :: Weight(w.threads[t].pc)
  }

  ghost function Potential(w: World): int {
    Sum(Weights(w)) + 4 * |w.tokens|
  }

  predicate Internal(a: Action) { a.Step? || a.Expire? }

  lemma PotentialFalls(cfg: Config, w: World, a: Action)
    requires Enabled(w, a) && Internal(a)
    ensures Potential(Apply(cfg, w, a)) < Potential(w)
  {
    var w' := Apply(cfg, w, a);
    OneThreadMoves(cfg, w, a);
    SumPut(Weights(w), a.t, Weight(w'.threads[a.t].pc));
    assert Weights(w') == Weights(w)[a.t := Weight(w'.threads[a.t].pc)];
    LocalFall(cfg, w, a);
  }

  /** Sending a wakeup adds at most one token; taking one removes it. */
  lemma TokenStepFalls(cfg: Config, w: World, t: nat)
    requires Enabled(w, Step(t)) && (PcAt(w, t).NotifySend? || PcAt(w, t).Waiting?)
    ensures var w' := Apply(cfg, w, Step(t));
            Weight(PcAt(w', t)) + 4 * |w'.tokens| < Weight(PcAt(w, t)) + 4 * |w.tokens|
  {
    if PcAt(w, t).NotifySend? {
      var id := PcAt(w, t).target;
      assert id in w.tokens ==> w.tokens + {id} == w.tokens;
    }
  }

  lemma EntryStepFalls(cfg: Config, w: World, t: nat)
    requires Enabled(w, Step(t))
    requires PcAt(w, t).FastTry? || PcAt(w, t).FastHolding? || PcAt(w, t).FastRefused? || PcAt(w, t).Estimate? || PcAt(w, t).Enqueue?
    ensures var w' := Apply(cfg, w, Step(t)); w'.tokens == w.tokens && Weight(PcAt(w', t)) < Weight(PcAt(w, t))
  {
  }

  lemma OtherStepFalls(cfg: Config, w: World, t: nat)
    requires Enabled(w, Step(t)) && !PcAt(w, t).NotifySend? && !PcAt(w, t).Waiting?
    requires !PcAt(w, t).FastTry? && !PcAt(w, t).FastHolding? && !PcAt(w, t).FastRefused?
    requires !PcAt(w, t).Estimate? && !PcAt(w, t).Enqueue?
    ensures var w' := Apply(cfg, w, Step(t)); w'.tokens == w.tokens && Weight(PcAt(w', t)) < Weight(PcAt(w, t))
  {
  }

  lemma ExpireFalls(cfg: Config, w: World, t: nat)
    requires Enabled(w, Expire(t))
    ensures var w' := Apply(cfg, w, Expire(t)); w'.tokens == w.tokens && Weight(PcAt(w', t)) < Weight(PcAt(w, t))
  {
  }

  lemma LocalFall(cfg: Config, w: World, a: Action)
    requires Enabled(w, a) && Internal(a)
    ensures var w' := Apply(cfg, w, a);
            Weight(PcAt(w', a.t)) + 4 * |w'.tokens| < Weight(PcAt(w, a.t)) + 4 * |w.tokens|
  {
    var pc := PcAt(w, a.t);
    if a.Expire? {
      ExpireFalls(cfg, w, a.t);
    } else if pc.NotifySend? || pc.Waiting? {
      TokenStepFalls(cfg, w, a.t);
    } else if pc.FastTry? || pc.FastHolding? || pc.FastRefused? || pc.Estimate? || pc.Enqueue? {
      EntryStepFalls(cfg, w, a.t);
    } else {
      OtherStepFalls(cfg, w, a.t);
    }
  }

  ghost predicate AllInternal(run: seq<Action>) {
    forall i :: 0 <= i < |run| ==> Internal(run[i])
  }

  /** Left to itself the scheduler settles: the number of further steps is bounded, however they interleave. */
  lemma {:induction false} InternalRunsAreBounded(cfg: Config, w: World, run: seq<Action>)
    requires Runs(cfg, w, run) && AllInternal(run)
    ensures |run| <= Potential(w)
    decreases |run|
  {
    if run != [] {
      PotentialFalls(cfg, w, run[0]);
      InternalRunsAreBounded(cfg, Apply(cfg, w, run[0]), run[1..]);
    } else {
      SumNonNegative(Weights(w));
    }
  }

  // ---- cancellation ----

  /** The caller of the first request of a class was cancelled while waiting. */
  ghost predicate ClassBlocked(w: World, cls: WorkloadClass, id: nat) {
    && Queue(w.shared, cls) != [] && Queue(w.shared, cls)[0] == id
    && exists t :: CancelledAt(w, t, id) && w.threads[t].call.cls == cls
  }

  /** The first entry of a queue stays first unless its own thread leaves. */
  lemma FirstStaysFirst(cfg: Config, w: World, a: Action, cls: WorkloadClass, t: nat, id: nat)
    requires Enabled(w, a) && QueuesOk(w) && w.shared.nextId < U64_MAX
    requires Queue(w.shared, cls) != [] && Queue(w.shared, cls)[0] == id && CancelledAt(w, t, id)
    ensures Queue(Apply(cfg, w, a).shared, cls) != [] && Queue(Apply(cfg, w, a).shared, cls)[0] == id
  {
    assert QueuedAt(w, t, id);
    if Joins(cfg, w, a) {
      JoinEffect(cfg, w, a);
    } else if Leaves(w, a) {
      LeaveEffect(cfg, w, a);
      assert QueuedAt(w, a.t, PcAt(w, a.t).id);
      WithoutElements(Queue(w.shared, cls), PcAt(w, a.t).id);
    } else {
      OthersLeaveQueuesAlone(cfg, w, a);
    }
  }

  lemma NobodyPasses(cfg: Config, w: World, a: Action, cls: WorkloadClass, t: nat, id: nat)
    requires Enabled(w, a) && Safe(cfg, w)
    requires Queue(w.shared, cls) != [] && Queue(w.shared, cls)[0] == id && CancelledAt(w, t, id)
    ensures forall e :: e in Apply(cfg, w, a).admissions && e.0 == cls ==> e in w.admissions
  {
    assert QueuedAt(w, t, id);
    if Admits(cfg, w, a) && w.threads[a.t].call.cls == cls {
      assert FrontPassed(w, a.t) && QueuedAt(w, a.t, id);
    }
  }

  lemma BlockedStays(cfg: Config, w: World, a: Action, cls: WorkloadClass, id: nat)
    requires Enabled(w, a) && Safe(cfg, w) && ClassBlocked(w, cls, id) && w.shared.nextId < U64_MAX
    ensures ClassBlocked(Apply(cfg, w, a), cls, id)
    ensures forall e :: e in Apply(cfg, w, a).admissions && e.0 == cls ==> e in w.admissions
  {
    var w' := Apply(cfg, w, a);
    OneThreadMoves(cfg, w, a);
    var t :| CancelledAt(w, t, id) && w.threads[t].call.cls == cls;
    assert CancelledAt(w', t, id) && w'.threads[t].call.cls == cls;
    FirstStaysFirst(cfg, w, a, cls, t, id);
    NobodyPasses(cfg, w, a, cls, t, id);
  }

  /** A request cancelled at the head of its class stays there, and nobody of that class is ever admitted from the queue again. */
  lemma {:induction false} CancelledFrontBlocksItsClass(
    cfg: Config, w: World, run: seq<Action>, cls: WorkloadClass, id: nat)
    requires Runs(cfg, w, run) && Safe(cfg, w) && ClassBlocked(w, cls, id)
    ensures ClassBlocked(Exec(cfg, w, run), cls, id)
    ensures forall e :: e in Exec(cfg, w, run).admissions && e.0 == cls ==> e in w.admissions
    decreases |run|
  {
    if run != [] {
      SafeKept(cfg, w, run[0]);
      BlockedStays(cfg, w, run[0], cls, id);
      CancelledFrontBlocksItsClass(cfg, Apply(cfg, w, run[0]), run[1..], cls, id);
    }
  }
}
