/** What every interleaving of the scheduler keeps. */
module SchedulerSafety {
  import opened Common
  import opened RoutingPolicy
  import opened SchedulerState
  import opened SchedulerProtocol
  import opened Sums

  ghost predicate HoldsAt(w: World, t: nat) {
    t in w.threads && Holds(w.threads[t].pc)
  }

  ghost predicate LeasedAt(w: World, t: nat) {
    t in w.threads && w.threads[t].pc.Leased?
  }

  /** The permit is taken exactly when one thread holds it, and then by one thread only. */
  ghost predicate PermitOk(w: World) {
    && (forall t :: HoldsAt(w, t) ==> !w.free)
    && (!w.free ==> exists t :: HoldsAt(w, t))
    && (forall t, t' :: HoldsAt(w, t) && HoldsAt(w, t') ==> t == t')
  }

  /** The running counters are 1 for the user of the outstanding lease and 0 otherwise. */
  ghost predicate RunningOk(w: World) {
    && (forall t :: LeasedAt(w, t) ==> CountOf(w.shared.running, w.threads[t].call.user) == 1)
    && (forall u :: CountOf(w.shared.running, u) != 0 ==> exists t :: LeasedAt(w, t) && w.threads[t].call.user == u)
  }

  /** One thread moves and nothing else about the threads changes. */
  ghost predicate Moves(w: World, w': World, t: nat) {
    && t in w'.threads
    && w'.threads == w.threads[t := w'.threads[t]]
    && (t in w.threads ==> w'.threads[t].call == w.threads[t].call)
  }

  lemma OneThreadMoves(cfg: Config, w: World, a: Action)
    requires Enabled(w, a)
    ensures Moves(w, Apply(cfg, w, a), a.t)
  {
  }

  lemma PermitMoved(w: World, w': World, t: nat)
    requires Moves(w, w', t) && PermitOk(w)
    requires HoldsAt(w', t) == HoldsAt(w, t) ==> w'.free == w.free
    requires HoldsAt(w', t) && !HoldsAt(w, t) ==> w.free && !w'.free
    requires !HoldsAt(w', t) && HoldsAt(w, t) ==> w'.free
    ensures PermitOk(w')
  {
    assert forall u :: u != t ==> HoldsAt(w, u) == HoldsAt(w', u);
    if !w'.free {
      if !HoldsAt(w', t) {
        var u :| HoldsAt(w, u);
        assert HoldsAt(w', u);
      }
    }
  }

  lemma PermitKept(cfg: Config, w: World, a: Action)
    requires Enabled(w, a) && PermitOk(w)
    ensures PermitOk(Apply(cfg, w, a))
  {
    var w' := Apply(cfg, w, a);
    OneThreadMoves(cfg, w, a);
    assert HoldsAt(w', a.t) == HoldsAt(w, a.t) ==> w'.free == w.free by {
      assert HoldsAt(w, a.t) ==> !w.free;
    }
    PermitMoved(w, w', a.t);
  }

  lemma RunningMoved(w: World, w': World, t: nat)
    requires Moves(w, w', t) && PermitOk(w) && PermitOk(w') && RunningOk(w)
    requires forall u :: u != w'.threads[t].call.user ==> CountOf(w'.shared.running, u) == CountOf(w.shared.running, u)
    requires var u := w'.threads[t].call.user;
             CountOf(w'.shared.running, u) == CountOf(w.shared.running, u)
               + (if LeasedAt(w', t) then 1 else 0) - (if LeasedAt(w, t) then 1 else 0)
    ensures RunningOk(w')
  {
    assert forall v :: v != t ==> LeasedAt(w, v) == LeasedAt(w', v);
    assert forall v :: LeasedAt(w, v) ==> HoldsAt(w, v);
    assert forall v :: LeasedAt(w', v) ==> HoldsAt(w', v);
    forall u | CountOf(w'.shared.running, u) != 0
      ensures exists v :: LeasedAt(w', v) && w'.threads[v].call.user == u
    {
      if LeasedAt(w', t) && w'.threads[t].call.user == u {
      } else {
        assert CountOf(w.shared.running, u) != 0;
        var v :| LeasedAt(w, v) && w.threads[v].call.user == u;
        assert v != t;
        assert LeasedAt(w', v) && w'.threads[v].call.user == u;
      }
    }
  }

  lemma RunningKept(cfg: Config, w: World, a: Action)
    requires Enabled(w, a) && PermitOk(w) && RunningOk(w)
    ensures RunningOk(Apply(cfg, w, a))
  {
    OneThreadMoves(cfg, w, a);
    PermitKept(cfg, w, a);
    if a.DropLease? {
      assert LeasedAt(w, a.t);
    }
    RunningMoved(w, Apply(cfg, w, a), a.t);
  }

  // ---- queues ----

  ghost predicate QueuedAt(w: World, t: nat, id: nat) {
    t in w.threads && QueuedId(w.threads[t].pc) == Some(id)
  }

  predicate Increasing(q: seq<nat>) {
    forall i, j :: 0 <= i < j < |q| ==> q[i] < q[j]
  }

  /** Queue entries and queued threads correspond one to one, and ids are handed out in order. */
  ghost predicate QueuesOk(w: World) {
    && (forall t, t', id :: QueuedAt(w, t, id) && QueuedAt(w, t', id) ==> t == t')
    && (forall t, id :: QueuedAt(w, t, id) ==> id in Queue(w.shared, w.threads[t].call.cls))
    && (forall cls, id :: id in Queue(w.shared, cls)
          ==> id <= w.shared.nextId && exists t :: QueuedAt(w, t, id) && w.threads[t].call.cls == cls)
    && Increasing(w.shared.interactive) && Increasing(w.shared.batch)
  }

  lemma {:induction false} WithoutElements(q: seq<nat>, id: nat)
    requires Increasing(q)
    ensures Increasing(Without(q, id))
    ensures forall x :: x in Without(q, id) <==> x in q && x != id
    ensures q != [] && q[0] != id ==> Without(q, id) != [] && Without(q, id)[0] == q[0]
  {
    if q != [] && q[0] != id {
      WithoutElements(q[1..], id);
      var r := Without(q[1..], id);
      assert q == [q[0]] + q[1..];
      assert Without(q, id) == [q[0]] + r;
      forall i, j | 0 <= i < j < |r| + 1 ensures ([q[0]] + r)[i] < ([q[0]] + r)[j] {
        assert r[j - 1] in q[1..];
      }
    } else if q != [] {
      assert q == [q[0]] + q[1..];
      assert forall x :: x in q[1..] ==> x != id;
    }
  }

  lemma SameQueues(w: World, w': World, t: nat)
    requires Moves(w, w', t) && QueuesOk(w)
    requires forall cls :: Queue(w'.shared, cls) == Queue(w.shared, cls)
    requires w'.shared.nextId == w.shared.nextId
    requires forall id :: QueuedAt(w', t, id) == QueuedAt(w, t, id)
    ensures QueuesOk(w')
  {
    assert forall u, id :: QueuedAt(w', u, id) == QueuedAt(w, u, id);
    forall cls, id | id in Queue(w'.shared, cls)
      ensures exists u :: QueuedAt(w', u, id) && w'.threads[u].call.cls == cls
    {
      assert id in Queue(w.shared, cls);
      var u :| QueuedAt(w, u, id) && w.threads[u].call.cls == cls;
      assert QueuedAt(w', u, id) && w'.threads[u].call.cls == cls;
    }
    assert Queue(w'.shared, Interactive) == Queue(w.shared, Interactive);
    assert Queue(w'.shared, Batch) == Queue(w.shared, Batch);
  }

  lemma JoinedQueue(w: World, w': World, t: nat, id: nat)
    requires Moves(w, w', t) && QueuesOk(w)
    requires t in w.threads && QueuedId(w.threads[t].pc) == None && QueuedAt(w', t, id)
    requires id == w'.shared.nextId == w.shared.nextId + 1
    requires forall cls :: Queue(w'.shared, cls)
                           == Queue(w.shared, cls) + (if cls == w.threads[t].call.cls then [id] else [])
    ensures QueuesOk(w')
  {
    assert forall u, x :: QueuedAt(w', u, x) <==> QueuedAt(w, u, x) || (u == t && x == id);
    forall cls, x | x in Queue(w'.shared, cls)
      ensures x <= w'.shared.nextId && exists u :: QueuedAt(w', u, x) && w'.threads[u].call.cls == cls
    {
      if x in Queue(w.shared, cls) {
        var u :| QueuedAt(w, u, x) && w.threads[u].call.cls == cls;
        assert QueuedAt(w', u, x) && w'.threads[u].call.cls == cls;
      } else {
        assert QueuedAt(w', t, x) && w'.threads[t].call.cls == cls;
      }
    }
    forall cls ensures Increasing(Queue(w'.shared, cls)) {
      assert Increasing(Queue(w.shared, cls));
      var q := Queue(w.shared, cls);
      forall i | 0 <= i < |q| ensures q[i] < id {
        assert q[i] in Queue(w.shared, cls);
      }
    }
    assert Queue(w'.shared, Interactive) == w'.shared.interactive;
    assert Queue(w'.shared, Batch) == w'.shared.batch;
  }

  lemma LeftQueueMembers(w: World, w': World, t: nat, id: nat, c: WorkloadClass, x: nat)
    requires Moves(w, w', t) && QueuesOk(w)
    requires QueuedAt(w, t, id) && QueuedId(w'.threads[t].pc) == None
    requires w'.shared.nextId == w.shared.nextId
    requires x in Queue(w.shared, c) && (c == w.threads[t].call.cls ==> x != id)
    ensures x <= w'.shared.nextId && exists u :: QueuedAt(w', u, x) && w'.threads[u].call.cls == c
  {
    var u :| QueuedAt(w, u, x) && w.threads[u].call.cls == c;
    assert u != t;
    assert QueuedAt(w', u, x) && w'.threads[u].call.cls == c;
  }

  lemma LeftQueue(w: World, w': World, t: nat, id: nat)
    requires Moves(w, w', t) && QueuesOk(w)
    requires QueuedAt(w, t, id) && QueuedId(w'.threads[t].pc) == None
    requires w'.shared.nextId == w.shared.nextId
    requires forall cls :: Queue(w'.shared, cls)
                           == if cls == w.threads[t].call.cls then Without(Queue(w.shared, cls), id) else Queue(w.shared, cls)
    ensures QueuesOk(w')
  {
    var cls := w.threads[t].call.cls;
    WithoutElements(Queue(w.shared, cls), id);
    assert forall u, x :: QueuedAt(w', u, x) <==> QueuedAt(w, u, x) && u != t;
    forall u, x | QueuedAt(w', u, x)
      ensures x in Queue(w'.shared, w'.threads[u].call.cls)
    {
      assert QueuedAt(w, u, x);
    }
    forall c, x | x in Queue(w'.shared, c)
      ensures x <= w'.shared.nextId && exists u :: QueuedAt(w', u, x) && w'.threads[u].call.cls == c
    {
      LeftQueueMembers(w, w', t, id, c, x);
    }
    assert Queue(w'.shared, Interactive) == w'.shared.interactive;
    assert Queue(w'.shared, Batch) == w'.shared.batch;
  }

  ghost function PcAt(w: World, t: nat): Pc {
    if t in w.threads then w.threads[t].pc else FastTry
  }

  ghost predicate Joins(cfg: Config, w: World, a: Action)
    requires Enabled(w, a)
  {
    a.Step? && PcAt(w, a.t).Enqueue? && PcAt(Apply(cfg, w, a), a.t).NotifyRead?
  }

  ghost predicate Leaves(w: World, a: Action) {
    a.Step? && PcAt(w, a.t).Remove?
  }

  ghost predicate SameQueueFields(s: Shared, s': Shared) {
    s'.interactive == s.interactive && s'.batch == s.batch && s'.nextId == s.nextId && s'.queued == s.queued
  }

  lemma OthersLeaveQueuesAlone(cfg: Config, w: World, a: Action)
    requires Enabled(w, a) && !Joins(cfg, w, a) && !Leaves(w, a)
    ensures SameQueueFields(w.shared, Apply(cfg, w, a).shared)
    ensures QueuedId(PcAt(Apply(cfg, w, a), a.t)) == QueuedId(PcAt(w, a.t))
  {
  }

  lemma JoinEffect(cfg: Config, w: World, a: Action)
    requires Enabled(w, a) && Joins(cfg, w, a) && w.shared.nextId < U64_MAX
    ensures var w' := Apply(cfg, w, a); var call := w.threads[a.t].call; var id := w.shared.nextId + 1;
            && w'.shared.nextId == id && PcAt(w', a.t) == NotifyRead(ToLoop(id))
            && w'.shared.queued == w.shared.queued[call.user := CountOf(w.shared.queued, call.user) + 1]
            && CountOf(w.shared.queued, call.user) < cfg.queuedPerUser
            && |Queue(w.shared, call.cls)| < Limit(cfg, call.cls)
            && forall cls :: Queue(w'.shared, cls)
                             == Queue(w.shared, cls) + (if cls == call.cls then [id] else [])
  {
  }

  lemma LeaveEffect(cfg: Config, w: World, a: Action)
    requires Enabled(w, a) && Leaves(w, a)
    ensures var w' := Apply(cfg, w, a); var call := w.threads[a.t].call; var id := PcAt(w, a.t).id;
            && w'.shared.nextId == w.shared.nextId && QueuedId(PcAt(w', a.t)) == None
            && w'.shared.queued == Decremented(w.shared.queued, call.user)
            && forall cls :: Queue(w'.shared, cls)
                             == if cls == call.cls then Without(Queue(w.shared, cls), id) else Queue(w.shared, cls)
  {
  }

  lemma QueuesKept(cfg: Config, w: World, a: Action)
    requires Enabled(w, a) && QueuesOk(w) && w.shared.nextId < U64_MAX
    ensures QueuesOk(Apply(cfg, w, a))
  {
    var w' := Apply(cfg, w, a);
    OneThreadMoves(cfg, w, a);
    if Joins(cfg, w, a) {
      JoinEffect(cfg, w, a);
      JoinedQueue(w, w', a.t, w'.shared.nextId);
    } else if Leaves(w, a) {
      LeaveEffect(cfg, w, a);
      LeftQueue(w, w', a.t, w.threads[a.t].pc.id);
    } else {
      OthersLeaveQueuesAlone(cfg, w, a);
      SameQueues(w, w', a.t);
    }
  }

  // ---- queue counters and bounds ----

  ghost function QueuedBy(w: World, user: string): set<nat> {
    set t | t in w.threads && QueuedId(w.threads[t].pc).Some? && w.threads[t].call.user == user
  }

  /** `queued_by_user` counts the queued threads of each user, and every bound is respected. */
  ghost predicate CountsOk(cfg: Config, w: World) {
    && (forall u :: CountOf(w.shared.queued, u) == |QueuedBy(w, u)|)
    && (forall u :: CountOf(w.shared.queued, u) <= cfg.queuedPerUser)
    && (forall cls :: |Queue(w.shared, cls)| <= Limit(cfg, cls))
  }

  lemma SameButOne(s: set<nat>, s': set<nat>, t: nat)
    requires s - {t} == s' - {t}
    ensures |s'| + (if t in s then 1 else 0) == |s| + (if t in s' then 1 else 0)
  {
    assert t in s ==> s == (s - {t}) + {t};
    assert t in s' ==> s' == (s' - {t}) + {t};
    assert t !in s ==> s == s - {t};
    assert t !in s' ==> s' == s' - {t};
  }

  lemma QueuedByMoved(w: World, w': World, t: nat, user: string)
    requires Moves(w, w', t)
    ensures |QueuedBy(w', user)| + (if t in QueuedBy(w, user) then 1 else 0)
            == |QueuedBy(w, user)| + (if t in QueuedBy(w', user) then 1 else 0)
  {
    assert QueuedBy(w', user) - {t} == QueuedBy(w, user) - {t};
    SameButOne(QueuedBy(w, user), QueuedBy(w', user), t);
  }

  lemma CountsMoved(cfg: Config, w: World, w': World, t: nat, join: bool, leave: bool)
    requires Moves(w, w', t) && CountsOk(cfg, w)
    requires (t in w.threads && QueuedId(w.threads[t].pc).Some?) == (if join then false else if leave then true else QueuedId(w'.threads[t].pc).Some?)
    requires join ==> QueuedId(w'.threads[t].pc).Some? && CountOf(w.shared.queued, w'.threads[t].call.user) < cfg.queuedPerUser
    requires leave ==> !join && QueuedId(w'.threads[t].pc).None?
    requires var user := w'.threads[t].call.user;
             w'.shared.queued == if join then w.shared.queued[user := CountOf(w.shared.queued, user) + 1]
                                 else if leave then Decremented(w.shared.queued, user) else w.shared.queued
    requires forall cls :: |Queue(w'.shared, cls)| <= Limit(cfg, cls)
    ensures CountsOk(cfg, w')
  {
    var user := w'.threads[t].call.user;
    forall u ensures CountOf(w'.shared.queued, u) == |QueuedBy(w', u)| && CountOf(w'.shared.queued, u) <= cfg.queuedPerUser {
      QueuedByMoved(w, w', t, u);
      assert CountOf(w.shared.queued, u) == |QueuedBy(w, u)|;
      assert t in QueuedBy(w, u) ==> QueuedBy(w, u) != {};
    }
  }

  lemma CountsKept(cfg: Config, w: World, a: Action)
    requires Enabled(w, a) && CountsOk(cfg, w) && w.shared.nextId < U64_MAX
    ensures CountsOk(cfg, Apply(cfg, w, a))
  {
    var w' := Apply(cfg, w, a);
    OneThreadMoves(cfg, w, a);
    var join, leave := Joins(cfg, w, a), Leaves(w, a);
    if join {
      JoinEffect(cfg, w, a);
    } else if leave {
      LeaveEffect(cfg, w, a);
    } else {
      OthersLeaveQueuesAlone(cfg, w, a);
    }
    forall cls ensures |Queue(w'.shared, cls)| <= Limit(cfg, cls) {
      assert |Queue(w.shared, cls)| <= Limit(cfg, cls);
    }
    CountsMoved(cfg, w, w', a.t, join, leave);
  }

  // ---- order of admission ----

  ghost predicate FrontPassed(w: World, t: nat) {
    t in w.threads && (w.threads[t].pc.TryPermit? || (w.threads[t].pc.Remove? && w.threads[t].pc.admitted))
  }

  /** A request that passed its front check stays first of its class until it leaves. */
  ghost predicate FrontsOk(w: World) {
    forall t :: FrontPassed(w, t) ==>
      var q := Queue(w.shared, w.threads[t].call.cls); q != [] && q[0] == w.threads[t].pc.id
  }

  lemma FrontsKept(cfg: Config, w: World, a: Action)
    requires Enabled(w, a) && QueuesOk(w) && FrontsOk(w) && w.shared.nextId < U64_MAX
    ensures FrontsOk(Apply(cfg, w, a))
  {
    var w' := Apply(cfg, w, a);
    OneThreadMoves(cfg, w, a);
    forall t | FrontPassed(w', t)
      ensures var q := Queue(w'.shared, w'.threads[t].call.cls); q != [] && q[0] == w'.threads[t].pc.id
    {
      var cls := w'.threads[t].call.cls;
      if t == a.t {
        OthersLeaveQueuesAlone(cfg, w, a);
        assert FrontPassed(w, t) || (a.Step? && PcAt(w, t).CheckFront?);
      } else {
        assert FrontPassed(w, t);
        if Joins(cfg, w, a) {
          JoinEffect(cfg, w, a);
        } else if Leaves(w, a) {
          LeaveEffect(cfg, w, a);
          WithoutElements(Queue(w.shared, cls), PcAt(w, a.t).id);
          assert QueuedAt(w, t, PcAt(w, t).id) && QueuedAt(w, a.t, PcAt(w, a.t).id);
        } else {
          OthersLeaveQueuesAlone(cfg, w, a);
        }
      }
    }
  }

  ghost predicate Admitting(w: World, t: nat, id: nat) {
    t in w.threads && w.threads[t].pc == Remove(id, true)
  }

  /** Within a class, admissions have increasing ids, and nobody still queued was overtaken. */
  ghost predicate AdmissionsOk(w: World) {
    && (forall i, j :: 0 <= i < j < |w.admissions| && w.admissions[i].0 == w.admissions[j].0
          ==> w.admissions[i].1 < w.admissions[j].1)
    && (forall e :: e in w.admissions ==> e.1 <= w.shared.nextId)
    && (forall e, x :: e in w.admissions && x in Queue(w.shared, e.0)
          ==> e.1 < x || (e.1 == x && exists t :: Admitting(w, t, x)))
  }

  ghost predicate Admits(cfg: Config, w: World, a: Action) {
    a.Step? && PcAt(w, a.t).TryPermit? && w.free
  }

  lemma AdmittedInOrder(cfg: Config, w: World, a: Action)
    requires Enabled(w, a) && Admits(cfg, w, a)
    requires QueuesOk(w) && FrontsOk(w) && AdmissionsOk(w)
    ensures AdmissionsOk(Apply(cfg, w, a))
  {
    var w' := Apply(cfg, w, a);
    var cls, id := w.threads[a.t].call.cls, PcAt(w, a.t).id;
    var q := Queue(w.shared, cls);
    assert FrontPassed(w, a.t) && QueuedAt(w, a.t, id) && id == q[0];
    assert Queue(w'.shared, cls) == q;
    forall e | e in w.admissions && e.0 == cls ensures e.1 < id {
      if t :| Admitting(w, t, id) {
        assert QueuedAt(w, t, id);
        assert false;
      }
    }
    forall e, x | e in w'.admissions && x in Queue(w'.shared, e.0)
      ensures e.1 < x || (e.1 == x && exists t :: Admitting(w', t, x))
    {
      if e in w.admissions {
        assert x in Queue(w.shared, e.0);
        if e.1 == x {
          var t :| Admitting(w, t, x);
          assert Admitting(w', t, x);
        }
      } else {
        assert e == (cls, id);
        assert id <= x;
        assert Admitting(w', a.t, id);
      }
    }
  }

  lemma AdmissionsCarried(w: World, w': World)
    requires AdmissionsOk(w) && w'.admissions == w.admissions && w.shared.nextId <= w'.shared.nextId
    requires forall cls, x :: x in Queue(w'.shared, cls) ==> x in Queue(w.shared, cls) || x > w.shared.nextId
    requires forall cls, t, x :: Admitting(w, t, x) && x in Queue(w'.shared, cls) ==> Admitting(w', t, x)
    ensures AdmissionsOk(w')
  {
    forall e, x | e in w'.admissions && x in Queue(w'.shared, e.0)
      ensures e.1 < x || (e.1 == x && exists t :: Admitting(w', t, x))
    {
      if e.1 == x {
        assert x in Queue(w.shared, e.0);
        var t :| Admitting(w, t, x);
        assert Admitting(w', t, x);
      }
    }
  }

  lemma AdmissionsKept(cfg: Config, w: World, a: Action)
    requires Enabled(w, a) && w.shared.nextId < U64_MAX
    requires QueuesOk(w) && FrontsOk(w) && AdmissionsOk(w)
    ensures AdmissionsOk(Apply(cfg, w, a))
  {
    var w' := Apply(cfg, w, a);
    if Admits(cfg, w, a) {
      AdmittedInOrder(cfg, w, a);
      return;
    }
    OneThreadMoves(cfg, w, a);
    if Joins(cfg, w, a) {
      JoinEffect(cfg, w, a);
    } else if Leaves(w, a) {
      LeaveEffect(cfg, w, a);
      var cls, id := w.threads[a.t].call.cls, PcAt(w, a.t).id;
      WithoutElements(Queue(w.shared, cls), id);
      assert QueuedAt(w, a.t, id);
    } else {
      OthersLeaveQueuesAlone(cfg, w, a);
    }
    AdmissionsCarried(w, w');
  }

  // ---- where a call may stand ----

  /** Past the per-user limit check, on the way to or holding a lease. */
  predicate PastLimitCheck(pc: Pc) {
    match pc
    case TryPermit(_) | CountRunning | Leased | DropPermit => true
    case Remove(_, admitted) => admitted
    case NotifyRead(after) => after.ToCount?
    case NotifySend(_, after) => after.ToCount?
    case _ => false
  }

  predicate SentToCloud(pc: Pc) {
    match pc
    case NotifyRead(ToEnd(OverflowToCloud)) => true
    case NotifySend(_, ToEnd(OverflowToCloud)) => true
    case Ended(OverflowToCloud) => true
    case _ => false
  }

  ghost predicate CallsOk(cfg: Config, w: World) {
    forall t :: t in w.threads ==>
      var Thread(call, pc) := w.threads[t];
      && (PastLimitCheck(pc) ==> cfg.executingPerUser >= 1)
      && (pc.FastRefused? ==> cfg.executingPerUser == 0)
      && (SentToCloud(pc) ==> call.cloud && !call.mode.LocalStrict?)
  }

  lemma CallsKept(cfg: Config, w: World, a: Action)
    requires Enabled(w, a) && PermitOk(w) && RunningOk(w) && CallsOk(cfg, w)
    ensures CallsOk(cfg, Apply(cfg, w, a))
  {
    var w' := Apply(cfg, w, a);
    OneThreadMoves(cfg, w, a);
    if a.Step? && PcAt(w, a.t).FastHolding? {
      NothingRunsUnder(w, a.t);
    }
  }

  /** While a thread holds the permit without a lease, every running counter is zero. */
  lemma NothingRunsUnder(w: World, t: nat)
    requires PermitOk(w) && RunningOk(w) && HoldsAt(w, t) && !LeasedAt(w, t)
    ensures forall u :: CountOf(w.shared.running, u) == 0
  {
    forall u ensures CountOf(w.shared.running, u) == 0 {
      if CountOf(w.shared.running, u) != 0 {
        var v :| LeasedAt(w, v) && w.threads[v].call.user == u;
        assert HoldsAt(w, v);
      }
    }
  }

  // ---- every reachable state ----

  ghost predicate Safe(cfg: Config, w: World) {
    && PermitOk(w) && RunningOk(w) && QueuesOk(w) && CountsOk(cfg, w)
    && FrontsOk(w) && AdmissionsOk(w) && CallsOk(cfg, w)
  }

  lemma SafeInitially(cfg: Config)
    ensures Safe(cfg, INITIAL)
  {
    forall u ensures QueuedBy(INITIAL, u) == {} { }
  }

  lemma SafeKept(cfg: Config, w: World, a: Action)
    requires Enabled(w, a) && Safe(cfg, w) && w.shared.nextId < U64_MAX
    ensures Safe(cfg, Apply(cfg, w, a))
  {
    PermitKept(cfg, w, a);
    RunningKept(cfg, w, a);
    QueuesKept(cfg, w, a);
    CountsKept(cfg, w, a);
    FrontsKept(cfg, w, a);
    AdmissionsKept(cfg, w, a);
    CallsKept(cfg, w, a);
  }

  lemma {:induction false} SafeThroughout(cfg: Config, w: World, run: seq<Action>)
    requires Safe(cfg, w) && Runs(cfg, w, run)
    ensures Safe(cfg, Exec(cfg, w, run))
    decreases |run|
  {
    if run != [] {
      SafeKept(cfg, w, run[0]);
      SafeThroughout(cfg, Apply(cfg, w, run[0]), run[1..]);
    }
  }

  /**
   In every interleaving: at most one lease is out, the running total never exceeds the permits
   taken, per-user limits hold, and the fast path never refuses a user when the limit is at least 1.
   */
  lemma MutualExclusion(cfg: Config, run: seq<Action>)
    requires Runs(cfg, INITIAL, run)
    ensures var w := Exec(cfg, INITIAL, run);
            && (forall t, t' :: LeasedAt(w, t) && LeasedAt(w, t') ==> t == t')
            && RunningTotal(w.shared) == (if exists t :: LeasedAt(w, t) then 1 else 0)
            && RunningTotal(w.shared) <= (if w.free then 0 else 1)
            && (forall u :: CountOf(w.shared.running, u) <= cfg.executingPerUser)
            && (cfg.executingPerUser >= 1 ==> forall t :: t in w.threads ==> !w.threads[t].pc.FastRefused?)
  {
    SafeInitially(cfg);
    SafeThroughout(cfg, INITIAL, run);
    var w := Exec(cfg, INITIAL, run);
    assert forall t :: LeasedAt(w, t) ==> HoldsAt(w, t);
    var counts := AsInts(w.shared.running);
    assert forall u :: u in counts ==> counts[u] == CountOf(w.shared.running, u);
    if t :| LeasedAt(w, t) {
      assert PastLimitCheck(w.threads[t].pc);
      SumSingle(counts, w.threads[t].call.user);
    } else {
      SumSingle(counts, "");
    }
  }

  /** Every reachable state respects the queue bounds, and the per-user counters are exact. */
  lemma QueueDiscipline(cfg: Config, run: seq<Action>)
    requires Runs(cfg, INITIAL, run)
    ensures var w := Exec(cfg, INITIAL, run);
            && (forall u :: CountOf(w.shared.queued, u) == |QueuedBy(w, u)| <= cfg.queuedPerUser)
            && |w.shared.interactive| <= cfg.interactiveLimit && |w.shared.batch| <= cfg.batchLimit
            && (forall i, j :: 0 <= i < j < |w.admissions| && w.admissions[i].0 == w.admissions[j].0
                  ==> w.admissions[i].1 < w.admissions[j].1)
  {
    SafeInitially(cfg);
    SafeThroughout(cfg, INITIAL, run);
    var w := Exec(cfg, INITIAL, run);
    assert |Queue(w.shared, Interactive)| <= Limit(cfg, Interactive);
    assert |Queue(w.shared, Batch)| <= Limit(cfg, Batch);
  }

  /** A local-strict call, or one without a cloud route, is never sent to the cloud. */
  lemma StrictStaysLocal(cfg: Config, run: seq<Action>, t: nat)
    requires Runs(cfg, INITIAL, run)
    ensures var w := Exec(cfg, INITIAL, run);
            (t in w.threads && w.threads[t].pc == Ended(OverflowToCloud)) ==>
              w.threads[t].call.cloud && !w.threads[t].call.mode.LocalStrict?
  {
    SafeInitially(cfg);
    SafeThroughout(cfg, INITIAL, run);
  }
}
