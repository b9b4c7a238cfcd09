/** The scheduler state behind the mutex, and what each locked region does to it. */
module SchedulerState {
  import opened Common
  import opened RoutingPolicy
  import opened Sums

  const DEFAULT_SERVICE_MS: nat := 5000

  datatype Config = Config(
    executingPerUser: nat,
    queuedPerUser: nat,
    interactiveLimit: nat,
    batchLimit: nat,
    overflowAfterMs: nat)

  /** Queue entries are request ids; who owns an id is known only to the waiting thread. */
  datatype Shared = Shared(
    running: map<string, nat>,
    queued: map<string, nat>,
    interactive: seq<nat>,
    batch: seq<nat>,
    nextId: nat,
    serviceMs: nat)

  datatype Enqueued = Queued(id: nat) | UserQueueFull | ClassQueueFull

  const EMPTY := Shared(map[], map[], [], [], 0, DEFAULT_SERVICE_MS)

  function Min(a: nat, b: nat): nat { if a <= b then a else b }

  function Max(a: nat, b: nat): nat { if a <= b then b else a }

  function CountOf(counts: map<string, nat>, user: string): nat {
    if user in counts then counts[user] else 0
  }

  function Queue(s: Shared, cls: WorkloadClass): seq<nat> {
    if cls.Interactive? then s.interactive else s.batch
  }

  function WithQueue(s: Shared, cls: WorkloadClass, q: seq<nat>): Shared {
    if cls.Interactive? then s.(interactive := q) else s.(batch := q)
  }

  function Limit(cfg: Config, cls: WorkloadClass): nat {
    if cls.Interactive? then cfg.interactiveLimit else cfg.batchLimit
  }

  /** Removes the first occurrence of an id; a queue without it is left alone. */
  function Without(q: seq<nat>, id: nat): (r: seq<nat>)
    ensures |r| <= |q|
  {
    if q == [] then [] else if q[0] == id then q[1..] else [q[0]] + Without(q[1..], id)
  }

  function Decremented(counts: map<string, nat>, user: string): map<string, nat> {
    if user !in counts then counts
    else if counts[user] <= 1 then counts - {user}
    else counts[user := counts[user] - 1]
  }

  predicate MayStart(s: Shared, cfg: Config, user: string) {
    CountOf(s.running, user) < cfg.executingPerUser
  }

  /** The fast path under the lock: the counter entry is created even when the user is refused. */
  function FastStart(s: Shared, cfg: Config, user: string): Shared {
    var count := CountOf(s.running, user);
    s.(running := s.running[user := if MayStart(s, cfg, user) then count + 1 else count])
  }

  function Started(s: Shared, user: string): Shared {
    s.(running := s.running[user := CountOf(s.running, user) + 1])
  }

  ghost function EstimatedWaitMs(s: Shared, cls: WorkloadClass): nat {
    var ahead := |s.interactive| + (if cls.Batch? then |s.batch| else 0) + RunningTotal(s);
    Min(U64_MAX, s.serviceMs * ahead)
  }

  ghost function RunningTotal(s: Shared): nat {
    var counts := AsInts(s.running);
    SumNonNegative(counts);
    Sum(counts)
  }

  ghost function AsInts(m: map<string, nat>): map<string, int> {
    map k | k in m :: m[k]
  }

  function TryEnqueue(s: Shared, cfg: Config, user: string, cls: WorkloadClass): (Shared, Enqueued) {
    if CountOf(s.queued, user) >= cfg.queuedPerUser then (s, UserQueueFull)
    else if |Queue(s, cls)| >= Limit(cfg, cls) then (s, ClassQueueFull)
    else
      var id := Min(U64_MAX, s.nextId + 1);
      var counted := s.(nextId := id, queued := s.queued[user := CountOf(s.queued, user) + 1]);
      (WithQueue(counted, cls, Queue(s, cls) + [id]), Queued(id))
  }

  predicate IsFront(s: Shared, cfg: Config, id: nat, cls: WorkloadClass, user: string) {
    && MayStart(s, cfg, user)
    && (cls.Batch? ==> s.interactive == [])
    && Queue(s, cls) != [] && Queue(s, cls)[0] == id
  }

  function Removed(s: Shared, id: nat, cls: WorkloadClass, user: string): Shared {
    WithQueue(s, cls, Without(Queue(s, cls), id)).(queued := Decremented(s.queued, user))
  }

  /** The request that a wakeup is aimed at: interactive before batch. */
  function Head(s: Shared): Option<nat> {
    if s.interactive != [] then Some(s.interactive[0])
    else if s.batch != [] then Some(s.batch[0])
    else None
  }

  function Released(s: Shared, user: string, elapsedMs: nat): Shared {
    var e := Max(elapsedMs, 1);
    s.(running := Decremented(s.running, user),
       serviceMs := if s.serviceMs == 0 then e
                    else Min(U64_MAX, Min(U64_MAX, s.serviceMs * 4) + e) / 5)
  }

  /** The mutable object; every method is one locked region and realises the function it names. */
  class Scheduler {
    var running: map<string, nat>
    var queued: map<string, nat>
    var interactive: seq<nat>
    var batch: seq<nat>
    var nextId: nat
    var serviceMs: nat

    ghost function Model(): Shared
      reads this
    {
      Shared(running, queued, interactive, batch, nextId, serviceMs)
    }

    constructor ()
      ensures Model() == EMPTY
    {
      running, queued, interactive, batch := map[], map[], [], [];
      nextId, serviceMs := 0, DEFAULT_SERVICE_MS;
    }

    method TryFastStart(cfg: Config, user: string) returns (started: bool)
      modifies this
      ensures Model() == FastStart(old(Model()), cfg, user)
      ensures started == MayStart(old(Model()), cfg, user)
    {
      if user !in running {
        running := running[user := 0];
      }
      started := running[user] < cfg.executingPerUser;
      if started {
        running := running[user := running[user] + 1];
      }
    }

    method CountStarted(user: string)
      modifies this
      ensures Model() == Started(old(Model()), user)
    {
      if user !in running {
        running := running[user := 0];
      }
      running := running[user := running[user] + 1];
    }

    method EstimateWait(cls: WorkloadClass) returns (ms: nat)
      ensures ms == EstimatedWaitMs(Model(), cls)
    {
      var total := 0;
      var todo := running.Keys;
      ghost var counts := AsInts(running);
      assert Only(counts, todo) == counts;
      while todo != {}
        invariant todo <= running.Keys
        invariant total + Sum(Only(counts, todo)) == Sum(counts)
        invariant total >= 0
        decreases todo
      {
        var user :| user in todo;
        SumRemove(Only(counts, todo), user);
        assert Only(counts, todo) - {user} == Only(counts, todo - {user});
        total := total + running[user];
        todo := todo - {user};
      }
      assert Only(counts, todo) == map[];
      var ahead := |interactive| + (if cls.Batch? then |batch| else 0) + total;
      ms := Min(U64_MAX, serviceMs * ahead);
    }

    method Enqueue(cfg: Config, user: string, cls: WorkloadClass) returns (outcome: Enqueued)
      modifies this
      ensures (Model(), outcome) == TryEnqueue(old(Model()), cfg, user, cls)
    {
      var waiting := if user in queued then queued[user] else 0;
      if waiting >= cfg.queuedPerUser {
        return UserQueueFull;
      }
      var depth := if cls.Interactive? then |interactive| else |batch|;
      var limit := if cls.Interactive? then cfg.interactiveLimit else cfg.batchLimit;
      if depth >= limit {
        return ClassQueueFull;
      }
      nextId := Min(U64_MAX, nextId + 1);
      queued := queued[user := waiting + 1];
      if cls.Interactive? {
        interactive := interactive + [nextId];
      } else {
        batch := batch + [nextId];
      }
      outcome := Queued(nextId);
    }

    method CheckFront(cfg: Config, id: nat, cls: WorkloadClass, user: string) returns (front: bool)
      ensures front == IsFront(Model(), cfg, id, cls, user)
    {
      if user in running && running[user] >= cfg.executingPerUser {
        return false;
      }
      if user !in running && cfg.executingPerUser == 0 {
        return false;
      }
      match cls
      case Interactive => front := |interactive| > 0 && interactive[0] == id;
      case Batch => front := |interactive| == 0 && |batch| > 0 && batch[0] == id;
    }

    method RemoveQueued(id: nat, cls: WorkloadClass, user: string)
      modifies this
      ensures Model() == Removed(old(Model()), id, cls, user)
    {
      if cls.Interactive? {
        interactive := Without(interactive, id);
      } else {
        batch := Without(batch, id);
      }
      if user in queued {
        queued := if queued[user] <= 1 then queued - {user} else queued[user := queued[user] - 1];
      }
    }

    method NextToWake() returns (id: Option<nat>)
      ensures id == Head(Model())
    {
      if |interactive| > 0 {
        id := Some(interactive[0]);
      } else if |batch| > 0 {
        id := Some(batch[0]);
      } else {
        id := None;
      }
    }

    method FinishLease(user: string, elapsedMs: nat)
      modifies this
      ensures Model() == Released(old(Model()), user, elapsedMs)
    {
      if user in running {
        running := if running[user] <= 1 then running - {user} else running[user := running[user] - 1];
      }
      var e := Max(elapsedMs, 1);
      serviceMs := if serviceMs == 0 then e else Min(U64_MAX, Min(U64_MAX, serviceMs * 4) + e) / 5;
    }
  }
}
