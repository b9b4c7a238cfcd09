/**
 The acquire/release protocol as a transition system. A thread's program counter stands
 between two atomic regions of `acquire` or of the lease's drop, so every interleaving of
 locked regions, permit operations and notifications is a sequence of actions.
 */
module SchedulerProtocol {
  import opened Common
  import opened RoutingPolicy
  import opened SchedulerState

  datatype Call = Call(user: string, mode: HybridMode, cls: WorkloadClass, cloud: bool)

  datatype Outcome = OverflowToCloud | RateLimited | LeaseEnded

  /** What a thread does once its wakeup of the next request is sent. */
  datatype After = ToLoop(id: nat) | ToCount | ToEnd(outcome: Outcome)

  datatype Pc =
    | FastTry                                // about to try the permit without queueing
    | FastHolding                            // holds the permit, about to lock the state
    | FastRefused                            // about to give the permit back
    | Estimate                               // about to estimate the wait
    | Enqueue                                // about to join a queue
    | NotifyRead(after: After)               // about to look up the request to wake
    | NotifySend(target: nat, after: After)  // about to store the wakeup
    | CheckFront(id: nat)                    // top of the wait loop
    | TryPermit(id: nat)                     // passed the front check
    | Remove(id: nat, admitted: bool)        // about to leave the queue
    | CountRunning                           // admitted, about to count itself as running
    | Leased                                 // the caller holds the lease
    | DropPermit                             // lease dropped, about to return the permit
    | Pause(id: nat)                         // not admitted, about to compare with the deadline
    | Waiting(id: nat)                       // blocked on its own notification
    | Cancelled(id: nat)                     // future dropped while blocked
    | Ended(outcome: Outcome)

  datatype Thread = Thread(call: Call, pc: Pc)

  datatype World = World(
    shared: Shared,
    free: bool,                              // the single permit
    tokens: set<nat>,                        // requests with a stored wakeup
    threads: map<nat, Thread>,
    admissions: seq<(WorkloadClass, nat)>)   // history: queued requests in the order they took the permit

  datatype Action =
    | Spawn(t: nat, call: Call)
    | Step(t: nat)
    | Expire(t: nat)                         // the deadline test of a paused thread comes out true
    | WaitTimeout(t: nat)
    | DropLease(t: nat, elapsedMs: nat)
    | Cancel(t: nat)

  const INITIAL := World(EMPTY, true, {}, map[], [])

  ghost predicate Enabled(w: World, a: Action) {
    match a
    case Spawn(t, _) => t !in w.threads
    case Step(t) => t in w.threads && CanStep(w, w.threads[t].pc)
    case Expire(t) => t in w.threads && w.threads[t].pc.Pause?
    case WaitTimeout(t) => t in w.threads && w.threads[t].pc.Waiting?
    case DropLease(t, _) => t in w.threads && w.threads[t].pc.Leased?
    case Cancel(t) => t in w.threads && w.threads[t].pc.Waiting?
  }

  /** Everything but a held lease, an unwoken wait and an ended call can always take its next step. */
  ghost predicate CanStep(w: World, pc: Pc) {
    match pc
    case Waiting(id) => id in w.tokens
    case Leased | Cancelled(_) | Ended(_) => false
    case _ => true
  }

  ghost function Apply(cfg: Config, w: World, a: Action): World
    requires Enabled(w, a)
  {
    match a
    case Spawn(t, call) => w.(threads := w.threads[t := Thread(call, FastTry)])
    case Step(t) => StepThread(cfg, w, t)
    case Expire(t) => At(w, t, Remove(w.threads[t].pc.id, false))
    case WaitTimeout(t) => At(w, t, CheckFront(w.threads[t].pc.id))
    case DropLease(t, ms) =>
      At(w.(shared := Released(w.shared, w.threads[t].call.user, ms)), t, DropPermit)
    case Cancel(t) => At(w, t, Cancelled(w.threads[t].pc.id))
  }

  ghost function At(w: World, t: nat, pc: Pc): World
    requires t in w.threads
  {
    w.(threads := w.threads[t := w.threads[t].(pc := pc)])
  }

  ghost function Continue(after: After): Pc {
    match after
    case ToLoop(id) => CheckFront(id)
    case ToCount => CountRunning
    case ToEnd(outcome) => Ended(outcome)
  }

  ghost predicate MayOverflow(call: Call) {
    (call.mode.LocalFirst? || call.mode.Balanced?) && call.cloud
  }

  ghost function TimedOut(call: Call): Outcome {
    if !call.mode.LocalStrict? && call.cloud then OverflowToCloud else RateLimited
  }

  ghost function StepThread(cfg: Config, w: World, t: nat): World
    requires t in w.threads && CanStep(w, w.threads[t].pc)
  {
    var Thread(call, pc) := w.threads[t];
    match pc
    case FastTry =>
      if w.free then At(w.(free := false), t, FastHolding) else At(w, t, Estimate)
    case FastHolding =>
      var w' := w.(shared := FastStart(w.shared, cfg, call.user));
      At(w', t, if MayStart(w.shared, cfg, call.user) then Leased else FastRefused)
    case FastRefused => At(w.(free := true), t, Estimate)
    case Estimate =>
      var long := EstimatedWaitMs(w.shared, call.cls) > cfg.overflowAfterMs;
      At(w, t, if MayOverflow(call) && long then Ended(OverflowToCloud) else Enqueue)
    case Enqueue =>
      var (shared, outcome) := TryEnqueue(w.shared, cfg, call.user, call.cls);
      At(w.(shared := shared), t,
         match outcome
         case Queued(id) => NotifyRead(ToLoop(id))
         case UserQueueFull => Ended(RateLimited)
         case ClassQueueFull => Ended(if MayOverflow(call) then OverflowToCloud else RateLimited))
    case NotifyRead(after) =>
      At(w, t, match Head(w.shared) case Some(id) => NotifySend(id, after) case None => Continue(after))
    case NotifySend(target, after) => At(w.(tokens := w.tokens + {target}), t, Continue(after))
    case CheckFront(id) =>
      At(w, t, if IsFront(w.shared, cfg, id, call.cls, call.user) then TryPermit(id) else Pause(id))
    case TryPermit(id) =>
      if w.free
      then At(w.(free := false, admissions := w.admissions + [(call.cls, id)]), t, Remove(id, true))
      else At(w, t, Pause(id))
    case Remove(id, admitted) =>
      At(w.(shared := Removed(w.shared, id, call.cls, call.user)), t,
         NotifyRead(if admitted then ToCount else ToEnd(TimedOut(call))))
    case CountRunning => At(w.(shared := Started(w.shared, call.user)), t, Leased)
    case DropPermit => At(w.(free := true), t, NotifyRead(ToEnd(LeaseEnded)))
    case Pause(id) => At(w, t, Waiting(id))
    case Waiting(id) => At(w.(tokens := w.tokens - {id}), t, CheckFront(id))
  }

  /** A run: each action is enabled where it is taken, and request ids are not exhausted. */
  ghost predicate Runs(cfg: Config, w: World, run: seq<Action>)
    decreases |run|
  {
    && w.shared.nextId < U64_MAX
    && (run == [] || (Enabled(w, run[0]) && Runs(cfg, Apply(cfg, w, run[0]), run[1..])))
  }

  ghost function Exec(cfg: Config, w: World, run: seq<Action>): World
    requires Runs(cfg, w, run)
    decreases |run|
  {
    if run == [] then w else Exec(cfg, Apply(cfg, w, run[0]), run[1..])
  }

  /** The id under which a thread stands in a queue, if it does. */
  function QueuedId(pc: Pc): Option<nat> {
    match pc
    case NotifyRead(ToLoop(id)) => Some(id)
    case NotifySend(_, ToLoop(id)) => Some(id)
    case CheckFront(id) => Some(id)
    case TryPermit(id) => Some(id)
    case Remove(id, _) => Some(id)
    case Pause(id) => Some(id)
    case Waiting(id) => Some(id)
    case Cancelled(id) => Some(id)
    case _ => None
  }

  predicate Holds(pc: Pc) {
    match pc
    case FastHolding | FastRefused | CountRunning | Leased | DropPermit => true
    case Remove(_, admitted) => admitted
    case NotifyRead(after) => after.ToCount?
    case NotifySend(_, after) => after.ToCount?
    case _ => false
  }
}
