/** A reachable state in which a cancelled caller keeps a free permit from being used. */
module SchedulerStall {
  import opened Common
  import opened RoutingPolicy
  import opened SchedulerState
  import opened SchedulerProtocol
  import opened SchedulerSafety
  import opened SchedulerWakeup

  ghost predicate Reaches(cfg: Config, w: World, run: seq<Action>, w': World) {
    Runs(cfg, w, run) && Exec(cfg, w, run) == w'
  }

  /** Runs compose one action at a time. */
  lemma {:induction false} OneMore(cfg: Config, w: World, run: seq<Action>, w': World, a: Action)
    requires Reaches(cfg, w, run, w') && Enabled(w', a) && Apply(cfg, w', a).shared.nextId < U64_MAX
    ensures Reaches(cfg, w, run + [a], Apply(cfg, w', a))
    decreases |run|
  {
    if run == [] {
      var w1 := Apply(cfg, w, a);
      assert [a][1..] == [] && Runs(cfg, w1, []);
      assert [] + [a] == [a] && Runs(cfg, w, [a]);
    } else {
      OneMore(cfg, Apply(cfg, w, run[0]), run[1..], w', a);
      assert (run + [a])[1..] == run[1..] + [a] && (run + [a])[0] == run[0];
    }
  }

  const FIRST: Call := Call("first", LocalStrict, Interactive, false)
  const SECOND: Call := Call("second", LocalStrict, Interactive, false)

  ghost predicate Roomy(cfg: Config) {
    cfg.executingPerUser >= 1 && cfg.queuedPerUser >= 1 && cfg.interactiveLimit >= 1
  }

  /** The first caller holds the lease by the fast path. */
  lemma FirstLeases(cfg: Config) returns (run: seq<Action>, w: World)
    requires Roomy(cfg)
    ensures Reaches(cfg, INITIAL, run, w)
    ensures !w.free && w.tokens == {} && w.threads == map[0 := Thread(FIRST, Leased)]
    ensures w.shared == EMPTY.(running := map["first" := 1])
  {
    run, w := [], INITIAL;
    OneMore(cfg, INITIAL, run, w, Spawn(0, FIRST));
    run, w := run + [Spawn(0, FIRST)], Apply(cfg, w, Spawn(0, FIRST));
    OneMore(cfg, INITIAL, run, w, Step(0));
    run, w := run + [Step(0)], Apply(cfg, w, Step(0));
    OneMore(cfg, INITIAL, run, w, Step(0));
    run, w := run + [Step(0)], Apply(cfg, w, Step(0));
  }

  /** The second caller finds the permit taken and joins the queue. */
  lemma SecondQueues(cfg: Config) returns (run: seq<Action>, w: World)
    requires Roomy(cfg)
    ensures Reaches(cfg, INITIAL, run, w)
    ensures !w.free && w.tokens == {}
    ensures w.threads == map[0 := Thread(FIRST, Leased), 1 := Thread(SECOND, NotifyRead(ToLoop(1)))]
    ensures w.shared == EMPTY.(running := map["first" := 1], queued := map["second" := 1], interactive := [1], nextId := 1)
  {
    run, w := FirstLeases(cfg);
    OneMore(cfg, INITIAL, run, w, Spawn(1, SECOND));
    run, w := run + [Spawn(1, SECOND)], Apply(cfg, w, Spawn(1, SECOND));
    OneMore(cfg, INITIAL, run, w, Step(1));
    run, w := run + [Step(1)], Apply(cfg, w, Step(1));
    OneMore(cfg, INITIAL, run, w, Step(1));
    run, w := run + [Step(1)], Apply(cfg, w, Step(1));
    OneMore(cfg, INITIAL, run, w, Step(1));
    run, w := run + [Step(1)], Apply(cfg, w, Step(1));
  }

  /** It cannot get the permit, waits, and its caller goes away. */
  lemma SecondIsCancelled(cfg: Config) returns (run: seq<Action>, w: World)
    requires Roomy(cfg)
    ensures Reaches(cfg, INITIAL, run, w)
    ensures !w.free && w.threads == map[0 := Thread(FIRST, Leased), 1 := Thread(SECOND, Cancelled(1))]
    ensures w.shared == EMPTY.(running := map["first" := 1], queued := map["second" := 1], interactive := [1], nextId := 1)
  {
    run, w := SecondQueues(cfg);
    OneMore(cfg, INITIAL, run, w, Step(1));
    run, w := run + [Step(1)], Apply(cfg, w, Step(1));
    OneMore(cfg, INITIAL, run, w, Step(1));
    run, w := run + [Step(1)], Apply(cfg, w, Step(1));
    assert PcAt(w, 1) == CheckFront(1);
    OneMore(cfg, INITIAL, run, w, Step(1));
    run, w := run + [Step(1)], Apply(cfg, w, Step(1));
    OneMore(cfg, INITIAL, run, w, Step(1));
    run, w := run + [Step(1)], Apply(cfg, w, Step(1));
    assert PcAt(w, 1) == Pause(1);
    OneMore(cfg, INITIAL, run, w, Step(1));
    run, w := run + [Step(1)], Apply(cfg, w, Step(1));
    OneMore(cfg, INITIAL, run, w, Cancel(1));
    run, w := run + [Cancel(1)], Apply(cfg, w, Cancel(1));
  }

  /** Without the hypothesis on cancellation the wakeup guarantee fails: the permit is free, the queue is not empty, and nothing moves. */
  lemma CancelledHeadStalls(cfg: Config) returns (run: seq<Action>)
    requires Roomy(cfg)
    ensures Runs(cfg, INITIAL, run)
    ensures var w := Exec(cfg, INITIAL, run); w.free && Head(w.shared).Some? && Quiet(w)
  {
    var w;
    run, w := SecondIsCancelled(cfg);
    OneMore(cfg, INITIAL, run, w, DropLease(0, 0));
    run, w := run + [DropLease(0, 0)], Apply(cfg, w, DropLease(0, 0));
    OneMore(cfg, INITIAL, run, w, Step(0));
    run, w := run + [Step(0)], Apply(cfg, w, Step(0));
    OneMore(cfg, INITIAL, run, w, Step(0));
    run, w := run + [Step(0)], Apply(cfg, w, Step(0));
    OneMore(cfg, INITIAL, run, w, Step(0));
    run, w := run + [Step(0)], Apply(cfg, w, Step(0));
  }
}
